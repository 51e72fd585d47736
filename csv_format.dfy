/** CSV text as the analysis export writes it: `escapeCsv` quotes a field that
    holds a comma, a double quote or a line feed, doubling its inner quotes
    (section 2 of RFC 4180, rules 6 and 7), and `toCsvString` joins the fields
    of a record with commas and the records with line feeds. A reader for
    that format is defined alongside, and reading back what was written gives
    the original fields. */
module CsvFormat {
  import opened Common

  /** A cell of a CSV row: a string or a number. */
  datatype Cell = Text(s: string) | Number(n: int)

  /** `String(val)` */
  function CellString(c: Cell): string
  {
    match c
    case Text(s) => s
    case Number(n) => IntToString(n)
  }

  predicate NeedsQuotes(s: string)
  {
    ',' in s || '"' in s || '\n' in s
  }

  /** `s.replace(/"/g, '""')` */
  function DoubleQuotes(s: string): (r: string)
    ensures |r| >= |s|
  {
    if s == [] then []
    else if s[0] == '"' then "\"\"" + DoubleQuotes(s[1..])
    else [s[0]] + DoubleQuotes(s[1..])
  }

  /** `escapeCsv(val)` on the string form of a cell. */
  function EscapeCsv(s: string): (r: string)
    ensures !NeedsQuotes(s) ==> r == s
    ensures NeedsQuotes(s) ==> |r| >= 2 && r[0] == '"' && r[|r| - 1] == '"'
  {
    if NeedsQuotes(s) then "\"" + DoubleQuotes(s) + "\"" else s
  }

  /** `fields.map(escapeCsv).join(',')` */
  function RecordLine(fields: seq<string>): string
  {
    if fields == [] then ""
    else if |fields| == 1 then EscapeCsv(fields[0])
    else EscapeCsv(fields[0]) + "," + RecordLine(fields[1..])
  }

  function CellStrings(row: seq<Cell>): (r: seq<string>)
    ensures |r| == |row| && forall i :: 0 <= i < |row| ==> r[i] == CellString(row[i])
  {
    seq(|row|, i requires 0 <= i < |row| => CellString(row[i]))
  }

  /** `lines.join('\n')` */
  function JoinLines(lines: seq<string>): string
  {
    if lines == [] then ""
    else if |lines| == 1 then lines[0]
    else lines[0] + "\n" + JoinLines(lines[1..])
  }

  function RecordLines(records: seq<seq<string>>): (r: seq<string>)
    ensures |r| == |records| && forall i :: 0 <= i < |records| ==> r[i] == RecordLine(records[i])
  {
    seq(|records|, i requires 0 <= i < |records| => RecordLine(records[i]))
  }

  /** The header and the rows as string records. */
  function Records(headers: seq<string>, rows: seq<seq<Cell>>): (r: seq<seq<string>>)
    ensures |r| == |rows| + 1 && r[0] == headers
    ensures forall i :: 0 <= i < |rows| ==> r[i + 1] == CellStrings(rows[i])
  {
    [headers] + seq(|rows|, i requires 0 <= i < |rows| => CellStrings(rows[i]))
  }

  /** `toCsvString(headers, rows)`: the header record, then one record per row. */
  function ToCsvString(headers: seq<string>, rows: seq<seq<Cell>>): string
  {
    JoinLines(RecordLines(Records(headers, rows)))
  }

  // ---------------------------------------------------------------------------
  // Reading CSV back.

  /** Reads the body of a quoted field, just after its opening quote: a pair
      of quotes stands for one, and a single quote ends the field. */
  function ReadQuoted(s: string): (r: (string, string))
    ensures |r.1| <= |s|
  {
    if s == [] then ("", "")
    else if s[0] == '"' then
      if |s| > 1 && s[1] == '"' then
        var (body, rest) := ReadQuoted(s[2..]);
        ("\"" + body, rest)
      else ("", s[1..])
    else
      var (body, rest) := ReadQuoted(s[1..]);
      ([s[0]] + body, rest)
  }

  /** Reads an unquoted field, up to the next comma or line feed. */
  function ReadPlain(s: string): (r: (string, string))
    ensures |r.1| <= |s|
  {
    if s == [] || s[0] == ',' || s[0] == '\n' then ("", s)
    else
      var (field, rest) := ReadPlain(s[1..]);
      ([s[0]] + field, rest)
  }

  function ReadField(s: string): (r: (string, string))
    ensures |r.1| <= |s|
  {
    if |s| > 0 && s[0] == '"' then ReadQuoted(s[1..]) else ReadPlain(s)
  }

  /** Reads the fields of one record, stopping at a line feed or the end. */
  function ReadRecord(s: string): (r: (seq<string>, string))
    ensures |r.1| <= |s|
    decreases |s|
  {
    var (field, rest) := ReadField(s);
    if |rest| > 0 && rest[0] == ',' then
      var (fields, rest') := ReadRecord(rest[1..]);
      ([field] + fields, rest')
    else ([field], rest)
  }

  /** Reads every record of a CSV text. */
  function ReadCsv(s: string): seq<seq<string>>
    decreases |s|
  {
    var (fields, rest) := ReadRecord(s);
    if |rest| > 0 && rest[0] == '\n' then [fields] + ReadCsv(rest[1..]) else [fields]
  }

  /** What may follow a field: the end, a comma or a line feed. */
  predicate FieldEnd(rest: string)
  {
    rest == [] || rest[0] == ',' || rest[0] == '\n'
  }

  lemma ReadQuotedPair(t: string)
    ensures ReadQuoted("\"\"" + t) == ("\"" + ReadQuoted(t).0, ReadQuoted(t).1)
  {
    assert ("\"\"" + t)[2..] == t;
  }

  lemma ReadQuotedChar(c: char, t: string)
    requires c != '"'
    ensures ReadQuoted([c] + t) == ([c] + ReadQuoted(t).0, ReadQuoted(t).1)
  {
    assert ([c] + t)[1..] == t;
  }

  lemma DoubledTail(x: string, rest: string)
    requires x != []
    ensures DoubleQuotes(x) + "\"" + rest ==
            (if x[0] == '"' then "\"\"" else [x[0]]) + (DoubleQuotes(x[1..]) + "\"" + rest)
  {
  }

  /** One step of reading a doubled text: its first character comes back. */
  lemma ReadQuotedStep(x: string, rest: string)
    requires x != []
    requires ReadQuoted(DoubleQuotes(x[1..]) + "\"" + rest) == (x[1..], rest)
    ensures ReadQuoted(DoubleQuotes(x) + "\"" + rest) == (x, rest)
  {
    var t := DoubleQuotes(x[1..]) + "\"" + rest;
    DoubledTail(x, rest);
    if x[0] == '"' {
      ReadQuotedPair(t);
    } else {
      ReadQuotedChar(x[0], t);
    }
    assert x == [x[0]] + x[1..];
  }

  lemma {:induction false} ReadQuotedDoubled(x: string, rest: string)
    requires rest == [] || rest[0] != '"'
    ensures ReadQuoted(DoubleQuotes(x) + "\"" + rest) == (x, rest)
    decreases |x|
  {
    if x != [] {
      ReadQuotedDoubled(x[1..], rest);
      ReadQuotedStep(x, rest);
    } else {
      assert DoubleQuotes(x) + "\"" + rest == "\"" + rest;
    }
  }

  lemma {:induction false} ReadPlainOf(x: string, rest: string)
    requires ',' !in x && '\n' !in x && FieldEnd(rest)
    ensures ReadPlain(x + rest) == (x, rest)
    decreases |x|
  {
    if x != [] {
      assert (x + rest)[1..] == x[1..] + rest;
      assert (x + rest)[0] == x[0] && x[0] != ',' && x[0] != '\n';
      ReadPlainOf(x[1..], rest);
      assert x == [x[0]] + x[1..];
    } else {
      assert x + rest == rest;
    }
  }

  /** One escaped field reads back as itself, whatever it contains. */
  lemma FieldRoundTrip(x: string, rest: string)
    requires FieldEnd(rest)
    ensures ReadField(EscapeCsv(x) + rest) == (x, rest)
  {
    if NeedsQuotes(x) {
      QuotedFieldRoundTrip(x, rest);
    } else {
      PlainFieldRoundTrip(x, rest);
    }
  }

  lemma QuotedFieldRoundTrip(x: string, rest: string)
    requires NeedsQuotes(x) && FieldEnd(rest)
    ensures ReadField(EscapeCsv(x) + rest) == (x, rest)
  {
    var s := "\"" + (DoubleQuotes(x) + "\"" + rest);
    assert EscapeCsv(x) + rest == s;
    assert s[1..] == DoubleQuotes(x) + "\"" + rest;
    ReadQuotedDoubled(x, rest);
  }

  lemma PlainFieldRoundTrip(x: string, rest: string)
    requires !NeedsQuotes(x) && FieldEnd(rest)
    ensures ReadField(EscapeCsv(x) + rest) == (x, rest)
  {
    ReadPlainOf(x, rest);
    if x == [] {
      assert EscapeCsv(x) + rest == rest;
    } else {
      assert (EscapeCsv(x) + rest)[0] == x[0];
    }
  }

  /** A non-empty record reads back as its fields. */
  lemma {:induction false} RecordRoundTrip(fields: seq<string>, rest: string)
    requires |fields| > 0 && (rest == [] || rest[0] == '\n')
    ensures ReadRecord(RecordLine(fields) + rest) == (fields, rest)
    decreases |fields|
  {
    if |fields| == 1 {
      FieldRoundTrip(fields[0], rest);
      assert fields == [fields[0]];
    } else {
      var tail := RecordLine(fields[1..]) + rest;
      assert RecordLine(fields) + rest == EscapeCsv(fields[0]) + ("," + tail);
      FieldRoundTrip(fields[0], "," + tail);
      assert ("," + tail)[1..] == tail;
      RecordRoundTrip(fields[1..], rest);
      assert fields == [fields[0]] + fields[1..];
    }
  }

  /** Records with at least one field each read back exactly: the CSV text
      loses nothing and invents nothing. */
  lemma {:induction false} CsvRoundTrip(records: seq<seq<string>>)
    requires |records| > 0 && forall i :: 0 <= i < |records| ==> |records[i]| > 0
    ensures ReadCsv(JoinLines(RecordLines(records))) == records
    decreases |records|
  {
    var lines := RecordLines(records);
    if |records| == 1 {
      assert RecordLine(records[0]) + "" == RecordLine(records[0]);
      RecordRoundTrip(records[0], "");
    } else {
      var tail := JoinLines(lines[1..]);
      assert lines[1..] == RecordLines(records[1..]);
      assert JoinLines(lines) == RecordLine(records[0]) + ("\n" + tail);
      RecordRoundTrip(records[0], "\n" + tail);
      assert ("\n" + tail)[1..] == tail;
      CsvRoundTrip(records[1..]);
      assert records == [records[0]] + records[1..];
    }
  }

  /** A table exported by `toCsvString` reads back as its header followed by
      the string form of each row, in order. */
  lemma ToCsvStringRoundTrip(headers: seq<string>, rows: seq<seq<Cell>>)
    requires |headers| > 0 && forall i :: 0 <= i < |rows| ==> |rows[i]| > 0
    ensures ReadCsv(ToCsvString(headers, rows)) == Records(headers, rows)
  {
    var recs := Records(headers, rows);
    forall i | 0 <= i < |recs| ensures |recs[i]| > 0 {
      if i > 0 {
        assert recs[i] == CellStrings(rows[i - 1]);
      }
    }
    CsvRoundTrip(recs);
  }
}
