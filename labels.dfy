/** The analysis dashboard's shared label table and helpers: the retailer
    labels, `pct` and `countBy`. A counts dictionary is modelled as a list of
    (key, count) entries in insertion order, as a JavaScript object keeps its
    string keys. */
module Labels {
  import opened Common
  import Constants

  /** The dashboard's own copy of the retailer codes. */
  const LABEL_RETAILERS: seq<string> := [
    "fareway", "hyvee", "kroger", "aldi", "walmart", "costco", "meijer",
    "target", "wholefoods", "traderjoes", "samsclub", "pricechopper", "schnucks", "savealot", "other"]

  const RETAILER_LABELS: map<string, string> := map[
    "fareway" := "Fareway", "hyvee" := "Hy-Vee", "kroger" := "Kroger", "aldi" := "Aldi",
    "walmart" := "Walmart", "costco" := "Costco", "meijer" := "Meijer", "target" := "Target",
    "wholefoods" := "Whole Foods", "traderjoes" := "Trader Joe's", "samsclub" := "Sam's Club",
    "pricechopper" := "Price Chopper", "schnucks" := "Schnucks", "savealot" := "Save-A-Lot", "other" := "Other"]

  /** The funnel stage names, for the values 1 to 6 in order. */
  const FUNNEL_STAGE_LABELS: seq<string> := [
    "Not Aware", "Aware, Not Considered", "Considered, Not Shopped",
    "Shopped (not 12mo)", "Shopped 12mo (not 3mo)", "Shopped Last 3mo"]

  /** `labels ? (labels[val] || val) : val`: the label a table gives a
      value, the value itself when there is no table or no non-empty label. */
  function LabelFor(labels: Option<map<string, string>>, val: string): (r: string)
    ensures r == val || (labels.Some? && val in labels.value && r == labels.value[val] && r != "")
  {
    if labels.Some? && val in labels.value && labels.value[val] != "" then labels.value[val] else val
  }

  /** `RETAILER_LABELS[code] || code` */
  function RetailerLabel(code: string): string
  {
    LabelFor(Some(RETAILER_LABELS), code)
  }

  /** The dashboard's retailer list is the survey's catalogue, and every code
      in it has a label. */
  lemma RetailerLabelsCover()
    ensures LABEL_RETAILERS == Constants.RetailerCodes()
    ensures forall c :: c in LABEL_RETAILERS ==> c in RETAILER_LABELS
  {
    Constants.RetailersShape();
    assert Constants.RetailerCodes() == [
      "fareway", "hyvee", "kroger", "aldi", "walmart", "costco", "meijer",
      "target", "wholefoods", "traderjoes", "samsclub", "pricechopper", "schnucks", "savealot", "other"];
  }

  // ---------------------------------------------------------------------------
  // pct

  /** `n / total * 100` in tenths, rounded to the nearest tenth with halves up. */
  function Tenths(n: nat, total: nat): (t: nat)
    requires total > 0
    ensures 2 * t * total <= 2000 * n + total < 2 * t * total + 2 * total
  {
    (2000 * n + total) / (2 * total)
  }

  /** `pct(n, total)`: the percentage with one decimal, and '0.0' for a zero total. */
  function Pct(n: nat, total: nat): (s: string)
  {
    if total == 0 then "0.0"
    else
      var t := Tenths(n, total);
      NatToString(t / 10) + "." + [DigitChar(t % 10)]
  }

  /** A zero total gives '0.0' instead of a division by zero; no count gives
      0.0 and a full count 100.0. */
  lemma PctGuards(n: nat, total: nat)
    ensures Pct(n, 0) == "0.0"
    ensures total > 0 ==> Pct(0, total) == "0.0"
    ensures total > 0 ==> Pct(total, total) == "100.0"
  {
    if total > 0 {
      DivideExactly(0, total, 2 * total);
      DivideExactly(1000, total, 2 * total);
      assert 2000 * total + total == 1000 * (2 * total) + total;
      assert NatToString(100) == "100" by {
        assert NatToString(10) == "10";
      }
    }
  }

  lemma DivideExactly(q: nat, r: nat, d: nat)
    requires r < d
    ensures (q * d + r) / d == q
  {
    var x := q * d + r;
    var k := q - x / d;
    assert x == (x / d) * d + x % d;
    assert k * d == x % d - r;
  }

  // ---------------------------------------------------------------------------
  // countBy

  datatype Entry = Entry(key: string, count: nat)

  function KeysOf(es: seq<Entry>): (ks: seq<string>)
    ensures |ks| == |es| && forall i :: 0 <= i < |es| ==> ks[i] == es[i].key
  {
    seq(|es|, i requires 0 <= i < |es| => es[i].key)
  }

  /** `counts[key] = (counts[key] || 0) + 1` */
  function Add(es: seq<Entry>, key: string): (r: seq<Entry>)
    ensures KeysOf(r) == if key in KeysOf(es) then KeysOf(es) else KeysOf(es) + [key]
  {
    if es == [] then [Entry(key, 1)]
    else if es[0].key == key then [Entry(key, es[0].count + 1)] + es[1..]
    else
      assert KeysOf(es) == [es[0].key] + KeysOf(es[1..]);
      var r := [es[0]] + Add(es[1..], key);
      assert KeysOf(r) == [es[0].key] + KeysOf(Add(es[1..], key));
      r
  }

  /** The count stored under a key, 0 when there is none. */
  function CountOf(es: seq<Entry>, key: string): nat
  {
    if es == [] then 0 else if es[0].key == key then es[0].count else CountOf(es[1..], key)
  }

  /** The sum of all counts. */
  function Total(es: seq<Entry>): nat
  {
    if es == [] then 0 else es[0].count + Total(es[1..])
  }

  predicate AllPositive(es: seq<Entry>)
  {
    forall i :: 0 <= i < |es| ==> es[i].count >= 1
  }

  /** Adding one key raises that key's count by one, leaves the others,
      raises the total by one and keeps every count positive. */
  lemma {:induction false} AddCounts(es: seq<Entry>, key: string, other: string)
    ensures CountOf(Add(es, key), other) == CountOf(es, other) + (if other == key then 1 else 0)
    ensures Total(Add(es, key)) == Total(es) + 1
    ensures AllPositive(es) ==> AllPositive(Add(es, key))
  {
    if es != [] && es[0].key != key {
      AddCounts(es[1..], key, other);
      assert Add(es, key)[1..] == Add(es[1..], key);
    }
  }

  /** The field value `countBy` counts: not undefined, null or ''. */
  predicate NonBlank(v: Option<Value>)
  {
    v.Some? && v.value != Null && v.value != Str("")
  }

  /** The counts `countBy(rows, field)` builds, row by row. */
  function CountBySpec(rows: seq<Record>, field: string): seq<Entry>
    decreases |rows|
  {
    if rows == [] then []
    else
      var prev := CountBySpec(rows[..|rows| - 1], field);
      var v := Get(rows[|rows| - 1], field);
      if NonBlank(v) then Add(prev, JsString(v)) else prev
  }

  /** The number of rows whose field is non-blank and reads as `key`. */
  function Occurrences(rows: seq<Record>, field: string, key: string): nat
  {
    if rows == [] then 0
    else
      var v := Get(rows[0], field);
      (if NonBlank(v) && JsString(v) == key then 1 else 0) + Occurrences(rows[1..], field, key)
  }

  /** The number of rows whose field is non-blank. */
  function NonBlankCount(rows: seq<Record>, field: string): nat
  {
    if rows == [] then 0 else (if NonBlank(Get(rows[0], field)) then 1 else 0) + NonBlankCount(rows[1..], field)
  }

  lemma {:induction false} OccurrencesSnoc(rows: seq<Record>, r: Record, field: string, key: string)
    ensures Occurrences(rows + [r], field, key) ==
            Occurrences(rows, field, key) + (if NonBlank(Get(r, field)) && JsString(Get(r, field)) == key then 1 else 0)
    ensures NonBlankCount(rows + [r], field) == NonBlankCount(rows, field) + (if NonBlank(Get(r, field)) then 1 else 0)
  {
    if rows != [] {
      assert (rows + [r])[1..] == rows[1..] + [r];
      OccurrencesSnoc(rows[1..], r, field, key);
    }
  }

  /** What `countBy` means: each bucket holds the number of rows whose field
      reads as its key (so 1 and '1' share a bucket), blank fields are
      skipped, the counts add up to the number of non-blank rows, and every
      bucket present has a count of at least one. */
  lemma {:induction false} CountByMeaning(rows: seq<Record>, field: string, key: string)
    ensures CountOf(CountBySpec(rows, field), key) == Occurrences(rows, field, key)
    ensures Total(CountBySpec(rows, field)) == NonBlankCount(rows, field)
    ensures AllPositive(CountBySpec(rows, field))
    decreases |rows|
  {
    if rows != [] {
      var init := rows[..|rows| - 1];
      var last := rows[|rows| - 1];
      CountByMeaning(init, field, key);
      assert rows == init + [last];
      OccurrencesSnoc(init, last, field, key);
      var v := Get(last, field);
      if NonBlank(v) {
        AddCounts(CountBySpec(init, field), JsString(v), key);
      }
    }
  }

  /** The number 1 and the string '1' land in the same bucket. */
  lemma NumberAndStringShareBucket(field: string)
    ensures CountBySpec([map[field := Num(1)], map[field := Str("1")]], field) == [Entry("1", 2)]
  {
    var rows := [map[field := Num(1)], map[field := Str("1")]];
    assert JsString(Some(Num(1))) == "1" by {
      assert NatToString(1) == "1";
    }
    assert Get(rows[0], field) == Some(Num(1));
    assert Get(rows[1], field) == Some(Str("1"));
    assert rows[..1][..0] == [];
    assert CountBySpec(rows[..1], field) == Add([], "1");
    assert Add([Entry("1", 1)], "1") == [Entry("1", 2)];
  }

  /** `countBy(rows, field)`: one pass over the rows, adding each non-blank
      value's string form to the counts. */
  method CountBy(rows: seq<Record>, field: string) returns (counts: seq<Entry>)
    ensures counts == CountBySpec(rows, field)
  {
    counts := [];
    var i := 0;
    while i < |rows|
      invariant 0 <= i <= |rows|
      invariant counts == CountBySpec(rows[..i], field)
    {
      assert rows[..i + 1][..i] == rows[..i];
      var v := Get(rows[i], field);
      if NonBlank(v) {
        counts := Add(counts, JsString(v));
      }
      i := i + 1;
    }
    assert rows[..|rows|] == rows;
  }
}
