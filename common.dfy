/** Shared vocabulary: optional values, the JSON-like field values a respondent
    record holds, and the few JavaScript string and number conversions that the
    survey's TypeScript relies on. A string is a sequence of Unicode scalar
    values (Dafny `char`), not of UTF-16 code units. */
module Common {

  datatype Option<T> = None | Some(value: T)

  /** A computation that either yields a value or fails with a message,
      standing for a thrown `Error`. */
  datatype Result<T> = Ok(value: T) | Err(msg: string)

  /** A field value as the record store and the browser exchange it.
      A key that is absent from a record plays the part of `undefined`. */
  datatype Value = Null | Num(n: int) | Str(s: string) | Bool(b: bool)

  type Record = map<string, Value>

  /** No element occurs twice. */
  predicate Distinct<T(==)>(s: seq<T>)
  {
    forall i, j :: 0 <= i < j < |s| ==> s[i] != s[j]
  }

  /** `xs.filter(v => v !== x)`: every other element, in order. */
  function Without<T(==)>(xs: seq<T>, x: T): (r: seq<T>)
    ensures x !in r
    ensures forall s :: s in r ==> s in xs && s != x
    ensures forall s :: s in xs && s != x ==> s in r
    ensures |r| <= |xs|
    ensures x in xs ==> |r| < |xs|
    ensures x !in xs ==> r == xs
    ensures Distinct(xs) ==> Distinct(r)
  {
    if xs == [] then []
    else if xs[0] == x then Without(xs[1..], x)
    else
      var rest := Without(xs[1..], x);
      assert forall i :: 0 <= i < |rest| ==> rest[i] in xs[1..];
      [xs[0]] + rest
  }

  /** Filtering out an element just appended gives back the list. */
  lemma {:induction false} WithoutLast<T>(xs: seq<T>, x: T)
    requires x !in xs
    ensures Without(xs + [x], x) == xs
  {
    if xs == [] {
      assert [x][1..] == [];
    } else {
      assert (xs + [x])[1..] == xs[1..] + [x];
      WithoutLast(xs[1..], x);
      assert xs == [xs[0]] + xs[1..];
    }
  }

  /** `xs` is `ys` with some elements left out, the rest in order. */
  predicate SubsequenceOf<T(==)>(xs: seq<T>, ys: seq<T>)
    decreases |ys|
  {
    if ys == [] then xs == []
    else (xs != [] && xs[0] == ys[0] && SubsequenceOf(xs[1..], ys[1..])) || SubsequenceOf(xs, ys[1..])
  }

  /** JavaScript truthiness of a present value (`undefined` is modelled by absence). */
  predicate Truthy(v: Value)
  {
    match v
    case Null => false
    case Num(n) => n != 0
    case Str(s) => s != ""
    case Bool(b) => b
  }

  /** Truthiness of a record field, `undefined` included. */
  predicate FieldTruthy(r: Record, key: string)
  {
    key in r && Truthy(r[key])
  }

  /** `v != null` in JavaScript: neither `null` nor `undefined`. */
  predicate Present(o: Option<Value>)
  {
    o.Some? && o.value != Null
  }

  function Get(r: Record, key: string): Option<Value>
  {
    if key in r then Some(r[key]) else None
  }

  function OptNum(o: Option<int>): Value
  {
    if o.Some? then Num(o.value) else Null
  }

  function OptStr(o: Option<string>): Value
  {
    if o.Some? then Str(o.value) else Null
  }

  // ---------------------------------------------------------------------------
  // Decimal rendering, as `String(n)` and template literals produce it.

  function DigitChar(d: nat): (c: char)
    requires d < 10
    ensures '0' <= c <= '9'
  {
    ('0' as int + d) as char
  }

  function NatToString(n: nat): (s: string)
    ensures |s| >= 1
    ensures forall i :: 0 <= i < |s| ==> '0' <= s[i] <= '9'
  {
    if n < 10 then [DigitChar(n)] else NatToString(n / 10) + [DigitChar(n % 10)]
  }

  function IntToString(i: int): string
  {
    if i < 0 then "-" + NatToString(-i) else NatToString(i)
  }

  /** `String(v)` for a field read from a record; an absent key reads `undefined`. */
  function JsString(o: Option<Value>): string
  {
    match o
    case None => "undefined"
    case Some(Null) => "null"
    case Some(Num(n)) => IntToString(n)
    case Some(Str(s)) => s
    case Some(Bool(b)) => if b then "true" else "false"
  }

  // ---------------------------------------------------------------------------
  // Whitespace trimming, as `String.prototype.trim` does: the WhiteSpace and
  // LineTerminator characters of ECMA-262, that is tab,
  // vertical tab, form feed, space, no-break space, the byte order mark, the
  // Unicode space separators (category Zs) and the four line terminators.

  predicate IsJsSpace(c: char)
  {
    c == ' ' || c == '\t' || c == '\n' || c == '\r' || c == '\U{000B}' || c == '\U{000C}'
    || c == '\U{00A0}' || c == '\U{FEFF}' || c == '\U{2028}' || c == '\U{2029}'
    || c == '\U{1680}' || ('\U{2000}' <= c <= '\U{200A}') || c == '\U{202F}' || c == '\U{205F}'
    || c == '\U{3000}'
  }

  function TrimStart(s: string): (r: string)
    ensures |r| <= |s| && r == s[|s| - |r|..]
    ensures r == [] || !IsJsSpace(r[0])
    ensures forall i :: 0 <= i < |s| - |r| ==> IsJsSpace(s[i])
  {
    if s != [] && IsJsSpace(s[0]) then TrimStart(s[1..]) else s
  }

  function TrimEnd(s: string): (r: string)
    ensures |r| <= |s| && r == s[..|r|]
    ensures r == [] || !IsJsSpace(r[|r| - 1])
    ensures forall i :: |r| <= i < |s| ==> IsJsSpace(s[i])
  {
    if s != [] && IsJsSpace(s[|s| - 1]) then TrimEnd(s[..|s| - 1]) else s
  }

  /** `s.trim()`: the text between the leading and the trailing white space,
      kept as it is. */
  function Trim(s: string): (r: string)
    ensures |r| <= |s|
    ensures r == [] || (!IsJsSpace(r[0]) && !IsJsSpace(r[|r| - 1]))
  {
    TrimEnd(TrimStart(s))
  }

  /** Trimming keeps a contiguous slice of the text and cuts off only white
      space: everything before and after the slice is white space. */
  lemma TrimIsSlice(s: string)
    ensures exists a, b :: 0 <= a <= b <= |s| && Trim(s) == s[a..b] &&
              (forall i :: 0 <= i < a ==> IsJsSpace(s[i])) && (forall i :: b <= i < |s| ==> IsJsSpace(s[i]))
  {
    TrimSlice(s);
    var a := |s| - |TrimStart(s)|;
    assert 0 <= a <= a + |Trim(s)| <= |s| && Trim(s) == s[a..a + |Trim(s)|];
  }

  /** The cut points of `TrimIsSlice`: the leading white space that
      `TrimStart` drops, and what `TrimEnd` leaves of the rest. */
  lemma TrimSlice(s: string)
    ensures var t := TrimStart(s);
            var r := TrimEnd(t);
            var a := |s| - |t|;
            r == s[a..a + |r|] &&
            (forall i :: 0 <= i < a ==> IsJsSpace(s[i])) &&
            (forall i :: a + |r| <= i < |s| ==> IsJsSpace(s[i]))
  {
    TrimMiddle(s);
    TrimTail(s);
  }

  lemma TrimMiddle(s: string)
    ensures var t := TrimStart(s);
            var r := TrimEnd(t);
            var a := |s| - |t|;
            r == s[a..a + |r|]
  {
    var t := TrimStart(s);
    var r := TrimEnd(t);
    PrefixOfSuffix(s, |s| - |t|, |r|);
  }

  lemma PrefixOfSuffix<T>(s: seq<T>, a: nat, n: nat)
    requires a + n <= |s|
    ensures s[a..][..n] == s[a..a + n]
  {
  }

  lemma TrimTail(s: string)
    ensures var t := TrimStart(s);
            var r := TrimEnd(t);
            var a := |s| - |t|;
            forall i :: a + |r| <= i < |s| ==> IsJsSpace(s[i])
  {
    var t := TrimStart(s);
    var r := TrimEnd(t);
    var a := |s| - |t|;
    forall i | a + |r| <= i < |s| ensures IsJsSpace(s[i]) {
      assert s[i] == t[i - a];
    }
  }

  /** `Number(v)` restricted to integers: `None` stands for NaN.
      `null`, `false` and blank strings give 0; a string that is an optionally
      signed run of decimal digits (after trimming) gives its value. Other
      spellings that JavaScript reads as whole numbers, such as "1.0", "1e1"
      or "0x10", are read as NaN here; the survey's inputs and columns hold
      plain digits. */
  function ToNumber(o: Option<Value>): Option<int>
  {
    match o
    case None => None
    case Some(Null) => Some(0)
    case Some(Num(n)) => Some(n)
    case Some(Bool(b)) => Some(if b then 1 else 0)
    case Some(Str(s)) => ParseInt(Trim(s))
  }

  predicate AllDigits(s: string)
  {
    forall i :: 0 <= i < |s| ==> '0' <= s[i] <= '9'
  }

  function DigitsValue(s: string): nat
    requires AllDigits(s)
  {
    if s == [] then 0 else DigitsValue(s[..|s| - 1]) * 10 + (s[|s| - 1] as int - '0' as int)
  }

  function ParseInt(t: string): Option<int>
  {
    if t == [] then Some(0)
    else if t[0] == '-' && |t| > 1 && AllDigits(t[1..]) then Some(0 - DigitsValue(t[1..]) as int)
    else if t[0] == '+' && |t| > 1 && AllDigits(t[1..]) then Some(DigitsValue(t[1..]))
    else if AllDigits(t) then Some(DigitsValue(t))
    else None
  }

  lemma {:induction false} DigitsOfNat(n: nat)
    ensures AllDigits(NatToString(n)) && DigitsValue(NatToString(n)) == n
  {
    if n >= 10 {
      var q, d := n / 10, n % 10;
      assert n == q * 10 + d;
      var p := NatToString(q);
      var s := p + [DigitChar(d)];
      assert NatToString(n) == s;
      DigitsOfNat(q);
      assert s[..|s| - 1] == p;
    }
  }

  /** Reading back what `String(n)` wrote gives `n` again. */
  lemma IntToStringRoundTrip(i: int)
    ensures ParseInt(IntToString(i)) == Some(i)
  {
    DigitsOfNat(if i < 0 then -i else i);
    var s := IntToString(i);
    assert s != [] && !IsJsSpace(s[0]);
    if i < 0 {
      assert s[1..] == NatToString(-i);
    }
  }
}
