/** One question filter card: the chips a categorical card offers, and the
    updates a click makes to the card's filter. */
module QuestionFilterCard {
  import opened Common
  import opened AnalysisTypes
  import Labels

  // ---------------------------------------------------------------------------
  // The options of a `categorical_dynamic` card.

  /** The default `sort()` order: strings compared character by character,
      a proper prefix first. */
  predicate StrLe(a: string, b: string)
  {
    if a == [] then true
    else if b == [] then false
    else if a[0] != b[0] then a[0] < b[0]
    else StrLe(a[1..], b[1..])
  }

  lemma {:induction false} StrLeTotal(a: string, b: string)
    ensures StrLe(a, b) || StrLe(b, a)
  {
    if a != [] && b != [] && a[0] == b[0] {
      StrLeTotal(a[1..], b[1..]);
    }
  }

  /** The key `sort()` compares a value by. */
  function SortKey(v: Value): string
  {
    JsString(Some(v))
  }

  predicate SortedByString(vs: seq<Value>)
  {
    forall i :: 0 <= i < |vs| - 1 ==> StrLe(SortKey(vs[i]), SortKey(vs[i + 1]))
  }

  /** Puts `x` before the first element whose key is not below its own. */
  function Insert(x: Value, ys: seq<Value>): (r: seq<Value>)
    ensures |r| == |ys| + 1 && multiset(r) == multiset(ys) + multiset{x}
    ensures ys == [] ==> r == [x]
    ensures ys != [] ==> r[0] == x || r[0] == ys[0]
  {
    if ys == [] || StrLe(SortKey(x), SortKey(ys[0])) then [x] + ys
    else
      assert ys == [ys[0]] + ys[1..];
      [ys[0]] + Insert(x, ys[1..])
  }

  lemma {:induction false} InsertSorted(x: Value, ys: seq<Value>)
    requires SortedByString(ys)
    ensures SortedByString(Insert(x, ys))
  {
    if ys != [] && !StrLe(SortKey(x), SortKey(ys[0])) {
      StrLeTotal(SortKey(x), SortKey(ys[0]));
      InsertSorted(x, ys[1..]);
      var rest := Insert(x, ys[1..]);
      assert Insert(x, ys) == [ys[0]] + rest;
      if |ys| > 1 {
        assert rest[0] == x || rest[0] == ys[1];
      }
    }
  }

  function SortByString(vs: seq<Value>): (r: seq<Value>)
    ensures multiset(r) == multiset(vs)
  {
    if vs == [] then []
    else
      assert vs == [vs[0]] + vs[1..];
      Insert(vs[0], SortByString(vs[1..]))
  }

  lemma {:induction false} SortByStringSorted(vs: seq<Value>)
    ensures SortedByString(SortByString(vs))
  {
    if vs != [] {
      SortByStringSorted(vs[1..]);
      InsertSorted(vs[0], SortByString(vs[1..]));
    }
  }

  /** `Array.from(new Set(allData.map(r => r[field]).filter(Boolean)))`:
      each truthy value of the field once, in order of first appearance. */
  function DistinctTruthy(rows: seq<Record>, field: string, seen: seq<Value>): (r: seq<Value>)
    requires Distinct(seen)
    ensures Distinct(r) && |r| >= |seen| && r[..|seen|] == seen
    ensures forall v :: v in r <==> v in seen || exists i :: 0 <= i < |rows| && Get(rows[i], field) == Some(v) && Truthy(v)
    decreases |rows|
  {
    if rows == [] then seen
    else
      var v := Get(rows[0], field);
      var seen' := if v.Some? && Truthy(v.value) && v.value !in seen then seen + [v.value] else seen;
      var r := DistinctTruthy(rows[1..], field, seen');
      assert forall i :: 1 <= i < |rows| ==> rows[i] == rows[1..][i - 1];
      assert r[..|seen|] == r[..|seen'|][..|seen|];
      r
  }

  /** The values a dynamic card offers: every truthy value of the field in
      the data, once each, sorted as strings. */
  function DynamicValues(allData: seq<Record>, field: string): (r: seq<Value>)
    ensures forall v :: v in r <==> exists i :: 0 <= i < |allData| && Get(allData[i], field) == Some(v) && Truthy(v)
    ensures Distinct(r)
  {
    var u := DistinctTruthy(allData, field, []);
    var r := SortByString(u);
    assert forall v :: v in r <==> v in multiset(u);
    DistinctOfPermutation(u, r);
    r
  }

  lemma DistinctOfPermutation(u: seq<Value>, r: seq<Value>)
    requires Distinct(u) && multiset(u) == multiset(r)
    ensures Distinct(r)
  {
    forall i, j | 0 <= i < j < |r| ensures r[i] != r[j] {
      DistinctCount(u, r[i]);
      assert r == r[..j] + [r[j]] + r[j + 1..];
      assert r[i] in r[..j];
      assert multiset(r) == multiset(r[..j]) + multiset{r[j]} + multiset(r[j + 1..]);
    }
  }

  lemma {:induction false} DistinctCount(u: seq<Value>, x: Value)
    requires Distinct(u)
    ensures multiset(u)[x] <= 1
  {
    if u != [] {
      assert u == [u[0]] + u[1..];
      assert Distinct(u[1..]);
      DistinctCount(u[1..], x);
      assert u[0] !in u[1..];
    }
  }

  /** The dynamic options are sorted as `sort()` sorts them. */
  lemma DynamicValuesSorted(allData: seq<Record>, field: string)
    ensures SortedByString(DynamicValues(allData, field))
  {
    SortByStringSorted(DistinctTruthy(allData, field, []));
  }

  datatype ChipOption = ChipOption(v: string, text: string)

  /** `{ v: String(v), l: (labelMap && labelMap[String(v)]) || String(v) }` */
  function DynamicOptions(allData: seq<Record>, def: FilterDef): (r: seq<ChipOption>)
    ensures |r| == |DynamicValues(allData, def.field)|
    ensures forall i :: 0 <= i < |r| ==>
              r[i].v == SortKey(DynamicValues(allData, def.field)[i]) &&
              r[i].text == Labels.LabelFor(def.labelMap, r[i].v)
  {
    var vs := DynamicValues(allData, def.field);
    seq(|vs|, i requires 0 <= i < |vs| => ChipOption(SortKey(vs[i]), Labels.LabelFor(def.labelMap, SortKey(vs[i]))))
  }

  // ---------------------------------------------------------------------------
  // Clicks.

  /** A categorical chip: `{ ...qFilter, values: toggled }`. */
  function ClickChip(qf: QuestionFilter, v: string): (r: QuestionFilter)
    ensures r.values == Toggle(qf.values, v)
    ensures r == qf.(values := r.values)
  {
    qf.(values := Toggle(qf.values, v))
  }

  /** A binary option: the active one resets to null, the other is set. */
  function ClickBinary(qf: QuestionFilter, opt: string): (r: QuestionFilter)
    ensures r.binaryVal == if qf.binaryVal == Some(opt) then None else Some(opt)
    ensures r == qf.(binaryVal := r.binaryVal)
  {
    qf.(binaryVal := if qf.binaryVal == Some(opt) then None else Some(opt))
  }

  /** Clicking an unset binary option twice returns it to unset, and
      clicking the set one twice sets it again. */
  lemma ClickBinaryTwice(qf: QuestionFilter, opt: string)
    ensures qf.binaryVal != Some(opt) ==> ClickBinary(ClickBinary(qf, opt), opt) == qf.(binaryVal := None)
    ensures qf.binaryVal == Some(opt) ==> ClickBinary(ClickBinary(qf, opt), opt) == qf
  {
  }

}
