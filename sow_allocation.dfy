/** The share-of-wallet widget: percentages per store that must add up to
    100. The values object is modelled as its entries in insertion order,
    one per store code. */
module SowAllocation {
  import opened Common

  datatype Share = Share(code: string, percent: int)

  /** A JavaScript object has each key once. */
  predicate UniqueCodes(values: seq<Share>)
  {
    forall i, j :: 0 <= i < j < |values| ==> values[i].code != values[j].code
  }

  /** `values[code]`, None when the store has no entry. */
  function Lookup(values: seq<Share>, code: string): Option<int>
  {
    if values == [] then None
    else if values[0].code == code then Some(values[0].percent)
    else Lookup(values[1..], code)
  }

  /** `Math.max(0, Math.min(100, isNaN(val) ? 0 : val))`, with None for NaN. */
  function Clamp(val: Option<int>): (c: int)
    ensures 0 <= c <= 100
    ensures val.Some? && 0 <= val.value <= 100 ==> c == val.value
    ensures val.None? || val.value <= 0 ==> c == 0
    ensures val.Some? && val.value >= 100 ==> c == 100
  {
    if val.None? then 0
    else if val.value > 100 then 100
    else if val.value < 0 then 0
    else val.value
  }

  /** `{ ...values, [code]: v }`: the entry is replaced where it stands, or
      appended when the store had none. */
  function Put(values: seq<Share>, code: string, v: int): (r: seq<Share>)
    ensures Lookup(r, code) == Some(v)
    ensures forall c :: c != code ==> Lookup(r, c) == Lookup(values, c)
    ensures UniqueCodes(values) ==> UniqueCodes(r)
    ensures forall i :: 0 <= i < |r| ==> r[i].code == code || r[i] in values
  {
    if values == [] then [Share(code, v)]
    else if values[0].code == code then [Share(code, v)] + values[1..]
    else
      var rest := Put(values[1..], code, v);
      assert forall i :: 0 <= i < |rest| ==> rest[i].code == code || rest[i] in values[1..];
      [values[0]] + rest
  }

  /** `handleChange(code, val)`: the new values handed to `onChange`. */
  function HandleChange(values: seq<Share>, code: string, val: Option<int>): (r: seq<Share>)
    ensures Lookup(r, code) == Some(Clamp(val))
    ensures forall c :: c != code ==> Lookup(r, c) == Lookup(values, c)
    ensures UniqueCodes(values) ==> UniqueCodes(r)
  {
    Put(values, code, Clamp(val))
  }

  /** `v || 0` for a number. */
  function OrZero(v: Option<int>): int
  {
    if v.Some? then v.value else 0
  }

  /** `Object.values(values).reduce((sum, v) => sum + (v || 0), 0)` */
  function Total(values: seq<Share>): int
  {
    if values == [] then 0 else values[0].percent + Total(values[1..])
  }

  /** A change moves the total by exactly the difference at that store. */
  lemma {:induction false} ChangeMovesTotal(values: seq<Share>, code: string, val: Option<int>)
    requires UniqueCodes(values)
    ensures Total(HandleChange(values, code, val)) == Total(values) - OrZero(Lookup(values, code)) + Clamp(val)
  {
    PutTotal(values, code, Clamp(val));
  }

  lemma {:induction false} PutTotal(values: seq<Share>, code: string, v: int)
    requires UniqueCodes(values)
    ensures Total(Put(values, code, v)) == Total(values) - OrZero(Lookup(values, code)) + v
  {
    if values != [] && values[0].code != code {
      PutTotal(values[1..], code, v);
    }
  }

  /** `isValid = total === 100` */
  predicate IsValid(values: seq<Share>)
  {
    Total(values) == 100
  }

  datatype Hint = Remaining(n: int) | Over(n: int)

  /** The hint under the total bar: shown only for a total strictly between
      0 and 100 or above 100. */
  function TotalHint(total: int): (h: Option<Hint>)
    ensures h.None? <==> total == 100 || total <= 0
    ensures h.Some? && h.value.Remaining? ==> total + h.value.n == 100 && h.value.n > 0
    ensures h.Some? && h.value.Over? ==> total - h.value.n == 100 && h.value.n > 0
  {
    if total != 100 && total > 0 then
      Some(if total < 100 then Remaining(100 - total) else Over(total - 100))
    else None
  }

  /** Allocating a store's remaining share completes the allocation. */
  lemma FillRemainingCompletes(values: seq<Share>, code: string)
    requires UniqueCodes(values) && Lookup(values, code).None?
    requires TotalHint(Total(values)).Some? && TotalHint(Total(values)).value.Remaining?
    ensures IsValid(HandleChange(values, code, Some(TotalHint(Total(values)).value.n)))
  {
    ChangeMovesTotal(values, code, Some(TotalHint(Total(values)).value.n));
  }
}
