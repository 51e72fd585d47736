/** The matrix question widget: one answer per row, and on a phone the rows
    are shown in groups of `mobileGroupSize` with Prev and Next buttons. */
module MatrixQuestion {
  import opened Common

  /** `handleChange(rowCode, colValue)`: `{ ...values, [rowCode]: colValue }`. */
  function HandleChange(values: map<string, Value>, rowCode: string, colValue: int): (r: map<string, Value>)
    ensures r.Keys == values.Keys + {rowCode}
    ensures r[rowCode] == Num(colValue)
    ensures forall k :: k in values && k != rowCode ==> r[k] == values[k]
  {
    values[rowCode := Num(colValue)]
  }

  /** `Math.ceil(rows.length / mobileGroupSize)` */
  function TotalGroups(n: nat, size: nat): (g: nat)
    requires size > 0
    ensures g * size >= n && (g == 0 || (g - 1) * size < n)
  {
    (n + size - 1) / size
  }

  /** `groupStart` */
  function GroupStart(group: nat, size: nat): nat
  {
    group * size
  }

  /** `groupEnd = Math.min(groupStart + mobileGroupSize, rows.length)` */
  function GroupEnd(group: nat, size: nat, n: nat): nat
  {
    if GroupStart(group, size) + size < n then GroupStart(group, size) + size else n
  }

  /** `rows.slice(groupStart, groupEnd)`: empty when the group starts past the end. */
  function CurrentRows<T>(rows: seq<T>, group: nat, size: nat): (r: seq<T>)
    ensures GroupStart(group, size) < |rows| ==>
              r == rows[GroupStart(group, size)..GroupEnd(group, size, |rows|)]
    ensures |r| <= size
  {
    var s := GroupStart(group, size);
    var e := GroupEnd(group, size, |rows|);
    if s < e then rows[s..e] else []
  }

  /** The groups before `g`, one after the other. */
  function Groups<T>(rows: seq<T>, g: nat, size: nat): seq<T>
  {
    if g == 0 then [] else Groups(rows, g - 1, size) + CurrentRows(rows, g - 1, size)
  }

  /** Paging through every group shows each row once, in order: the groups
      are consecutive slices that together make up the rows. */
  lemma {:induction false} GroupsCoverRows<T>(rows: seq<T>, size: nat)
    requires size > 0
    ensures Groups(rows, TotalGroups(|rows|, size), size) == rows
  {
    var total := TotalGroups(|rows|, size);
    GroupsPrefix(rows, total, size);
    var end := if total * size < |rows| then total * size else |rows|;
    assert end == |rows|;
  }

  lemma {:induction false} GroupsPrefix<T>(rows: seq<T>, g: nat, size: nat)
    requires size > 0
    ensures Groups(rows, g, size) == rows[..if g * size < |rows| then g * size else |rows|]
  {
    if g > 0 {
      GroupsPrefix(rows, g - 1, size);
      var start := GroupStart(g - 1, size);
      NextGroupStart(g, size);
      GroupsStep(rows, start, size);
    }
  }

  /** The group after `g - 1` starts `size` rows later. */
  lemma NextGroupStart(g: nat, size: nat)
    requires g > 0
    ensures GroupStart(g - 1, size) + size == g * size
  {
  }

  /** Appending the group that starts at `start` extends the prefix of the
      rows by that group. */
  lemma GroupsStep<T>(rows: seq<T>, start: nat, size: nat)
    requires size > 0
    ensures var e := if start + size < |rows| then start + size else |rows|;
            var s := if start < |rows| then start else |rows|;
            rows[..s] + (if start < e then rows[start..e] else []) == rows[..e]
  {
    var e := if start + size < |rows| then start + size else |rows|;
    if start < |rows| {
      assert rows[..e] == rows[..start] + rows[start..e];
    }
  }

  /** The phone view's page state. */
  class Pager {
    /** `mobileGroup`: the group on screen. */
    var mobileGroup: int

    constructor ()
      ensures mobileGroup == 0
    {
      mobileGroup := 0;
    }

    /** The page is one of the groups. */
    predicate OnAGroup(totalGroups: nat)
      reads this
    {
      0 <= mobileGroup < totalGroups
    }

    /** Prev: `setMobileGroup(Math.max(0, mobileGroup - 1))`. */
    method Prev(totalGroups: nat)
      modifies this
      ensures mobileGroup == if old(mobileGroup) - 1 > 0 then old(mobileGroup) - 1 else 0
      ensures old(OnAGroup(totalGroups)) ==> OnAGroup(totalGroups)
    {
      mobileGroup := if mobileGroup - 1 > 0 then mobileGroup - 1 else 0;
    }

    /** Next: `setMobileGroup(Math.min(totalGroups - 1, mobileGroup + 1))`.
        The buttons are shown only when there is more than one group. */
    method Next(totalGroups: nat)
      requires totalGroups > 1
      modifies this
      ensures mobileGroup == if old(mobileGroup) + 1 < totalGroups - 1 then old(mobileGroup) + 1 else totalGroups - 1
      ensures old(OnAGroup(totalGroups)) ==> OnAGroup(totalGroups)
    {
      mobileGroup := if mobileGroup + 1 < totalGroups - 1 then mobileGroup + 1 else totalGroups - 1;
    }

    /** The i-th dot: `setMobileGroup(i)`. The dots, one per group, are shown
        only when there is more than one group. */
    method Goto(i: nat, totalGroups: nat)
      requires totalGroups > 1 && i < totalGroups
      modifies this
      ensures mobileGroup == i
      ensures OnAGroup(totalGroups)
    {
      mobileGroup := i;
    }
  }
}
