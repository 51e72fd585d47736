/** The ranking question widget: a ranking is the ordered list of ranked item
    values, rank 1 first. On a phone an item is tapped in and out; on a
    desktop it is dragged onto a slot. */
module RankingQuestion {
  import opened Common

  datatype RankItem = RankItem(value: string, caption: string)

  /** `getRank(item)`: the 1-based position of the item, 0 when it is not ranked. */
  function GetRank(ranking: seq<string>, item: string): (r: nat)
    ensures r == 0 <==> item !in ranking
    ensures r > 0 ==> r <= |ranking| && ranking[r - 1] == item && item !in ranking[..r - 1]
  {
    if ranking == [] then 0
    else if ranking[0] == item then 1
    else
      var r := GetRank(ranking[1..], item);
      assert r > 0 ==> ranking[..r] == [ranking[0]] + ranking[1..][..r - 1];
      if r == 0 then 0 else r + 1
  }

  /** `handleTap(item)`: the list handed to `onChange`, or None when a new
      item does not fit under the cap and nothing is emitted. */
  function HandleTap(ranking: seq<string>, item: string, maxRank: nat): (r: Option<seq<string>>)
    ensures item in ranking ==> r == Some(HandleRemoveRank(ranking, item))
    ensures item !in ranking ==> (r.None? <==> |ranking| >= maxRank)
    ensures item !in ranking && r.Some? ==> r.value == ranking + [item] && GetRank(r.value, item) == |ranking| + 1
  {
    if GetRank(ranking, item) > 0 then Some(HandleRemoveRank(ranking, item))
    else if |ranking| < maxRank then
      assert (ranking + [item])[..|ranking|] == ranking;
      Some(ranking + [item])
    else None
  }

  /** `handleRemoveRank(item)`: drops exactly that value. */
  function HandleRemoveRank(ranking: seq<string>, item: string): (r: seq<string>)
    ensures item !in r
    ensures forall x :: x in r <==> x in ranking && x != item
  {
    Without(ranking, item)
  }

  /** Removing a ranked item moves every later item up one rank and leaves
      the earlier ones where they were. */
  lemma {:induction false} RemoveMovesUp(ranking: seq<string>, item: string, other: string)
    requires Distinct(ranking) && item in ranking && other != item
    ensures var k := GetRank(ranking, item);
            var o := GetRank(ranking, other);
            GetRank(HandleRemoveRank(ranking, item), other) == if o > k then o - 1 else o
  {
    if ranking[0] == item {
      assert item !in ranking[1..];
      assert Without(ranking, item) == ranking[1..];
    } else {
      assert item in ranking[1..];
      assert Without(ranking, item) == [ranking[0]] + Without(ranking[1..], item);
      if ranking[0] != other {
        RemoveMovesUp(ranking[1..], item, other);
      }
    }
  }

  /** Tapping an item in and tapping it out again restores the ranking. */
  lemma TapTwiceRestores(ranking: seq<string>, item: string, maxRank: nat)
    requires item !in ranking && |ranking| < maxRank
    ensures HandleTap(HandleTap(ranking, item, maxRank).value, item, maxRank) == Some(ranking)
  {
    WithoutLast(ranking, item);
  }

  /** `items.filter(item => !value.includes(item.value))` */
  function UnrankedItems(items: seq<RankItem>, ranking: seq<string>): (r: seq<RankItem>)
    ensures forall it :: it in r <==> it in items && it.value !in ranking
    ensures |r| <= |items|
  {
    if items == [] then []
    else
      var rest := UnrankedItems(items[1..], ranking);
      if items[0].value in ranking then rest else [items[0]] + rest
  }

  function Min(a: nat, b: nat): nat
  {
    if a < b then a else b
  }

  /** What a drop hands to `onChange`: the dragged item taken out, put back
      at the slot (at the end when the slot is past it), and the list cut to
      `maxRank`. */
  function Dropped(ranking: seq<string>, dragged: string, slot: nat, maxRank: nat): seq<string>
  {
    var rest := Without(ranking, dragged);
    var p := Min(slot, |rest|);
    (rest[..p] + [dragged] + rest[p..])[..Min(maxRank, |rest| + 1)]
  }

  /** A drop never ranks more than `maxRank` items; the dragged item lands
      on its slot when that slot is within the cap; and the other items keep
      their order around it. */
  lemma DroppedShape(ranking: seq<string>, dragged: string, slot: nat, maxRank: nat)
    ensures var r := Dropped(ranking, dragged, slot, maxRank);
            var rest := Without(ranking, dragged);
            var p := Min(slot, |rest|);
            |r| <= maxRank &&
            (p < maxRank ==> r[p] == dragged) &&
            (forall i :: 0 <= i < |r| && i < p ==> r[i] == rest[i]) &&
            (forall i :: p < i < |r| ==> r[i] == rest[i - 1])
  {
    var rest := Without(ranking, dragged);
    var p := Min(slot, |rest|);
    var full := rest[..p] + [dragged] + rest[p..];
    assert forall i :: 0 <= i < p ==> full[i] == rest[i];
    assert forall i :: p < i < |full| ==> full[i] == rest[i - 1];
  }

  /** The dragged item is ranked at most once, and a ranking without
      duplicates stays so. */
  lemma DroppedOnce(ranking: seq<string>, dragged: string, slot: nat, maxRank: nat)
    ensures var r := Dropped(ranking, dragged, slot, maxRank);
            multiset(r)[dragged] <= 1 && (Distinct(ranking) ==> Distinct(r))
  {
    var rest := Without(ranking, dragged);
    var p := Min(slot, |rest|);
    var full := rest[..p] + [dragged] + rest[p..];
    var r := Dropped(ranking, dragged, slot, maxRank);
    assert rest == rest[..p] + rest[p..];
    assert multiset(rest)[dragged] == 0;
    assert multiset(full)[dragged] == 1;
    assert full == r + full[|r|..];
    if Distinct(ranking) {
      DroppedShape(ranking, dragged, slot, maxRank);
      forall i, j | 0 <= i < j < |r| ensures r[i] != r[j] {
        if i != p && j != p {
          var i' := if i < p then i else i - 1;
          var j' := if j < p then j else j - 1;
          assert r[i] == rest[i'] && r[j] == rest[j'] && i' < j';
        }
      }
    }
  }

  /** The drag state of the desktop widget. */
  class DragState {
    /** `draggedItem`: the value picked up, if any. */
    var draggedItem: Option<string>

    constructor ()
      ensures draggedItem == None
    {
      draggedItem := None;
    }

    /** `handleDragStart(item)` */
    method HandleDragStart(item: string)
      modifies this
      ensures draggedItem == Some(item)
    {
      draggedItem := Some(item);
    }

    /** `handleDrop(slotIndex)`: with nothing (or '') picked up nothing
      happens; otherwise the dragged item is spliced into a copy of the
      ranking without it, the copy is cut to `maxRank` and handed to
      `onChange`, and the drag ends. */
    method HandleDrop(ranking: seq<string>, slotIndex: nat, maxRank: nat) returns (emitted: Option<seq<string>>)
      modifies this
      ensures old(draggedItem) == None || old(draggedItem) == Some("") ==>
                emitted == None && draggedItem == old(draggedItem)
      ensures old(draggedItem).Some? && old(draggedItem) != Some("") ==>
                emitted == Some(Dropped(ranking, old(draggedItem).value, slotIndex, maxRank)) && draggedItem == None
    {
      if draggedItem == None || draggedItem == Some("") {
        return None;
      }
      var dragged := draggedItem.value;
      var rest := Without(ranking, dragged);
      var n := |rest|;
      // The copy, with room for the spliced item.
      var a := new string[n + 1](i => dragged);
      var i := 0;
      while i < n
        invariant 0 <= i <= n
        invariant forall k :: 0 <= k < i ==> a[k] == rest[k]
      {
        a[i] := rest[i];
        i := i + 1;
      }
      // `splice(slotIndex, 0, dragged)`: shift the tail up by one, then place the item.
      var p := Min(slotIndex, n);
      var j := n;
      while j > p
        invariant p <= j <= n
        invariant forall k :: 0 <= k < j ==> a[k] == rest[k]
        invariant forall k :: j < k <= n ==> a[k] == rest[k - 1]
      {
        a[j] := a[j - 1];
        j := j - 1;
      }
      a[p] := dragged;
      assert a[..] == rest[..p] + [dragged] + rest[p..];
      emitted := Some(a[..Min(maxRank, n + 1)]);
      draggedItem := None;
    }
  }
}
