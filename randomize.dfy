/** Option-order randomisation: a Fisher–Yates shuffle done in place on a copy
    of the input, and a variant that keeps "anchored" options (such as
    "Other") at the end. `Math.random()` is replaced by a sequence of draws in
    [0, 1) supplied by the caller, one per loop iteration. */
module Randomize {

  predicate ValidDraws(draws: seq<real>, n: nat)
  {
    |draws| >= n && forall k :: 0 <= k < |draws| ==> 0.0 <= draws[k] < 1.0
  }

  /** `Math.floor(Math.random() * (i + 1))` for the draw `r`. */
  function SwapIndex(r: real, i: nat): (j: nat)
    requires 0.0 <= r < 1.0
    ensures j <= i
  {
    var x := r * ((i + 1) as real);
    ScaledDrawBound(r, i + 1);
    x.Floor
  }

  /** A draw below 1 scaled by k stays below k. */
  lemma {:induction false} ScaledDrawBound(r: real, k: nat)
    requires 0.0 <= r < 1.0 && k > 0
    ensures 0.0 <= r * (k as real) < k as real
  {
    if k > 1 {
      ScaledDrawBound(r, k - 1);
      assert r * (k as real) == r * ((k - 1) as real) + r;
    }
  }

  function Swap<T>(s: seq<T>, i: nat, j: nat): (r: seq<T>)
    requires i < |s| && j < |s|
    ensures |r| == |s|
    ensures r[i] == s[j] && r[j] == s[i]
    ensures forall k :: 0 <= k < |s| && k != i && k != j ==> r[k] == s[k]
  {
    s[i := s[j]][j := s[i]]
  }

  /** A swap only exchanges two items. */
  lemma SwapPermutes<T>(s: seq<T>, i: nat, j: nat)
    requires i < |s| && j < |s|
    ensures multiset(Swap(s, i, j)) == multiset(s)
  {
  }

  /** The number of draws a shuffle of `n` items consumes. */
  function DrawCount(n: nat): nat
  {
    if n == 0 then 0 else n - 1
  }

  /** The items when the loop index has come down to `i`: positions
      `|s| - 1` down to `i + 1` have each been swapped, in that order, with
      the position their draw chose (draw `|s| - 1 - p` for position `p`). */
  function Shuffled<T>(s: seq<T>, i: nat, draws: seq<real>): (r: seq<T>)
    requires i < |s| && ValidDraws(draws, DrawCount(|s|))
    ensures |r| == |s|
    decreases |s| - i
  {
    if i == |s| - 1 then s
    else
      var t := Shuffled(s, i + 1, draws);
      Swap(t, i + 1, SwapIndex(draws[|s| - 2 - i], i + 1))
  }

  /** Swapping only exchanges items, so every state of the loop is a
      permutation of the input. */
  lemma {:induction false} ShuffledPermutes<T>(s: seq<T>, i: nat, draws: seq<real>)
    requires i < |s| && ValidDraws(draws, DrawCount(|s|))
    ensures multiset(Shuffled(s, i, draws)) == multiset(s)
    decreases |s| - i
  {
    if i < |s| - 1 {
      var t := Shuffled(s, i + 1, draws);
      var j := SwapIndex(draws[|s| - 2 - i], i + 1);
      ShuffledPermutes(s, i + 1, draws);
      SwapKeepsPermutation(s, t, Shuffled(s, i, draws), i + 1, j);
    }
  }

  /** One more swap keeps a permutation of `s` a permutation of `s`. */
  lemma SwapKeepsPermutation<T>(s: seq<T>, t: seq<T>, u: seq<T>, i: nat, j: nat)
    requires i < |t| && j < |t| && u == Swap(t, i, j) && multiset(t) == multiset(s)
    ensures multiset(u) == multiset(s)
  {
    SwapPermutes(t, i, j);
  }

  /** `shuffle`'s result, stated on values: every position from the last down
      to 1 swapped in turn. It is a permutation of the input. */
  function FisherYates<T>(s: seq<T>, draws: seq<real>): (r: seq<T>)
    requires ValidDraws(draws, DrawCount(|s|))
    ensures |r| == |s| && multiset(r) == multiset(s)
  {
    if s == [] then s else ShuffledPermutes(s, 0, draws); Shuffled(s, 0, draws)
  }

  /** With fewer than two items the loop body never runs. */
  lemma ShortListUnchanged<T>(s: seq<T>, draws: seq<real>)
    requires |s| <= 1 && ValidDraws(draws, DrawCount(|s|))
    ensures FisherYates(s, draws) == s
  {
  }

  /** The in-place loop: for i from length - 1 down to 1, swap a[i] with a[j],
      j = floor(draw * (i + 1)). */
  method ShuffleInPlace<T>(a: array<T>, draws: seq<real>)
    requires ValidDraws(draws, DrawCount(a.Length))
    modifies a
    ensures a[..] == FisherYates(old(a[..]), draws)
  {
    if a.Length == 0 {
      return;
    }
    var i := a.Length - 1;
    while i > 0
      invariant 0 <= i < a.Length
      invariant a[..] == Shuffled(old(a[..]), i, draws)
      decreases i
    {
      ghost var before := a[..];
      var j := SwapIndex(draws[a.Length - 1 - i], i);
      a[i], a[j] := a[j], a[i];
      LoopStep(old(a[..]), before, a[..], i, j, draws);
      i := i - 1;
    }
  }

  /** One iteration of the loop: exchanging positions `i` and `j` of the
      state reached at index `i` gives the state at index `i - 1`. */
  lemma LoopStep<T>(s: seq<T>, before: seq<T>, after: seq<T>, i: nat, j: nat, draws: seq<real>)
    requires 0 < i < |s| && ValidDraws(draws, DrawCount(|s|))
    requires before == Shuffled(s, i, draws) && j == SwapIndex(draws[|s| - 1 - i], i)
    requires |after| == |s| && after[i] == before[j] && after[j] == before[i]
    requires forall k :: 0 <= k < |s| && k != i && k != j ==> after[k] == before[k]
    ensures after == Shuffled(s, i - 1, draws)
  {
    assert after == Swap(before, i, j);
  }

  /** `shuffle(arr)`: copies the input and shuffles the copy; the input is a
      value and cannot change. The result is a permutation of the input. */
  method Shuffle<T>(arr: seq<T>, draws: seq<real>) returns (result: seq<T>)
    requires ValidDraws(draws, DrawCount(|arr|))
    ensures result == FisherYates(arr, draws)
    ensures multiset(result) == multiset(arr)
  {
    var a := new T[|arr|](k requires 0 <= k < |arr| => arr[k]);
    assert a[..] == arr;
    ShuffleInPlace(a, draws);
    result := a[..];
  }

  // ---------------------------------------------------------------------------

  datatype Item<T> = Item(value: T, anchored: bool)

  /** `items.filter(i => i.anchored == want)` */
  function Filter<T>(items: seq<Item<T>>, want: bool): (r: seq<Item<T>>)
    ensures |r| <= |items|
    ensures forall k :: 0 <= k < |r| ==> r[k].anchored == want
  {
    if items == [] then []
    else if items[0].anchored == want then [items[0]] + Filter(items[1..], want)
    else Filter(items[1..], want)
  }

  /** Splitting by the anchored flag loses and duplicates nothing. */
  lemma {:induction false} FilterSplits<T>(items: seq<Item<T>>)
    ensures multiset(Filter(items, false)) + multiset(Filter(items, true)) == multiset(items)
  {
    if items != [] {
      FilterSplits(items[1..]);
      assert items == [items[0]] + items[1..];
    }
  }

  /** `randomizeWithAnchors(items)`: the non-anchored items shuffled, followed
      by the anchored items in their original relative order. */
  method RandomizeWithAnchors<T>(items: seq<Item<T>>, draws: seq<real>) returns (result: seq<Item<T>>)
    requires ValidDraws(draws, DrawCount(|Filter(items, false)|))
    ensures var free := Filter(items, false);
            result == FisherYates(free, draws) + Filter(items, true)
    ensures |result| == |items| && multiset(result) == multiset(items)
    ensures forall k :: 0 <= k < |Filter(items, false)| ==> !result[k].anchored
    ensures result[|Filter(items, false)|..] == Filter(items, true)
  {
    var anchored := Filter(items, true);
    var randomizable := Filter(items, false);
    var a := new Item<T>[|randomizable|](k requires 0 <= k < |randomizable| => randomizable[k]);
    assert a[..] == randomizable;
    ShuffleInPlace(a, draws);
    result := a[..] + anchored;
    FilterSplits(items);
    assert multiset(result) == multiset(a[..]) + multiset(anchored);
    forall k | 0 <= k < |randomizable| ensures !result[k].anchored {
      assert result[k] in multiset(randomizable);
    }
    assert |result| == |items| by {
      assert |multiset(result)| == |multiset(items)|;
    }
  }
}
