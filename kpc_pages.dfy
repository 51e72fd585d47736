/** Block 3: the key purchase criteria. k1 rates how important each of the
    13 attributes is, in a shuffled order that is kept for k2; k2 rates
    each assigned retailer on the same attributes, one grid per retailer,
    and saves all grids after the last one. */
module KpcPages {
  import opened Common
  import opened SurveyFlow
  import Constants
  import QualityFlags
  import Randomize

  function RatingMessage(n: nat): string
  {
    "Please rate all attributes. " + NatToString(n) + " remaining."
  }

  // ---------------------------------------------------------------------------
  // k1

  /** The grid's rows: the attributes shuffled once, the order kept in
      session storage as `k1_order`. */
  method K1Rows(session: Session, draws: seq<real>) returns (rows: seq<string>)
    requires Randomize.ValidDraws(draws, Randomize.DrawCount(|Constants.KpcCodes()|))
    modifies session
    ensures multiset(rows) == multiset(Constants.KpcCodes())
    ensures session.items == old(session.items)["k1_order" := Codes(rows)]
  {
    rows := Randomize.Shuffle(Constants.KpcCodes(), draws);
    session.SetItem("k1_order", Codes(rows));
  }

  /** A shuffled order lists every attribute. */
  lemma ShuffledRowsCoverAttributes(rows: seq<string>)
    requires multiset(rows) == multiset(Constants.KpcCodes())
    ensures forall c :: c in Constants.KpcCodes() <==> c in rows
  {
    forall c ensures c in Constants.KpcCodes() <==> c in rows {
      assert c in rows <==> c in multiset(rows);
      assert c in Constants.KpcCodes() <==> c in multiset(Constants.KpcCodes());
    }
  }

  function K1Keys(): seq<string>
  {
    Keyed("k1_imp_", Constants.KpcCodes(), "")
  }

  /** `data[k1_imp_${code}] = values[code]`, in catalogue order. */
  function K1Data(values: map<string, int>): Record
  {
    Filled(map[], K1Keys(), Answers(Constants.KpcCodes(), values))
  }

  /** k1's submit: every row must be rated. */
  function K1Outcome(rows: seq<string>, values: map<string, int>): (o: Outcome)
    ensures var n := |Missing(rows, values)|;
            (n > 0 <==> o == Invalid(RatingMessage(n))) && (n == 0 <==> o.Sent?)
    ensures o.Sent? ==> o == Advance("block3_k1", "block3_k2", K1Data(values)) && o.path == "/survey/block3/k2"
    ensures Navigates(o)
  {
    var n := |Missing(rows, values)|;
    if n > 0 then Invalid(RatingMessage(n))
    else
      assert Slashed("block3_k2") == "block3/k2";
      Advance("block3_k1", "block3_k2", K1Data(values))
  }

  /** The shuffle changes neither the verdict nor the count in the message. */
  lemma K1OrderIrrelevant(rows: seq<string>, values: map<string, int>)
    requires multiset(rows) == multiset(Constants.KpcCodes())
    ensures K1Outcome(rows, values) == K1Outcome(Constants.KpcCodes(), values)
  {
    MissingCountOrderFree(rows, Constants.KpcCodes(), values);
  }

  /** The quality flags read exactly the keys k1 saves. */
  lemma K1KeysAreFlagged()
    ensures K1Keys() == QualityFlags.K1_KEYS
  {
    QualityFlags.FlagKeysMatchCatalogue();
    assert |K1Keys()| == |QualityFlags.K1_KEYS|;
    forall i | 0 <= i < |K1Keys()| ensures K1Keys()[i] == QualityFlags.K1_KEYS[i] {
      assert "k1_imp_" + Constants.KpcCodes()[i] + "" == "k1_imp_" + Constants.KpcCodes()[i];
    }
  }

  /** A submitted k1 holds a rating under each `k1_imp_<code>`, and nothing
      else. */
  lemma K1DataMeaning(rows: seq<string>, values: map<string, int>)
    requires multiset(rows) == multiset(Constants.KpcCodes())
    requires K1Outcome(rows, values).Sent?
    ensures forall i :: 0 <= i < |Constants.KpcCodes()| ==>
              Constants.KpcCodes()[i] in values &&
              Get(K1Data(values), K1Keys()[i]) == Some(Num(values[Constants.KpcCodes()[i]]))
    ensures forall k :: k in K1Data(values) ==> k in K1Keys()
  {
    Constants.KpcShape();
    ShuffledRowsCoverAttributes(rows);
    KeyedDistinct("k1_imp_", Constants.KpcCodes(), "");
    FilledMeaning(map[], K1Keys(), Answers(Constants.KpcCodes(), values));
    forall k | k in K1Data(values) ensures k in K1Keys() {
      assert Get(K1Data(values), k) != None;
    }
  }

  /** k1's handler, writing the keys in a loop. */
  method K1Submit(rows: seq<string>, values: map<string, int>) returns (o: Outcome)
    ensures o == K1Outcome(rows, values)
  {
    var u := Missing(rows, values);
    if |u| > 0 {
      return Invalid(RatingMessage(|u|));
    }
    var data := Fill(map[], K1Keys(), Answers(Constants.KpcCodes(), values));
    o := Advance("block3_k1", "block3_k2", data);
  }

  // ---------------------------------------------------------------------------
  // k2

  /** `k2_perf_r${num}_${code}` */
  function K2Key(num: nat, code: string): string
  {
    Numbered("k2_perf_r", num, code)
  }

  function K2RowKeys(num: nat): (ks: seq<string>)
    ensures |ks| == |Constants.KpcCodes()|
    ensures forall j :: 0 <= j < |ks| ==> ks[j] == K2Key(num, Constants.KpcCodes()[j])
  {
    seq(|Constants.KpcCodes()|, j requires 0 <= j < |Constants.KpcCodes()| => K2Key(num, Constants.KpcCodes()[j]))
  }

  lemma K2RowKeysDistinct(num: nat)
    requires 1 <= num <= 9
    ensures Distinct(K2RowKeys(num))
  {
    Constants.KpcShape();
    var ks := K2RowKeys(num);
    forall i, j | 0 <= i < j < |ks| ensures ks[i] != ks[j] {
      NumberedInjective("k2_perf_r", num, Constants.KpcCodes()[i], num, Constants.KpcCodes()[j]);
    }
  }

  /** `allValues[key] || {}` */
  function ValuesOf(allValues: map<string, map<string, int>>, key: string): map<string, int>
  {
    if key in allValues then allValues[key] else map[]
  }

  /** The `data` object of k2's save: for each listed retailer in turn, each
      attribute's rating or null. */
  function K2Data(rs: seq<Slot>, allValues: map<string, map<string, int>>): Record
    decreases |rs|
  {
    if rs == [] then map[]
    else
      var n := |rs|;
      Filled(K2Data(rs[..n - 1], allValues), K2RowKeys(n),
             AnswersOrNull(Constants.KpcCodes(), ValuesOf(allValues, rs[n - 1].key)))
  }

  /** One retailer's row of writes: its own keys get its ratings, and the
      keys of every other position keep what they had. */
  lemma K2RowMeaning(prev: Record, n: nat, vals: map<string, int>)
    requires 1 <= n <= 9
    ensures forall j :: 0 <= j < |Constants.KpcCodes()| ==>
              Get(Filled(prev, K2RowKeys(n), AnswersOrNull(Constants.KpcCodes(), vals)), K2Key(n, Constants.KpcCodes()[j])) ==
              Some(if Constants.KpcCodes()[j] in vals then Num(vals[Constants.KpcCodes()[j]]) else Null)
    ensures forall num, code :: 1 <= num <= 9 && num != n ==>
              Get(Filled(prev, K2RowKeys(n), AnswersOrNull(Constants.KpcCodes(), vals)), K2Key(num, code)) ==
              Get(prev, K2Key(num, code))
  {
    var answers := AnswersOrNull(Constants.KpcCodes(), vals);
    K2RowKeysDistinct(n);
    FilledMeaning(prev, K2RowKeys(n), answers);
    forall num, code | 1 <= num <= 9 && num != n
      ensures Get(Filled(prev, K2RowKeys(n), answers), K2Key(num, code)) == Get(prev, K2Key(num, code))
    {
      forall j | 0 <= j < |K2RowKeys(n)| ensures K2RowKeys(n)[j] != K2Key(num, code) {
        NumberedInjective("k2_perf_r", num, code, n, Constants.KpcCodes()[j]);
      }
    }
  }

  /** Position num's grid is saved under `k2_perf_r${num}_<code>`, with null
      for an unrated attribute. */
  lemma {:induction false} K2DataValues(rs: seq<Slot>, allValues: map<string, map<string, int>>)
    requires |rs| <= 9
    ensures forall num, j :: 1 <= num <= |rs| && 0 <= j < |Constants.KpcCodes()| ==>
              var vals := ValuesOf(allValues, rs[num - 1].key);
              var code := Constants.KpcCodes()[j];
              Get(K2Data(rs, allValues), K2Key(num, code)) == Some(if code in vals then Num(vals[code]) else Null)
    decreases |rs|
  {
    if rs != [] {
      var n := |rs|;
      var front := rs[..n - 1];
      K2DataValues(front, allValues);
      K2RowMeaning(K2Data(front, allValues), n, ValuesOf(allValues, rs[n - 1].key));
      assert forall i :: 0 <= i < n - 1 ==> front[i] == rs[i];
    }
  }

  /** Nothing but the listed positions' grids is saved. */
  lemma {:induction false} K2DataKeys(rs: seq<Slot>, allValues: map<string, map<string, int>>)
    ensures forall k :: k in K2Data(rs, allValues) ==>
              exists num, j :: 1 <= num <= |rs| && 0 <= j < |Constants.KpcCodes()| && k == K2Key(num, Constants.KpcCodes()[j])
    decreases |rs|
  {
    if rs != [] {
      var n := |rs|;
      var front := rs[..n - 1];
      K2DataKeys(front, allValues);
      var prev := K2Data(front, allValues);
      var vals := AnswersOrNull(Constants.KpcCodes(), ValuesOf(allValues, rs[n - 1].key));
      forall k | k in K2Data(rs, allValues)
        ensures exists num, j :: 1 <= num <= n && 0 <= j < |Constants.KpcCodes()| && k == K2Key(num, Constants.KpcCodes()[j])
      {
        if k in K2RowKeys(n) {
          var j :| 0 <= j < |K2RowKeys(n)| && K2RowKeys(n)[j] == k;
        } else {
          FilledOutside(prev, K2RowKeys(n), vals, k);
          var num, j :| 1 <= num <= n - 1 && 0 <= j < |Constants.KpcCodes()| && k == K2Key(num, Constants.KpcCodes()[j]);
        }
      }
    }
  }

  /** The straightliner flag for slot i+1 reads exactly the grid of the
      i-th listed retailer. */
  lemma K2FlagsReadGrid(rs: seq<Slot>, allValues: map<string, map<string, int>>, i: nat)
    requires i < |rs| <= 3
    ensures QualityFlags.Lookup(K2Data(rs, allValues), QualityFlags.K2Keys(QualityFlags.SLOTS[i])) ==
            AnswersOrNull(Constants.KpcCodes(), ValuesOf(allValues, rs[i].key))
  {
    QualityFlags.FlagKeysMatchCatalogue();
    K2DataValues(rs, allValues);
    var slot := QualityFlags.SLOTS[i];
    assert slot == NatToString(i + 1) by {
      assert NatToString(1) == "1" && NatToString(2) == "2" && NatToString(3) == "3";
    }
    var keys := QualityFlags.K2Keys(slot);
    var vals := AnswersOrNull(Constants.KpcCodes(), ValuesOf(allValues, rs[i].key));
    var looked := QualityFlags.Lookup(K2Data(rs, allValues), keys);
    forall j | 0 <= j < |keys| ensures looked[j] == vals[j] {
      assert keys[j] == K2Key(i + 1, Constants.KpcCodes()[j]);
    }
  }

  /** Every row of `order` is rated in the grid of each retailer before
      position `idx`. */
  predicate Rated(rs: seq<Slot>, idx: nat, allValues: map<string, map<string, int>>, order: seq<string>)
  {
    forall j :: 0 <= j < |rs| && j < idx ==> |Missing(order, ValuesOf(allValues, rs[j].key))| == 0
  }

  /** k2's `handleNext` on the page's values. */
  function K2Next(rs: seq<Slot>, idx: nat, allValues: map<string, map<string, int>>, order: seq<string>,
                  error: string): (c: Click)
    ensures c.o.Ignored? <==> idx >= |rs|
    ensures c.o.Ignored? ==> c.step == idx && c.error == error
    ensures c.o == Moved <==> c.step == idx + 1
    ensures c.step == idx || c.step == idx + 1
    ensures idx < |rs| ==>
              var n := |Missing(order, ValuesOf(allValues, rs[idx].key))|;
              (n > 0 <==> c.o == Invalid(RatingMessage(n)))
    ensures c.o.Invalid? ==> c.error == c.o.message
    ensures c.o.Moved? || c.o.Sent? ==> c.error == ""
    ensures c.o.Sent? <==> idx == |rs| - 1 && |Missing(order, ValuesOf(allValues, rs[idx].key))| == 0
    ensures c.o.Sent? ==> c.o == Advance("block3_k2", "block4", K2Data(rs, allValues)) && c.o.path == "/survey/block4"
  {
    if idx >= |rs| then Click(Ignored, idx, error)
    else
      var n := |Missing(order, ValuesOf(allValues, rs[idx].key))|;
      if n > 0 then Click(Invalid(RatingMessage(n)), idx, RatingMessage(n))
      else if idx < |rs| - 1 then Click(Moved, idx + 1, "")
      else
        assert Slashed("block4") == "block4";
        Click(Advance("block3_k2", "block4", K2Data(rs, allValues)), idx, "")
  }

  /** A click keeps the passed grids rated, and a save comes only when every
      retailer's grid is complete. */
  lemma K2NextKeepsRated(rs: seq<Slot>, idx: nat, allValues: map<string, map<string, int>>, order: seq<string>, error: string)
    requires Rated(rs, idx, allValues, order) && (idx < |rs| || idx == 0)
    ensures var c := K2Next(rs, idx, allValues, order, error);
            Rated(rs, c.step, allValues, order) && (c.step < |rs| || c.step == 0)
    ensures K2Next(rs, idx, allValues, order, error).o.Sent? ==>
              forall j :: 0 <= j < |rs| ==> |Missing(order, ValuesOf(allValues, rs[j].key))| == 0
  {
    var c := K2Next(rs, idx, allValues, order, error);
    if c.o.Moved? || c.o.Sent? {
      forall j | 0 <= j < |rs| && j <= idx ensures |Missing(order, ValuesOf(allValues, rs[j].key))| == 0 {
      }
    }
  }

  /** When the rows list every attribute and every grid is complete, the
      save holds a rating, never null, for every retailer and attribute. */
  lemma K2SaveHasNoNulls(rs: seq<Slot>, allValues: map<string, map<string, int>>, order: seq<string>)
    requires |rs| <= 3
    requires forall c :: c in Constants.KpcCodes() ==> c in order
    requires forall j :: 0 <= j < |rs| ==> |Missing(order, ValuesOf(allValues, rs[j].key))| == 0
    ensures forall num, j :: 1 <= num <= |rs| && 0 <= j < |Constants.KpcCodes()| ==>
              var vals := ValuesOf(allValues, rs[num - 1].key);
              var code := Constants.KpcCodes()[j];
              code in vals && Get(K2Data(rs, allValues), K2Key(num, code)) == Some(Num(vals[code]))
  {
    K2DataValues(rs, allValues);
    forall i, c | 0 <= i < |rs| && c in Constants.KpcCodes()
      ensures c in ValuesOf(allValues, rs[i].key)
    {
      assert c in order;
    }
  }

  /** The page's state between clicks. */
  class K2Page {
    var retailers: seq<Slot>
    var currentRetailerIdx: nat
    var allValues: map<string, map<string, int>>
    var attributeOrder: seq<string>
    var error: string

    predicate Valid()
      reads this
    {
      |retailers| <= 3 && DistinctKeys(retailers) &&
      (currentRetailerIdx < |retailers| || currentRetailerIdx == 0) &&
      Rated(retailers, currentRetailerIdx, allValues, attributeOrder)
    }

    /** The mount effect: the retailer list, and k1's order when one was
        stored, else catalogue order. */
    constructor(r1: Option<string>, r2: Option<string>, r3: Option<string>, k1Order: Option<seq<string>>)
      ensures retailers == AssignedRetailers(r1, r2, r3)
      ensures attributeOrder == if k1Order.Some? then k1Order.value else Constants.KpcCodes()
      ensures currentRetailerIdx == 0 && allValues == map[] && error == ""
      ensures Valid()
    {
      retailers := AssignedRetailers(r1, r2, r3);
      attributeOrder := if k1Order.Some? then k1Order.value else Constants.KpcCodes();
      currentRetailerIdx := 0;
      allValues := map[];
      error := "";
    }

    predicate HasCurrent()
      reads this
    {
      currentRetailerIdx < |retailers|
    }

    /** The grid's `onChange`: the current retailer's ratings are replaced. */
    method SetValues(v: map<string, int>)
      requires Valid() && HasCurrent()
      modifies this
      ensures Valid()
      ensures allValues == old(allValues)[old(retailers[currentRetailerIdx].key) := v]
      ensures error == ""
      ensures retailers == old(retailers) && currentRetailerIdx == old(currentRetailerIdx) &&
              attributeOrder == old(attributeOrder)
    {
      var key := retailers[currentRetailerIdx].key;
      forall j | 0 <= j < |retailers| && j < currentRetailerIdx
        ensures ValuesOf(allValues[key := v], retailers[j].key) == ValuesOf(allValues, retailers[j].key)
      {
      }
      allValues := allValues[key := v];
      error := "";
    }

    /** `handleNext`: the click, applied to the page's state. */
    method HandleNext() returns (o: Outcome)
      requires Valid()
      modifies this
      ensures Valid()
      ensures var c := K2Next(old(retailers), old(currentRetailerIdx), old(allValues), old(attributeOrder), old(error));
              o == c.o && currentRetailerIdx == c.step && error == c.error
      ensures retailers == old(retailers) && allValues == old(allValues) && attributeOrder == old(attributeOrder)
    {
      K2NextKeepsRated(retailers, currentRetailerIdx, allValues, attributeOrder, error);
      if !HasCurrent() {
        return Ignored;
      }
      var u := Missing(attributeOrder, ValuesOf(allValues, retailers[currentRetailerIdx].key));
      if |u| > 0 {
        error := RatingMessage(|u|);
        return Invalid(error);
      }
      error := "";
      if currentRetailerIdx < |retailers| - 1 {
        currentRetailerIdx := currentRetailerIdx + 1;
        return Moved;
      }
      var data := BuildK2Data(retailers, allValues);
      o := Advance("block3_k2", "block4", data);
    }
  }

  /** The nested `forEach` that fills k2's `data`. */
  method BuildK2Data(rs: seq<Slot>, allValues: map<string, map<string, int>>) returns (data: Record)
    ensures data == K2Data(rs, allValues)
  {
    data := map[];
    var i := 0;
    while i < |rs|
      invariant 0 <= i <= |rs|
      invariant data == K2Data(rs[..i], allValues)
    {
      assert rs[..i + 1][..i] == rs[..i];
      data := Fill(data, K2RowKeys(i + 1), AnswersOrNull(Constants.KpcCodes(), ValuesOf(allValues, rs[i].key)));
      i := i + 1;
    }
    assert rs[..|rs|] == rs;
  }
}
