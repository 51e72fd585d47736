/** Block 1, s4 and s4a: the share-of-wallet allocation over the retailers
    shopped in the last three months, the ranking of those stores by share
    that fixes the primary store and the segment, and the visit-frequency
    grid for the top three stores. */
module SowPages {
  import opened Common
  import opened SurveyFlow
  import opened SowAllocation
  import Constants
  import SegmentLogic
  import Randomize

  // ---------------------------------------------------------------------------
  // s4: loading the store list

  /** The stores s4 asks about: the level-6 retailers except 'other', in
      catalogue order, then 'All other stores'. */
  function EligibleStores(funnel: map<string, int>): (ss: seq<string>)
    ensures ss != [] && ss[|ss| - 1] == "other_sow"
    ensures forall c :: c in ss[..|ss| - 1] <==>
              c in Constants.RetailerCodes() && c in funnel && funnel[c] == 6 && c != "other"
    ensures SubsequenceOf(ss[..|ss| - 1], Constants.RetailerCodes())
  {
    var shopped := Without(AtLevel(Constants.RetailerCodes(), funnel, 6), "other");
    WithoutSubsequence(AtLevel(Constants.RetailerCodes(), funnel, 6), "other", Constants.RetailerCodes());
    assert (shopped + ["other_sow"])[..|shopped|] == shopped;
    shopped + ["other_sow"]
  }

  lemma {:induction false} WithoutSubsequence(xs: seq<string>, x: string, ys: seq<string>)
    requires SubsequenceOf(xs, ys)
    ensures SubsequenceOf(Without(xs, x), ys)
    decreases |ys|
  {
    if ys != [] {
      if xs != [] && xs[0] == ys[0] && SubsequenceOf(xs[1..], ys[1..]) {
        WithoutSubsequence(xs[1..], x, ys[1..]);
        if xs[0] != x {
          assert Without(xs, x) == [xs[0]] + Without(xs[1..], x);
          assert ([xs[0]] + Without(xs[1..], x))[1..] == Without(xs[1..], x);
        } else {
          assert Without(xs, x) == Without(xs[1..], x);
          SubsequenceSkip(Without(xs[1..], x), ys);
        }
      } else {
        WithoutSubsequence(xs, x, ys[1..]);
      }
    }
  }

  lemma SubsequenceSkip(xs: seq<string>, ys: seq<string>)
    requires ys != [] && SubsequenceOf(xs, ys[1..])
    ensures SubsequenceOf(xs, ys)
  {
  }

  /** Every store at 0, as the `init` loop writes it. */
  function ZeroShares(stores: seq<string>): (vs: seq<Share>)
    ensures |vs| == |stores|
    ensures forall i :: 0 <= i < |stores| ==> vs[i] == Share(stores[i], 0)
  {
    seq(|stores|, i requires 0 <= i < |stores| => Share(stores[i], 0))
  }

  /** The page's first state: the eligible stores all at 0 when the funnel
      levels are in session storage, no stores and no values otherwise. */
  method S4Load(session: Session) returns (stores: seq<string>, values: seq<Share>)
    ensures session.NumbersOf("funnel_data").Some? ==>
              stores == EligibleStores(session.NumbersOf("funnel_data").value) && values == ZeroShares(stores)
    ensures session.NumbersOf("funnel_data").None? ==> stores == [] && values == []
    ensures Total(values) == 0
  {
    var funnel := session.NumbersOf("funnel_data");
    if funnel.None? {
      return [], [];
    }
    stores := EligibleStores(funnel.value);
    values := [];
    var i := 0;
    while i < |stores|
      invariant 0 <= i <= |stores|
      invariant values == ZeroShares(stores[..i])
      invariant Total(values) == 0
    {
      TotalSnoc(values, Share(stores[i], 0));
      values := values + [Share(stores[i], 0)];
      i := i + 1;
    }
    assert stores[..i] == stores;
  }

  lemma {:induction false} TotalSnoc(values: seq<Share>, s: Share)
    ensures Total(values + [s]) == Total(values) + s.percent
  {
    if values != [] {
      assert (values + [s])[1..] == values[1..] + [s];
      TotalSnoc(values[1..], s);
    }
  }

  // ---------------------------------------------------------------------------
  // s4: submitting

  /** `stores.filter(s => s.code !== 'other_sow').map(s => ({code, pct: values[code] || 0}))` */
  function StoreEntries(stores: seq<string>, values: seq<Share>): (es: seq<Share>)
    ensures |es| <= |stores|
    ensures forall e :: e in es <==> e.code in stores && e.code != "other_sow" && e.percent == OrZero(Lookup(values, e.code))
  {
    if stores == [] then []
    else
      var rest := StoreEntries(stores[1..], values);
      if stores[0] == "other_sow" then rest
      else [Share(stores[0], OrZero(Lookup(values, stores[0])))] + rest
  }

  predicate SortedByShare(es: seq<Share>)
  {
    forall i :: 0 <= i < |es| - 1 ==> es[i].percent >= es[i + 1].percent
  }

  /** The order the page's sort may produce: the entries by share, largest
      first; equal shares in any order (the page breaks ties at random). */
  predicate IsRanking(ranked: seq<Share>, entries: seq<Share>)
  {
    multiset(ranked) == multiset(entries) && SortedByShare(ranked)
  }

  /** One order that qualifies: insertion by share. */
  function InsertByShare(x: Share, ys: seq<Share>): (r: seq<Share>)
    ensures multiset(r) == multiset(ys) + multiset{x}
    ensures ys != [] ==> r[0] == x || r[0] == ys[0]
    ensures ys == [] ==> r == [x]
  {
    if ys == [] || x.percent >= ys[0].percent then [x] + ys
    else
      assert ys == [ys[0]] + ys[1..];
      [ys[0]] + InsertByShare(x, ys[1..])
  }

  function RankByShare(es: seq<Share>): (r: seq<Share>)
    ensures multiset(r) == multiset(es)
  {
    if es == [] then []
    else
      assert es == [es[0]] + es[1..];
      InsertByShare(es[0], RankByShare(es[1..]))
  }

  lemma {:induction false} InsertByShareSorted(x: Share, ys: seq<Share>)
    requires SortedByShare(ys)
    ensures SortedByShare(InsertByShare(x, ys))
  {
    if ys != [] && x.percent < ys[0].percent {
      InsertByShareSorted(x, ys[1..]);
      if |ys| > 1 {
        assert InsertByShare(x, ys[1..])[0] == x || InsertByShare(x, ys[1..])[0] == ys[1];
      }
    }
  }

  /** Every list of entries has a ranking, so the page can always submit a
      valid allocation. */
  lemma {:induction false} RankByShareIsRanking(es: seq<Share>)
    ensures IsRanking(RankByShare(es), es)
  {
    if es != [] {
      RankByShareIsRanking(es[1..]);
      InsertByShareSorted(es[0], RankByShare(es[1..]));
    }
  }

  /** The first of a ranking holds the largest share of all the entries. */
  lemma {:induction false} RankingHeadIsLargest(ranked: seq<Share>, entries: seq<Share>)
    requires IsRanking(ranked, entries) && ranked != []
    ensures forall e :: e in entries ==> e.percent <= ranked[0].percent
  {
    forall e | e in entries ensures e.percent <= ranked[0].percent {
      assert e in multiset(ranked);
      var k :| 0 <= k < |ranked| && ranked[k] == e;
      SortedHead(ranked, k);
    }
  }

  lemma {:induction false} SortedHead(es: seq<Share>, k: nat)
    requires SortedByShare(es) && k < |es|
    ensures es[k].percent <= es[0].percent
  {
    if k > 0 {
      SortedHead(es, k - 1);
    }
  }

  /** The name and share of the store at index k: null and 0 past the end. */
  function NameAt(ranked: seq<Share>, k: nat): Value
  {
    if k < |ranked| then Str(ranked[k].code) else Null
  }

  function PctAt(ranked: seq<Share>, k: nat): int
  {
    if k < |ranked| then ranked[k].percent else 0
  }

  function PrimaryStore(ranked: seq<Share>): Option<string>
  {
    if ranked == [] then None else Some(ranked[0].code)
  }

  /** `qc_sow_tie`: 1 when the two largest shares are equal. */
  function SowTie(ranked: seq<Share>): (t: int)
    ensures t == 1 <==> |ranked| >= 2 && ranked[0].percent == ranked[1].percent
    ensures t == 0 || t == 1
  {
    if |ranked| >= 2 && ranked[0].percent == ranked[1].percent then 1 else 0
  }

  /** `funnelData['fareway'] || 1`, with no funnel data read as `{}`. */
  function FarewayFunnel(funnel: Option<map<string, int>>): (f: int)
    ensures f != 0
    ensures funnel.Some? && "fareway" in funnel.value && funnel.value["fareway"] != 0 ==> f == funnel.value["fareway"]
  {
    if funnel.Some? && "fareway" in funnel.value && funnel.value["fareway"] != 0 then funnel.value["fareway"] else 1
  }

  function SowData(ranked: seq<Share>, values: seq<Share>, segment: Constants.Segment): Record
  {
    map["sow_store1_name" := NameAt(ranked, 0), "sow_store1_pct" := Num(PctAt(ranked, 0)),
        "sow_store2_name" := NameAt(ranked, 1), "sow_store2_pct" := Num(PctAt(ranked, 1)),
        "sow_store3_name" := NameAt(ranked, 2), "sow_store3_pct" := Num(PctAt(ranked, 2)),
        "sow_other_pct" := Num(OrZero(Lookup(values, "other_sow"))),
        "primary_store" := NameAt(ranked, 0),
        "segment" := Str(Constants.SegmentName(segment)),
        "qc_sow_tie" := Num(SowTie(ranked))]
  }

  /** s4's submit, given the ranking its sort produced. */
  function S4Outcome(stores: seq<string>, values: seq<Share>, ranked: seq<Share>,
                     funnel: Option<map<string, int>>): (o: Outcome)
    ensures Total(values) != 100 <==> o == Invalid("Your allocations must sum to exactly 100%.")
    ensures o.Sent? ==> Navigates(o)
    ensures Total(values) == 100 ==>
              var seg := SegmentLogic.ClassifySegment(FarewayFunnel(funnel), PrimaryStore(ranked));
              (seg.Err? <==> o == Invalid(RETRY)) &&
              (seg.Ok? ==> o == Advance("s4", "block1_s4a", SowData(ranked, values, seg.value)))
  {
    if Total(values) != 100 then Invalid("Your allocations must sum to exactly 100%.")
    else
      var seg := SegmentLogic.ClassifySegment(FarewayFunnel(funnel), PrimaryStore(ranked));
      if seg.Err? then Invalid(RETRY)
      else Advance("s4", "block1_s4a", SowData(ranked, values, seg.value))
  }

  /** What a submitted allocation records: the primary store holds the
      largest share; the tie flag marks equal top shares; a Fareway funnel of
      6 makes the respondent a primary shopper exactly when Fareway is the
      primary store. */
  lemma S4Meaning(stores: seq<string>, values: seq<Share>, ranked: seq<Share>, funnel: Option<map<string, int>>)
    requires IsRanking(ranked, StoreEntries(stores, values))
    requires Total(values) == 100
    requires funnel.Some? && "fareway" in funnel.value && funnel.value["fareway"] == 6
    ensures var o := S4Outcome(stores, values, ranked, funnel);
            o.Sent? && o.requests[0].SubmitBlock? &&
            var data := o.requests[0].data;
            (ranked != [] ==>
               (data["primary_store"] == Str(ranked[0].code) &&
                forall e :: e in StoreEntries(stores, values) ==> e.percent <= ranked[0].percent)) &&
            (data["qc_sow_tie"] == Num(1) <==> |ranked| >= 2 && ranked[0].percent == ranked[1].percent) &&
            (data["segment"] == Str("primary_shopper") <==> PrimaryStore(ranked) == Some("fareway")) &&
            (data["segment"] == Str("secondary_shopper") <==> PrimaryStore(ranked) != Some("fareway"))
  {
    if ranked != [] {
      RankingHeadIsLargest(ranked, StoreEntries(stores, values));
    }
  }

  /** The handler: validation, the segment (which may throw), the session
      writes, then the save. */
  method S4Submit(stores: seq<string>, values: seq<Share>, ranked: seq<Share>, session: Session) returns (o: Outcome)
    requires IsRanking(ranked, StoreEntries(stores, values))
    modifies session
    ensures o == S4Outcome(stores, values, ranked, old(session.NumbersOf("funnel_data")))
    ensures o.Sent? ==>
              var seg := SegmentLogic.ClassifySegment(FarewayFunnel(old(session.NumbersOf("funnel_data"))), PrimaryStore(ranked));
              session.items == old(session.items)["sow_data" := Shares(values)]["sow_stores" := Shares(ranked)]
                                                 ["primary_store" := Text(if ranked == [] then "" else ranked[0].code)]
                                                 ["segment" := Text(Constants.SegmentName(seg.value))]
    ensures !o.Sent? ==> session.items == old(session.items)
  {
    if Total(values) != 100 {
      return Invalid("Your allocations must sum to exactly 100%.");
    }
    var funnel := session.NumbersOf("funnel_data");
    var seg := SegmentLogic.ClassifySegment(FarewayFunnel(funnel), PrimaryStore(ranked));
    if seg.Err? {
      return Invalid(RETRY);
    }
    var data := SowData(ranked, values, seg.value);
    session.SetItem("sow_data", Shares(values));
    session.SetItem("sow_stores", Shares(ranked));
    session.SetItem("primary_store", Text(if ranked == [] then "" else ranked[0].code));
    session.SetItem("segment", Text(Constants.SegmentName(seg.value)));
    o := Advance("s4", "block1_s4a", data);
  }

  // ---------------------------------------------------------------------------
  // s4a: visit frequency for the top three stores

  function TopCodes(sow: Option<seq<Share>>): (cs: seq<string>)
    ensures |cs| <= 3
    ensures sow.Some? ==> |cs| == if |sow.value| < 3 then |sow.value| else 3
    ensures sow.Some? ==> forall i :: 0 <= i < |cs| ==> cs[i] == sow.value[i].code
  {
    if sow.None? then []
    else
      var top := if |sow.value| < 3 then sow.value else sow.value[..3];
      seq(|top|, i requires 0 <= i < |top| => top[i].code)
  }

  /** The grid rows: the top three stores, shuffled. */
  method S4aRows(session: Session, draws: seq<real>) returns (rows: seq<string>)
    requires Randomize.ValidDraws(draws, Randomize.DrawCount(|TopCodes(session.SharesOf("sow_stores"))|))
    ensures multiset(rows) == multiset(TopCodes(session.SharesOf("sow_stores")))
  {
    rows := Randomize.Shuffle(TopCodes(session.SharesOf("sow_stores")), draws);
  }

  /** `freq_store${i + 1}` */
  function FreqKeys(n: nat): (ks: seq<string>)
    requires n <= 3
    ensures |ks| == n
    ensures forall i :: 0 <= i < n ==> ks[i] == "freq_store" + NatToString(i + 1)
    ensures Distinct(ks)
  {
    var ks := seq(n, i requires 0 <= i < n => "freq_store" + NatToString(i + 1));
    forall i, j | 0 <= i < j < n ensures ks[i] != ks[j] {
      assert ks[i][10] != ks[j][10];
    }
    ks
  }

  function FreqData(values: map<string, int>, sow: Option<seq<Share>>): Record
  {
    var top := TopCodes(sow);
    Filled(map[], FreqKeys(|top|), Answers(top, values))
  }

  /** s4a's submit: every displayed row needs an answer. */
  function S4aOutcome(rows: seq<string>, values: map<string, int>, sow: Option<seq<Share>>): (o: Outcome)
    ensures |Missing(rows, values)| > 0 <==> o == Invalid("Please answer for all stores.")
    ensures o.Sent? ==> o == Advance("s4a", "block1_s5", FreqData(values, sow))
    ensures Navigates(o)
  {
    if |Missing(rows, values)| > 0 then Invalid("Please answer for all stores.")
    else Advance("s4a", "block1_s5", FreqData(values, sow))
  }

  /** `freq_store{i}` is the answer for the i-th store in share order,
      whatever order the rows were shown in. */
  lemma FreqDataMeaning(values: map<string, int>, sow: seq<Share>)
    ensures var data := FreqData(values, Some(sow));
            var top := TopCodes(Some(sow));
            forall i :: 0 <= i < |top| ==> Get(data, "freq_store" + NatToString(i + 1)) == Answer(values, sow[i].code)
  {
    var top := TopCodes(Some(sow));
    FilledMeaning(map[], FreqKeys(|top|), Answers(top, values));
  }

  /** The outcome depends on which rows are shown, not on their order. */
  lemma DisplayOrderIrrelevant(rows: seq<string>, rows': seq<string>, values: map<string, int>, sow: Option<seq<Share>>)
    requires multiset(rows) == multiset(rows')
    ensures S4aOutcome(rows, values, sow) == S4aOutcome(rows', values, sow)
  {
    var u, u' := Missing(rows, values), Missing(rows', values);
    assert forall c :: c in rows <==> c in rows' by {
      forall c ensures c in rows <==> c in rows' {
        assert c in rows <==> c in multiset(rows);
        assert c in rows' <==> c in multiset(rows');
      }
    }
    assert (|u| > 0) == (|u'| > 0) by {
      if |u| > 0 {
        assert u[0] in u;
        assert u[0] in u';
      }
      if |u'| > 0 {
        assert u'[0] in u';
        assert u'[0] in u;
      }
    }
  }

  /** The handler, writing `freq_store{i}` in a loop over the top stores. */
  method S4aSubmit(rows: seq<string>, values: map<string, int>, session: Session) returns (o: Outcome)
    ensures o == S4aOutcome(rows, values, session.SharesOf("sow_stores"))
  {
    if |Missing(rows, values)| > 0 {
      return Invalid("Please answer for all stores.");
    }
    var top := TopCodes(session.SharesOf("sow_stores"));
    var data := Fill(map[], FreqKeys(|top|), Answers(top, values));
    o := Advance("s4a", "block1_s5", data);
  }
}
