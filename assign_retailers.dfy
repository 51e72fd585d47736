/** POST /api/survey/assign-retailers: picks up to three retailers (R1, R2,
    R3) for a respondent's NPS questions. R1 is the primary store; R2 and R3
    come from the least-fill RPC over a shrinking list of candidates. The RPC
    body is not part of this model: each call is an oracle answer supplied by
    the caller, which either fails or names a member of the list it is given,
    and a successful call adds one to that member's fill count. */
module AssignRetailers {
  import opened Common
  import Respondents

  /** The outcome of one `least_fill_select` call: an error, or the choice of
      member `k % |eligible|` (so every member can be chosen). */
  datatype Answer = Choice(k: nat) | RpcError

  /** The member an oracle answer names; None when the call fails. */
  function Chosen(eligible: seq<string>, a: Answer): (r: Option<string>)
    requires |eligible| > 0
    ensures r.Some? <==> a.Choice?
    ensures r.Some? ==> r.value in eligible
  {
    if a.RpcError? then None else Some(eligible[a.k % |eligible|])
  }

  function Bump(counts: map<string, nat>, store: string): (c: map<string, nat>)
    ensures c.Keys == counts.Keys + {store}
    ensures c[store] == (if store in counts then counts[store] else 0) + 1
    ensures forall s :: s in counts && s != store ==> c[s] == counts[s]
  {
    counts[store := (if store in counts then counts[store] else 0) + 1]
  }

  function BumpAll(counts: map<string, nat>, stores: seq<string>): map<string, nat>
    decreases |stores|
  {
    if stores == [] then counts else BumpAll(Bump(counts, stores[0]), stores[1..])
  }

  function Bumped(r: Option<string>): seq<string>
  {
    if r.Some? then [r.value] else []
  }

  /** The fill-count table behind the least-fill RPC. */
  class FillTable {
    var counts: map<string, nat>

    constructor (counts0: map<string, nat>)
      ensures counts == counts0
    {
      counts := counts0;
    }

    /** One `least_fill_select` call over a non-empty list. */
    method LeastFillSelect(eligible: seq<string>, a: Answer) returns (r: Option<string>)
      requires |eligible| > 0
      modifies this
      ensures r == Chosen(eligible, a)
      ensures counts == BumpAll(old(counts), Bumped(r))
    {
      r := Chosen(eligible, a);
      if r.Some? {
        counts := Bump(counts, r.value);
      }
    }
  }

  /** The three picks. */
  datatype Assignment = Assignment(r1: string, r2: Option<string>, r3: Option<string>)

  /** The oracle answers of one request, in call order: the R2 call (or the
      Fareway tracking call), the R3 call, and the call that counts R1. */
  datatype Answers = Answers(second: Answer, third: Answer, first: Answer)

  predicate FarewayOverride(candidates: seq<string>, segment: string)
  {
    segment == "secondary_shopper" && "fareway" in candidates
  }

  /** R2 and the candidates left for R3. */
  function PickSecond(candidates: seq<string>, segment: string, a: Answer): (Option<string>, seq<string>)
  {
    if FarewayOverride(candidates, segment) then (Some("fareway"), Without(candidates, "fareway"))
    else if |candidates| > 0 then
      var r2 := Chosen(candidates, a);
      (r2, if r2.Some? then Without(candidates, r2.value) else candidates)
    else (None, candidates)
  }

  /** The selection the route makes, as a function of its inputs. */
  function Select(stores: seq<string>, primary: string, segment: string, answers: Answers): Assignment
  {
    var candidates := Without(stores, primary);
    var (r2, rest) := PickSecond(candidates, segment, answers.second);
    var r3 := if |rest| > 0 then Chosen(rest, answers.third) else None;
    Assignment(primary, r2, r3)
  }

  /** The stores whose fill count one request bumps, in call order. */
  function Bumps(stores: seq<string>, primary: string, segment: string, answers: Answers): seq<string>
  {
    var candidates := Without(stores, primary);
    var sel := Select(stores, primary, segment, answers);
    var second := if FarewayOverride(candidates, segment) then Bumped(Chosen(["fareway"], answers.second)) else Bumped(sel.r2);
    second + Bumped(sel.r3) + Bumped(Chosen([primary], answers.first))
  }

  /** R1 is the primary store; R2 and R3 are stores the respondent shopped
      (in stores_last_3m); and R1, R2, R3 are pairwise distinct where set. */
  lemma {:induction false} SelectDistinct(stores: seq<string>, primary: string, segment: string, answers: Answers)
    ensures var a := Select(stores, primary, segment, answers);
            a.r1 == primary &&
            (a.r2.Some? ==> a.r2.value in stores && a.r2.value != a.r1) &&
            (a.r3.Some? ==> a.r3.value in stores && a.r3.value != a.r1) &&
            (a.r2.Some? && a.r3.Some? ==> a.r2.value != a.r3.value)
  {
    var candidates := Without(stores, primary);
    var (r2, rest) := PickSecond(candidates, segment, answers.second);
    assert forall s :: s in rest ==> s in candidates && (r2.Some? ==> s != r2.value);
  }

  /** The Fareway override: a secondary shopper who shopped Fareway (and whose
      primary store is not Fareway) gets Fareway as R2, and Fareway's count is
      bumped by the tracking call whatever the oracle would have chosen. */
  lemma FarewayOverrideHolds(stores: seq<string>, primary: string, answers: Answers)
    requires "fareway" in stores && primary != "fareway"
    ensures Select(stores, primary, "secondary_shopper", answers).r2 == Some("fareway")
    ensures var r3 := Select(stores, primary, "secondary_shopper", answers).r3;
            r3.Some? ==> r3.value != "fareway"
    ensures answers.second.Choice? ==> Bumps(stores, primary, "secondary_shopper", answers)[0] == "fareway"
  {
    assert "fareway" in Without(stores, primary);
  }

  /** Without the override, R2 is exactly the oracle's pick among the candidates:
      it is null when the RPC fails, and when no candidate is left. */
  lemma SecondIsOraclePick(stores: seq<string>, primary: string, segment: string, answers: Answers)
    requires !FarewayOverride(Without(stores, primary), segment)
    ensures var c := Without(stores, primary);
            Select(stores, primary, segment, answers).r2 == (if |c| > 0 then Chosen(c, answers.second) else None)
  {
  }

  /** When the R2 call fails, R2 is null and yet R3 is assigned from the same
      candidates: the two-candidate case shows it. */
  lemma ThirdWithoutSecond()
    ensures var a := Select(["fareway", "hyvee", "aldi"], "fareway", "primary_shopper", Answers(RpcError, Choice(0), Choice(0)));
            a.r2 == None && a.r3 == Some("hyvee")
  {
    assert Without(["fareway", "hyvee", "aldi"], "fareway") == ["hyvee", "aldi"];
  }

  /** R1's fill count is bumped exactly once, and last, by its own call. */
  lemma PrimaryBumpedLast(stores: seq<string>, primary: string, segment: string, answers: Answers)
    requires answers.first.Choice?
    ensures var b := Bumps(stores, primary, segment, answers);
            |b| > 0 && b[|b| - 1] == primary && multiset(b)[primary] == 1
  {
    var candidates := Without(stores, primary);
    var sel := Select(stores, primary, segment, answers);
    var second: seq<string>;
    if FarewayOverride(candidates, segment) {
      second := Bumped(Chosen(["fareway"], answers.second));
      assert "fareway" != primary;
    } else {
      second := Bumped(sel.r2);
      SelectDistinct(stores, primary, segment, answers);
    }
    assert primary !in second && multiset(second)[primary] == 0;
    SelectDistinct(stores, primary, segment, answers);
    assert primary !in Bumped(sel.r3) && multiset(Bumped(sel.r3))[primary] == 0;
    assert Bumps(stores, primary, segment, answers) == second + Bumped(sel.r3) + [primary];
  }

  /** The route's reply. */
  datatype AssignReply = Assigned(a: Assignment) | Failed(status: nat, msg: string)

  function OptStore(r: Option<string>): Value
  {
    if r.Some? then Str(r.value) else Null
  }

  /** The record fields the route writes. */
  function AssignmentPatch(a: Assignment): Record
  {
    map["nps_r1_store" := Str(a.r1), "nps_r2_store" := OptStore(a.r2), "nps_r3_store" := OptStore(a.r3)]
  }

  predicate MissingFields(rid: string, stores: Option<seq<string>>, primary: string, segment: string)
  {
    rid == "" || stores.None? || primary == "" || segment == ""
  }

  /** The route. Missing fields are refused before any RPC; otherwise the
      candidates shrink step by step as R2 and R3 are chosen, R1 is counted,
      and the three picks are written to the respondent's record. */
  method Assign(fill: FillTable, table: Respondents.RespondentTable,
                rid: string, stores: Option<seq<string>>, primary: string, segment: string,
                answers: Answers, updateFails: bool) returns (reply: AssignReply)
    modifies fill, table
    ensures MissingFields(rid, stores, primary, segment) ==>
              reply == Failed(400, "Missing required fields") && fill.counts == old(fill.counts) && table.rows == old(table.rows)
    ensures !MissingFields(rid, stores, primary, segment) ==>
              var a := Select(stores.value, primary, segment, answers);
              fill.counts == BumpAll(old(fill.counts), Bumps(stores.value, primary, segment, answers)) &&
              reply == (if updateFails then Failed(500, "Database error") else Assigned(a)) &&
              table.rows == (if !updateFails && rid in old(table.rows)
                             then old(table.rows)[rid := old(table.rows)[rid] + AssignmentPatch(a)]
                             else old(table.rows))
  {
    if MissingFields(rid, stores, primary, segment) {
      return Failed(400, "Missing required fields");
    }
    var r1 := primary;
    var remaining := Without(stores.value, r1);
    ghost var candidates := remaining;
    ghost var c0 := fill.counts;
    var r2: Option<string> := None;
    if segment == "secondary_shopper" && "fareway" in remaining {
      r2 := Some("fareway");
      remaining := Without(remaining, "fareway");
      var _ := fill.LeastFillSelect(["fareway"], answers.second);
    } else if |remaining| > 0 {
      var picked := fill.LeastFillSelect(remaining, answers.second);
      if picked.Some? {
        r2 := picked;
        remaining := Without(remaining, picked.value);
      }
    }
    assert (r2, remaining) == PickSecond(candidates, segment, answers.second);
    ghost var c1 := fill.counts;
    var r3: Option<string> := None;
    if |remaining| > 0 {
      r3 := fill.LeastFillSelect(remaining, answers.third);
    }
    ghost var c2 := fill.counts;
    var counted := fill.LeastFillSelect([r1], answers.first);
    ghost var b := Bumps(stores.value, primary, segment, answers);
    BumpAllAppend(c0, c1, c2, fill.counts, b, segment, candidates, Select(stores.value, primary, segment, answers),
                  Chosen(["fareway"], answers.second), counted);
    var a := Assignment(r1, r2, r3);
    var ok := table.Update(rid, AssignmentPatch(a), updateFails);
    if !ok {
      return Failed(500, "Database error");
    }
    return Assigned(a);
  }

  lemma {:induction false} BumpAllConcat(c: map<string, nat>, x: seq<string>, y: seq<string>)
    ensures BumpAll(c, x + y) == BumpAll(BumpAll(c, x), y)
    decreases |x|
  {
    if x != [] {
      assert (x + y)[1..] == x[1..] + y;
      BumpAllConcat(Bump(c, x[0]), x[1..], y);
    } else {
      assert x + y == y;
    }
  }

  /** Glues the three bump steps of Assign into the single BumpAll of its contract. */
  lemma BumpAllAppend(c0: map<string, nat>, c1: map<string, nat>, c2: map<string, nat>, c3: map<string, nat>,
                      b: seq<string>, segment: string, candidates: seq<string>, sel: Assignment,
                      tracking: Option<string>, counted: Option<string>)
    requires c1 == BumpAll(c0, if FarewayOverride(candidates, segment) then Bumped(tracking) else Bumped(sel.r2))
    requires c2 == BumpAll(c1, Bumped(sel.r3))
    requires c3 == BumpAll(c2, Bumped(counted))
    requires b == (if FarewayOverride(candidates, segment) then Bumped(tracking) else Bumped(sel.r2)) + Bumped(sel.r3) + Bumped(counted)
    ensures c3 == BumpAll(c0, b)
  {
    var s := if FarewayOverride(candidates, segment) then Bumped(tracking) else Bumped(sel.r2);
    BumpAllConcat(c0, s, Bumped(sel.r3));
    BumpAllConcat(c0, s + Bumped(sel.r3), Bumped(counted));
  }
}
