/** Block 1, s8: household type, then the quota gate and the retailer
    assignment. The handler runs a fixed sequence: save the household
    answer, ask for a quota place for the segment, terminate if refused,
    otherwise have R1/R2/R3 assigned, keep them in session storage and save
    them with the segment. The quota decision and the assignment reply are
    inputs. */
module QuotaPage {
  import opened Common
  import opened SurveyFlow
  import SegmentLogic
  import AssignRetailers

  function HouseholdData(value: int): Record
  {
    map["household_type" := Num(value),
        "household_type_collapsed" := Str(SegmentLogic.CollapseHousehold(value))]
  }

  /** `assignData.rK`: the pick (null for none) when the route assigned,
      `undefined` when it replied with an error. */
  function ReplyField(reply: AssignRetailers.AssignReply, k: nat): Option<Value>
  {
    if reply.Failed? then None
    else if k == 1 then Some(Str(reply.a.r1))
    else if k == 2 then Some(AssignRetailers.OptStore(reply.a.r2))
    else Some(AssignRetailers.OptStore(reply.a.r3))
  }

  /** `assignData.rK || ''` */
  function StoredPick(reply: AssignRetailers.AssignReply, k: nat): string
  {
    var f := ReplyField(reply, k);
    if f.Some? && f.value.Str? then f.value.s else ""
  }

  /** The second save: the segment and the three picks. */
  function AssignmentData(segment: Value, reply: AssignRetailers.AssignReply): Record
  {
    Put(Put(Put(map["segment" := segment], "nps_r1_store", ReplyField(reply, 1)),
            "nps_r2_store", ReplyField(reply, 2)),
        "nps_r3_store", ReplyField(reply, 3))
  }

  /** The calls s8 makes, in order, and where it goes. */
  function S8Outcome(value: Option<int>, segment: Value, admitted: bool, storesLast3m: seq<string>,
                     primaryStore: Value, reply: AssignRetailers.AssignReply): (o: Outcome)
    ensures value.None? <==> o == Invalid("Please select one option.")
    ensures value.Some? ==>
              o.Sent? && |o.requests| >= 3 &&
              o.requests[0] == SubmitBlock("s8", "block1_s8_processing", HouseholdData(value.value)) &&
              o.requests[1] == CheckQuota(segment)
    ensures value.Some? && !admitted ==>
              o == Sent([o.requests[0], o.requests[1], TerminateAt("quota_full", HouseholdData(value.value))],
                        TerminatedPath("quota_full")) &&
              forall r :: r in o.requests ==> !r.AssignRetailers?
    ensures value.Some? && admitted ==>
              |o.requests| == 4 &&
              o.requests[2] == AssignRetailers(storesLast3m, primaryStore, segment) &&
              o.requests[3] == SubmitBlock("s8_assignments", "block2", AssignmentData(segment, reply)) &&
              o.path == "/survey/block2"
    ensures Navigates(o)
  {
    if value.None? then Invalid("Please select one option.")
    else
      var household := SubmitBlock("s8", "block1_s8_processing", HouseholdData(value.value));
      if !admitted then
        Sent([household, CheckQuota(segment), TerminateAt("quota_full", HouseholdData(value.value))],
             TerminatedPath("quota_full"))
      else
        assert Slashed("block2") == "block2";
        Sent([household, CheckQuota(segment), AssignRetailers(storesLast3m, primaryStore, segment),
              SubmitBlock("s8_assignments", "block2", AssignmentData(segment, reply))], PagePath("block2"))
  }

  /** The second save writes back exactly the picks the route stored on the
      record, and nothing of them when the route failed. */
  lemma AssignmentDataMeaning(segment: Value, reply: AssignRetailers.AssignReply)
    ensures reply.Assigned? ==>
              AssignmentData(segment, reply) == AssignRetailers.AssignmentPatch(reply.a)["segment" := segment]
    ensures reply.Failed? ==> AssignmentData(segment, reply) == map["segment" := segment]
  {
    if reply.Assigned? {
      assert AssignmentData(segment, reply).Keys == AssignRetailers.AssignmentPatch(reply.a)["segment" := segment].Keys;
    } else {
      assert AssignmentData(segment, reply).Keys == {"segment"};
    }
  }

  /** The retailers the later blocks ask about, read back from what s8
      stored: the picks that are not null, in slot order. An R3 assigned
      without an R2 is asked about second. */
  lemma StoredPicksFeedLaterBlocks(a: AssignRetailers.Assignment)
    requires a.r1 != "" && (a.r2.Some? ==> a.r2.value != "") && (a.r3.Some? ==> a.r3.value != "")
    ensures var reply := AssignRetailers.Assigned(a);
            var rs := AssignedRetailers(Some(StoredPick(reply, 1)), Some(StoredPick(reply, 2)), Some(StoredPick(reply, 3)));
            rs[0] == Slot("r1", a.r1) &&
            |rs| == 1 + (if a.r2.Some? then 1 else 0) + (if a.r3.Some? then 1 else 0) &&
            (a.r2.None? && a.r3.Some? ==> rs == [Slot("r1", a.r1), Slot("r3", a.r3.value)])
  {
  }

  /** The handler. Session storage changes only on the admitted path, where
      r1..r3 are stored with a missing pick as ''. */
  method S8Submit(value: Option<int>, session: Session, admitted: bool, reply: AssignRetailers.AssignReply)
    returns (o: Outcome)
    modifies session
    ensures o == S8Outcome(value, old(session.TextValue("segment")), admitted,
                           if old(session.CodesOf("stores_last_3m")).Some? then old(session.CodesOf("stores_last_3m")).value else [],
                           old(session.TextValue("primary_store")), reply)
    ensures value.Some? && admitted ==>
              session.items == old(session.items)["r1" := Text(StoredPick(reply, 1))]
                                                 ["r2" := Text(StoredPick(reply, 2))]
                                                 ["r3" := Text(StoredPick(reply, 3))]
    ensures !(value.Some? && admitted) ==> session.items == old(session.items)
  {
    if value.None? {
      return Invalid("Please select one option.");
    }
    var household := SubmitBlock("s8", "block1_s8_processing", HouseholdData(value.value));
    var segment := session.TextValue("segment");
    var quota := CheckQuota(segment);
    if !admitted {
      return Sent([household, quota, TerminateAt("quota_full", HouseholdData(value.value))], TerminatedPath("quota_full"));
    }
    var stored := session.CodesOf("stores_last_3m");
    var storesLast3m := if stored.Some? then stored.value else [];
    var assign := AssignRetailers(storesLast3m, session.TextValue("primary_store"), segment);
    session.SetItem("r1", Text(StoredPick(reply, 1)));
    session.SetItem("r2", Text(StoredPick(reply, 2)));
    session.SetItem("r3", Text(StoredPick(reply, 3)));
    var save := SubmitBlock("s8_assignments", "block2", AssignmentData(segment, reply));
    o := Sent([household, quota, assign, save], PagePath("block2"));
  }
}
