/** Block 5: why a customer might leave (l1, l1a), what would bring a
    non-customer in (l2, l2a), and how groceries are bought now and will
    be (l3, l4). The segment picks the first question; the save writes the
    channel answers and, for customers or for aware and lapsed
    non-customers, their own reason and free text. */
module LoyaltyPage {
  import opened Common
  import opened SurveyFlow
  import Constants
  import SegmentLogic
  import QualityFlags

  const SELECT_ONE: string := "Please select one option."
  const SPECIFY: string := "Please specify your reason."
  const TOO_SHORT: string := "Please provide at least 5 characters."

  datatype Step = L1 | L1a | L2 | L2a | SignpostL3 | L3 | L4

  /** Primary and secondary shoppers answer l1 and l1a. */
  predicate Customer(segment: string)
  {
    segment == Constants.SegmentName(Constants.PrimaryShopper) ||
    segment == Constants.SegmentName(Constants.SecondaryShopper)
  }

  /** Aware non-customers and lapsed shoppers answer l2 and l2a. */
  predicate Prospect(segment: string)
  {
    segment == Constants.SegmentName(Constants.AwareNonCustomer) ||
    segment == Constants.SegmentName(Constants.Lapsed)
  }

  /** The mount effect: customers start at l1, aware and lapsed at l2,
      everyone else (unaware non-customers, or no segment stored) at the
      signpost before l3. */
  function FirstStep(segment: string): (s: Step)
    ensures s == L1 <==> Customer(segment)
    ensures s == L2 <==> Prospect(segment)
    ensures s == SignpostL3 <==> !Customer(segment) && !Prospect(segment)
  {
    if Customer(segment) then L1 else if Prospect(segment) then L2 else SignpostL3
  }

  /** The page's answers. */
  datatype Answers = Answers(churnRiskReason: Option<int>, churnRiskReasonText: string, farewayImprove: string,
                             acquisitionTrigger: Option<int>, acquisitionTriggerText: string, farewayTryMe: string,
                             channelCurrent: Option<int>, channelChange: Option<int>)

  const NO_ANSWERS: Answers := Answers(None, "", "", None, "", "", None, None)

  /** A reason is chosen, and "Other" (7) comes with three or more
      characters of text once trimmed. */
  predicate ReasonOk(reason: Option<int>, text: string)
  {
    reason.Some? && (reason.value == 7 ==> |Trim(text)| >= 3)
  }

  /** The check of each step. */
  predicate Passes(step: Step, a: Answers)
  {
    match step
    case L1 => ReasonOk(a.churnRiskReason, a.churnRiskReasonText)
    case L1a => |Trim(a.farewayImprove)| >= 5
    case L2 => ReasonOk(a.acquisitionTrigger, a.acquisitionTriggerText)
    case L2a => |Trim(a.farewayTryMe)| >= 5
    case SignpostL3 => true
    case L3 => a.channelCurrent.Some?
    case L4 => a.channelChange.Some?
  }

  /** The error a failing check shows. */
  function Message(step: Step, a: Answers): string
  {
    match step
    case L1 => if a.churnRiskReason.None? then SELECT_ONE else SPECIFY
    case L2 => if a.acquisitionTrigger.None? then SELECT_ONE else SPECIFY
    case L1a => TOO_SHORT
    case L2a => TOO_SHORT
    case _ => SELECT_ONE
  }

  /** `channelCurrent ? collapseChannel(channelCurrent) : null` */
  function Collapsed(channel: Option<int>): Value
  {
    if channel.Some? && channel.value != 0 then Str(SegmentLogic.CollapseChannel(channel.value)) else Null
  }

  /** The channel answers, saved for everyone. */
  function ChannelFields(a: Answers): Record
  {
    map["channel_current" := OptNum(a.channelCurrent),
        "channel_current_collapsed" := Collapsed(a.channelCurrent),
        "channel_change" := OptNum(a.channelChange)]
  }

  /** A customer's reason, its "Other" text (null unless "Other") and the
      free text, trimmed. */
  function ChurnFields(a: Answers): Record
  {
    map["churn_risk_reason" := OptNum(a.churnRiskReason),
        "churn_risk_reason_text" := if a.churnRiskReason == Some(7) then Str(Trim(a.churnRiskReasonText)) else Null,
        "fareway_improve_verbatim" := Str(Trim(a.farewayImprove))]
  }

  /** The same three for aware and lapsed non-customers. */
  function AcquisitionFields(a: Answers): Record
  {
    map["acquisition_trigger" := OptNum(a.acquisitionTrigger),
        "acquisition_trigger_text" := if a.acquisitionTrigger == Some(7) then Str(Trim(a.acquisitionTriggerText)) else Null,
        "fareway_tryme_verbatim" := Str(Trim(a.farewayTryMe))]
  }

  /** The save's `data`: the channel answers, then the segment's own
      fields. */
  function LoyaltyData(segment: string, a: Answers): Record
  {
    if Customer(segment) then ChannelFields(a) + ChurnFields(a)
    else if Prospect(segment) then ChannelFields(a) + AcquisitionFields(a)
    else ChannelFields(a)
  }

  lemma SegmentsExclusive(segment: string)
    ensures !(Customer(segment) && Prospect(segment))
  {
  }

  const CHANNEL_KEYS: set<string> := {"channel_current", "channel_current_collapsed", "channel_change"}
  const CHURN_KEYS: set<string> := {"churn_risk_reason", "churn_risk_reason_text", "fareway_improve_verbatim"}
  const ACQUISITION_KEYS: set<string> := {"acquisition_trigger", "acquisition_trigger_text", "fareway_tryme_verbatim"}

  /** The segments' fields never mix: a customer's save holds the churn
      fields and no acquisition field, a prospect's the other way round,
      and anyone else's only the channel fields. */
  lemma LoyaltyDataKeys(segment: string, a: Answers)
    ensures Customer(segment) ==> LoyaltyData(segment, a).Keys == CHANNEL_KEYS + CHURN_KEYS
    ensures Prospect(segment) ==> LoyaltyData(segment, a).Keys == CHANNEL_KEYS + ACQUISITION_KEYS
    ensures !Customer(segment) && !Prospect(segment) ==> LoyaltyData(segment, a).Keys == CHANNEL_KEYS
  {
    SegmentsExclusive(segment);
    assert ChannelFields(a).Keys == CHANNEL_KEYS;
    assert ChurnFields(a).Keys == CHURN_KEYS;
    assert AcquisitionFields(a).Keys == ACQUISITION_KEYS;
  }

  /** The gibberish flag for l1a reads exactly the trimmed text a
      customer saved here, and finds nothing for anyone else. */
  lemma ImproveTextFlagged(segment: string, a: Answers)
    ensures QualityFlags.TextField(LoyaltyData(segment, a), "fareway_improve_verbatim") ==
              if Customer(segment) then Some(Trim(a.farewayImprove)) else None
  {
    var k := "fareway_improve_verbatim";
    assert k !in ChannelFields(a) && k !in AcquisitionFields(a);
    if Customer(segment) {
      assert (ChannelFields(a) + ChurnFields(a))[k] == Str(Trim(a.farewayImprove));
    }
  }

  lemma TryMeTextFlagged(segment: string, a: Answers)
    ensures QualityFlags.TextField(LoyaltyData(segment, a), "fareway_tryme_verbatim") ==
              if Prospect(segment) then Some(Trim(a.farewayTryMe)) else None
  {
    SegmentsExclusive(segment);
    var k := "fareway_tryme_verbatim";
    assert k !in ChannelFields(a) && k !in ChurnFields(a);
    if Prospect(segment) {
      assert (ChannelFields(a) + AcquisitionFields(a))[k] == Str(Trim(a.farewayTryMe));
    }
  }

  /** What one click yields: the outcome, the new step and the error text. */
  datatype Turn = Turn(o: Outcome, step: Step, error: string)

  /** The order of the questions. */
  predicate Follows(from: Step, to: Step)
  {
    match from
    case L1 => to == L1a
    case L1a => to == SignpostL3
    case L2 => to == L2a
    case L2a => to == SignpostL3
    case SignpostL3 => to == L3
    case L3 => to == L4
    case L4 => false
  }

  /** `handleNext` on the page's values: the error is cleared first, a
      failing check shows its message, a passing one moves to the next
      question, and l4 saves. */
  function Next(step: Step, segment: string, a: Answers): (t: Turn)
    ensures !t.o.Ignored?
    ensures t.o.Invalid? <==> !Passes(step, a)
    ensures t.o.Invalid? ==> t.o.message == Message(step, a) && t.error == t.o.message && t.step == step
    ensures !t.o.Invalid? ==> t.error == ""
    ensures t.o == Moved <==> step != L4 && Passes(step, a)
    ensures t.o == Moved ==> Follows(step, t.step)
    ensures t.o.Sent? <==> step == L4 && Passes(step, a)
    ensures t.o.Sent? ==> t.o == Advance("block5", "block6", LoyaltyData(segment, a)) && t.o.path == "/survey/block6" &&
                          t.step == step
  {
    PagePaths();
    if !Passes(step, a) then Turn(Invalid(Message(step, a)), step, Message(step, a))
    else match step
      case L1 => Turn(Moved, L1a, "")
      case L1a => Turn(Moved, SignpostL3, "")
      case L2 => Turn(Moved, L2a, "")
      case L2a => Turn(Moved, SignpostL3, "")
      case SignpostL3 => Turn(Moved, L3, "")
      case L3 => Turn(Moved, L4, "")
      case L4 => Turn(Advance("block5", "block6", LoyaltyData(segment, a)), L4, "")
  }

  /** The steps the segment's route passes through, and the choices made
      on the passed ones: a customer never sees l2, a prospect never sees
      l1, anyone else starts at the signpost; past l1 the churn reason is
      chosen, past l2 the trigger, and at l4 the current channel. */
  predicate OnRoute(step: Step, segment: string, a: Answers)
  {
    (Customer(segment) ==> step != L2 && step != L2a) &&
    (Prospect(segment) ==> step != L1 && step != L1a) &&
    (!Customer(segment) && !Prospect(segment) ==> step == SignpostL3 || step == L3 || step == L4) &&
    (Customer(segment) && step != L1 ==> a.churnRiskReason.Some?) &&
    (Prospect(segment) && step != L2 ==> a.acquisitionTrigger.Some?) &&
    (step == L4 ==> a.channelCurrent.Some?)
  }

  /** A click keeps the respondent on the segment's route. */
  lemma NextKeepsRoute(step: Step, segment: string, a: Answers)
    requires OnRoute(step, segment, a)
    ensures OnRoute(Next(step, segment, a).step, segment, a)
  {
  }

  /** The channel answers stay readable in every segment's save. */
  lemma ChannelValues(a: Answers, extra: Record)
    requires "channel_current" !in extra && "channel_change" !in extra
    ensures var d := ChannelFields(a) + extra;
            "channel_current" in d && d["channel_current"] == OptNum(a.channelCurrent) &&
            "channel_change" in d && d["channel_change"] == OptNum(a.channelChange)
  {
  }

  /** The saved choices are the answers, as numbers or null. */
  lemma SavedChoiceValues(segment: string, a: Answers)
    ensures var d := LoyaltyData(segment, a);
            "channel_current" in d && d["channel_current"] == OptNum(a.channelCurrent) &&
            "channel_change" in d && d["channel_change"] == OptNum(a.channelChange) &&
            (Customer(segment) ==> "churn_risk_reason" in d && d["churn_risk_reason"] == OptNum(a.churnRiskReason)) &&
            (Prospect(segment) ==> "acquisition_trigger" in d && d["acquisition_trigger"] == OptNum(a.acquisitionTrigger))
  {
    SegmentsExclusive(segment);
    if Customer(segment) {
      ChannelValues(a, ChurnFields(a));
    } else if Prospect(segment) {
      ChannelValues(a, AcquisitionFields(a));
    } else {
      ChannelValues(a, map[]);
      assert ChannelFields(a) + map[] == ChannelFields(a);
    }
  }

  /** A save that follows the route writes every choice the segment was
      asked for as a number. */
  lemma SavedChoices(segment: string, a: Answers)
    requires OnRoute(L4, segment, a) && Passes(L4, a)
    ensures var d := LoyaltyData(segment, a);
            Get(d, "channel_current").Some? && Get(d, "channel_current").value.Num? &&
            Get(d, "channel_change").Some? && Get(d, "channel_change").value.Num? &&
            (Customer(segment) ==> Get(d, "churn_risk_reason").Some? && Get(d, "churn_risk_reason").value.Num?) &&
            (Prospect(segment) ==> Get(d, "acquisition_trigger").Some? && Get(d, "acquisition_trigger").value.Num?)
  {
    SavedChoiceValues(segment, a);
  }

  /** The page's state between clicks. */
  class Block5 {
    var step: Step
    var segment: string
    var error: string
    var answers: Answers

    predicate Valid()
      reads this
    {
      OnRoute(step, segment, answers)
    }

    /** The mount effect, on `sessionStorage.getItem('segment') || ''`. */
    constructor(stored: Option<string>)
      ensures segment == (if stored.Some? then stored.value else "")
      ensures step == FirstStep(segment) && error == "" && answers == NO_ANSWERS
      ensures Valid()
    {
      segment := if stored.Some? then stored.value else "";
      step := FirstStep(if stored.Some? then stored.value else "");
      error := "";
      answers := NO_ANSWERS;
    }

    /** l1's choice: the error is cleared. */
    method SetChurnRiskReason(v: int)
      requires Valid()
      modifies this
      ensures Valid()
      ensures answers == old(answers).(churnRiskReason := Some(v)) && error == ""
      ensures step == old(step) && segment == old(segment)
    {
      answers := answers.(churnRiskReason := Some(v));
      error := "";
    }

    /** l1's "Other" text: the error stays. */
    method SetChurnRiskReasonText(text: string)
      requires Valid()
      modifies this
      ensures Valid()
      ensures answers == old(answers).(churnRiskReasonText := text)
      ensures step == old(step) && segment == old(segment) && error == old(error)
    {
      answers := answers.(churnRiskReasonText := text);
    }

    method SetFarewayImprove(text: string)
      requires Valid()
      modifies this
      ensures Valid()
      ensures answers == old(answers).(farewayImprove := text) && error == ""
      ensures step == old(step) && segment == old(segment)
    {
      answers := answers.(farewayImprove := text);
      error := "";
    }

    method SetAcquisitionTrigger(v: int)
      requires Valid()
      modifies this
      ensures Valid()
      ensures answers == old(answers).(acquisitionTrigger := Some(v)) && error == ""
      ensures step == old(step) && segment == old(segment)
    {
      answers := answers.(acquisitionTrigger := Some(v));
      error := "";
    }

    method SetAcquisitionTriggerText(text: string)
      requires Valid()
      modifies this
      ensures Valid()
      ensures answers == old(answers).(acquisitionTriggerText := text)
      ensures step == old(step) && segment == old(segment) && error == old(error)
    {
      answers := answers.(acquisitionTriggerText := text);
    }

    method SetFarewayTryMe(text: string)
      requires Valid()
      modifies this
      ensures Valid()
      ensures answers == old(answers).(farewayTryMe := text) && error == ""
      ensures step == old(step) && segment == old(segment)
    {
      answers := answers.(farewayTryMe := text);
      error := "";
    }

    method SetChannelCurrent(v: int)
      requires Valid()
      modifies this
      ensures Valid()
      ensures answers == old(answers).(channelCurrent := Some(v)) && error == ""
      ensures step == old(step) && segment == old(segment)
    {
      answers := answers.(channelCurrent := Some(v));
      error := "";
    }

    method SetChannelChange(v: int)
      requires Valid()
      modifies this
      ensures Valid()
      ensures answers == old(answers).(channelChange := Some(v)) && error == ""
      ensures step == old(step) && segment == old(segment)
    {
      answers := answers.(channelChange := Some(v));
      error := "";
    }

    /** The signpost before l3 continues straight to l3. */
    method ContinueSignpost()
      requires Valid()
      modifies this
      ensures Valid()
      ensures step == if old(step) == SignpostL3 then L3 else old(step)
      ensures segment == old(segment) && answers == old(answers) && error == old(error)
    {
      if step == SignpostL3 {
        step := L3;
      }
    }

    /** `handleNext`: the click, applied to the page's state. */
    method HandleNext() returns (o: Outcome)
      requires Valid()
      modifies this
      ensures Valid()
      ensures var t := Next(old(step), old(segment), old(answers));
              o == t.o && step == t.step && error == t.error
      ensures segment == old(segment) && answers == old(answers)
    {
      NextKeepsRoute(step, segment, answers);
      error := "";
      if !Passes(step, answers) {
        error := Message(step, answers);
        return Invalid(error);
      }
      match step {
        case L1 => step := L1a;
        case L1a => step := SignpostL3;
        case L2 => step := L2a;
        case L2a => step := SignpostL3;
        case SignpostL3 => step := L3;
        case L3 => step := L4;
        case L4 =>
          o := Advance("block5", "block6", LoyaltyData(segment, answers));
          return;
      }
      o := Moved;
    }
  }
}
