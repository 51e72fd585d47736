/** Block 6: how often the respondent shops in total (f1) and at Fareway
    (f2, customers only), how much a typical trip costs (f3) and how the
    spending has moved over the year (f4). The save writes the four
    answers and the dollar midpoint of the chosen basket bracket. */
module TripsPage {
  import opened Common
  import opened SurveyFlow
  import LoyaltyPage

  const SELECT_ONE: string := "Please select one option."

  datatype Step = F1 | F2 | F3 | F4

  /** The page's answers, `null` until chosen. */
  datatype Answers = Answers(freqTotal: Option<int>, freqFareway: Option<int>,
                             avgBasket: Option<int>, tripTrend: Option<int>)

  const NO_ANSWERS: Answers := Answers(None, None, None, None)

  /** The f3 brackets in cents, as their labels read: under $25, $25-$50,
      $51-$100, $101-$150, $151-$200, over $200 (no upper end). */
  function Bracket(k: int): (r: Option<(int, Option<int>)>)
    ensures r.Some? <==> 1 <= k <= 6
  {
    if k == 1 then Some((0, Some(2500)))
    else if k == 2 then Some((2500, Some(5000)))
    else if k == 3 then Some((5100, Some(10000)))
    else if k == 4 then Some((10100, Some(15000)))
    else if k == 5 then Some((15100, Some(20000)))
    else if k == 6 then Some((20001, None))
    else None
  }

  /** `BASKET_MIDPOINTS`, in cents: 12.50, 37.50, 75.50, 125.50, 175.50 and
      250.00 dollars for brackets 1 to 6, nothing for any other key. */
  function Midpoint(k: int): (r: Option<int>)
    ensures r.Some? <==> Bracket(k).Some?
  {
    if k == 1 then Some(1250)
    else if k == 2 then Some(3750)
    else if k == 3 then Some(7550)
    else if k == 4 then Some(12550)
    else if k == 5 then Some(17550)
    else if k == 6 then Some(25000)
    else None
  }

  /** Every midpoint sits in its own bracket (the centre of the bounded
      ones), so the midpoints rise with the bracket and none of them is
      the falsy 0 that `|| null` would replace. */
  lemma MidpointsInBrackets(k: int)
    requires 1 <= k <= 6
    ensures var b := Bracket(k).value;
            var m := Midpoint(k).value;
            b.0 <= m && (b.1.Some? ==> m <= b.1.value && m == (b.0 + b.1.value) / 2) && m > 0
    ensures k < 6 ==> Midpoint(k).value < Midpoint(k + 1).value
  {
  }

  /** `avgBasket ? BASKET_MIDPOINTS[avgBasket] || null : null` */
  function MidpointValue(avgBasket: Option<int>): (v: Value)
    ensures v.Num? <==> avgBasket.Some? && 1 <= avgBasket.value <= 6
    ensures v.Num? ==> Some(v.n) == Midpoint(avgBasket.value)
    ensures !v.Num? ==> v == Null
  {
    if avgBasket.Some? && avgBasket.value != 0 then
      match Midpoint(avgBasket.value)
      case Some(m) => if m != 0 then Num(m) else Null
      case None => Null
    else Null
  }

  /** The save's `data`: Fareway's frequency only for customers. */
  function TripsData(segment: string, a: Answers): Record
  {
    map["freq_total" := OptNum(a.freqTotal),
        "freq_fareway" := if LoyaltyPage.Customer(segment) then OptNum(a.freqFareway) else Null,
        "avg_basket" := OptNum(a.avgBasket),
        "avg_basket_midpoint" := MidpointValue(a.avgBasket),
        "trip_trend" := OptNum(a.tripTrend)]
  }

  /** Each step's check: its single choice is made. */
  predicate Passes(step: Step, a: Answers)
  {
    match step
    case F1 => a.freqTotal.Some?
    case F2 => a.freqFareway.Some?
    case F3 => a.avgBasket.Some?
    case F4 => a.tripTrend.Some?
  }

  datatype Turn = Turn(o: Outcome, step: Step, error: string)

  /** The order of the questions: f1 leads customers to f2 and everyone
      else straight to f3. */
  predicate Follows(segment: string, from: Step, to: Step)
  {
    match from
    case F1 => to == if LoyaltyPage.Customer(segment) then F2 else F3
    case F2 => to == F3
    case F3 => to == F4
    case F4 => false
  }

  /** `handleNext` on the page's values: the error is cleared first, an
      unanswered question shows the one message, an answered one moves
      on, and f4 saves. */
  function Next(step: Step, segment: string, a: Answers): (t: Turn)
    ensures !t.o.Ignored?
    ensures t.o.Invalid? <==> !Passes(step, a)
    ensures t.o.Invalid? ==> t.o.message == SELECT_ONE && t.error == SELECT_ONE && t.step == step
    ensures !t.o.Invalid? ==> t.error == ""
    ensures t.o == Moved <==> step != F4 && Passes(step, a)
    ensures t.o == Moved ==> Follows(segment, step, t.step)
    ensures t.o.Sent? <==> step == F4 && Passes(step, a)
    ensures t.o.Sent? ==> t.o == Advance("block6", "block7", TripsData(segment, a)) && t.o.path == "/survey/block7" &&
                          t.step == step
  {
    PagePaths();
    if !Passes(step, a) then Turn(Invalid(SELECT_ONE), step, SELECT_ONE)
    else match step
      case F1 => Turn(Moved, if LoyaltyPage.Customer(segment) then F2 else F3, "")
      case F2 => Turn(Moved, F3, "")
      case F3 => Turn(Moved, F4, "")
      case F4 => Turn(Advance("block6", "block7", TripsData(segment, a)), F4, "")
  }

  /** Where the respondent can be: never at f2 unless a customer, and
      past each question only with its answer chosen. */
  predicate OnRoute(step: Step, segment: string, a: Answers)
  {
    (step == F2 ==> LoyaltyPage.Customer(segment)) &&
    (step != F1 ==> a.freqTotal.Some?) &&
    (LoyaltyPage.Customer(segment) && (step == F3 || step == F4) ==> a.freqFareway.Some?) &&
    (step == F4 ==> a.avgBasket.Some?)
  }

  /** A click keeps the respondent on the route. */
  lemma NextKeepsRoute(step: Step, segment: string, a: Answers)
    requires OnRoute(step, segment, a)
    ensures OnRoute(Next(step, segment, a).step, segment, a)
  {
  }

  /** A save reached along the route holds every answer as a number, the
      Fareway frequency exactly for customers, and a midpoint exactly
      when the basket is one of the six brackets. */
  lemma SavedTrips(segment: string, a: Answers)
    requires OnRoute(F4, segment, a) && Passes(F4, a)
    ensures var d := TripsData(segment, a);
            d["freq_total"].Num? && d["avg_basket"].Num? && d["trip_trend"].Num? &&
            (d["freq_fareway"].Num? <==> LoyaltyPage.Customer(segment)) &&
            (d["avg_basket_midpoint"].Num? <==> 1 <= a.avgBasket.value <= 6)
  {
  }

  /** The page's state between clicks. */
  class Block6 {
    var step: Step
    var segment: string
    var error: string
    var answers: Answers

    predicate Valid()
      reads this
    {
      OnRoute(step, segment, answers)
    }

    /** The mount effect, on `sessionStorage.getItem('segment') || ''`. */
    constructor(stored: Option<string>)
      ensures segment == (if stored.Some? then stored.value else "")
      ensures step == F1 && error == "" && answers == NO_ANSWERS
      ensures Valid()
    {
      segment := if stored.Some? then stored.value else "";
      step := F1;
      error := "";
      answers := NO_ANSWERS;
    }

    /** f1's choice; every choice clears the error. */
    method SetFreqTotal(v: int)
      requires Valid()
      modifies this
      ensures Valid()
      ensures answers == old(answers).(freqTotal := Some(v)) && error == ""
      ensures step == old(step) && segment == old(segment)
    {
      answers := answers.(freqTotal := Some(v));
      error := "";
    }

    method SetFreqFareway(v: int)
      requires Valid()
      modifies this
      ensures Valid()
      ensures answers == old(answers).(freqFareway := Some(v)) && error == ""
      ensures step == old(step) && segment == old(segment)
    {
      answers := answers.(freqFareway := Some(v));
      error := "";
    }

    method SetAvgBasket(v: int)
      requires Valid()
      modifies this
      ensures Valid()
      ensures answers == old(answers).(avgBasket := Some(v)) && error == ""
      ensures step == old(step) && segment == old(segment)
    {
      answers := answers.(avgBasket := Some(v));
      error := "";
    }

    method SetTripTrend(v: int)
      requires Valid()
      modifies this
      ensures Valid()
      ensures answers == old(answers).(tripTrend := Some(v)) && error == ""
      ensures step == old(step) && segment == old(segment)
    {
      answers := answers.(tripTrend := Some(v));
      error := "";
    }

    /** `handleNext`: the click, applied to the page's state. */
    method HandleNext() returns (o: Outcome)
      requires Valid()
      modifies this
      ensures Valid()
      ensures var t := Next(old(step), old(segment), old(answers));
              o == t.o && step == t.step && error == t.error
      ensures segment == old(segment) && answers == old(answers)
    {
      NextKeepsRoute(step, segment, answers);
      error := "";
      if !Passes(step, answers) {
        error := SELECT_ONE;
        return Invalid(error);
      }
      match step {
        case F1 => step := if LoyaltyPage.Customer(segment) then F2 else F3;
        case F2 => step := F3;
        case F3 => step := F4;
        case F4 =>
          o := Advance("block6", "block7", TripsData(segment, answers));
          return;
      }
      o := Moved;
    }
  }
}
