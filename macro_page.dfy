/** Block 7: how the economy has changed the respondent's grocery habits
    (m1), their finances (m2), what they have cut back on (m3), which
    stores give the best value (m4, up to two) and which have raised or
    held their prices (m5a, m5b, ranked up to three). The save writes the
    answers, the count of cut-backs, the picks and ranks by position and
    one 0/1 flag per cut-back. */
module MacroPage {
  import opened Common
  import opened SurveyFlow
  import Constants
  import MultiSelect

  const SELECT_ONE: string := "Please select one option."
  const SELECT_AT_LEAST_ONE: string := "Please select at least one option."
  const SELECT_A_STORE: string := "Please select at least one store."
  const AT_MOST_TWO: string := "Please select at most 2 stores."
  const RANK_A_STORE: string := "Please rank at least one store."

  const NONE_CODE: string := "tradedown_none"

  /** The m3 cut-backs, in the order the save flags them; the last is
      "None of the above". */
  const TRADEDOWN_CODES: seq<string> :=
    ["tradedown_storebrand", "tradedown_organic", "tradedown_premium",
     "tradedown_discount_grocer", "tradedown_coupons", "tradedown_food_waste", NONE_CODE]

  /** m3's options: one per cut-back, only "None of the above" exclusive. */
  function M3Options(): (opts: seq<MultiSelect.Choice>)
    ensures |opts| == |TRADEDOWN_CODES|
    ensures forall i :: 0 <= i < |opts| ==>
              opts[i].value == Str(TRADEDOWN_CODES[i]) && (opts[i].exclusive <==> TRADEDOWN_CODES[i] == NONE_CODE)
  {
    seq(|TRADEDOWN_CODES|, i requires 0 <= i < |TRADEDOWN_CODES| =>
      MultiSelect.Choice(Str(TRADEDOWN_CODES[i]), TRADEDOWN_CODES[i] == NONE_CODE))
  }

  lemma TradedownCodesDistinct()
    ensures Distinct(TRADEDOWN_CODES)
  {
  }

  /** The options' values are all different. */
  lemma M3ValuesDistinct()
    ensures forall i, j :: 0 <= i < j < |M3Options()| ==> M3Options()[i].value != M3Options()[j].value
  {
    TradedownCodesDistinct();
  }

  /** "None of the above" is the one value m3's widget treats as exclusive. */
  lemma M3Exclusive(v: Value)
    ensures MultiSelect.IsExclusive(M3Options(), v) <==> v == Str(NONE_CODE)
  {
    var opts := M3Options();
    M3ValuesDistinct();
    if MultiSelect.IsExclusive(opts, v) {
      MultiSelect.ExclusiveHasOption(opts, v);
    }
    if v == Str(NONE_CODE) {
      assert opts[6].value == v;
      MultiSelect.FirstOptionDecides(opts, opts[6]);
    }
  }

  /** "None of the above" is never chosen beside another cut-back. */
  predicate NoneAlone(tradedowns: seq<Value>)
  {
    Str(NONE_CODE) in tradedowns ==> tradedowns == [Str(NONE_CODE)]
  }

  /** Every click on m3's widget leaves "None of the above" alone. */
  lemma ToggleLeavesNoneAlone(values: seq<Value>, option: MultiSelect.Choice)
    requires option in M3Options()
    ensures var r := MultiSelect.HandleToggle(M3Options(), values, option, None);
            r.Some? ==> NoneAlone(r.value)
  {
    M3ValuesDistinct();
    M3Exclusive(Str(NONE_CODE));
    if !option.exclusive {
      MultiSelect.ToggleDropsExclusive(M3Options(), values, option, None);
    }
  }

  /** `tradedowns.includes('tradedown_none') ? 0 : tradedowns.length` */
  function TradedownCount(tradedowns: seq<Value>): nat
  {
    if Str(NONE_CODE) in tradedowns then 0 else |tradedowns|
  }

  /** With "None of the above" alone, the count is the number of actual
      cut-backs chosen: the selection less its exclusive values. */
  lemma TradedownCountCountsActions(tradedowns: seq<Value>)
    requires NoneAlone(tradedowns)
    ensures TradedownCount(tradedowns) == |MultiSelect.NonExclusive(M3Options(), tradedowns)|
  {
    if Str(NONE_CODE) in tradedowns {
      M3Exclusive(Str(NONE_CODE));
      assert tradedowns[1..] == [];
    } else {
      forall x | x in tradedowns ensures !MultiSelect.IsExclusive(M3Options(), x) {
        M3Exclusive(x);
      }
      MultiSelect.AllKept(M3Options(), tradedowns);
    }
  }

  /** `RETAILERS.filter(r => funnelData[r.code] >= 2 && r.code !== 'other')`:
      the retailers at least considered, in catalogue order; none when the
      funnel levels are not in session storage. */
  function Considered(funnel: Option<map<string, int>>): (cs: seq<string>)
    ensures funnel.None? ==> cs == []
    ensures funnel.Some? ==> forall c :: c in cs <==>
              c in Constants.RetailerCodes() && c in funnel.value && funnel.value[c] >= 2 && c != "other"
    ensures SubsequenceOf(cs, Constants.RetailerCodes())
  {
    if funnel.None? then
      assert SubsequenceOf([], Constants.RetailerCodes()) by { EmptySubsequence(Constants.RetailerCodes()); }
      []
    else AtLeastTwo(Constants.RetailerCodes(), funnel.value)
  }

  function AtLeastTwo(codes: seq<string>, funnel: map<string, int>): (cs: seq<string>)
    ensures forall c :: c in cs <==> c in codes && c in funnel && funnel[c] >= 2 && c != "other"
    ensures SubsequenceOf(cs, codes)
  {
    if codes == [] then []
    else
      var rest := AtLeastTwo(codes[1..], funnel);
      if codes[0] in funnel && funnel[codes[0]] >= 2 && codes[0] != "other" then
        assert ([codes[0]] + rest)[1..] == rest;
        [codes[0]] + rest
      else rest
  }

  lemma {:induction false} EmptySubsequence(ys: seq<string>)
    ensures SubsequenceOf([], ys)
    decreases |ys|
  {
    if ys != [] {
      EmptySubsequence(ys[1..]);
    }
  }

  /** `xs[i] || null`: the i-th pick, or null past the end or for a falsy value. */
  function OrNull(xs: seq<Value>, i: nat): Value
  {
    if i < |xs| && Truthy(xs[i]) then xs[i] else Null
  }

  /** The first `n` picks by position, as the save spreads them over
      numbered fields. */
  function Slots(xs: seq<Value>, n: nat): (vs: seq<Value>)
    ensures |vs| == n
    ensures forall i :: 0 <= i < n ==> vs[i] == OrNull(xs, i)
  {
    seq(n, i requires 0 <= i < n => OrNull(xs, i))
  }

  /** Reading numbered fields back: the values up to the first null. */
  function Unslot(vs: seq<Value>): (xs: seq<Value>)
    ensures |xs| <= |vs|
    ensures forall x :: x in xs ==> Truthy(x)
  {
    if vs == [] || !Truthy(vs[0]) then [] else [vs[0]] + Unslot(vs[1..])
  }

  /** The numbered fields give the picks back whenever they all fit and
      none is falsy: no pick is lost or reordered. */
  lemma {:induction false} SlotsRoundTrip(xs: seq<Value>, n: nat)
    requires |xs| <= n
    requires forall x :: x in xs ==> Truthy(x)
    ensures Unslot(Slots(xs, n)) == xs
  {
    if xs == [] {
      if n > 0 {
        assert !Truthy(Slots(xs, n)[0]);
      }
    } else {
      assert Slots(xs, n)[1..] == Slots(xs[1..], n - 1);
      SlotsRoundTrip(xs[1..], n - 1);
    }
  }

  /** A ranking's store codes as the values the save writes. */
  function Codes(ranked: seq<string>): (vs: seq<Value>)
    ensures |vs| == |ranked|
    ensures forall i :: 0 <= i < |ranked| ==> vs[i] == Str(ranked[i])
  {
    seq(|ranked|, i requires 0 <= i < |ranked| => Str(ranked[i]))
  }

  /** The page's answers: the two single choices, the two multi-select
      lists and the two rankings. */
  datatype Answers = Answers(budgetTrend: Option<int>, macroResponse: Option<int>,
                             tradedowns: seq<Value>, bestValue: seq<Value>,
                             priceRaisedRanked: seq<string>, priceStableRanked: seq<string>)

  const NO_ANSWERS: Answers := Answers(None, None, [], [], [], [])

  const BEST_KEYS: seq<string> := ["best_value_1", "best_value_2"]
  const RAISED_KEYS: seq<string> := ["price_raised_rank_1", "price_raised_rank_2", "price_raised_rank_3"]
  const STABLE_KEYS: seq<string> := ["price_stable_rank_1", "price_stable_rank_2", "price_stable_rank_3"]

  /** The fields of the save's object literal, in its order. */
  const BASE_KEYS: seq<string> :=
    ["budget_trend", "macro_response", "tradedown_count"] + BEST_KEYS + RAISED_KEYS + STABLE_KEYS

  /** No two of the save's fields share a name. */
  lemma SaveKeysDistinct()
    ensures Distinct(BASE_KEYS + TRADEDOWN_CODES)
  {
  }

  function Wrapped(vs: seq<Value>): (ws: seq<Option<Value>>)
    ensures |ws| == |vs|
    ensures forall i :: 0 <= i < |vs| ==> ws[i] == Some(vs[i])
  {
    seq(|vs|, i requires 0 <= i < |vs| => Some(vs[i]))
  }

  /** The object literal's values, field by field. */
  function BaseValues(a: Answers): (vs: seq<Option<Value>>)
    ensures |vs| == |BASE_KEYS|
  {
    [Some(OptNum(a.budgetTrend)), Some(OptNum(a.macroResponse)), Some(Num(TradedownCount(a.tradedowns)))] +
    Wrapped(Slots(a.bestValue, 2)) +
    Wrapped(Slots(Codes(a.priceRaisedRanked), 3)) +
    Wrapped(Slots(Codes(a.priceStableRanked), 3))
  }

  /** `tradedowns.includes(code) ? 1 : 0` for each cut-back. */
  function Flags(tradedowns: seq<Value>): (vs: seq<Option<Value>>)
    ensures |vs| == |TRADEDOWN_CODES|
    ensures forall i :: 0 <= i < |TRADEDOWN_CODES| ==>
              vs[i] == Some(Num(if Str(TRADEDOWN_CODES[i]) in tradedowns then 1 else 0))
  {
    seq(|TRADEDOWN_CODES|, i requires 0 <= i < |TRADEDOWN_CODES| =>
      Some(Num(if Str(TRADEDOWN_CODES[i]) in tradedowns then 1 else 0)))
  }

  /** The save's `data`: the object literal, then the `forEach` over the
      cut-backs. */
  function MacroData(a: Answers): Record
  {
    Filled(Filled(map[], BASE_KEYS, BaseValues(a)), TRADEDOWN_CODES, Flags(a.tradedowns))
  }

  /** One flag per cut-back, 1 exactly when it was chosen, and every field
      of the object literal as written: the flags overwrite none of them. */
  lemma SavedFields(a: Answers)
    ensures forall i :: 0 <= i < |TRADEDOWN_CODES| ==>
              Get(MacroData(a), TRADEDOWN_CODES[i]) == Some(Num(if Str(TRADEDOWN_CODES[i]) in a.tradedowns then 1 else 0))
    ensures forall i :: 0 <= i < |BASE_KEYS| ==> Get(MacroData(a), BASE_KEYS[i]) == BaseValues(a)[i]
  {
    SaveKeysDistinct();
    var keys := BASE_KEYS + TRADEDOWN_CODES;
    assert Distinct(TRADEDOWN_CODES) by {
      forall i, j | 0 <= i < j < |TRADEDOWN_CODES| ensures TRADEDOWN_CODES[i] != TRADEDOWN_CODES[j] {
        assert keys[|BASE_KEYS| + i] != keys[|BASE_KEYS| + j];
      }
    }
    assert Distinct(BASE_KEYS) by {
      forall i, j | 0 <= i < j < |BASE_KEYS| ensures BASE_KEYS[i] != BASE_KEYS[j] {
        assert keys[i] != keys[j];
      }
    }
    var inner := Filled(map[], BASE_KEYS, BaseValues(a));
    FilledMeaning(map[], BASE_KEYS, BaseValues(a));
    FilledMeaning(inner, TRADEDOWN_CODES, Flags(a.tradedowns));
    forall i | 0 <= i < |BASE_KEYS| ensures BASE_KEYS[i] !in TRADEDOWN_CODES {
      forall j | 0 <= j < |TRADEDOWN_CODES| ensures BASE_KEYS[i] != TRADEDOWN_CODES[j] {
        assert keys[i] != keys[|BASE_KEYS| + j];
      }
    }
  }

  /** Fields read back from a save, `undefined` read as null. */
  function ReadBack(d: Record, keys: seq<string>): (vs: seq<Value>)
    ensures |vs| == |keys|
    ensures forall i :: 0 <= i < |keys| ==> vs[i] == if keys[i] in d then d[keys[i]] else Null
  {
    seq(|keys|, i requires 0 <= i < |keys| => if keys[i] in d then d[keys[i]] else Null)
  }

  /** The numbered fields of a save, at offset `at` among the literal's
      fields, are the `n` slots of the list they spread. */
  lemma SavedSlots(a: Answers, keys: seq<string>, at: nat, xs: seq<Value>)
    requires at + |keys| <= |BASE_KEYS| && keys == BASE_KEYS[at..at + |keys|]
    requires BaseValues(a)[at..at + |keys|] == Wrapped(Slots(xs, |keys|))
    ensures ReadBack(MacroData(a), keys) == Slots(xs, |keys|)
  {
    SavedFields(a);
    forall i | 0 <= i < |keys|
      ensures ReadBack(MacroData(a), keys)[i] == Slots(xs, |keys|)[i]
    {
      assert keys[i] == BASE_KEYS[at + i];
      assert BaseValues(a)[at + i] == Wrapped(Slots(xs, |keys|))[i];
    }
  }

  /** The picks read back from the save are the picks made, when there
      are at most two and every ranking holds at most three stores. */
  lemma SavedPicks(a: Answers)
    requires |a.bestValue| <= 2 && forall x :: x in a.bestValue ==> Truthy(x)
    requires |a.priceRaisedRanked| <= 3 && forall c :: c in a.priceRaisedRanked ==> c != ""
    requires |a.priceStableRanked| <= 3 && forall c :: c in a.priceStableRanked ==> c != ""
    ensures var d := MacroData(a);
            Unslot(ReadBack(d, BEST_KEYS)) == a.bestValue &&
            Unslot(ReadBack(d, RAISED_KEYS)) == Codes(a.priceRaisedRanked) &&
            Unslot(ReadBack(d, STABLE_KEYS)) == Codes(a.priceStableRanked)
  {
    var raised := Codes(a.priceRaisedRanked);
    var stable := Codes(a.priceStableRanked);
    var vs := BaseValues(a);
    assert vs[3..5] == Wrapped(Slots(a.bestValue, 2));
    assert vs[5..8] == Wrapped(Slots(raised, 3));
    assert vs[8..11] == Wrapped(Slots(stable, 3));
    SavedSlots(a, BEST_KEYS, 3, a.bestValue);
    SavedSlots(a, RAISED_KEYS, 5, raised);
    SavedSlots(a, STABLE_KEYS, 8, stable);
    SlotsRoundTrip(a.bestValue, 2);
    assert forall x :: x in raised ==> Truthy(x) by {
      forall x | x in raised ensures Truthy(x) {
        var i :| 0 <= i < |raised| && raised[i] == x;
        assert a.priceRaisedRanked[i] in a.priceRaisedRanked;
      }
    }
    assert forall x :: x in stable ==> Truthy(x) by {
      forall x | x in stable ensures Truthy(x) {
        var i :| 0 <= i < |stable| && stable[i] == x;
        assert a.priceStableRanked[i] in a.priceStableRanked;
      }
    }
    SlotsRoundTrip(raised, 3);
    SlotsRoundTrip(stable, 3);
  }

  /** The count and the "None of the above" flag agree: the count is 0
      exactly when "None of the above" is flagged, for any non-empty
      selection that keeps it alone. */
  lemma CountMatchesNoneFlag(a: Answers)
    requires a.tradedowns != [] && NoneAlone(a.tradedowns)
    ensures var d := MacroData(a);
            Get(d, "tradedown_count") == Some(Num(0)) <==> Get(d, NONE_CODE) == Some(Num(1))
  {
    SavedFields(a);
    assert BASE_KEYS[2] == "tradedown_count" && TRADEDOWN_CODES[6] == NONE_CODE;
  }

  datatype Step = M1 | M2 | M3 | M4 | M5a | M5b

  /** Each step's check. */
  predicate Passes(step: Step, a: Answers)
  {
    match step
    case M1 => a.budgetTrend.Some?
    case M2 => a.macroResponse.Some?
    case M3 => a.tradedowns != []
    case M4 => 1 <= |a.bestValue| <= 2
    case M5a => a.priceRaisedRanked != []
    case M5b => a.priceStableRanked != []
  }

  /** The error a failing check shows. */
  function Message(step: Step, a: Answers): string
  {
    match step
    case M1 => SELECT_ONE
    case M2 => SELECT_ONE
    case M3 => SELECT_AT_LEAST_ONE
    case M4 => if a.bestValue == [] then SELECT_A_STORE else AT_MOST_TWO
    case M5a => RANK_A_STORE
    case M5b => RANK_A_STORE
  }

  /** The position of a step in the page's fixed order. */
  function Order(step: Step): nat
  {
    match step
    case M1 => 0
    case M2 => 1
    case M3 => 2
    case M4 => 3
    case M5a => 4
    case M5b => 5
  }

  datatype Turn = Turn(o: Outcome, step: Step, error: string)

  /** `handleNext` on the page's values: the error is cleared first, a
      failing check shows its message, a passing one moves to the next
      question, and m5b saves. */
  function Next(step: Step, a: Answers): (t: Turn)
    ensures !t.o.Ignored?
    ensures t.o.Invalid? <==> !Passes(step, a)
    ensures t.o.Invalid? ==> t.o.message == Message(step, a) && t.error == t.o.message && t.step == step
    ensures !t.o.Invalid? ==> t.error == ""
    ensures t.o == Moved <==> step != M5b && Passes(step, a)
    ensures t.o == Moved ==> Order(t.step) == Order(step) + 1
    ensures t.o.Sent? <==> step == M5b && Passes(step, a)
    ensures t.o.Sent? ==> t.o == Advance("block7", "block8", MacroData(a)) && t.o.path == "/survey/block8" &&
                          t.step == step
  {
    PagePaths();
    if !Passes(step, a) then Turn(Invalid(Message(step, a)), step, Message(step, a))
    else match step
      case M1 => Turn(Moved, M2, "")
      case M2 => Turn(Moved, M3, "")
      case M3 => Turn(Moved, M4, "")
      case M4 => Turn(Moved, M5a, "")
      case M5a => Turn(Moved, M5b, "")
      case M5b => Turn(Advance("block7", "block8", MacroData(a)), M5b, "")
  }

  /** Past a question, its answer passed the question's check. */
  predicate OnRoute(step: Step, a: Answers)
  {
    (Order(step) > 0 ==> Passes(M1, a)) &&
    (Order(step) > 1 ==> Passes(M2, a)) &&
    (Order(step) > 2 ==> Passes(M3, a)) &&
    (Order(step) > 3 ==> Passes(M4, a)) &&
    (Order(step) > 4 ==> Passes(M5a, a))
  }

  /** A click keeps the respondent on the route. */
  lemma NextKeepsRoute(step: Step, a: Answers)
    requires OnRoute(step, a)
    ensures OnRoute(Next(step, a).step, a)
  {
  }

  /** A save reached along the route holds both single choices, the
      number of cut-backs unless "None of the above" was chosen, and the
      first best-value pick and the first store of each ranking. */
  lemma SavedAnswers(a: Answers)
    requires OnRoute(M5b, a) && Passes(M5b, a)
    requires Truthy(a.bestValue[0]) && a.priceRaisedRanked[0] != "" && a.priceStableRanked[0] != ""
    ensures var d := MacroData(a);
            Get(d, "budget_trend") == Some(Num(a.budgetTrend.value)) &&
            Get(d, "macro_response") == Some(Num(a.macroResponse.value)) &&
            (Str(NONE_CODE) !in a.tradedowns ==> Get(d, "tradedown_count") == Some(Num(|a.tradedowns|))) &&
            Get(d, "best_value_1") == Some(a.bestValue[0]) &&
            Get(d, "price_raised_rank_1") == Some(Str(a.priceRaisedRanked[0])) &&
            Get(d, "price_stable_rank_1") == Some(Str(a.priceStableRanked[0]))
  {
    SavedFields(a);
    var vs := BaseValues(a);
    assert BASE_KEYS[0] == "budget_trend" && BASE_KEYS[1] == "macro_response" && BASE_KEYS[2] == "tradedown_count";
    assert BASE_KEYS[3] == "best_value_1" && vs[3] == Some(a.bestValue[0]);
    assert BASE_KEYS[5] == "price_raised_rank_1" && vs[5] == Some(Str(a.priceRaisedRanked[0]));
    assert BASE_KEYS[8] == "price_stable_rank_1" && vs[8] == Some(Str(a.priceStableRanked[0]));
  }

  /** The page's state between clicks. */
  class Block7 {
    var step: Step
    var error: string
    var answers: Answers
    /** The stores m4 and the two rankings offer. */
    var stores: seq<string>

    predicate Valid()
      reads this
    {
      OnRoute(step, answers)
    }

    /** The mount: the store list comes from the funnel levels in session
        storage. */
    constructor(session: Session)
      ensures stores == Considered(session.NumbersOf("funnel_data"))
      ensures step == M1 && error == "" && answers == NO_ANSWERS
      ensures Valid()
    {
      stores := Considered(session.NumbersOf("funnel_data"));
      step := M1;
      error := "";
      answers := NO_ANSWERS;
    }

    /** m1's choice; every change clears the error. */
    method SetBudgetTrend(v: int)
      requires Valid()
      modifies this
      ensures Valid()
      ensures answers == old(answers).(budgetTrend := Some(v)) && error == ""
      ensures step == old(step) && stores == old(stores)
    {
      answers := answers.(budgetTrend := Some(v));
      error := "";
    }

    method SetMacroResponse(v: int)
      requires Valid()
      modifies this
      ensures Valid()
      ensures answers == old(answers).(macroResponse := Some(v)) && error == ""
      ensures step == old(step) && stores == old(stores)
    {
      answers := answers.(macroResponse := Some(v));
      error := "";
    }

    /** m3's selection, on the question it belongs to. */
    method SetTradedowns(v: seq<Value>)
      requires Valid() && step == M3
      modifies this
      ensures Valid()
      ensures answers == old(answers).(tradedowns := v) && error == ""
      ensures step == old(step) && stores == old(stores)
    {
      answers := answers.(tradedowns := v);
      error := "";
    }

    method SetBestValue(v: seq<Value>)
      requires Valid() && step == M4
      modifies this
      ensures Valid()
      ensures answers == old(answers).(bestValue := v) && error == ""
      ensures step == old(step) && stores == old(stores)
    {
      answers := answers.(bestValue := v);
      error := "";
    }

    method SetPriceRaisedRanked(v: seq<string>)
      requires Valid() && step == M5a
      modifies this
      ensures Valid()
      ensures answers == old(answers).(priceRaisedRanked := v) && error == ""
      ensures step == old(step) && stores == old(stores)
    {
      answers := answers.(priceRaisedRanked := v);
      error := "";
    }

    method SetPriceStableRanked(v: seq<string>)
      requires Valid() && step == M5b
      modifies this
      ensures Valid()
      ensures answers == old(answers).(priceStableRanked := v) && error == ""
      ensures step == old(step) && stores == old(stores)
    {
      answers := answers.(priceStableRanked := v);
      error := "";
    }

    /** `handleNext`: the click, applied to the page's state; the save
        writes the flags one cut-back at a time. */
    method HandleNext() returns (o: Outcome)
      requires Valid()
      modifies this
      ensures Valid()
      ensures var t := Next(old(step), old(answers));
              o == t.o && step == t.step && error == t.error
      ensures answers == old(answers) && stores == old(stores)
    {
      NextKeepsRoute(step, answers);
      error := "";
      if !Passes(step, answers) {
        error := Message(step, answers);
        return Invalid(error);
      }
      match step {
        case M1 => step := M2;
        case M2 => step := M3;
        case M3 => step := M4;
        case M4 => step := M5a;
        case M5a => step := M5b;
        case M5b =>
          var data := Fill(map[], BASE_KEYS, BaseValues(answers));
          data := Fill(data, TRADEDOWN_CODES, Flags(answers.tradedowns));
          o := Advance("block7", "block8", data);
          return;
      }
      o := Moved;
    }
  }
}
