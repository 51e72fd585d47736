/** Block 4: for each of up to three stores the respondent gives a share of
    spending to, how spending there changed over the past six months (w2),
    why (w3, asked only for "increased" or "decreased"), how the respondent thinks it
    will change (w4) and why (w5, likewise). Answers are kept per store in a
    dictionary of fields, and one save at the end writes ten fields per
    store, numbered by the store's position. */
module RetroPage {
  import opened Common
  import opened SurveyFlow
  import SowAllocation
  import SowPages

  const SELECT_ONE: string := "Please select one option."
  const SPECIFY: string := "Please specify your reason."

  // ---------------------------------------------------------------------------
  // The stores asked about.

  /** `sow_stores.filter(s => s.pct > 0)` */
  function Positive(xs: seq<SowAllocation.Share>): (r: seq<SowAllocation.Share>)
    ensures forall s :: s in r <==> s in xs && s.percent > 0
    ensures |r| <= |xs|
    ensures (forall s :: s in xs ==> s.percent <= 0) ==> r == []
  {
    if xs == [] then []
    else if xs[0].percent > 0 then [xs[0]] + Positive(xs[1..])
    else Positive(xs[1..])
  }

  /** The filter keeps the order of the list it filters. */
  lemma {:induction false} PositiveKeepsOrder(xs: seq<SowAllocation.Share>)
    ensures SubsequenceOf(Positive(xs), xs)
  {
    if xs != [] {
      PositiveKeepsOrder(xs[1..]);
      if xs[0].percent > 0 {
        assert ([xs[0]] + Positive(xs[1..]))[1..] == Positive(xs[1..]);
      }
    }
  }

  /** `store${i + 1}` */
  function StoreKey(num: nat): string
  {
    "store" + NatToString(num)
  }

  lemma StoreKeyInjective(a: nat, b: nat)
    requires 1 <= a <= 9 && 1 <= b <= 9
    ensures StoreKey(a) == StoreKey(b) ==> a == b
  {
    assert NatToString(a) == [DigitChar(a)];
    assert NatToString(b) == [DigitChar(b)];
    if StoreKey(a) == StoreKey(b) {
      assert StoreKey(a)[5] == DigitChar(a);
      assert StoreKey(b)[5] == DigitChar(b);
    }
  }

  /** The mount effect: the first three stores with a positive share, in
      the stored order, keyed `store1`, `store2`, `store3`; none when
      `sow_stores` is not in session storage. */
  function RetroStores(sow: Option<seq<SowAllocation.Share>>): (ss: seq<Slot>)
    ensures sow.None? ==> ss == []
    ensures sow.Some? ==> |ss| == if |Positive(sow.value)| < 3 then |Positive(sow.value)| else 3
    ensures sow.Some? ==> forall i :: 0 <= i < |ss| ==>
              ss[i] == Slot(StoreKey(i + 1), Positive(sow.value)[i].code)
  {
    if sow.None? then []
    else
      var eligible := Positive(sow.value);
      var top := if |eligible| < 3 then eligible else eligible[..3];
      seq(|top|, i requires 0 <= i < |top| => Slot(StoreKey(i + 1), top[i].code))
  }

  /** The store keys are distinct, so each store has its own answers. */
  lemma RetroStoresDistinct(sow: Option<seq<SowAllocation.Share>>)
    ensures |RetroStores(sow)| <= 3 && DistinctKeys(RetroStores(sow))
  {
    var ss := RetroStores(sow);
    forall i, j | 0 <= i < j < |ss| ensures ss[i].key != ss[j].key {
      StoreKeyInjective(i + 1, j + 1);
    }
  }

  lemma RankedTail(xs: seq<SowAllocation.Share>)
    requires SowPages.SortedByShare(xs) && xs != []
    ensures SowPages.SortedByShare(xs[1..])
  {
    var t := xs[1..];
    forall i | 0 <= i < |t| - 1 ensures t[i].percent >= t[i + 1].percent {
      assert t[i] == xs[i + 1] && t[i + 1] == xs[i + 2];
    }
  }

  /** Filtering a list ranked by share, largest first, keeps a prefix: the
      positive shares all come before the rest. */
  lemma {:induction false} PositiveOfRankedIsPrefix(xs: seq<SowAllocation.Share>)
    requires SowPages.SortedByShare(xs)
    ensures |Positive(xs)| <= |xs| && Positive(xs) == xs[..|Positive(xs)|]
    ensures forall i :: |Positive(xs)| <= i < |xs| ==> xs[i].percent <= 0
  {
    if xs != [] {
      var t := xs[1..];
      RankedTail(xs);
      PositiveOfRankedIsPrefix(t);
      var k := |Positive(t)|;
      if xs[0].percent > 0 {
        PositiveHeadKept(xs, k);
      } else {
        PositiveHeadDropped(xs);
      }
    }
  }

  lemma PositiveHeadKept(xs: seq<SowAllocation.Share>, k: nat)
    requires xs != [] && xs[0].percent > 0
    requires k <= |xs| - 1 && Positive(xs[1..]) == xs[1..][..k]
    requires forall i :: k <= i < |xs| - 1 ==> xs[1..][i].percent <= 0
    ensures Positive(xs) == xs[..k + 1]
    ensures forall i :: k + 1 <= i < |xs| ==> xs[i].percent <= 0
  {
    assert xs[..k + 1] == [xs[0]] + xs[1..][..k];
    forall i | k + 1 <= i < |xs| ensures xs[i].percent <= 0 {
      assert xs[i] == xs[1..][i - 1];
    }
  }

  lemma PositiveHeadDropped(xs: seq<SowAllocation.Share>)
    requires xs != [] && xs[0].percent <= 0 && SowPages.SortedByShare(xs)
    ensures Positive(xs) == []
    ensures forall i :: 0 <= i < |xs| ==> xs[i].percent <= 0
  {
    forall i | 0 <= i < |xs| ensures xs[i].percent <= 0 {
      SowPages.SortedHead(xs, i);
    }
    assert forall s :: s in xs ==> s.percent <= 0;
  }

  /** With `sow_stores` saved by s4 in ranked order, block 4 asks about the
      stores with the largest shares: the first ones of the ranking, all
      with a positive share, and each store left out either has no share
      or comes after the third. */
  lemma RetroAsksLargestShares(ranked: seq<SowAllocation.Share>)
    requires SowPages.SortedByShare(ranked)
    ensures var ss := RetroStores(Some(ranked));
            (forall i :: 0 <= i < |ss| ==> ss[i].code == ranked[i].code && ranked[i].percent > 0) &&
            (forall i :: |ss| <= i < |ranked| ==> ranked[i].percent <= 0 || |ss| == 3)
  {
    PositiveOfRankedIsPrefix(ranked);
    var ss := RetroStores(Some(ranked));
    var p := Positive(ranked);
    forall i | 0 <= i < |ss| ensures ss[i].code == ranked[i].code && ranked[i].percent > 0 {
      assert p[i] == ranked[i];
      assert p[i] in p;
    }
  }

  // ---------------------------------------------------------------------------
  // Answer fields.

  datatype Horizon = Retro | Fwd
  datatype Part = Dir | ReasonInc | ReasonIncText | ReasonDec | ReasonDecText
  datatype Field = Field(h: Horizon, p: Part)

  /** The field names the widgets write into a store's answers. */
  function Name(h: Horizon, p: Part): string
  {
    match (h, p)
    case (Retro, Dir) => "retro_dir"
    case (Retro, ReasonInc) => "retro_reason_inc"
    case (Retro, ReasonIncText) => "retro_reason_inc_text"
    case (Retro, ReasonDec) => "retro_reason_dec"
    case (Retro, ReasonDecText) => "retro_reason_dec_text"
    case (Fwd, Dir) => "fwd_dir"
    case (Fwd, ReasonInc) => "fwd_reason_inc"
    case (Fwd, ReasonIncText) => "fwd_reason_inc_text"
    case (Fwd, ReasonDec) => "fwd_reason_dec"
    case (Fwd, ReasonDecText) => "fwd_reason_dec_text"
  }

  /** `answers[store.key] || {}` */
  function StoreAnswers(answers: map<string, Record>, key: string): Record
  {
    if key in answers then answers[key] else map[]
  }

  /** `dir == null` is false. */
  predicate DirSet(a: Record, h: Horizon)
  {
    Present(Get(a, Name(h, Dir)))
  }

  /** `dir === 1 || dir === 3`: the reason question follows. */
  predicate Asks(a: Record, h: Horizon)
  {
    Get(a, Name(h, Dir)) == Some(Num(1)) || Get(a, Name(h, Dir)) == Some(Num(3))
  }

  /** The reason field the direction selects: the increase reasons for 1,
      the decrease reasons otherwise. */
  function ReasonPart(a: Record, h: Horizon): Part
  {
    if Get(a, Name(h, Dir)) == Some(Num(1)) then ReasonInc else ReasonDec
  }

  function TextPart(a: Record, h: Horizon): Part
  {
    if Get(a, Name(h, Dir)) == Some(Num(1)) then ReasonIncText else ReasonDecText
  }

  predicate ReasonSet(a: Record, h: Horizon)
  {
    Present(Get(a, Name(h, ReasonPart(a, h))))
  }

  /** The "Other" text is a string of three or more characters once trimmed. */
  predicate TextOk(a: Record, h: Horizon)
  {
    var v := Get(a, Name(h, TextPart(a, h)));
    v.Some? && v.value.Str? && |Trim(v.value.s)| >= 3
  }

  /** A reason is chosen, and "Other" (6) comes with its text. */
  predicate ReasonOk(a: Record, h: Horizon)
  {
    ReasonSet(a, h) && (Get(a, Name(h, ReasonPart(a, h))) == Some(Num(6)) ==> TextOk(a, h))
  }

  /** A direction is chosen, and a reason where one is asked. */
  predicate Answered(a: Record, h: Horizon)
  {
    DirSet(a, h) && (Asks(a, h) ==> ReasonOk(a, h))
  }

  predicate Complete(a: Record)
  {
    Answered(a, Retro) && Answered(a, Fwd)
  }

  // ---------------------------------------------------------------------------
  // The save.

  /** `sow_retro_store${n}_…` and `sow_fwd_store${n}_…` */
  function SavePrefix(h: Horizon): string
  {
    if h == Retro then "sow_retro_store" else "sow_fwd_store"
  }

  function PartName(p: Part): string
  {
    match p
    case Dir => "dir"
    case ReasonInc => "reason_inc"
    case ReasonIncText => "reason_inc_text"
    case ReasonDec => "reason_dec"
    case ReasonDecText => "reason_dec_text"
  }

  function SaveKey(num: nat, f: Field): string
  {
    Numbered(SavePrefix(f.h), num, PartName(f.p))
  }

  lemma SaveKeyInjective(a: nat, f: Field, b: nat, g: Field)
    requires 1 <= a <= 9 && 1 <= b <= 9
    ensures SaveKey(a, f) == SaveKey(b, g) ==> a == b && f == g
  {
    if SaveKey(a, f) == SaveKey(b, g) {
      assert SaveKey(a, f)[4] == SavePrefix(f.h)[4];
      assert SaveKey(b, g)[4] == SavePrefix(g.h)[4];
      NumberedInjective(SavePrefix(f.h), a, PartName(f.p), b, PartName(g.p));
    }
  }

  /** The ten fields of one store, in the order the save writes them. */
  const FIELDS: seq<Field> :=
    [Field(Retro, Dir), Field(Retro, ReasonInc), Field(Retro, ReasonIncText), Field(Retro, ReasonDec),
     Field(Retro, ReasonDecText), Field(Fwd, Dir), Field(Fwd, ReasonInc), Field(Fwd, ReasonIncText),
     Field(Fwd, ReasonDec), Field(Fwd, ReasonDecText)]

  lemma FieldsListed()
    ensures |FIELDS| == 10 && Distinct(FIELDS)
  {
  }

  /** Where a field sits in FIELDS: every field is saved. */
  function FieldIndex(f: Field): (j: nat)
    ensures j < |FIELDS| && FIELDS[j] == f
  {
    (if f.h == Retro then 0 else 5) +
    match f.p
    case Dir => 0
    case ReasonInc => 1
    case ReasonIncText => 2
    case ReasonDec => 3
    case ReasonDecText => 4
  }

  /** The direction is saved as it is (left out when never answered); every
      other field with `?? null`. */
  function SaveValue(f: Field, a: Record): (v: Option<Value>)
    ensures f.p != Dir ==> v.Some?
    ensures Present(Get(a, Name(f.h, f.p))) ==> v == Get(a, Name(f.h, f.p))
  {
    var x := Get(a, Name(f.h, f.p));
    if f.p == Dir then x else Some(if Present(x) then x.value else Null)
  }

  function StoreKeys(num: nat): (ks: seq<string>)
    ensures |ks| == |FIELDS|
    ensures forall j :: 0 <= j < |ks| ==> ks[j] == SaveKey(num, FIELDS[j])
  {
    seq(|FIELDS|, j requires 0 <= j < |FIELDS| => SaveKey(num, FIELDS[j]))
  }

  function StoreValues(a: Record): (vs: seq<Option<Value>>)
    ensures |vs| == |FIELDS|
    ensures forall j :: 0 <= j < |vs| ==> vs[j] == SaveValue(FIELDS[j], a)
  {
    seq(|FIELDS|, j requires 0 <= j < |FIELDS| => SaveValue(FIELDS[j], a))
  }

  lemma StoreKeysDistinct(num: nat)
    requires 1 <= num <= 9
    ensures Distinct(StoreKeys(num))
  {
    FieldsListed();
    var ks := StoreKeys(num);
    forall i, j | 0 <= i < j < |ks| ensures ks[i] != ks[j] {
      SaveKeyInjective(num, FIELDS[i], num, FIELDS[j]);
    }
  }

  /** The `data` object of the save: each store's ten fields in turn. */
  function RetroData(stores: seq<Slot>, answers: map<string, Record>): Record
    decreases |stores|
  {
    if stores == [] then map[]
    else
      var n := |stores|;
      Filled(RetroData(stores[..n - 1], answers), StoreKeys(n), StoreValues(StoreAnswers(answers, stores[n - 1].key)))
  }

  /** One store's writes: its own keys get its answers, and the keys of
      every other position keep what they had. */
  lemma StoreWritesMeaning(prev: Record, n: nat, a: Record)
    requires 1 <= n <= 9
    ensures forall f :: Get(Filled(prev, StoreKeys(n), StoreValues(a)), SaveKey(n, f)) == SaveValue(f, a)
    ensures forall num, f :: 1 <= num <= 9 && num != n ==>
              Get(Filled(prev, StoreKeys(n), StoreValues(a)), SaveKey(num, f)) == Get(prev, SaveKey(num, f))
  {
    FieldsListed();
    StoreKeysDistinct(n);
    FilledMeaning(prev, StoreKeys(n), StoreValues(a));
    forall f ensures Get(Filled(prev, StoreKeys(n), StoreValues(a)), SaveKey(n, f)) == SaveValue(f, a) {
      assert StoreKeys(n)[FieldIndex(f)] == SaveKey(n, f);
    }
    forall num, f | 1 <= num <= 9 && num != n
      ensures Get(Filled(prev, StoreKeys(n), StoreValues(a)), SaveKey(num, f)) == Get(prev, SaveKey(num, f))
    {
      forall j | 0 <= j < |FIELDS| ensures StoreKeys(n)[j] != SaveKey(num, f) {
        SaveKeyInjective(n, FIELDS[j], num, f);
      }
    }
  }

  /** Store number num's answers are saved under its number. */
  lemma {:induction false} RetroDataValues(stores: seq<Slot>, answers: map<string, Record>)
    requires |stores| <= 9
    ensures forall num, f :: 1 <= num <= |stores| ==>
              Get(RetroData(stores, answers), SaveKey(num, f)) == SaveValue(f, StoreAnswers(answers, stores[num - 1].key))
    decreases |stores|
  {
    if stores != [] {
      var n := |stores|;
      var front := stores[..n - 1];
      RetroDataValues(front, answers);
      StoreWritesMeaning(RetroData(front, answers), n, StoreAnswers(answers, stores[n - 1].key));
      assert forall i :: 0 <= i < n - 1 ==> front[i] == stores[i];
    }
  }

  /** Nothing but the listed stores' fields is saved. */
  lemma {:induction false} RetroDataKeys(stores: seq<Slot>, answers: map<string, Record>)
    ensures forall k :: k in RetroData(stores, answers) ==> exists num, f :: 1 <= num <= |stores| && k == SaveKey(num, f)
    decreases |stores|
  {
    if stores != [] {
      var n := |stores|;
      var front := stores[..n - 1];
      RetroDataKeys(front, answers);
      var prev := RetroData(front, answers);
      var vals := StoreValues(StoreAnswers(answers, stores[n - 1].key));
      forall k | k in RetroData(stores, answers) ensures exists num, f :: 1 <= num <= n && k == SaveKey(num, f) {
        if k in StoreKeys(n) {
          var j :| 0 <= j < |StoreKeys(n)| && StoreKeys(n)[j] == k;
          assert k == SaveKey(n, FIELDS[j]);
        } else {
          FilledOutside(prev, StoreKeys(n), vals, k);
          var num, f :| 1 <= num <= n - 1 && k == SaveKey(num, f);
        }
      }
    }
  }

  /** The `forEach` that fills the save's `data`, one store's ten
      assignments at a time. */
  method BuildData(stores: seq<Slot>, answers: map<string, Record>) returns (data: Record)
    ensures data == RetroData(stores, answers)
  {
    data := map[];
    var i := 0;
    while i < |stores|
      invariant 0 <= i <= |stores|
      invariant data == RetroData(stores[..i], answers)
    {
      assert stores[..i + 1][..i] == stores[..i];
      data := Filled(data, StoreKeys(i + 1), StoreValues(StoreAnswers(answers, stores[i].key)));
      i := i + 1;
    }
    assert stores[..|stores|] == stores;
  }

  // ---------------------------------------------------------------------------
  // The step machine: store `idx`, sub-step w2..w5.

  datatype SubStep = W2 | W3 | W4 | W5

  /** What one click yields: the outcome, the store index, the sub-step and
      the error text. */
  datatype Turn = Turn(o: Outcome, idx: nat, sub: SubStep, error: string)

  /** The sub-step's own check. */
  predicate Passes(a: Record, sub: SubStep)
  {
    match sub
    case W2 => DirSet(a, Retro)
    case W3 => ReasonOk(a, Retro)
    case W4 => DirSet(a, Fwd)
    case W5 => ReasonOk(a, Fwd)
  }

  /** The error a failing check shows: a missing choice, or "Other"
      without its text. */
  function Message(a: Record, sub: SubStep): string
  {
    match sub
    case W3 => if ReasonSet(a, Retro) then SPECIFY else SELECT_ONE
    case W5 => if ReasonSet(a, Fwd) then SPECIFY else SELECT_ONE
    case _ => SELECT_ONE
  }

  /** The store's last question: w4 with no reason to ask, or w5. */
  predicate LastOfStore(a: Record, sub: SubStep)
  {
    (sub == W4 && !Asks(a, Fwd)) || sub == W5
  }

  /** `advanceStore`: the next store's w2, or the save after the last. */
  function AdvanceStore(stores: seq<Slot>, idx: nat, sub: SubStep, answers: map<string, Record>): Turn
  {
    if idx + 1 < |stores| then Turn(Moved, idx + 1, W2, "")
    else Turn(Advance("block4", "block5", RetroData(stores, answers)), idx, sub, "")
  }

  /** `handleNext` on the page's values. Each check refuses its sub-step
      with the source's message; a passed sub-step moves to the reason
      question only for "increased" or "decreased", and the last question
      of the last store saves. */
  function Next(stores: seq<Slot>, idx: nat, sub: SubStep, answers: map<string, Record>, error: string): (t: Turn)
    ensures t.o.Ignored? <==> idx >= |stores|
    ensures t.o.Ignored? ==> t.idx == idx && t.sub == sub && t.error == error
    ensures idx < |stores| ==>
              var a := StoreAnswers(answers, stores[idx].key);
              (t.o.Invalid? <==> !Passes(a, sub)) &&
              (t.o.Invalid? ==> t.o.message == Message(a, sub) && t.error == t.o.message && t.idx == idx && t.sub == sub) &&
              (t.o.Moved? || t.o.Sent? ==> t.error == "") &&
              (t.o == Moved && t.sub == W3 <==> sub == W2 && Asks(a, Retro)) &&
              (t.o == Moved && t.sub == W4 <==> (sub == W2 && DirSet(a, Retro) && !Asks(a, Retro)) || (sub == W3 && ReasonOk(a, Retro))) &&
              (t.o == Moved && t.sub == W5 <==> sub == W4 && Asks(a, Fwd)) &&
              (t.o == Moved && t.idx == idx + 1 <==> idx + 1 < |stores| && Passes(a, sub) && LastOfStore(a, sub)) &&
              (t.o == Moved ==> (t.idx == idx + 1 && t.sub == W2) || (t.idx == idx && t.sub != W2)) &&
              (t.o.Sent? <==> idx + 1 == |stores| && Passes(a, sub) && LastOfStore(a, sub))
    ensures t.o.Sent? ==> t.o == Advance("block4", "block5", RetroData(stores, answers)) && t.o.path == "/survey/block5" &&
                          t.idx == idx && t.sub == sub
  {
    PagePaths();
    if idx >= |stores| then Turn(Ignored, idx, sub, error)
    else
      var a := StoreAnswers(answers, stores[idx].key);
      if !Passes(a, sub) then Turn(Invalid(Message(a, sub)), idx, sub, Message(a, sub))
      else match sub
        case W2 => if Asks(a, Retro) then Turn(Moved, idx, W3, "") else Turn(Moved, idx, W4, "")
        case W3 => Turn(Moved, idx, W4, "")
        case W4 => if Asks(a, Fwd) then Turn(Moved, idx, W5, "") else AdvanceStore(stores, idx, sub, answers)
        case W5 => AdvanceStore(stores, idx, sub, answers)
  }

  /** Where the current store stands: w3 is reached only for a direction
      that asks a reason, w4 and w5 only with the past six months answered,
      w5 only for a future change that asks a reason. */
  predicate InStore(a: Record, sub: SubStep)
  {
    (sub == W3 ==> Asks(a, Retro)) &&
    (sub == W4 || sub == W5 ==> Answered(a, Retro)) &&
    (sub == W5 ==> Asks(a, Fwd))
  }

  /** Every store before `idx` is fully answered, and the current one stands
      where its sub-step says. */
  predicate Progress(stores: seq<Slot>, idx: nat, sub: SubStep, answers: map<string, Record>)
  {
    (forall j :: 0 <= j < |stores| && j < idx ==> Complete(StoreAnswers(answers, stores[j].key))) &&
    (idx < |stores| ==> InStore(StoreAnswers(answers, stores[idx].key), sub))
  }

  /** A click keeps the progress, and the save comes only once every store
      is fully answered. */
  lemma NextKeepsProgress(stores: seq<Slot>, idx: nat, sub: SubStep, answers: map<string, Record>, error: string)
    requires Progress(stores, idx, sub, answers) && (idx < |stores| || idx == 0)
    ensures var t := Next(stores, idx, sub, answers, error);
            Progress(stores, t.idx, t.sub, answers) && (t.idx < |stores| || t.idx == 0)
    ensures Next(stores, idx, sub, answers, error).o.Sent? ==>
              forall j :: 0 <= j < |stores| ==> Complete(StoreAnswers(answers, stores[j].key))
  {
    var t := Next(stores, idx, sub, answers, error);
    if idx < |stores| && (t.o.Sent? || t.idx == idx + 1) {
      var a := StoreAnswers(answers, stores[idx].key);
      assert Complete(a);
    }
  }

  /** After a save from fully answered stores, every store's two
      directions are in the record, and so is the reason for each change. */
  lemma SavedAnswersComplete(stores: seq<Slot>, answers: map<string, Record>)
    requires |stores| <= 3
    requires forall j :: 0 <= j < |stores| ==> Complete(StoreAnswers(answers, stores[j].key))
    ensures forall num, h :: 1 <= num <= |stores| ==>
              var a := StoreAnswers(answers, stores[num - 1].key);
              Present(Get(RetroData(stores, answers), SaveKey(num, Field(h, Dir)))) &&
              (Asks(a, h) ==> Present(Get(RetroData(stores, answers), SaveKey(num, Field(h, ReasonPart(a, h))))))
  {
    RetroDataValues(stores, answers);
    forall num, h | 1 <= num <= |stores|
      ensures var a := StoreAnswers(answers, stores[num - 1].key);
              Present(Get(RetroData(stores, answers), SaveKey(num, Field(h, Dir)))) &&
              (Asks(a, h) ==> Present(Get(RetroData(stores, answers), SaveKey(num, Field(h, ReasonPart(a, h))))))
    {
      assert Complete(StoreAnswers(answers, stores[num - 1].key));
    }
  }

  /** The fields the current sub-step's widgets write: the direction on w2
      and w4, the selected reason list and its "Other" text on w3 and w5. */
  predicate Editable(a: Record, sub: SubStep, field: string)
  {
    match sub
    case W2 => field == Name(Retro, Dir)
    case W3 => field == Name(Retro, ReasonPart(a, Retro)) || field == Name(Retro, TextPart(a, Retro))
    case W4 => field == Name(Fwd, Dir)
    case W5 => field == Name(Fwd, ReasonPart(a, Fwd)) || field == Name(Fwd, TextPart(a, Fwd))
  }

  /** An answer the current sub-step shows leaves every passed question
      answered: it is a field of a later question of the current store, and
      the other stores' answers are untouched. */
  lemma EditKeepsProgress(stores: seq<Slot>, idx: nat, sub: SubStep, answers: map<string, Record>, field: string, v: Value)
    requires Progress(stores, idx, sub, answers) && DistinctKeys(stores) && idx < |stores|
    requires Editable(StoreAnswers(answers, stores[idx].key), sub, field)
    ensures var key := stores[idx].key;
            Progress(stores, idx, sub, answers[key := StoreAnswers(answers, key)[field := v]])
  {
    var key := stores[idx].key;
    var a := StoreAnswers(answers, key);
    var a' := a[field := v];
    var answers' := answers[key := a'];
    forall j | 0 <= j < |stores| && j < idx
      ensures StoreAnswers(answers', stores[j].key) == StoreAnswers(answers, stores[j].key)
    {
      assert stores[j].key != key;
    }
    assert StoreAnswers(answers', key) == a';
    if sub != W2 {
      assert Get(a', Name(Retro, Dir)) == Get(a, Name(Retro, Dir));
    }
    if sub == W4 || sub == W5 {
      forall p ensures Get(a', Name(Retro, p)) == Get(a, Name(Retro, p)) {
      }
      assert Answered(a', Retro);
    }
    if sub == W5 {
      assert Get(a', Name(Fwd, Dir)) == Get(a, Name(Fwd, Dir));
    }
  }

  /** The page's state between clicks. */
  class Block4 {
    var stores: seq<Slot>
    var storeIdx: nat
    var subStep: SubStep
    var answers: map<string, Record>
    var error: string

    predicate Valid()
      reads this
    {
      |stores| <= 3 && DistinctKeys(stores) &&
      (storeIdx < |stores| || storeIdx == 0) &&
      Progress(stores, storeIdx, subStep, answers)
    }

    /** The mount effect, on `sow_stores` read from session storage. */
    constructor(sow: Option<seq<SowAllocation.Share>>)
      ensures stores == RetroStores(sow)
      ensures storeIdx == 0 && subStep == W2 && answers == map[] && error == ""
      ensures Valid()
    {
      RetroStoresDistinct(sow);
      stores := RetroStores(sow);
      storeIdx := 0;
      subStep := W2;
      answers := map[];
      error := "";
    }

    predicate HasCurrent()
      reads this
    {
      storeIdx < |stores|
    }

    /** `storeAnswers` */
    function CurrentAnswers(): Record
      reads this
      requires HasCurrent()
    {
      StoreAnswers(answers, stores[storeIdx].key)
    }

    /** `updateStoreAnswer(field, value)`, called by the current sub-step's
      widgets; nothing happens without a current store. */
    method UpdateStoreAnswer(field: string, v: Value)
      requires Valid() && (HasCurrent() ==> Editable(CurrentAnswers(), subStep, field))
      modifies this
      ensures Valid()
      ensures old(HasCurrent()) ==>
                answers == old(answers)[old(stores[storeIdx].key) := old(CurrentAnswers())[field := v]] && error == ""
      ensures !old(HasCurrent()) ==> answers == old(answers) && error == old(error)
      ensures stores == old(stores) && storeIdx == old(storeIdx) && subStep == old(subStep)
    {
      if !HasCurrent() {
        return;
      }
      EditKeepsProgress(stores, storeIdx, subStep, answers, field, v);
      var key := stores[storeIdx].key;
      answers := answers[key := CurrentAnswers()[field := v]];
      error := "";
    }

    /** `handleNext`: the click, applied to the page's state. */
    method HandleNext() returns (o: Outcome)
      requires Valid()
      modifies this
      ensures Valid()
      ensures var t := Next(old(stores), old(storeIdx), old(subStep), old(answers), old(error));
              o == t.o && storeIdx == t.idx && subStep == t.sub && error == t.error
      ensures stores == old(stores) && answers == old(answers)
    {
      NextKeepsProgress(stores, storeIdx, subStep, answers, error);
      if !HasCurrent() {
        return Ignored;
      }
      var a := CurrentAnswers();
      if !Passes(a, subStep) {
        error := Message(a, subStep);
        return Invalid(error);
      }
      error := "";
      match subStep {
        case W2 =>
          subStep := if Asks(a, Retro) then W3 else W4;
          return Moved;
        case W3 =>
          subStep := W4;
          return Moved;
        case W4 =>
          if Asks(a, Fwd) {
            subStep := W5;
            return Moved;
          }
        case W5 =>
      }
      if storeIdx + 1 < |stores| {
        storeIdx := storeIdx + 1;
        subStep := W2;
        return Moved;
      }
      var data := BuildData(stores, answers);
      o := Advance("block4", "block5", data);
    }
  }
}
