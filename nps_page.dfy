/** Block 2: a recommendation score (0-10) and a reason for each assigned
    retailer. The page walks 2·n steps, score then reason per retailer,
    validating each before moving on, and saves everything after the last
    reason. Answers are saved under the retailer's position in the list,
    not under its session slot. */
module NpsPage {
  import opened Common
  import opened SurveyFlow
  import SegmentLogic
  import QualityFlags

  const RATING_REQUIRED: string := "Please select a rating."
  const REASON_REQUIRED: string := "Please provide at least a brief explanation (5+ characters)."

  /** `scores[key] as number`: `undefined` when no score was given. */
  function ScoreOf(scores: map<string, int>, key: string): Option<int>
  {
    if key in scores then Some(scores[key]) else None
  }

  /** `npsCategory(score)`: `undefined >= 9` and `undefined >= 7` are both
      false, so a missing score reads as a detractor. */
  function CategoryOf(score: Option<int>): string
  {
    if score.Some? then SegmentLogic.NpsCategory(score.value) else "detractor"
  }

  /** `verbatims[key] || ''` */
  function ReasonOf(verbatims: map<string, string>, key: string): string
  {
    if key in verbatims then verbatims[key] else ""
  }

  /** The three fields saved per retailer. */
  datatype Field = Score | Category | Verbatim

  function FieldName(f: Field): string
  {
    match f
    case Score => "score"
    case Category => "category"
    case Verbatim => "verbatim"
  }

  /** `nps_r${num}_${field}` */
  function NpsKey(num: nat, f: Field): string
  {
    Numbered("nps_r", num, FieldName(f))
  }

  /** Keys of one-digit positions are distinct across positions and fields. */
  lemma NpsKeyInjective(a: nat, f: Field, b: nat, g: Field)
    requires 1 <= a <= 9 && 1 <= b <= 9
    ensures NpsKey(a, f) == NpsKey(b, g) ==> a == b && f == g
  {
    NumberedInjective("nps_r", a, FieldName(f), b, FieldName(g));
  }

  /** The value saved in one field for the retailer with session key `key`. */
  function FieldValue(f: Field, key: string, scores: map<string, int>, verbatims: map<string, string>): Option<Value>
  {
    var score := ScoreOf(scores, key);
    match f
    case Score => if score.Some? then Some(Num(score.value)) else None
    case Category => Some(Str(CategoryOf(score)))
    case Verbatim => Some(Str(ReasonOf(verbatims, key)))
  }

  /** The three writes for the retailer at list position `num`. */
  function PositionData(data: Record, num: nat, key: string,
                        scores: map<string, int>, verbatims: map<string, string>): Record
  {
    Put(Put(Put(data, NpsKey(num, Score), FieldValue(Score, key, scores, verbatims)),
            NpsKey(num, Category), FieldValue(Category, key, scores, verbatims)),
        NpsKey(num, Verbatim), FieldValue(Verbatim, key, scores, verbatims))
  }

  /** The `data` object of the save, after the `forEach` over the list. */
  function NpsData(rs: seq<Slot>, scores: map<string, int>, verbatims: map<string, string>): Record
    decreases |rs|
  {
    if rs == [] then map[]
    else PositionData(NpsData(rs[..|rs| - 1], scores, verbatims), |rs|, rs[|rs| - 1].key, scores, verbatims)
  }

  lemma PositionDataMeaning(data: Record, num: nat, key: string, scores: map<string, int>, verbatims: map<string, string>)
    requires 1 <= num <= 9
    ensures forall f :: Get(PositionData(data, num, key, scores, verbatims), NpsKey(num, f)) == FieldValue(f, key, scores, verbatims)
    ensures forall k :: (forall f :: k != NpsKey(num, f)) ==>
              Get(PositionData(data, num, key, scores, verbatims), k) == Get(data, k)
    ensures forall k :: k !in data && k in PositionData(data, num, key, scores, verbatims) ==>
              exists f :: k == NpsKey(num, f)
  {
    NpsKeyInjective(num, Score, num, Category);
    NpsKeyInjective(num, Score, num, Verbatim);
    NpsKeyInjective(num, Category, num, Verbatim);
    var r := PositionData(data, num, key, scores, verbatims);
    forall k | k !in data && k in r ensures exists f :: k == NpsKey(num, f) {
      if k != NpsKey(num, Score) && k != NpsKey(num, Category) {
        assert Get(r, k) != None;
      }
    }
  }

  /** Position i+1 holds the i-th listed retailer's score, its category and
      its reason. */
  lemma {:induction false} NpsDataValues(rs: seq<Slot>, scores: map<string, int>, verbatims: map<string, string>)
    requires |rs| <= 9
    ensures forall num, f :: 1 <= num <= |rs| ==>
              Get(NpsData(rs, scores, verbatims), NpsKey(num, f)) == FieldValue(f, rs[num - 1].key, scores, verbatims)
    decreases |rs|
  {
    if rs != [] {
      var n := |rs|;
      var front := rs[..n - 1];
      NpsDataValues(front, scores, verbatims);
      var prev := NpsData(front, scores, verbatims);
      PositionDataMeaning(prev, n, rs[n - 1].key, scores, verbatims);
      var data := NpsData(rs, scores, verbatims);
      forall num, f | 1 <= num <= n
        ensures Get(data, NpsKey(num, f)) == FieldValue(f, rs[num - 1].key, scores, verbatims)
      {
        if num < n {
          assert front[num - 1] == rs[num - 1];
          forall g ensures NpsKey(num, f) != NpsKey(n, g) {
            NpsKeyInjective(num, f, n, g);
          }
          assert Get(data, NpsKey(num, f)) == Get(prev, NpsKey(num, f));
        }
      }
    }
  }

  /** Nothing but positions 1..n is saved. */
  lemma {:induction false} NpsDataKeys(rs: seq<Slot>, scores: map<string, int>, verbatims: map<string, string>)
    requires |rs| <= 9
    ensures forall k :: k in NpsData(rs, scores, verbatims) ==> exists i, f :: 1 <= i <= |rs| && k == NpsKey(i, f)
    decreases |rs|
  {
    if rs != [] {
      var n := |rs|;
      var front := rs[..n - 1];
      NpsDataKeys(front, scores, verbatims);
      var prev := NpsData(front, scores, verbatims);
      PositionDataMeaning(prev, n, rs[n - 1].key, scores, verbatims);
      var data := NpsData(rs, scores, verbatims);
      forall k | k in data
        ensures exists i, f :: 1 <= i <= n && k == NpsKey(i, f)
      {
        if k in prev {
          var i, f :| 1 <= i <= n - 1 && k == NpsKey(i, f);
        } else {
          var f :| k == NpsKey(n, f);
        }
      }
    }
  }

  /** `data[nps_r${num}_verbatim]` is the field the quality flags test for
      gibberish: positions 1..3 are the flags' slots "1".."3". */
  lemma VerbatimKeysAreFlagged()
    ensures forall i :: 0 <= i < 3 ==>
              NpsKey(i + 1, Verbatim) == QualityFlags.NpsVerbatimKey(QualityFlags.SLOTS[i])
  {
    assert NatToString(1) == "1" && NatToString(2) == "2" && NatToString(3) == "3";
  }

  /** With r2 left empty, r3's answers are saved at position 2 and nothing
      is saved at position 3. */
  lemma ThirdSlotSavedSecond(a: string, c: string, scores: map<string, int>, verbatims: map<string, string>)
    requires a != "" && c != "" && "r3" in scores
    ensures Get(NpsData(AssignedRetailers(Some(a), Some(""), Some(c)), scores, verbatims), NpsKey(2, Score)) ==
              Some(Num(scores["r3"]))
    ensures forall f :: NpsKey(3, f) !in NpsData(AssignedRetailers(Some(a), Some(""), Some(c)), scores, verbatims)
  {
    var rs := AssignedRetailers(Some(a), Some(""), Some(c));
    PositionNotSlot(a, c);
    NpsDataValues(rs, scores, verbatims);
    assert Get(NpsData(rs, scores, verbatims), NpsKey(2, Score)) == FieldValue(Score, rs[1].key, scores, verbatims);
    NpsDataKeys(rs, scores, verbatims);
    forall f ensures NpsKey(3, f) !in NpsData(rs, scores, verbatims) {
      if NpsKey(3, f) in NpsData(rs, scores, verbatims) {
        var i, g :| 1 <= i <= 2 && NpsKey(3, f) == NpsKey(i, g);
        NpsKeyInjective(3, f, i, g);
      }
    }
  }

  /** The `forEach` that fills `data`. */
  method BuildData(rs: seq<Slot>, scores: map<string, int>, verbatims: map<string, string>) returns (data: Record)
    ensures data == NpsData(rs, scores, verbatims)
  {
    data := map[];
    var i := 0;
    while i < |rs|
      invariant 0 <= i <= |rs|
      invariant data == NpsData(rs[..i], scores, verbatims)
    {
      assert rs[..i + 1][..i] == rs[..i];
      data := PositionData(data, i + 1, rs[i].key, scores, verbatims);
      i := i + 1;
    }
    assert rs[..|rs|] == rs;
  }

  // ---------------------------------------------------------------------------
  // The step machine. Step s is about retailer s / 2: its score when s is
  // even, its reason when s is odd.

  /** Every step behind `step` was answered: a score for each retailer whose
      score step is behind, a reason of five or more characters for each
      whose reason step is behind. */
  predicate Answered(rs: seq<Slot>, step: nat, scores: map<string, int>, verbatims: map<string, string>)
  {
    (forall j :: 0 <= j < |rs| && 2 * j < step ==> rs[j].key in scores) &&
    (forall j :: 0 <= j < |rs| && 2 * j + 1 < step ==> |Trim(ReasonOf(verbatims, rs[j].key))| >= 5)
  }

  /** Passing a score step that has a score keeps every passed step answered. */
  lemma ScoreStepKeepsAnswered(rs: seq<Slot>, step: nat, scores: map<string, int>, verbatims: map<string, string>)
    requires Answered(rs, step, scores, verbatims)
    requires step % 2 == 0 && step / 2 < |rs| && rs[step / 2].key in scores
    ensures Answered(rs, step + 1, scores, verbatims)
  {
    forall j | 0 <= j < |rs| && 2 * j < step + 1 ensures rs[j].key in scores {
      if 2 * j >= step {
        assert j == step / 2;
      }
    }
  }

  /** Passing a reason step with a long enough reason keeps every passed
      step answered. */
  lemma ReasonStepKeepsAnswered(rs: seq<Slot>, step: nat, scores: map<string, int>, verbatims: map<string, string>)
    requires Answered(rs, step, scores, verbatims)
    requires step % 2 == 1 && step / 2 < |rs| && |Trim(ReasonOf(verbatims, rs[step / 2].key))| >= 5
    ensures Answered(rs, step + 1, scores, verbatims)
  {
    forall j | 0 <= j < |rs| && 2 * j + 1 < step + 1 ensures |Trim(ReasonOf(verbatims, rs[j].key))| >= 5 {
      if 2 * j + 1 >= step {
        assert j == step / 2;
      }
    }
  }

  /** Editing the current retailer's answers leaves the passed steps
      answered: scores are only added, and a passed reason belongs to an
      earlier retailer, whose key differs. */
  lemma EditKeepsAnswered(rs: seq<Slot>, step: nat, scores: map<string, int>, verbatims: map<string, string>,
                          score: int, text: string)
    requires Answered(rs, step, scores, verbatims) && DistinctKeys(rs) && step / 2 < |rs|
    ensures Answered(rs, step, scores[rs[step / 2].key := score], verbatims)
    ensures Answered(rs, step, scores, verbatims[rs[step / 2].key := text])
  {
    var key := rs[step / 2].key;
    forall j | 0 <= j < |rs| && 2 * j + 1 < step
      ensures ReasonOf(verbatims[key := text], rs[j].key) == ReasonOf(verbatims, rs[j].key)
    {
      assert j < step / 2;
    }
  }

  /** `handleNext` on the step machine's values. It moves forward by at
      most one step, refuses a score step without a score and a reason step
      with a short reason, and saves only from the last reason step. */
  function Next(rs: seq<Slot>, step: nat, scores: map<string, int>, verbatims: map<string, string>, error: string): (c: Click)
    ensures c.o.Ignored? <==> step / 2 >= |rs|
    ensures c.o.Ignored? ==> c.step == step && c.error == error
    ensures c.o == Moved <==> c.step == step + 1
    ensures c.step == step || c.step == step + 1
    ensures c.o == Invalid(RATING_REQUIRED) <==> step / 2 < |rs| && step % 2 == 0 && rs[step / 2].key !in scores
    ensures c.o == Invalid(REASON_REQUIRED) <==>
              step / 2 < |rs| && step % 2 == 1 && |Trim(ReasonOf(verbatims, rs[step / 2].key))| < 5
    ensures c.o.Invalid? ==> c.error == c.o.message
    ensures c.o.Moved? || c.o.Sent? ==> c.error == ""
    ensures c.o.Sent? <==> step / 2 < |rs| && step % 2 == 1 && step >= 2 * |rs| - 1 &&
                           |Trim(ReasonOf(verbatims, rs[step / 2].key))| >= 5
    ensures c.o.Sent? ==> c.o == Advance("block2", "block3_k1", NpsData(rs, scores, verbatims))
  {
    if step / 2 >= |rs| then Click(Ignored, step, error)
    else
      var key := rs[step / 2].key;
      if step % 2 == 0 then
        if key !in scores then Click(Invalid(RATING_REQUIRED), step, RATING_REQUIRED)
        else Click(Moved, step + 1, "")
      else if |Trim(ReasonOf(verbatims, key))| < 5 then Click(Invalid(REASON_REQUIRED), step, REASON_REQUIRED)
      else if step < 2 * |rs| - 1 then Click(Moved, step + 1, "")
      else Click(Advance("block2", "block3_k1", NpsData(rs, scores, verbatims)), step, "")
  }

  /** A click keeps every passed step answered and the step in range, and a
      save comes only once every listed retailer has a score and a reason
      of five or more characters. */
  lemma NextKeepsAnswered(rs: seq<Slot>, step: nat, scores: map<string, int>, verbatims: map<string, string>, error: string)
    requires Answered(rs, step, scores, verbatims)
    requires step < 2 * |rs| || step == 0
    ensures var c := Next(rs, step, scores, verbatims, error);
            Answered(rs, c.step, scores, verbatims) && (c.step < 2 * |rs| || c.step == 0)
    ensures Next(rs, step, scores, verbatims, error).o.Sent? ==>
              forall j :: 0 <= j < |rs| ==> rs[j].key in scores && |Trim(ReasonOf(verbatims, rs[j].key))| >= 5
  {
    var c := Next(rs, step, scores, verbatims, error);
    if c.o == Moved {
      if step % 2 == 0 {
        ScoreStepKeepsAnswered(rs, step, scores, verbatims);
      } else {
        ReasonStepKeepsAnswered(rs, step, scores, verbatims);
      }
    }
    if c.o.Sent? {
      ReasonStepKeepsAnswered(rs, step, scores, verbatims);
    }
  }

  /** The page's state between clicks. */
  class Block2 {
    var retailers: seq<Slot>
    var currentStep: nat
    var scores: map<string, int>
    var verbatims: map<string, string>
    var error: string

    predicate Valid()
      reads this
    {
      |retailers| <= 3 && DistinctKeys(retailers) &&
      (currentStep < 2 * |retailers| || currentStep == 0) &&
      Answered(retailers, currentStep, scores, verbatims)
    }

    /** The mount effect: the list is read from session storage. */
    constructor(r1: Option<string>, r2: Option<string>, r3: Option<string>)
      ensures retailers == AssignedRetailers(r1, r2, r3)
      ensures currentStep == 0 && scores == map[] && verbatims == map[] && error == ""
      ensures Valid()
    {
      retailers := AssignedRetailers(r1, r2, r3);
      currentStep := 0;
      scores := map[];
      verbatims := map[];
      error := "";
    }

    predicate HasCurrent()
      reads this
    {
      currentStep / 2 < |retailers|
    }

    function CurrentKey(): string
      reads this
      requires HasCurrent()
    {
      retailers[currentStep / 2].key
    }

    /** The rating scale's `onChange`, on the current retailer. */
    method SetScore(v: int)
      requires Valid() && HasCurrent()
      modifies this
      ensures Valid()
      ensures scores == old(scores)[old(CurrentKey()) := v]
      ensures error == ""
      ensures retailers == old(retailers) && currentStep == old(currentStep) && verbatims == old(verbatims)
    {
      EditKeepsAnswered(retailers, currentStep, scores, verbatims, v, "");
      scores := scores[CurrentKey() := v];
      error := "";
    }

    /** The reason box's `onChange`, on the current retailer. */
    method SetVerbatim(text: string)
      requires Valid() && HasCurrent()
      modifies this
      ensures Valid()
      ensures verbatims == old(verbatims)[old(CurrentKey()) := text]
      ensures error == ""
      ensures retailers == old(retailers) && currentStep == old(currentStep) && scores == old(scores)
    {
      EditKeepsAnswered(retailers, currentStep, scores, verbatims, 0, text);
      verbatims := verbatims[CurrentKey() := text];
      error := "";
    }

    /** `handleNext`: the click, applied to the page's state. */
    method HandleNext() returns (o: Outcome)
      requires Valid()
      modifies this
      ensures Valid()
      ensures var c := Next(old(retailers), old(currentStep), old(scores), old(verbatims), old(error));
              o == c.o && currentStep == c.step && error == c.error
      ensures retailers == old(retailers) && scores == old(scores) && verbatims == old(verbatims)
    {
      NextKeepsAnswered(retailers, currentStep, scores, verbatims, error);
      if !HasCurrent() {
        return Ignored;
      }
      var key := CurrentKey();
      if currentStep % 2 == 0 {
        if key !in scores {
          error := RATING_REQUIRED;
          return Invalid(error);
        }
        error := "";
        currentStep := currentStep + 1;
        return Moved;
      }
      var verbatim := ReasonOf(verbatims, key);
      if |Trim(verbatim)| < 5 {
        error := REASON_REQUIRED;
        return Invalid(error);
      }
      error := "";
      if currentStep < 2 * |retailers| - 1 {
        currentStep := currentStep + 1;
        return Moved;
      }
      var data := BuildData(retailers, scores, verbatims);
      o := Advance("block2", "block3_k1", data);
    }
  }

  /** What a completed block 2 saves: for each listed retailer, at its
      position, a score, the category that score falls in, and a reason of
      at least five characters. */
  lemma SavedAnswersComplete(rs: seq<Slot>, scores: map<string, int>, verbatims: map<string, string>)
    requires |rs| <= 3
    requires forall j :: 0 <= j < |rs| ==> rs[j].key in scores && |Trim(ReasonOf(verbatims, rs[j].key))| >= 5
    ensures forall i :: 0 <= i < |rs| ==>
              var data := NpsData(rs, scores, verbatims);
              var reason := Get(data, NpsKey(i + 1, Verbatim));
              Get(data, NpsKey(i + 1, Score)) == Some(Num(scores[rs[i].key])) &&
              Get(data, NpsKey(i + 1, Category)) == Some(Str(SegmentLogic.NpsCategory(scores[rs[i].key]))) &&
              reason.Some? && reason.value.Str? && |Trim(reason.value.s)| >= 5
  {
    NpsDataValues(rs, scores, verbatims);
    forall i | 0 <= i < |rs|
      ensures Get(NpsData(rs, scores, verbatims), NpsKey(i + 1, Verbatim)) == Some(Str(ReasonOf(verbatims, rs[i].key)))
    {
      assert Get(NpsData(rs, scores, verbatims), NpsKey(i + 1, Verbatim)) == FieldValue(Verbatim, rs[i].key, scores, verbatims);
    }
  }
}
