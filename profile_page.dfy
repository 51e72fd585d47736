/** Block 8: seven optional demographic questions, one at a time. Every
    question may be skipped or continued unanswered; after the seventh the
    save writes each answer or null, and the ethnicity "Other" text when
    one was typed, and the survey ends. */
module ProfilePage {
  import opened Common
  import opened SurveyFlow

  /** The questions' keys, in the order they are asked; only the last
      (ethnicity) has an "Other" text box. */
  const QUESTION_KEYS: seq<string> :=
    ["gender", "education", "employment", "area_type", "distance_fareway", "household_size", "ethnicity"]

  const OTHER_TEXT_KEY: string := "ethnicity_other_text"

  /** The ethnicity option that opens the text box. */
  const OTHER_OPTION: int := 6

  lemma QuestionKeysDistinct()
    ensures Distinct(QUESTION_KEYS) && OTHER_TEXT_KEY !in QUESTION_KEYS
  {
  }

  /** `answers[currentQ.key] ?? null`: the choice shown on a question. */
  function CurrentValue(idx: nat, answers: map<string, int>): (v: Option<int>)
    requires idx < |QUESTION_KEYS|
    ensures v.Some? <==> QUESTION_KEYS[idx] in answers
    ensures v.Some? ==> v.value == answers[QUESTION_KEYS[idx]]
  {
    if QUESTION_KEYS[idx] in answers then Some(answers[QUESTION_KEYS[idx]]) else None
  }

  /** Whether the "Other" text box shows: on ethnicity, with option 6
      chosen. */
  predicate ShowsOtherText(idx: nat, answers: map<string, int>)
    requires idx < |QUESTION_KEYS|
  {
    idx == |QUESTION_KEYS| - 1 && CurrentValue(idx, answers) == Some(OTHER_OPTION)
  }

  /** The save's `data`: the `forEach` over the questions, then the
      trimmed "Other" text when it is not blank. */
  function ProfileData(answers: map<string, int>, otherText: string): Record
  {
    WithText(Filled(map[], QUESTION_KEYS, AnswersOrNull(QUESTION_KEYS, answers)), OTHER_TEXT_KEY, otherText)
  }

  /** The save holds every question, answered or null, and the "Other"
      text exactly when one was typed; nothing else. */
  lemma ProfileDataFields(answers: map<string, int>, otherText: string)
    ensures forall i :: 0 <= i < |QUESTION_KEYS| ==>
              Get(ProfileData(answers, otherText), QUESTION_KEYS[i]) ==
              Some(if QUESTION_KEYS[i] in answers then Num(answers[QUESTION_KEYS[i]]) else Null)
    ensures Get(ProfileData(answers, otherText), OTHER_TEXT_KEY) ==
              if Trim(otherText) != "" then Some(Str(Trim(otherText))) else None
    ensures forall k :: k !in QUESTION_KEYS && k != OTHER_TEXT_KEY ==> Get(ProfileData(answers, otherText), k) == None
  {
    QuestionKeysDistinct();
    var vals := AnswersOrNull(QUESTION_KEYS, answers);
    FilledMeaning(map[], QUESTION_KEYS, vals);
    forall i | 0 <= i < |QUESTION_KEYS| ensures QUESTION_KEYS[i] != OTHER_TEXT_KEY {
    }
  }

  /** The answers read back from a save: each question holding a number. */
  function ReadAnswers(d: Record): map<string, int>
  {
    map k | k in QUESTION_KEYS && k in d && d[k].Num? :: d[k].n
  }

  /** A save gives back exactly the answers to the seven questions: a
      skipped question comes back unanswered and an answer outside them is
      not sent. */
  lemma ProfileRoundTrip(answers: map<string, int>, otherText: string)
    ensures ReadAnswers(ProfileData(answers, otherText)) == map k | k in answers && k in QUESTION_KEYS :: answers[k]
  {
    var d := ProfileData(answers, otherText);
    var back := ReadAnswers(d);
    var sent := map k | k in answers && k in QUESTION_KEYS :: answers[k];
    forall k
      ensures (k in back <==> k in sent) && (k in back ==> back[k] == sent[k])
    {
      if k in QUESTION_KEYS {
        QuestionSaved(answers, otherText, k);
      }
    }
    assert back == sent;
  }

  lemma QuestionSaved(answers: map<string, int>, otherText: string, k: string)
    requires k in QUESTION_KEYS
    ensures Get(ProfileData(answers, otherText), k) == Some(if k in answers then Num(answers[k]) else Null)
  {
    ProfileDataFields(answers, otherText);
    var i :| 0 <= i < |QUESTION_KEYS| && QUESTION_KEYS[i] == k;
  }

  /** The "Other" text is saved whenever it is not blank, even after the
      ethnicity answer has moved away from option 6 and the box is gone. */
  lemma StaleOtherTextSaved()
    ensures var answers := map["ethnicity" := 1];
            !ShowsOtherText(|QUESTION_KEYS| - 1, answers) &&
            Get(ProfileData(answers, "Irish"), OTHER_TEXT_KEY) == Some(Str("Irish"))
  {
    var answers := map["ethnicity" := 1];
    ProfileDataFields(answers, "Irish");
    TrimIrish();
  }

  lemma TrimIrish()
    ensures Trim("Irish") == "Irish"
  {
    assert !IsJsSpace("Irish"[0]) && TrimStart("Irish") == "Irish";
    assert !IsJsSpace("Irish"[4]);
  }

  datatype Turn = Turn(o: Outcome, idx: nat)

  /** `handleNext`: no question is required; before the last one the
      click moves on, on the last it saves and ends the survey. */
  function Next(idx: nat, answers: map<string, int>, otherText: string): (t: Turn)
    requires idx < |QUESTION_KEYS|
    ensures !t.o.Invalid? && !t.o.Ignored?
    ensures t.o == Moved <==> idx < |QUESTION_KEYS| - 1
    ensures t.o == Moved ==> t.idx == idx + 1
    ensures t.o.Sent? <==> idx == |QUESTION_KEYS| - 1
    ensures t.o.Sent? ==> t.o == Advance("block8", "complete", ProfileData(answers, otherText)) &&
                          t.o.path == "/survey/thankyou" && t.idx == idx
    ensures t.idx < |QUESTION_KEYS|
  {
    PagePaths();
    if idx < |QUESTION_KEYS| - 1 then Turn(Moved, idx + 1)
    else Turn(Advance("block8", "complete", ProfileData(answers, otherText)), idx)
  }

  /** The clicks from question `idx` to the save, with no answer given. */
  function ClicksToFinish(idx: nat, answers: map<string, int>, otherText: string): (n: nat)
    requires idx < |QUESTION_KEYS|
    decreases |QUESTION_KEYS| - idx
  {
    var t := Next(idx, answers, otherText);
    if t.o.Sent? then 1 else 1 + ClicksToFinish(t.idx, answers, otherText)
  }

  /** Every question is optional: from any question the respondent
      reaches the save by continuing, one click per remaining question. */
  lemma {:induction false} EveryQuestionOptional(idx: nat, answers: map<string, int>, otherText: string)
    requires idx < |QUESTION_KEYS|
    ensures ClicksToFinish(idx, answers, otherText) == |QUESTION_KEYS| - idx
    decreases |QUESTION_KEYS| - idx
  {
    if idx < |QUESTION_KEYS| - 1 {
      EveryQuestionOptional(idx + 1, answers, otherText);
    }
  }

  /** The page's state between clicks. */
  class Block8 {
    var questionIdx: nat
    var answers: map<string, int>
    var otherText: string

    predicate Valid()
      reads this
    {
      questionIdx < |QUESTION_KEYS|
    }

    constructor()
      ensures questionIdx == 0 && answers == map[] && otherText == ""
      ensures Valid()
    {
      questionIdx := 0;
      answers := map[];
      otherText := "";
    }

    /** The shown question's choice. */
    method SetAnswer(v: int)
      requires Valid()
      modifies this
      ensures Valid()
      ensures answers == old(answers)[QUESTION_KEYS[questionIdx] := v]
      ensures CurrentValue(questionIdx, answers) == Some(v)
      ensures questionIdx == old(questionIdx) && otherText == old(otherText)
    {
      answers := answers[QUESTION_KEYS[questionIdx] := v];
    }

    /** The "Other" text box, which only shows on ethnicity with option 6. */
    method SetOtherText(text: string)
      requires Valid() && ShowsOtherText(questionIdx, answers)
      modifies this
      ensures Valid()
      ensures otherText == text
      ensures questionIdx == old(questionIdx) && answers == old(answers)
    {
      otherText := text;
    }

    /** `handleNext`: the click, applied to the page's state; the save
        writes one question at a time. */
    method HandleNext() returns (o: Outcome)
      requires Valid()
      modifies this
      ensures Valid()
      ensures var t := Next(old(questionIdx), old(answers), old(otherText));
              o == t.o && questionIdx == t.idx
      ensures answers == old(answers) && otherText == old(otherText)
    {
      if questionIdx < |QUESTION_KEYS| - 1 {
        questionIdx := questionIdx + 1;
        return Moved;
      }
      var data := Fill(map[], QUESTION_KEYS, AnswersOrNull(QUESTION_KEYS, answers));
      data := WithText(data, OTHER_TEXT_KEY, otherText);
      o := Advance("block8", "complete", data);
    }

    /** `handleSkip`: the same as continuing, on every question. */
    method HandleSkip() returns (o: Outcome)
      requires Valid()
      modifies this
      ensures Valid()
      ensures var t := Next(old(questionIdx), old(answers), old(otherText));
              o == t.o && questionIdx == t.idx
      ensures answers == old(answers) && otherText == old(otherText)
    {
      if questionIdx < |QUESTION_KEYS| - 1 {
        questionIdx := questionIdx + 1;
        o := Moved;
      } else {
        o := HandleNext();
      }
    }
  }
}
