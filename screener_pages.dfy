/** The single-question screener pages of block 1: ZIP code (s1), grocery
    decision maker (s2), switching (s5), stores switched out of (s5a),
    income (s6) and age (s7). Each handler either shows an error, or saves
    the answer and moves on, or terminates the respondent. */
module ScreenerPages {
  import opened Common
  import opened SurveyFlow
  import Constants
  import SegmentLogic
  import Respondents
  import Randomize

  const SELECT_ONE: string := "Please select one option."

  // ---------------------------------------------------------------------------
  // s1: ZIP code

  predicate IsDigit(c: char)
  {
    '0' <= c <= '9'
  }

  /** `value.replace(/\D/g, '')` */
  function DigitsOnly(s: string): (r: string)
    ensures AllDigits(r) && |r| <= |s|
    ensures AllDigits(s) ==> r == s
  {
    if s == [] then []
    else (if IsDigit(s[0]) then [s[0]] else []) + DigitsOnly(s[1..])
  }

  /** What the ZIP box keeps of a keystroke: the digits, at most five. */
  function SanitizeZip(input: string): (z: string)
    ensures AllDigits(z) && |z| <= 5
  {
    var d := DigitsOnly(input);
    if |d| <= 5 then d else d[..5]
  }

  /** Sanitising a sanitised value changes nothing, and a sanitised value
      passes the five-digit check exactly when it has five characters, which
      is when the Continue button is enabled. */
  lemma SanitizeZipMeaning(input: string)
    ensures SanitizeZip(SanitizeZip(input)) == SanitizeZip(input)
    ensures Respondents.IsFiveDigits(SanitizeZip(input)) <==> |SanitizeZip(input)| == 5
    ensures AllDigits(input) && |input| <= 5 ==> SanitizeZip(input) == input
  {
  }

  /** `disabled={loading || zip.length !== 5}` */
  predicate ContinueEnabled(zip: string, loading: bool)
  {
    !loading && |zip| == 5
  }

  /** s1's submit, given the body the ZIP lookup returned. */
  function S1Submit(zip: string, lookup: Record): (o: Outcome)
    ensures !Respondents.IsFiveDigits(zip) <==> o == Invalid("Please enter a valid 5-digit ZIP code.")
    ensures Respondents.IsFiveDigits(zip) && !FieldTruthy(lookup, "valid") ==>
              o == Terminate("S1", map["zip_code" := Str(zip)])
    ensures Respondents.IsFiveDigits(zip) && FieldTruthy(lookup, "valid") ==>
              o == Advance("s1", "block1_s2", Put(map["zip_code" := Str(zip)], "dma", Get(lookup, "dma")))
    ensures Navigates(o)
  {
    if !Respondents.IsFiveDigits(zip) then Invalid("Please enter a valid 5-digit ZIP code.")
    else if !FieldTruthy(lookup, "valid") then Terminate("S1", map["zip_code" := Str(zip)])
    else Advance("s1", "block1_s2", Put(map["zip_code" := Str(zip)], "dma", Get(lookup, "dma")))
  }

  /** Against the ZIP lookup route: a ZIP in the trade area is saved with its
      DMA, any other five-digit ZIP terminates at S1 with only the ZIP saved. */
  lemma S1WithLookup(zip: string, table: map<string, Respondents.ZipRow>, lookupFails: bool)
    requires Respondents.IsFiveDigits(zip)
    ensures var o := S1Submit(zip, Respondents.ZipLookup(Some(zip), table, lookupFails).body);
            (zip in table && !lookupFails ==>
               o == Advance("s1", "block1_s2", map["zip_code" := Str(zip), "dma" := table[zip].dma])) &&
            (zip !in table || lookupFails ==> o == Terminate("S1", map["zip_code" := Str(zip)]))
  {
    var body := Respondents.ZipLookup(Some(zip), table, lookupFails).body;
    if zip in table && !lookupFails {
      assert FieldTruthy(body, "valid");
      assert Put(map["zip_code" := Str(zip)], "dma", Get(body, "dma")) == map["zip_code" := Str(zip), "dma" := table[zip].dma];
    } else {
      assert body["valid"] != Bool(true);
      assert body == map["valid" := Bool(false)];
    }
  }

  // ---------------------------------------------------------------------------
  // s2: grocery decision maker

  /** Value 3 ("someone else decides") terminates without saving a block. */
  function S2Submit(value: Option<int>): (o: Outcome)
    ensures value.None? <==> o == Invalid(SELECT_ONE)
    ensures value == Some(3) ==> o == Terminate("S2", map["grocery_decisionmaker" := Num(3)])
    ensures value.Some? && value.value != 3 ==>
              o == Advance("s2", "block1_s3", map["grocery_decisionmaker" := Num(value.value)])
    ensures o.Sent? ==> |o.requests| == 1 && Navigates(o)
  {
    if value.None? then Invalid(SELECT_ONE)
    else if value.value == 3 then Terminate("S2", map["grocery_decisionmaker" := Num(3)])
    else Advance("s2", "block1_s3", map["grocery_decisionmaker" := Num(value.value)])
  }

  // ---------------------------------------------------------------------------
  // s5: switching

  /** Value 1 goes to the store list (s5a); anything else to income (s6). */
  function S5Submit(value: Option<int>): (o: Outcome)
    ensures value.None? <==> o == Invalid(SELECT_ONE)
    ensures value.Some? ==>
              o.Sent? && |o.requests| == 1 && o.requests[0].SubmitBlock? &&
              o.requests[0].data == map["switched_out_any" := Num(value.value)] &&
              (o.requests[0].currentBlock == "block1_s5a" <==> value.value == 1) &&
              (o.requests[0].currentBlock == "block1_s6" <==> value.value != 1)
    ensures Navigates(o)
  {
    if value.None? then Invalid(SELECT_ONE)
    else Advance("s5", if value.value == 1 then "block1_s5a" else "block1_s6",
                 map["switched_out_any" := Num(value.value)])
  }

  // ---------------------------------------------------------------------------
  // Retailer rows in display order (s3 and s5a)

  /** The catalogue as rows, 'other' anchored. */
  function RetailerItems(): (items: seq<Randomize.Item<string>>)
    ensures |items| == |Constants.RetailerCodes()|
    ensures forall i :: 0 <= i < |items| ==>
              items[i] == Randomize.Item(Constants.RetailerCodes()[i], Constants.RetailerCodes()[i] == "other")
  {
    var cs := Constants.RetailerCodes();
    seq(|cs|, i requires 0 <= i < |cs| => Randomize.Item(cs[i], cs[i] == "other"))
  }

  lemma {:induction false} OnlyLastAnchored<T>(items: seq<Randomize.Item<T>>)
    requires items != [] && items[|items| - 1].anchored
    requires forall i :: 0 <= i < |items| - 1 ==> !items[i].anchored
    ensures Randomize.Filter(items, true) == [items[|items| - 1]]
    ensures Randomize.Filter(items, false) == items[..|items| - 1]
  {
    if |items| > 1 {
      OnlyLastAnchored(items[1..]);
      assert items[..|items| - 1] == [items[0]] + items[1..][..|items| - 2];
    }
  }

  /** The rows every retailer list shows: the fourteen named retailers
      shuffled, then 'other'. */
  method RetailerRows(draws: seq<real>) returns (rows: seq<Randomize.Item<string>>)
    requires Randomize.ValidDraws(draws, Randomize.DrawCount(14))
    ensures |rows| == 15 && rows[14] == Randomize.Item("other", true)
    ensures multiset(rows) == multiset(RetailerItems())
  {
    var items := RetailerItems();
    Constants.RetailersShape();
    var cs := Constants.RetailerCodes();
    forall i | 0 <= i < 14 ensures !items[i].anchored {
      assert cs[i] != cs[14];
    }
    OnlyLastAnchored(items);
    rows := Randomize.RandomizeWithAnchors(items, draws);
  }

  // ---------------------------------------------------------------------------
  // s5a: stores switched out of

  const SWITCHED_PREFIX: string := "switched_out_"

  /** 1 for a selected code, 0 for the others, in catalogue order. */
  function SwitchedFlags(values: seq<Value>): (fs: seq<Option<Value>>)
    ensures |fs| == |Constants.RetailerCodes()|
  {
    var cs := Constants.RetailerCodes();
    seq(|cs|, i requires 0 <= i < |cs| => Some(Num(if Str(cs[i]) in values then 1 else 0)))
  }

  function SwitchedKeys(): seq<string>
  {
    Keyed(SWITCHED_PREFIX, Constants.RetailerCodes(), "")
  }

  /** The `data` object s5a saves. */
  function SwitchedData(values: seq<Value>, otherText: string): Record
  {
    WithText(Filled(map[], SwitchedKeys(), SwitchedFlags(values)), "switched_out_other_text", otherText)
  }

  lemma NoCodeIsOtherText()
    ensures "other_text" !in Constants.RetailerCodes()
  {
    var cs := Constants.RetailerCodes();
    assert cs == ["fareway", "hyvee", "kroger", "aldi", "walmart", "costco", "meijer", "target",
                  "wholefoods", "traderjoes", "samsclub", "pricechopper", "schnucks", "savealot", "other"];
  }

  /** Every catalogue code's flag is 1 exactly when it was selected; the other
      text is saved only when it is not blank; nothing else is saved. */
  lemma SwitchedDataMeaning(values: seq<Value>, otherText: string)
    ensures var data := SwitchedData(values, otherText);
            var cs := Constants.RetailerCodes();
            (forall i :: 0 <= i < |cs| ==>
               Get(data, SwitchedKeys()[i]) == Some(Num(if Str(cs[i]) in values then 1 else 0))) &&
            ("switched_out_other_text" in data <==> Trim(otherText) != "") &&
            (forall k :: k in data ==> k == "switched_out_other_text" || k in SwitchedKeys())
  {
    var cs := Constants.RetailerCodes();
    Constants.RetailersShape();
    KeyedDistinct(SWITCHED_PREFIX, cs, "");
    FilledMeaning(map[], SwitchedKeys(), SwitchedFlags(values));
    NoCodeIsOtherText();
    forall i | 0 <= i < |cs| ensures SwitchedKeys()[i] != "switched_out_other_text" {
      AffixInjective(SWITCHED_PREFIX, cs[i], "other_text", "");
      assert "switched_out_other_text" == SWITCHED_PREFIX + "other_text" + "";
    }
    assert "switched_out_other_text" !in SwitchedKeys();
  }

  /** s5a's submit. */
  function S5aOutcome(values: seq<Value>, otherText: string): (o: Outcome)
    ensures values == [] <==> o == Invalid("Please select at least one store.")
    ensures values != [] && Str("other") in values && |Trim(otherText)| < 2 ==>
              o == Invalid("Please specify the \"Other\" store name.")
    ensures o.Sent? ==> o == Advance("s5a", "block1_s6", SwitchedData(values, otherText))
    ensures o.Sent? <==> values != [] && (Str("other") in values ==> |Trim(otherText)| >= 2)
    ensures Navigates(o)
  {
    if |values| == 0 then Invalid("Please select at least one store.")
    else if Str("other") in values && |Trim(otherText)| < 2 then Invalid("Please specify the \"Other\" store name.")
    else Advance("s5a", "block1_s6", SwitchedData(values, otherText))
  }

  /** The handler, writing the flags in a loop over the catalogue. */
  method S5aSubmit(values: seq<Value>, otherText: string) returns (o: Outcome)
    ensures o == S5aOutcome(values, otherText)
  {
    if |values| == 0 {
      return Invalid("Please select at least one store.");
    }
    if Str("other") in values && |Trim(otherText)| < 2 {
      return Invalid("Please specify the \"Other\" store name.");
    }
    var data := Fill(map[], SwitchedKeys(), SwitchedFlags(values));
    data := WithText(data, "switched_out_other_text", otherText);
    o := Advance("s5a", "block1_s6", data);
  }

  // ---------------------------------------------------------------------------
  // s6: household income

  /** Value 7 ("prefer not to say") terminates; any other value is saved with
      its collapsed band. */
  function S6Submit(value: Option<int>): (o: Outcome)
    ensures value.None? <==> o == Invalid(SELECT_ONE)
    ensures value == Some(7) ==> o == Terminate("S6_PNTS", map["income_band" := Num(7)])
    ensures value.Some? && value.value != 7 ==>
              o == Advance("s6", "block1_s7",
                           map["income_band" := Num(value.value),
                               "income_band_collapsed" := OptStr(SegmentLogic.CollapseIncome(value.value))])
    ensures Navigates(o)
  {
    if value.None? then Invalid(SELECT_ONE)
    else if value.value == 7 then Terminate("S6_PNTS", map["income_band" := Num(7)])
    else
      Advance("s6", "block1_s7",
              map["income_band" := Num(value.value),
                  "income_band_collapsed" := OptStr(SegmentLogic.CollapseIncome(value.value))])
  }

  /** Every band the page offers besides 7 saves a collapsed band. */
  lemma S6OffersCollapse(value: int)
    requires 1 <= value <= 6
    ensures var o := S6Submit(Some(value));
            o.Sent? && o.requests[0].data["income_band_collapsed"] != Null
  {
  }

  // ---------------------------------------------------------------------------
  // s7: age

  /** Value 1 (under 18) terminates at S7, value 8 ("prefer not to say") at
      S7_PNTS; any other value is saved with its collapsed cohort. */
  function S7Submit(value: Option<int>): (o: Outcome)
    ensures value.None? <==> o == Invalid(SELECT_ONE)
    ensures value == Some(1) ==> o == Terminate("S7", map["age_cohort" := Num(1)])
    ensures value == Some(8) ==> o == Terminate("S7_PNTS", map["age_cohort" := Num(8)])
    ensures value.Some? && value.value != 1 && value.value != 8 ==>
              o == Advance("s7", "block1_s8",
                           map["age_cohort" := Num(value.value),
                               "age_cohort_collapsed" := OptStr(SegmentLogic.CollapseAge(value.value))])
    ensures Navigates(o)
  {
    if value.None? then Invalid(SELECT_ONE)
    else if value.value == 1 then Terminate("S7", map["age_cohort" := Num(1)])
    else if value.value == 8 then Terminate("S7_PNTS", map["age_cohort" := Num(8)])
    else
      Advance("s7", "block1_s8",
              map["age_cohort" := Num(value.value),
                  "age_cohort_collapsed" := OptStr(SegmentLogic.CollapseAge(value.value))])
  }

  /** On the continue path of the cohorts offered (1..8) the collapsed
      cohort is never null. */
  lemma S7ContinueCollapses(value: int)
    requires 1 <= value <= 8
    ensures var o := S7Submit(Some(value));
            o.Sent? && o.requests[0].SubmitBlock? ==> o.requests[0].data["age_cohort_collapsed"] != Null
  {
  }
}
