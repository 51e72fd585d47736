/** Block 1, s3: the purchase-funnel grid, one row per retailer. Every row
    must be answered; a respondent with no retailer at level 5 or 6 is
    terminated; otherwise the grid is saved and the funnel levels and the
    retailers shopped in the last three months go to session storage for the
    share-of-wallet page. */
module FunnelPage {
  import opened Common
  import opened SurveyFlow
  import Constants
  import ScreenerPages

  /** `values['other'] != null && values['other'] > 0` */
  predicate OtherSelected(values: map<string, int>)
  {
    "other" in values && values["other"] > 0
  }

  /** `RETAILERS.some(r => (values[r.code] ?? 0) >= 5)`: 'other' counts too. */
  predicate HasRecentShopper(values: map<string, int>)
  {
    exists c :: c in Constants.RetailerCodes() && c in values && values[c] >= 5
  }

  function FunnelKeys(): seq<string>
  {
    Keyed("funnel_", Constants.RetailerCodes(), "")
  }

  /** The `data` object s3 sends, on both paths. */
  function FunnelData(values: map<string, int>, otherText: string): Record
  {
    WithText(Filled(map[], FunnelKeys(), Answers(Constants.RetailerCodes(), values)), "funnel_other_text", otherText)
  }

  /** `funnel_<code>` holds each retailer's level; the other text is there
      only when it is not blank. */
  lemma FunnelDataMeaning(values: map<string, int>, otherText: string)
    ensures forall i :: 0 <= i < |Constants.RetailerCodes()| ==>
              Get(FunnelData(values, otherText), FunnelKeys()[i]) == Answer(values, Constants.RetailerCodes()[i])
    ensures "funnel_other_text" in FunnelData(values, otherText) <==> Trim(otherText) != ""
    ensures forall k :: k in FunnelData(values, otherText) ==> k == "funnel_other_text" || k in FunnelKeys()
  {
    var cs := Constants.RetailerCodes();
    var filled := Filled(map[], FunnelKeys(), Answers(cs, values));
    Constants.RetailersShape();
    KeyedDistinct("funnel_", cs, "");
    FilledMeaning(map[], FunnelKeys(), Answers(cs, values));
    ScreenerPages.NoCodeIsOtherText();
    forall i | 0 <= i < |cs|
      ensures FunnelKeys()[i] != "funnel_other_text"
      ensures Get(FunnelData(values, otherText), FunnelKeys()[i]) == Answer(values, cs[i])
    {
      AffixInjective("funnel_", cs[i], "other_text", "");
      assert "funnel_other_text" == "funnel_" + "other_text" + "";
      assert Get(filled, FunnelKeys()[i]) == Answers(cs, values)[i];
    }
    assert "funnel_other_text" !in FunnelKeys();
    assert Get(filled, "funnel_other_text") == None;
    forall k | k in FunnelData(values, otherText) && k != "funnel_other_text" ensures k in FunnelKeys() {
      assert Get(filled, k) != None;
    }
  }

  /** The retailers at level 6 ("shopped in the last 3 months"), in
      catalogue order; 'other' is not excluded. */
  function StoresLast3m(values: map<string, int>): (r: seq<string>)
    ensures forall c :: c in r <==> c in Constants.RetailerCodes() && c in values && values[c] == 6
    ensures SubsequenceOf(r, Constants.RetailerCodes())
  {
    AtLevel(Constants.RetailerCodes(), values, 6)
  }

  /** The funnel levels kept for s4: `funnelData[code] = values[code]`. */
  function FunnelNumbers(values: map<string, int>): (m: map<string, int>)
    ensures forall c :: c in m <==> c in Constants.RetailerCodes() && c in values
    ensures forall c :: c in m ==> m[c] == values[c]
  {
    map c | c in Constants.RetailerCodes() && c in values :: values[c]
  }

  function UnansweredMessage(n: nat): string
  {
    "Please answer for all stores. " + NatToString(n) + " remaining."
  }

  /** s3's submit. */
  function S3Outcome(values: map<string, int>, otherText: string): (o: Outcome)
    ensures var u := Missing(Constants.RetailerCodes(), values);
            |u| > 0 ==> o == Invalid(UnansweredMessage(|u|))
    ensures |Missing(Constants.RetailerCodes(), values)| == 0 && OtherSelected(values) && |Trim(otherText)| < 2 ==>
              o == Invalid("Please specify the \"Other\" store name.")
    ensures o.Sent? <==> |Missing(Constants.RetailerCodes(), values)| == 0 &&
                         (OtherSelected(values) ==> |Trim(otherText)| >= 2)
    ensures o.Sent? && !HasRecentShopper(values) ==> o == Terminate("S3", FunnelData(values, otherText))
    ensures o.Sent? && HasRecentShopper(values) ==> o == Advance("s3", "block1_s4", FunnelData(values, otherText))
    ensures Navigates(o)
  {
    var u := Missing(Constants.RetailerCodes(), values);
    if |u| > 0 then Invalid(UnansweredMessage(|u|))
    else if OtherSelected(values) && |Trim(otherText)| < 2 then Invalid("Please specify the \"Other\" store name.")
    else if !HasRecentShopper(values) then Terminate("S3", FunnelData(values, otherText))
    else Advance("s3", "block1_s4", FunnelData(values, otherText))
  }

  /** A fully answered grid whose only recent shopper is 'other' is not
      terminated: the "other" row counts for the S3 check. */
  lemma OtherAloneKeepsRespondent(values: map<string, int>, otherText: string)
    requires forall c :: c in Constants.RetailerCodes() ==> c in values
    requires "other" in values && values["other"] >= 5 && |Trim(otherText)| >= 2
    ensures S3Outcome(values, otherText) == Advance("s3", "block1_s4", FunnelData(values, otherText))
  {
    Constants.RetailersShape();
    assert "other" in Constants.RetailerCodes() by {
      assert Constants.RetailerCodes()[14] == "other";
    }
    assert HasRecentShopper(values);
  }

  /** The handler: validation, the `data` loop, then either the terminate
      call or the session writes and the save. */
  method S3Submit(values: map<string, int>, otherText: string, session: Session) returns (o: Outcome)
    modifies session
    ensures o == S3Outcome(values, otherText)
    ensures o.Sent? && HasRecentShopper(values) ==>
              session.items == old(session.items)["funnel_data" := Numbers(FunnelNumbers(values))]
                                                 ["stores_last_3m" := Codes(StoresLast3m(values))]
    ensures !(o.Sent? && HasRecentShopper(values)) ==> session.items == old(session.items)
  {
    var u := Missing(Constants.RetailerCodes(), values);
    if |u| > 0 {
      return Invalid(UnansweredMessage(|u|));
    }
    if OtherSelected(values) && |Trim(otherText)| < 2 {
      return Invalid("Please specify the \"Other\" store name.");
    }
    var data := Fill(map[], FunnelKeys(), Answers(Constants.RetailerCodes(), values));
    data := WithText(data, "funnel_other_text", otherText);
    if !HasRecentShopper(values) {
      return Terminate("S3", data);
    }
    session.SetItem("funnel_data", Numbers(FunnelNumbers(values)));
    session.SetItem("stores_last_3m", Codes(StoresLast3m(values)));
    o := Advance("s3", "block1_s4", data);
  }
}
