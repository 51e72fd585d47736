/** The survey's reference tables: the retailer catalogue, the key purchase
    criteria (KPC) attributes, the purchase-funnel labels, the segment quotas
    and the termination messages, with the catalogue lookups. */
module Constants {
  import opened Common

  datatype Retailer = Retailer(code: string, display: string, shortDisplay: string)

  /** The 15 retailers in catalogue order; 'other' is always last. */
  const RETAILERS: seq<Retailer> := [
    Retailer("fareway", "Fareway", "Fareway"),
    Retailer("hyvee", "Hy-Vee", "Hy-Vee"),
    Retailer("kroger", "Kroger", "Kroger"),
    Retailer("aldi", "Aldi", "Aldi"),
    Retailer("walmart", "Walmart Grocery / Walmart Supercenter", "Walmart"),
    Retailer("costco", "Costco", "Costco"),
    Retailer("meijer", "Meijer", "Meijer"),
    Retailer("target", "Target (grocery section)", "Target"),
    Retailer("wholefoods", "Whole Foods Market", "Whole Foods"),
    Retailer("traderjoes", "Trader Joe's", "Trader Joe's"),
    Retailer("samsclub", "Sam's Club", "Sam's Club"),
    Retailer("pricechopper", "Price Chopper", "Price Chopper"),
    Retailer("schnucks", "Schnucks", "Schnucks"),
    Retailer("savealot", "Save-A-Lot", "Save-A-Lot"),
    Retailer("other", "Other (please specify)", "Other")
  ]

  function Codes(rs: seq<Retailer>): (cs: seq<string>)
  {
    seq(|rs|, i requires 0 <= i < |rs| => rs[i].code)
  }

  function RetailerCodes(): seq<string>
  {
    Codes(RETAILERS)
  }


  /** The catalogue has 15 distinct codes, 'fareway' first and 'other' last. */
  lemma RetailersShape()
    ensures |RetailerCodes()| == 15
    ensures RetailerCodes()[0] == "fareway" && RetailerCodes()[14] == "other"
    ensures Distinct(RetailerCodes())
  {
    var cs := RetailerCodes();
    assert cs == ["fareway", "hyvee", "kroger", "aldi", "walmart", "costco", "meijer", "target",
                  "wholefoods", "traderjoes", "samsclub", "pricechopper", "schnucks", "savealot", "other"];
    // The first and third letters with the length tell the codes apart.
    forall i, j | 0 <= i < j < |cs| ensures cs[i] != cs[j] {
      assert |cs[i]| != |cs[j]| || cs[i][0] != cs[j][0] || cs[i][2] != cs[j][2];
    }
  }

  /** `RETAILERS.find(r => r.code === code)`: the first entry with that code. */
  function Find(rs: seq<Retailer>, code: string): (r: Option<nat>)
    ensures r.None? <==> forall i :: 0 <= i < |rs| ==> rs[i].code != code
    ensures r.Some? ==> r.value < |rs| && rs[r.value].code == code
                        && forall i :: 0 <= i < r.value ==> rs[i].code != code
  {
    if rs == [] then None
    else if rs[0].code == code then Some(0)
    else
      var t := Find(rs[1..], code);
      if t.Some? then Some(t.value + 1) else None
  }

  function GetRetailerDisplay(code: string): (r: string)
    ensures (forall i :: 0 <= i < |RETAILERS| ==> RETAILERS[i].code != code) ==> r == code
    ensures forall i :: 0 <= i < |RETAILERS| && RETAILERS[i].code == code ==> r == RETAILERS[i].display
  {
    RetailersShape();
    assert forall i :: 0 <= i < |RETAILERS| ==> RetailerCodes()[i] == RETAILERS[i].code;
    var f := Find(RETAILERS, code);
    if f.Some? then RETAILERS[f.value].display else code
  }

  function GetRetailerShort(code: string): (r: string)
    ensures (forall i :: 0 <= i < |RETAILERS| ==> RETAILERS[i].code != code) ==> r == code
    ensures forall i :: 0 <= i < |RETAILERS| && RETAILERS[i].code == code ==> r == RETAILERS[i].shortDisplay
  {
    RetailersShape();
    assert forall i :: 0 <= i < |RETAILERS| ==> RetailerCodes()[i] == RETAILERS[i].code;
    var f := Find(RETAILERS, code);
    if f.Some? then RETAILERS[f.value].shortDisplay else code
  }

  // ---------------------------------------------------------------------------

  datatype Attribute = Attribute(code: string, name: string)

  const KPC_ATTRIBUTES: seq<Attribute> := [
    Attribute("lowest_price", "Lowest prices"),
    Attribute("best_value", "Best value for money"),
    Attribute("prod_quality", "Product quality overall"),
    Attribute("produce_fresh", "Freshness of produce"),
    Attribute("meat_seafood", "Quality of meat and seafood"),
    Attribute("private_label", "Private label / store brand offering"),
    Attribute("assortment", "Breadth of product assortment (selection and variety)"),
    Attribute("cleanliness", "Store cleanliness and appearance"),
    Attribute("checkout", "Checkout speed and convenience"),
    Attribute("location", "Store location / proximity to my home"),
    Attribute("digital", "Digital / online shopping experience (delivery, curbside pickup)"),
    Attribute("prepared_foods", "Prepared foods, deli, and bakery"),
    Attribute("price_stability", "Price stability / consistent pricing over time")
  ]

  function AttributeCodes(ats: seq<Attribute>): (cs: seq<string>)
  {
    seq(|ats|, i requires 0 <= i < |ats| => ats[i].code)
  }

  function KpcCodes(): seq<string>
  {
    AttributeCodes(KPC_ATTRIBUTES)
  }

  lemma KpcShape()
    ensures |KpcCodes()| == 13 && Distinct(KpcCodes())
  {
    var cs := KpcCodes();
    assert cs == ["lowest_price", "best_value", "prod_quality", "produce_fresh", "meat_seafood",
                  "private_label", "assortment", "cleanliness", "checkout", "location", "digital",
                  "prepared_foods", "price_stability"];
    forall i, j | 0 <= i < j < |cs| ensures cs[i] != cs[j] {
      assert |cs[i]| != |cs[j]| || cs[i][0] != cs[j][0] || cs[i][2] != cs[j][2];
    }
  }

  // ---------------------------------------------------------------------------

  datatype FunnelLabel = FunnelLabel(value: int, text: string, shortText: string)

  const FUNNEL_LABELS: seq<FunnelLabel> := [
    FunnelLabel(1, "Not aware of this store", "Not aware"),
    FunnelLabel(2, "Aware but never considered shopping there", "Aware"),
    FunnelLabel(3, "Considered but never shopped there", "Considered"),
    FunnelLabel(4, "Shopped there in the past but not in the last 12 months", "Past shopper"),
    FunnelLabel(5, "Shopped there in the last 12 months but not the last 3 months", "Last 12m"),
    FunnelLabel(6, "Shopped there in the last 3 months", "Last 3m")
  ]

  /** The funnel positions are 1..6, in order. */
  lemma FunnelLabelsAreOneToSix()
    ensures |FUNNEL_LABELS| == 6
    ensures forall i :: 0 <= i < |FUNNEL_LABELS| ==> FUNNEL_LABELS[i].value == i + 1
  {
  }

  // ---------------------------------------------------------------------------

  /** The five respondent segments, the keys of the quota table. */
  datatype Segment = PrimaryShopper | SecondaryShopper | Lapsed | AwareNonCustomer | UnawareNonCustomer

  function SegmentName(s: Segment): string
  {
    match s
    case PrimaryShopper => "primary_shopper"
    case SecondaryShopper => "secondary_shopper"
    case Lapsed => "lapsed"
    case AwareNonCustomer => "aware_non_customer"
    case UnawareNonCustomer => "unaware_non_customer"
  }

  function ParseSegment(name: string): (r: Option<Segment>)
  {
    if name == "primary_shopper" then Some(PrimaryShopper)
    else if name == "secondary_shopper" then Some(SecondaryShopper)
    else if name == "lapsed" then Some(Lapsed)
    else if name == "aware_non_customer" then Some(AwareNonCustomer)
    else if name == "unaware_non_customer" then Some(UnawareNonCustomer)
    else None
  }

  /** Segment names and parsing are inverse to each other. */
  lemma SegmentNameRoundTrip(s: Segment, name: string)
    ensures ParseSegment(SegmentName(s)) == Some(s)
    ensures ParseSegment(name) == Some(s) <==> name == SegmentName(s)
  {
  }

  datatype Quota = Quota(min: nat, max: nat)

  const SEGMENT_QUOTAS: map<string, Quota> := map[
    "primary_shopper" := Quota(2500, 3000),
    "secondary_shopper" := Quota(1500, 2000),
    "lapsed" := Quota(800, 1000),
    "aware_non_customer" := Quota(1500, 2000),
    "unaware_non_customer" := Quota(500, 800)
  ]

  /** The quota table is keyed by exactly the five segments, each with min < max. */
  lemma QuotaTableShape()
    ensures forall k :: k in SEGMENT_QUOTAS <==> ParseSegment(k).Some?
    ensures forall k :: k in SEGMENT_QUOTAS ==> SEGMENT_QUOTAS[k].min < SEGMENT_QUOTAS[k].max
  {
  }

  const TERMINATION_MESSAGES: map<string, string> := map[
    "S1" := "Thank you for your interest, but you are not eligible for this survey at this time.",
    "S2" := "Thank you, but we are looking for household grocery decision-makers for this survey.",
    "S3" := "Thank you, but we are looking for active grocery shoppers for this survey.",
    "S6_PNTS" := "Thank you for your time. You may now close this window.",
    "S7" := "Thank you, but you must be 18 or older to participate in this survey.",
    "S7_PNTS" := "Thank you for your time. You may now close this window.",
    "quota_full" := "Thank you for your interest, but we have received enough responses in your category. We appreciate your time.",
    "default" := "Thank you for your time. You may now close this window."
  ]

  /** Every termination point the survey uses has a message, and so does 'default'. */
  lemma TerminationMessagesCover()
    ensures TERMINATION_MESSAGES.Keys == {"S1", "S2", "S3", "S6_PNTS", "S7", "S7_PNTS", "quota_full", "default"}
  {
  }
}
