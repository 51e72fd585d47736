/** Respondent classification and the derived, collapsed answer codes. */
module SegmentLogic {
  import opened Common
  import opened Constants

  /** The funnel positions that place a respondent in each segment (the two
      shopper segments share position 6 and are told apart by the primary store). */
  predicate FunnelFits(s: Segment, funnel: int)
  {
    match s
    case PrimaryShopper => funnel == 6
    case SecondaryShopper => funnel == 6
    case Lapsed => funnel == 4 || funnel == 5
    case AwareNonCustomer => funnel == 2 || funnel == 3
    case UnawareNonCustomer => funnel == 1
  }

  /** Classifies a respondent from their Fareway funnel position and the store
      with the largest share of wallet; any other funnel value is an error. */
  function ClassifySegment(farewayFunnel: int, primaryStore: Option<string>): (r: Result<Segment>)
    ensures r.Ok? <==> 1 <= farewayFunnel <= 6
    ensures r.Ok? ==> FunnelFits(r.value, farewayFunnel)
    ensures r.Ok? && farewayFunnel == 6 ==>
              (r.value == PrimaryShopper <==> primaryStore == Some("fareway"))
    ensures r.Err? ==> r.msg == "Invalid fareway funnel value: " + IntToString(farewayFunnel)
  {
    if farewayFunnel == 6 then
      if primaryStore == Some("fareway") then Ok(PrimaryShopper) else Ok(SecondaryShopper)
    else if farewayFunnel == 4 || farewayFunnel == 5 then Ok(Lapsed)
    else if farewayFunnel == 2 || farewayFunnel == 3 then Ok(AwareNonCustomer)
    else if farewayFunnel == 1 then Ok(UnawareNonCustomer)
    else Err("Invalid fareway funnel value: " + IntToString(farewayFunnel))
  }

  /** Every segment is reached: its funnel positions classify to it (for the
      two shopper segments, with the matching primary store), and to nothing else. */
  lemma ClassifySegmentExact(s: Segment, funnel: int, primaryStore: Option<string>)
    requires FunnelFits(s, funnel)
    requires s == PrimaryShopper ==> primaryStore == Some("fareway")
    requires s == SecondaryShopper ==> primaryStore != Some("fareway")
    ensures ClassifySegment(funnel, primaryStore) == Ok(s)
  {
  }

  /** A funnel position fits exactly one of the three non-shopper segments or
      both shopper segments; it never fits two different groups. */
  lemma FunnelFitsUnique(s: Segment, t: Segment, funnel: int)
    requires FunnelFits(s, funnel) && FunnelFits(t, funnel)
    ensures s == t || ({s, t} == {PrimaryShopper, SecondaryShopper})
  {
  }

  // ---------------------------------------------------------------------------
  // Collapsed codes. Each table lists, per collapsed label, the raw answers
  // that map to it; the collapsing functions are checked against these tables.

  /** (label, lowest raw value, highest raw value) */
  datatype Band = Band(name: string, lo: int, hi: int)

  const INCOME_BANDS: seq<Band> := [Band("under_50k", 1, 2), Band("50_to_100k", 3, 4), Band("over_100k", 5, 6)]
  const AGE_BANDS: seq<Band> := [Band("under_35", 2, 3), Band("35_to_54", 4, 5), Band("55_plus", 6, 7)]

  predicate InBand(b: Band, x: int)
  {
    b.lo <= x <= b.hi
  }

  function CollapseIncome(incomeBand: int): (r: Option<string>)
  {
    if incomeBand == 1 || incomeBand == 2 then Some("under_50k")
    else if incomeBand == 3 || incomeBand == 4 then Some("50_to_100k")
    else if incomeBand == 5 || incomeBand == 6 then Some("over_100k")
    else None
  }

  function CollapseAge(ageCohort: int): (r: Option<string>)
  {
    if ageCohort == 2 || ageCohort == 3 then Some("under_35")
    else if ageCohort == 4 || ageCohort == 5 then Some("35_to_54")
    else if ageCohort == 6 || ageCohort == 7 then Some("55_plus")
    else None
  }

  /** Income collapses to a band's label exactly when the answer lies in that
      band; answers outside 1..6 (7 is "prefer not to say") give null. */
  lemma CollapseIncomeMatchesBands(x: int)
    ensures CollapseIncome(x).None? <==> !(1 <= x <= 6)
    ensures forall b :: b in INCOME_BANDS ==> (CollapseIncome(x) == Some(b.name) <==> InBand(b, x))
  {
  }

  /** Age collapses to a band's label exactly when the cohort lies in that
      band; 1 (under 18) and 8 (prefer not to say) give null. */
  lemma CollapseAgeMatchesBands(x: int)
    ensures CollapseAge(x).None? <==> !(2 <= x <= 7)
    ensures forall b :: b in AGE_BANDS ==> (CollapseAge(x) == Some(b.name) <==> InBand(b, x))
  {
  }

  function CollapseHousehold(householdType: int): (r: string)
  {
    if householdType == 1 then "single"
    else if householdType == 2 then "couple"
    else if householdType == 3 || householdType == 4 then "family"
    else "other"
  }

  /** Household collapsing is total: 1 is single, 2 a couple, 3 and 4 a
      family, and 'other' catches everything outside 1..4. */
  lemma CollapseHouseholdTotal(x: int)
    ensures CollapseHousehold(x) in {"single", "couple", "family", "other"}
    ensures CollapseHousehold(x) == "other" <==> !(1 <= x <= 4)
    ensures CollapseHousehold(x) == "single" <==> x == 1
    ensures CollapseHousehold(x) == "couple" <==> x == 2
    ensures CollapseHousehold(x) == "family" <==> (x == 3 || x == 4)
  {
  }

  function CollapseChannel(channelCurrent: int): (r: string)
  {
    if channelCurrent == 1 || channelCurrent == 2 then "in_store"
    else if channelCurrent == 3 then "hybrid"
    else "online"
  }

  /** Channel collapsing is total: 1 and 2 are in store, 3 is hybrid and
      everything else online; over the answer codes 1 and up it orders the
      channels from store to online. */
  lemma CollapseChannelTotal(x: int, y: int)
    ensures CollapseChannel(x) in {"in_store", "hybrid", "online"}
    ensures 1 <= x <= y ==> ChannelRank(CollapseChannel(x)) <= ChannelRank(CollapseChannel(y))
    ensures CollapseChannel(x) == "in_store" <==> (x == 1 || x == 2)
    ensures CollapseChannel(x) == "hybrid" <==> x == 3
    ensures CollapseChannel(x) == "online" <==> !(1 <= x <= 3)
  {
  }

  function ChannelRank(c: string): int
  {
    if c == "in_store" then 0 else if c == "hybrid" then 1 else 2
  }

  function NpsCategory(score: int): (r: string)
  {
    if score >= 9 then "promoter"
    else if score >= 7 then "passive"
    else "detractor"
  }

  function NpsRank(c: string): int
  {
    if c == "detractor" then 0 else if c == "passive" then 1 else 2
  }

  /** The NPS category is one of three, agrees with the 0-6 / 7-8 / 9-10
      thresholds, and never goes down as the score goes up. */
  lemma NpsCategoryMonotone(a: int, b: int)
    requires a <= b
    ensures NpsCategory(a) in {"promoter", "passive", "detractor"}
    ensures NpsCategory(a) == "passive" <==> 7 <= a <= 8
    ensures NpsRank(NpsCategory(a)) <= NpsRank(NpsCategory(b))
  {
  }
}
