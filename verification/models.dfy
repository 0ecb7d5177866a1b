/**
 * The records the four agents hand to each other, the research state that
 * carries them, and the agent response envelope.
 *
 * Each record comes with `ToDict` (pydantic's `.dict()`) and `Validate`
 * (constructing the model from a decoded JSON object, `Model(**d)`). The
 * validator is strict: a `str` field takes a JSON string, a `float` field a
 * JSON number, a list or dict field a JSON array or object of the right
 * element type; unknown keys are ignored and every declared field is required.
 */
module Models {
  import opened Wrappers
  import opened Json

  /* ---------- RecommendationType ---------- */

  datatype RecommendationType = Go | NoGo | Conditional

  /** The enum member's string value. */
  function RecommendationValue(t: RecommendationType): string {
    match t
    case Go => "go"
    case NoGo => "no_go"
    case Conditional => "conditional"
  }

  /** Validating a string against the enum: only the three values are members. */
  function ParseRecommendation(s: string): (r: Option<RecommendationType>)
    ensures r.Some? <==> s == "go" || s == "no_go" || s == "conditional"
    ensures r.Some? ==> RecommendationValue(r.value) == s
  {
    if s == "go" then Some(Go)
    else if s == "no_go" then Some(NoGo)
    else if s == "conditional" then Some(Conditional)
    else None
  }

  /** Every member's value validates back to that member, and the values are distinct. */
  lemma RecommendationRoundTrip(t: RecommendationType)
    ensures ParseRecommendation(RecommendationValue(t)) == Some(t)
  {
  }

  /* ---------- the four records ---------- */

  datatype MarketResearchData = MarketResearchData(
    location: string,
    competitionLevel: string,
    targetCustomers: seq<string>,
    peakHours: seq<string>,
    seasonalFactors: seq<string>,
    marketSizeEstimate: string,
    competitionAnalysis: seq<Dict<Json>>,
    opportunities: seq<string>,
    challenges: seq<string>)

  datatype FinancialAnalysisData = FinancialAnalysisData(
    startupCosts: Dict<real>,
    monthlyOperatingCosts: Dict<real>,
    revenueProjections: Dict<real>,
    breakEvenTimeline: string,
    profitMargins: Dict<real>,
    cashFlowAnalysis: string,
    fundingRequirements: real,
    roiProjection: string)

  datatype OperationsAnalysisData = OperationsAnalysisData(
    permitsRequired: seq<string>,
    permitCosts: Dict<real>,
    permitTimeline: string,
    healthRegulations: seq<string>,
    locationConstraints: seq<string>,
    equipmentRequirements: seq<string>,
    staffingNeeds: Dict<Json>,
    dailyOperations: seq<string>,
    logisticsChallenges: seq<string>)

  datatype BusinessRecommendation = BusinessRecommendation(
    recommendation: RecommendationType,
    confidenceLevel: string,
    keyStrengths: seq<string>,
    keyRisks: seq<string>,
    successFactors: seq<string>,
    nextSteps: seq<string>,
    timelineRecommendation: string,
    alternativeSuggestions: seq<string>)

  /** The state one agent sees: the location and the records produced so far. */
  datatype ResearchState = ResearchState(
    location: string,
    marketResearch: Option<MarketResearchData> := None,
    financialAnalysis: Option<FinancialAnalysisData> := None,
    operationsAnalysis: Option<OperationsAnalysisData> := None,
    businessRecommendation: Option<BusinessRecommendation> := None,
    messages: seq<string> := [],
    currentAgent: Option<string> := None)

  /** A state built from the location alone carries nothing else. */
  lemma FreshStateIsEmpty(location: string)
    ensures var s := ResearchState(location);
      && s.location == location
      && s.marketResearch.None? && s.financialAnalysis.None?
      && s.operationsAnalysis.None? && s.businessRecommendation.None?
      && s.messages == [] && s.currentAgent.None?
  {
  }

  /** The payload of a successful agent response. */
  datatype StageData =
    | MarketData(market: MarketResearchData)
    | FinancialData(financial: FinancialAnalysisData)
    | OperationsData(operations: OperationsAnalysisData)
    | BusinessData(business: BusinessRecommendation)

  datatype ResponseStatus = Success | Error

  /** `"SUCCESS"` / `"ERROR"` */
  function StatusText(s: ResponseStatus): string {
    match s
    case Success => "SUCCESS"
    case Error => "ERROR"
  }

  datatype AgentResponse = AgentResponse(
    agentName: string,
    status: ResponseStatus,
    message: string,
    data: Option<StageData> := None,
    nextAgent: Option<string> := None,
    errorDetails: Option<string> := None)

  /** The optional parts of a response are absent unless given. */
  lemma ResponseDefaults(name: string, status: ResponseStatus, message: string)
    ensures var r := AgentResponse(name, status, message);
      r.data.None? && r.nextAgent.None? && r.errorDetails.None?
  {
  }

  /* ---------- field conversions: value <-> JSON ---------- */

  function AsStr(j: Json): Option<string> {
    if j.JStr? then Some(j.s) else None
  }

  /** A `float` field accepts a JSON integer or a JSON number. */
  function AsFloat(j: Json): Option<real> {
    match j
    case JInt(i) => Some(i as real)
    case JNum(r) => Some(r)
    case _ => None
  }

  function AsStrList(j: Json): Option<seq<string>> {
    if j.JArr? && forall i | 0 <= i < |j.items| :: j.items[i].JStr?
    then Some(seq(|j.items|, i requires 0 <= i < |j.items| && j.items[i].JStr? => j.items[i].s))
    else None
  }

  function FromStrList(xs: seq<string>): Json {
    JArr(seq(|xs|, i requires 0 <= i < |xs| => JStr(xs[i])))
  }

  lemma StrListRoundTrip(xs: seq<string>)
    ensures AsStrList(FromStrList(xs)) == Some(xs)
  {
    var j := FromStrList(xs);
    assert forall i | 0 <= i < |j.items| :: j.items[i] == JStr(xs[i]);
    assert AsStrList(j).value == xs;
  }

  function AsFloatDict(j: Json): Option<Dict<real>> {
    if j.JObj? && forall i | 0 <= i < |j.fields| :: AsFloat(j.fields[i].1).Some?
    then Some(seq(|j.fields|, i requires 0 <= i < |j.fields| && AsFloat(j.fields[i].1).Some? =>
                (j.fields[i].0, AsFloat(j.fields[i].1).value)))
    else None
  }

  function FromFloatDict(d: Dict<real>): Json {
    JObj(seq(|d|, i requires 0 <= i < |d| => (d[i].0, JNum(d[i].1))))
  }

  lemma FloatDictRoundTrip(d: Dict<real>)
    ensures AsFloatDict(FromFloatDict(d)) == Some(d)
  {
    var j := FromFloatDict(d);
    assert forall i | 0 <= i < |j.fields| :: j.fields[i] == (d[i].0, JNum(d[i].1));
    assert AsFloatDict(j).value == d;
  }

  function AsObject(j: Json): Option<Dict<Json>> {
    if j.JObj? then Some(j.fields) else None
  }

  function AsObjectList(j: Json): Option<seq<Dict<Json>>> {
    if j.JArr? && forall i | 0 <= i < |j.items| :: j.items[i].JObj?
    then Some(seq(|j.items|, i requires 0 <= i < |j.items| && j.items[i].JObj? => j.items[i].fields))
    else None
  }

  function FromObjectList(xs: seq<Dict<Json>>): Json {
    JArr(seq(|xs|, i requires 0 <= i < |xs| => JObj(xs[i])))
  }

  lemma ObjectListRoundTrip(xs: seq<Dict<Json>>)
    ensures AsObjectList(FromObjectList(xs)) == Some(xs)
  {
    var j := FromObjectList(xs);
    assert forall i | 0 <= i < |j.items| :: j.items[i] == JObj(xs[i]);
    assert AsObjectList(j).value == xs;
  }

  function AsRecommendation(j: Json): Option<RecommendationType> {
    if j.JStr? then ParseRecommendation(j.s) else None
  }

  /** The value stored under `key`, converted; absent or ill-typed gives None. */
  function Field<T>(d: Dict<Json>, key: string, conv: Json -> Option<T>): Option<T> {
    match Get(d, key)
    case None => None
    case Some(j) => conv(j)
  }



  /** A field that converts successfully is present. */
  lemma FieldPresent<T>(d: Dict<Json>, key: string, conv: Json -> Option<T>)
    requires Field(d, key, conv).Some?
    ensures Get(d, key).Some?
  {
  }

  /* ---------- MarketResearchData ---------- */

  const MarketFields: seq<string> := [
    "location", "competition_level", "target_customers", "peak_hours", "seasonal_factors",
    "market_size_estimate", "competition_analysis", "opportunities", "challenges"]

  function MarketToDict(m: MarketResearchData): Dict<Json> {
    [ ("location", JStr(m.location)),
      ("competition_level", JStr(m.competitionLevel)),
      ("target_customers", FromStrList(m.targetCustomers)),
      ("peak_hours", FromStrList(m.peakHours)),
      ("seasonal_factors", FromStrList(m.seasonalFactors)),
      ("market_size_estimate", JStr(m.marketSizeEstimate)),
      ("competition_analysis", FromObjectList(m.competitionAnalysis)),
      ("opportunities", FromStrList(m.opportunities)),
      ("challenges", FromStrList(m.challenges)) ]
  }

  function ValidateMarket(d: Dict<Json>): Option<MarketResearchData> {
    var location := Field(d, "location", AsStr);
    var competitionLevel := Field(d, "competition_level", AsStr);
    var targetCustomers := Field(d, "target_customers", AsStrList);
    var peakHours := Field(d, "peak_hours", AsStrList);
    var seasonalFactors := Field(d, "seasonal_factors", AsStrList);
    var marketSizeEstimate := Field(d, "market_size_estimate", AsStr);
    var competitionAnalysis := Field(d, "competition_analysis", AsObjectList);
    var opportunities := Field(d, "opportunities", AsStrList);
    var challenges := Field(d, "challenges", AsStrList);
    if location.Some? && competitionLevel.Some? && targetCustomers.Some? && peakHours.Some?
       && seasonalFactors.Some? && marketSizeEstimate.Some? && competitionAnalysis.Some? && opportunities.Some?
       && challenges.Some?
    then Some(MarketResearchData(location.value, competitionLevel.value, targetCustomers.value, peakHours.value, seasonalFactors.value,
                                 marketSizeEstimate.value, competitionAnalysis.value, opportunities.value, challenges.value))
    else None
  }

  /** `.dict()` then `MarketResearchData(**d)` gives the same record back. */
  lemma MarketRoundTrip(m: MarketResearchData)
    ensures ValidateMarket(MarketToDict(m)) == Some(m)
  {
    MarketLookups1(m);
    MarketLookups2(m);
    StrListRoundTrip(m.targetCustomers);
    StrListRoundTrip(m.peakHours);
    StrListRoundTrip(m.seasonalFactors);
    ObjectListRoundTrip(m.competitionAnalysis);
    StrListRoundTrip(m.opportunities);
    StrListRoundTrip(m.challenges);
  }

  lemma MarketLookups1(m: MarketResearchData)
    ensures Get(MarketToDict(m), "location") == Some(JStr(m.location))
    ensures Get(MarketToDict(m), "competition_level") == Some(JStr(m.competitionLevel))
    ensures Get(MarketToDict(m), "target_customers") == Some(FromStrList(m.targetCustomers))
    ensures Get(MarketToDict(m), "peak_hours") == Some(FromStrList(m.peakHours))
    ensures Get(MarketToDict(m), "seasonal_factors") == Some(FromStrList(m.seasonalFactors))
  {
    var d := MarketToDict(m);
    GetAt(d, 0);
    GetAt(d, 1);
    GetAt(d, 2);
    GetAt(d, 3);
    GetAt(d, 4);
  }

  lemma MarketLookups2(m: MarketResearchData)
    ensures Get(MarketToDict(m), "market_size_estimate") == Some(JStr(m.marketSizeEstimate))
    ensures Get(MarketToDict(m), "competition_analysis") == Some(FromObjectList(m.competitionAnalysis))
    ensures Get(MarketToDict(m), "opportunities") == Some(FromStrList(m.opportunities))
    ensures Get(MarketToDict(m), "challenges") == Some(FromStrList(m.challenges))
  {
    var d := MarketToDict(m);
    GetAt(d, 5);
    GetAt(d, 6);
    GetAt(d, 7);
    GetAt(d, 8);
  }

  /** `.dict()` has exactly the declared fields, in declaration order. */
  lemma MarketDictKeys(m: MarketResearchData)
    ensures Keys(MarketToDict(m)) == MarketFields
  {
  }

  /** Every field is required: an object that validates has every declared key. */
  lemma MarketFieldsRequired(d: Dict<Json>)
    requires ValidateMarket(d).Some?
    ensures forall k | 0 <= k < |MarketFields| :: Get(d, MarketFields[k]).Some?
  {
    FieldPresent(d, "location", AsStr);
    FieldPresent(d, "competition_level", AsStr);
    FieldPresent(d, "target_customers", AsStrList);
    FieldPresent(d, "peak_hours", AsStrList);
    FieldPresent(d, "seasonal_factors", AsStrList);
    FieldPresent(d, "market_size_estimate", AsStr);
    FieldPresent(d, "competition_analysis", AsObjectList);
    FieldPresent(d, "opportunities", AsStrList);
    FieldPresent(d, "challenges", AsStrList);
  }

  /* ---------- FinancialAnalysisData ---------- */

  const FinancialFields: seq<string> := [
    "startup_costs", "monthly_operating_costs", "revenue_projections", "break_even_timeline",
    "profit_margins", "cash_flow_analysis", "funding_requirements", "roi_projection"]

  function FinancialToDict(f: FinancialAnalysisData): Dict<Json> {
    [ ("startup_costs", FromFloatDict(f.startupCosts)),
      ("monthly_operating_costs", FromFloatDict(f.monthlyOperatingCosts)),
      ("revenue_projections", FromFloatDict(f.revenueProjections)),
      ("break_even_timeline", JStr(f.breakEvenTimeline)),
      ("profit_margins", FromFloatDict(f.profitMargins)),
      ("cash_flow_analysis", JStr(f.cashFlowAnalysis)),
      ("funding_requirements", JNum(f.fundingRequirements)),
      ("roi_projection", JStr(f.roiProjection)) ]
  }

  function ValidateFinancial(d: Dict<Json>): Option<FinancialAnalysisData> {
    var startupCosts := Field(d, "startup_costs", AsFloatDict);
    var monthlyOperatingCosts := Field(d, "monthly_operating_costs", AsFloatDict);
    var revenueProjections := Field(d, "revenue_projections", AsFloatDict);
    var breakEvenTimeline := Field(d, "break_even_timeline", AsStr);
    var profitMargins := Field(d, "profit_margins", AsFloatDict);
    var cashFlowAnalysis := Field(d, "cash_flow_analysis", AsStr);
    var fundingRequirements := Field(d, "funding_requirements", AsFloat);
    var roiProjection := Field(d, "roi_projection", AsStr);
    if startupCosts.Some? && monthlyOperatingCosts.Some? && revenueProjections.Some? && breakEvenTimeline.Some?
       && profitMargins.Some? && cashFlowAnalysis.Some? && fundingRequirements.Some? && roiProjection.Some?
    then Some(FinancialAnalysisData(startupCosts.value, monthlyOperatingCosts.value, revenueProjections.value, breakEvenTimeline.value,
                                    profitMargins.value, cashFlowAnalysis.value, fundingRequirements.value, roiProjection.value))
    else None
  }

  /** `.dict()` then `FinancialAnalysisData(**d)` gives the same record back. */
  lemma FinancialRoundTrip(f: FinancialAnalysisData)
    ensures ValidateFinancial(FinancialToDict(f)) == Some(f)
  {
    FinancialLookups1(f);
    FinancialLookups2(f);
    FloatDictRoundTrip(f.startupCosts);
    FloatDictRoundTrip(f.monthlyOperatingCosts);
    FloatDictRoundTrip(f.revenueProjections);
    FloatDictRoundTrip(f.profitMargins);
  }

  lemma FinancialLookups1(f: FinancialAnalysisData)
    ensures Get(FinancialToDict(f), "startup_costs") == Some(FromFloatDict(f.startupCosts))
    ensures Get(FinancialToDict(f), "monthly_operating_costs") == Some(FromFloatDict(f.monthlyOperatingCosts))
    ensures Get(FinancialToDict(f), "revenue_projections") == Some(FromFloatDict(f.revenueProjections))
    ensures Get(FinancialToDict(f), "break_even_timeline") == Some(JStr(f.breakEvenTimeline))
  {
    var d := FinancialToDict(f);
    GetAt(d, 0);
    GetAt(d, 1);
    GetAt(d, 2);
    GetAt(d, 3);
  }

  lemma FinancialLookups2(f: FinancialAnalysisData)
    ensures Get(FinancialToDict(f), "profit_margins") == Some(FromFloatDict(f.profitMargins))
    ensures Get(FinancialToDict(f), "cash_flow_analysis") == Some(JStr(f.cashFlowAnalysis))
    ensures Get(FinancialToDict(f), "funding_requirements") == Some(JNum(f.fundingRequirements))
    ensures Get(FinancialToDict(f), "roi_projection") == Some(JStr(f.roiProjection))
  {
    var d := FinancialToDict(f);
    GetAt(d, 4);
    GetAt(d, 5);
    GetAt(d, 6);
    GetAt(d, 7);
  }

  lemma FinancialDictKeys(f: FinancialAnalysisData)
    ensures Keys(FinancialToDict(f)) == FinancialFields
  {
  }

  /** Every field is required: an object that validates has every declared key. */
  lemma FinancialFieldsRequired(d: Dict<Json>)
    requires ValidateFinancial(d).Some?
    ensures forall k | 0 <= k < |FinancialFields| :: Get(d, FinancialFields[k]).Some?
  {
    FieldPresent(d, "startup_costs", AsFloatDict);
    FieldPresent(d, "monthly_operating_costs", AsFloatDict);
    FieldPresent(d, "revenue_projections", AsFloatDict);
    FieldPresent(d, "break_even_timeline", AsStr);
    FieldPresent(d, "profit_margins", AsFloatDict);
    FieldPresent(d, "cash_flow_analysis", AsStr);
    FieldPresent(d, "funding_requirements", AsFloat);
    FieldPresent(d, "roi_projection", AsStr);
  }

  /* ---------- OperationsAnalysisData ---------- */

  const OperationsFields: seq<string> := [
    "permits_required", "permit_costs", "permit_timeline", "health_regulations", "location_constraints",
    "equipment_requirements", "staffing_needs", "daily_operations", "logistics_challenges"]

  function OperationsToDict(o: OperationsAnalysisData): Dict<Json> {
    [ ("permits_required", FromStrList(o.permitsRequired)),
      ("permit_costs", FromFloatDict(o.permitCosts)),
      ("permit_timeline", JStr(o.permitTimeline)),
      ("health_regulations", FromStrList(o.healthRegulations)),
      ("location_constraints", FromStrList(o.locationConstraints)),
      ("equipment_requirements", FromStrList(o.equipmentRequirements)),
      ("staffing_needs", JObj(o.staffingNeeds)),
      ("daily_operations", FromStrList(o.dailyOperations)),
      ("logistics_challenges", FromStrList(o.logisticsChallenges)) ]
  }

  function ValidateOperations(d: Dict<Json>): Option<OperationsAnalysisData> {
    var permitsRequired := Field(d, "permits_required", AsStrList);
    var permitCosts := Field(d, "permit_costs", AsFloatDict);
    var permitTimeline := Field(d, "permit_timeline", AsStr);
    var healthRegulations := Field(d, "health_regulations", AsStrList);
    var locationConstraints := Field(d, "location_constraints", AsStrList);
    var equipmentRequirements := Field(d, "equipment_requirements", AsStrList);
    var staffingNeeds := Field(d, "staffing_needs", AsObject);
    var dailyOperations := Field(d, "daily_operations", AsStrList);
    var logisticsChallenges := Field(d, "logistics_challenges", AsStrList);
    if permitsRequired.Some? && permitCosts.Some? && permitTimeline.Some? && healthRegulations.Some?
       && locationConstraints.Some? && equipmentRequirements.Some? && staffingNeeds.Some? && dailyOperations.Some?
       && logisticsChallenges.Some?
    then Some(OperationsAnalysisData(permitsRequired.value, permitCosts.value, permitTimeline.value, healthRegulations.value,
                                     locationConstraints.value, equipmentRequirements.value, staffingNeeds.value,
                                     dailyOperations.value, logisticsChallenges.value))
    else None
  }

  /** `.dict()` then `OperationsAnalysisData(**d)` gives the same record back. */
  lemma OperationsRoundTrip(o: OperationsAnalysisData)
    ensures ValidateOperations(OperationsToDict(o)) == Some(o)
  {
    OperationsLookups1(o);
    OperationsLookups2(o);
    StrListRoundTrip(o.permitsRequired);
    FloatDictRoundTrip(o.permitCosts);
    StrListRoundTrip(o.healthRegulations);
    StrListRoundTrip(o.locationConstraints);
    StrListRoundTrip(o.equipmentRequirements);
    StrListRoundTrip(o.dailyOperations);
    StrListRoundTrip(o.logisticsChallenges);
  }

  lemma OperationsLookups1(o: OperationsAnalysisData)
    ensures Get(OperationsToDict(o), "permits_required") == Some(FromStrList(o.permitsRequired))
    ensures Get(OperationsToDict(o), "permit_costs") == Some(FromFloatDict(o.permitCosts))
    ensures Get(OperationsToDict(o), "permit_timeline") == Some(JStr(o.permitTimeline))
    ensures Get(OperationsToDict(o), "health_regulations") == Some(FromStrList(o.healthRegulations))
    ensures Get(OperationsToDict(o), "location_constraints") == Some(FromStrList(o.locationConstraints))
  {
    var d := OperationsToDict(o);
    GetAt(d, 0);
    GetAt(d, 1);
    GetAt(d, 2);
    GetAt(d, 3);
    GetAt(d, 4);
  }

  lemma OperationsLookups2(o: OperationsAnalysisData)
    ensures Get(OperationsToDict(o), "equipment_requirements") == Some(FromStrList(o.equipmentRequirements))
    ensures Get(OperationsToDict(o), "staffing_needs") == Some(JObj(o.staffingNeeds))
    ensures Get(OperationsToDict(o), "daily_operations") == Some(FromStrList(o.dailyOperations))
    ensures Get(OperationsToDict(o), "logistics_challenges") == Some(FromStrList(o.logisticsChallenges))
  {
    var d := OperationsToDict(o);
    GetAt(d, 5);
    GetAt(d, 6);
    GetAt(d, 7);
    GetAt(d, 8);
  }

  lemma OperationsDictKeys(o: OperationsAnalysisData)
    ensures Keys(OperationsToDict(o)) == OperationsFields
  {
  }

  /** Every field is required: an object that validates has every declared key. */
  lemma OperationsFieldsRequired(d: Dict<Json>)
    requires ValidateOperations(d).Some?
    ensures forall k | 0 <= k < |OperationsFields| :: Get(d, OperationsFields[k]).Some?
  {
    FieldPresent(d, "permits_required", AsStrList);
    FieldPresent(d, "permit_costs", AsFloatDict);
    FieldPresent(d, "permit_timeline", AsStr);
    FieldPresent(d, "health_regulations", AsStrList);
    FieldPresent(d, "location_constraints", AsStrList);
    FieldPresent(d, "equipment_requirements", AsStrList);
    FieldPresent(d, "staffing_needs", AsObject);
    FieldPresent(d, "daily_operations", AsStrList);
    FieldPresent(d, "logistics_challenges", AsStrList);
  }

  /* ---------- BusinessRecommendation ---------- */

  const BusinessFields: seq<string> := [
    "recommendation", "confidence_level", "key_strengths", "key_risks", "success_factors",
    "next_steps", "timeline_recommendation", "alternative_suggestions"]

  function BusinessToDict(b: BusinessRecommendation): Dict<Json> {
    [ ("recommendation", JStr(RecommendationValue(b.recommendation))),
      ("confidence_level", JStr(b.confidenceLevel)),
      ("key_strengths", FromStrList(b.keyStrengths)),
      ("key_risks", FromStrList(b.keyRisks)),
      ("success_factors", FromStrList(b.successFactors)),
      ("next_steps", FromStrList(b.nextSteps)),
      ("timeline_recommendation", JStr(b.timelineRecommendation)),
      ("alternative_suggestions", FromStrList(b.alternativeSuggestions)) ]
  }

  function ValidateBusiness(d: Dict<Json>): Option<BusinessRecommendation> {
    var recommendation := Field(d, "recommendation", AsRecommendation);
    var confidenceLevel := Field(d, "confidence_level", AsStr);
    var keyStrengths := Field(d, "key_strengths", AsStrList);
    var keyRisks := Field(d, "key_risks", AsStrList);
    var successFactors := Field(d, "success_factors", AsStrList);
    var nextSteps := Field(d, "next_steps", AsStrList);
    var timelineRecommendation := Field(d, "timeline_recommendation", AsStr);
    var alternativeSuggestions := Field(d, "alternative_suggestions", AsStrList);
    if recommendation.Some? && confidenceLevel.Some? && keyStrengths.Some? && keyRisks.Some?
       && successFactors.Some? && nextSteps.Some? && timelineRecommendation.Some? && alternativeSuggestions.Some?
    then Some(BusinessRecommendation(recommendation.value, confidenceLevel.value, keyStrengths.value, keyRisks.value, successFactors.value,
                                     nextSteps.value, timelineRecommendation.value, alternativeSuggestions.value))
    else None
  }

  /** `.dict()` then `BusinessRecommendation(**d)` gives the same record back. */
  lemma BusinessRoundTrip(b: BusinessRecommendation)
    ensures ValidateBusiness(BusinessToDict(b)) == Some(b)
  {
    BusinessLookups1(b);
    BusinessLookups2(b);
    RecommendationRoundTrip(b.recommendation);
    StrListRoundTrip(b.keyStrengths);
    StrListRoundTrip(b.keyRisks);
    StrListRoundTrip(b.successFactors);
    StrListRoundTrip(b.nextSteps);
    StrListRoundTrip(b.alternativeSuggestions);
  }

  lemma BusinessLookups1(b: BusinessRecommendation)
    ensures Get(BusinessToDict(b), "recommendation") == Some(JStr(RecommendationValue(b.recommendation)))
    ensures Get(BusinessToDict(b), "confidence_level") == Some(JStr(b.confidenceLevel))
    ensures Get(BusinessToDict(b), "key_strengths") == Some(FromStrList(b.keyStrengths))
    ensures Get(BusinessToDict(b), "key_risks") == Some(FromStrList(b.keyRisks))
  {
    var d := BusinessToDict(b);
    GetAt(d, 0);
    GetAt(d, 1);
    GetAt(d, 2);
    GetAt(d, 3);
  }

  lemma BusinessLookups2(b: BusinessRecommendation)
    ensures Get(BusinessToDict(b), "success_factors") == Some(FromStrList(b.successFactors))
    ensures Get(BusinessToDict(b), "next_steps") == Some(FromStrList(b.nextSteps))
    ensures Get(BusinessToDict(b), "timeline_recommendation") == Some(JStr(b.timelineRecommendation))
    ensures Get(BusinessToDict(b), "alternative_suggestions") == Some(FromStrList(b.alternativeSuggestions))
  {
    var d := BusinessToDict(b);
    GetAt(d, 4);
    GetAt(d, 5);
    GetAt(d, 6);
    GetAt(d, 7);
  }

  lemma BusinessDictKeys(b: BusinessRecommendation)
    ensures Keys(BusinessToDict(b)) == BusinessFields
  {
  }

  /** Every field is required: an object that validates has every declared key. */
  lemma BusinessFieldsRequired(d: Dict<Json>)
    requires ValidateBusiness(d).Some?
    ensures forall k | 0 <= k < |BusinessFields| :: Get(d, BusinessFields[k]).Some?
  {
    FieldPresent(d, "recommendation", AsRecommendation);
    FieldPresent(d, "confidence_level", AsStr);
    FieldPresent(d, "key_strengths", AsStrList);
    FieldPresent(d, "key_risks", AsStrList);
    FieldPresent(d, "success_factors", AsStrList);
    FieldPresent(d, "next_steps", AsStrList);
    FieldPresent(d, "timeline_recommendation", AsStr);
    FieldPresent(d, "alternative_suggestions", AsStrList);
  }

  /** A recommendation that is not one of the enum's values fails validation, whatever else the object holds. */
  lemma UnknownRecommendationRejected(d: Dict<Json>, s: string)
    requires Get(d, "recommendation") == Some(JStr(s))
    requires s != "go" && s != "no_go" && s != "conditional"
    ensures ValidateBusiness(d).None?
  {
  }
}
