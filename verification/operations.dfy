/**
 * The Operations Consultant: the third stage. Its prompt carries the
 * context built from the earlier records; its fallback is a fixed plan of
 * permits, rules, equipment and staffing.
 */
module OperationsAgent {
  import opened Wrappers
  import opened Json
  import opened Models
  import opened Retry
  import opened BaseAgent

  const FailedMessage := "Failed to complete operations analysis"

  function CompletedMessage(location: string): string {
    "Completed operations analysis for " + location
  }

  const NextAgent := "Business Consultant"

  function Spec(location: string): StageSpec<OperationsAnalysisData> {
    StageSpec(OperationsConsultant, "OperationsAnalysisData", ValidateOperations, o => OperationsData(o),
              CompletedMessage(location), FailedMessage, Some(NextAgent))
  }

  /** `_create_user_prompt(state.location, format_context_from_state(state))` */
  function UserPrompt(show: Show, state: ResearchState): string {
    CreateUserPrompt(state.location, Some(FormatContextFromState(show, state)))
  }

  const Permits: seq<string> := [
    "Business License", "Food Service Permit", "Mobile Vendor Permit",
    "Fire Department Permit", "Zoning Permit"]

  const PermitCosts: Dict<real> := [
    ("business_license", 200.0), ("food_service_permit", 500.0), ("mobile_vendor_permit", 1000.0),
    ("fire_permit", 150.0), ("other_permits", 300.0)]

  const StaffingNeeds: Dict<Json> := [
    ("minimum_staff", JInt(2)),
    ("peak_staff", JInt(4)),
    ("roles", JArr([JStr("Manager/Cook"), JStr("Cashier"), JStr("Prep Cook"), JStr("Driver")])),
    ("labor_costs_hourly", JObj([("manager", JNum(20.0)), ("cook", JNum(18.0)),
                                 ("cashier", JNum(16.0)), ("prep", JNum(15.0))]))]

  const HealthRegulations: seq<string> := [
    "Food handler certifications required", "Regular health inspections",
    "Temperature monitoring logs", "Hand washing stations", "Proper food storage protocols"]

  const LocationConstraints: seq<string> := [
    "Distance restrictions from restaurants", "Designated parking zones only",
    "Time limits on parking", "Noise ordinance compliance", "Special event permits needed"]

  const EquipmentRequirements: seq<string> := [
    "Commercial-grade cooking equipment", "Refrigeration units", "Generator or electrical hookup",
    "Fire suppression system", "Hand washing station", "Point of sale system", "Storage and prep areas"]

  const DailyOperations: seq<string> := [
    "Pre-service equipment checks", "Food prep and inventory", "Location setup and permits",
    "Service operations", "End-of-day cleaning and storage", "Daily sales reporting"]

  const LogisticsChallenges: seq<string> := [
    "Fresh ingredient sourcing", "Propane and fuel management", "Waste disposal logistics",
    "Equipment maintenance scheduling", "Seasonal storage considerations"]

  /**
   * `_extract_operations_data_fallback(location)`: a fixed plan; the
   * location is not read.
   */
  function Fallback(location: string): OperationsAnalysisData {
    OperationsAnalysisData(
      permitsRequired := Permits,
      permitCosts := PermitCosts,
      permitTimeline := "4-8 weeks to obtain all permits",
      healthRegulations := HealthRegulations,
      locationConstraints := LocationConstraints,
      equipmentRequirements := EquipmentRequirements,
      staffingNeeds := StaffingNeeds,
      dailyOperations := DailyOperations,
      logisticsChallenges := LogisticsChallenges)
  }

  function FallbackOn(location: string): string -> OperationsAnalysisData {
    _ => Fallback(location)
  }

  /**
   * `process_request` once its prompt is built, given how to build the
   * fallback from the reply: SUCCESS exactly when the retried call on the
   * prompt returns text that is not a non-object JSON value, with the
   * stage's record and its successor named; otherwise ERROR with the
   * exception's text.
   */
  function Respond(env: Env, location: string, prompt: string, fallback: string -> OperationsAnalysisData): (r: AgentResponse)
    ensures r.agentName == AgentName(OperationsConsultant)
    ensures var o := SafeLlmCall(env.llm, Request(OperationsConsultant, prompt)).outcome;
      r.status == Success <==> o.Returns? && !Parse(env.decode, ValidateOperations, o.value).NotAnObject?
    ensures r.status == Success ==>
      && r.message == CompletedMessage(location) && r.nextAgent == Some(NextAgent)
      && r.data.Some? && r.data.value.OperationsData? && r.errorDetails.None?
    ensures r.status == Error ==>
      r.message == FailedMessage && r.data.None? && r.nextAgent.None? && r.errorDetails.Some?
  {
    RunStage(env, Spec(location), prompt, fallback)
  }

  /** `process_request`: the prompt for the state, then the response to it. */
  function ProcessRequest(env: Env, state: ResearchState): AgentResponse {
    Respond(env, state.location, UserPrompt(env.show, state), FallbackOn(state.location))
  }

  /** The agent as the workflow holds it: its `process_request`. */
  function Processor(env: Env): ResearchState -> AgentResponse {
    state => ProcessRequest(env, state)
  }

  /** Whatever the state, SUCCESS carries this agent's own kind of record and ERROR carries the exception's text. */
  lemma ProcessorFaithful(env: Env)
    ensures Faithful(OperationsConsultant, Processor(env))
  {
    forall state: ResearchState
      ensures var r := Processor(env)(state);
        && (r.status == Success ==> CarriesRecordOf(OperationsConsultant, r.data))
        && (r.status == Error ==> r.errorDetails.Some?)
    {
      var r := ProcessRequest(env, state);
    }
  }

  /** The operations prompt is the financial one's shape: the bare prompt exactly when no earlier record is present. */
  lemma PromptBareIffNoRecords(show: Show, state: ResearchState)
    ensures UserPrompt(show, state) == PromptOpening(state.location) + PromptClosing
        <==> state.marketResearch.None? && state.financialAnalysis.None? && state.operationsAnalysis.None?
  {
    ContextEmptyIffNoRecords(show, state);
    UserPromptShape(state.location, Some(FormatContextFromState(show, state)));
    var p := UserPrompt(show, state);
    var n := |PromptOpening(state.location)|;
    assert p == p[..n] + p[n..|p| - |PromptClosing|] + p[|p| - |PromptClosing|..];
    if p == PromptOpening(state.location) + PromptClosing {
      assert |p| == n + |PromptClosing|;
    }
  }

  /** The fallback does not depend on the location. */
  lemma FallbackIgnoresLocation(a: string, b: string)
    ensures Fallback(a) == Fallback(b)
  {
  }

  /** The fallback lists five permits and prices each of them. */
  lemma FallbackPricesEveryPermit(location: string)
    ensures |Fallback(location).permitsRequired| == 5
    ensures |Fallback(location).permitCosts| == |Fallback(location).permitsRequired|
  {
  }

  /** The fallback's minimum staff (2) does not exceed its peak staff (4). */
  lemma FallbackStaffingOrdered(location: string)
    ensures var staff := Fallback(location).staffingNeeds;
      && Get(staff, "minimum_staff") == Some(JInt(2))
      && Get(staff, "peak_staff") == Some(JInt(4))
      && Get(staff, "minimum_staff").value.i <= Get(staff, "peak_staff").value.i
  {
    assert Get(StaffingNeeds, "minimum_staff") == Some(JInt(2));
    assert StaffingNeeds[0].0 != "peak_staff";
    assert Get(StaffingNeeds, "peak_staff") == Some(JInt(4));
  }

  /** The fallback is a valid `OperationsAnalysisData`: it survives `.dict()` and re-validation. */
  lemma FallbackIsValidRecord(location: string)
    ensures ValidateOperations(OperationsToDict(Fallback(location))) == Some(Fallback(location))
  {
    OperationsRoundTrip(Fallback(location));
  }

  /** A reply that is not a valid operations record gives SUCCESS with the fallback. */
  lemma ParseFailureGivesFallback(env: Env, state: ResearchState, text: string)
    requires env.llm(Request(OperationsConsultant, UserPrompt(env.show, state)), 0) == Content(text)
    requires Parse(env.decode, ValidateOperations, text).NotJson? || Parse(env.decode, ValidateOperations, text).SchemaInvalid?
    ensures ProcessRequest(env, state)
         == AgentResponse(AgentName(OperationsConsultant), Success, CompletedMessage(state.location),
                          Some(OperationsData(Fallback(state.location))), Some(NextAgent))
  {
    ParseFailureFallsBack(env, Spec(state.location), UserPrompt(env.show, state), FallbackOn(state.location), text);
  }
}
