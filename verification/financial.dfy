/**
 * The Financial Advisor: the second stage. Its prompt carries the context
 * built from the earlier records; its fallback is a fixed budget whose
 * startup costs add up to the funding it asks for.
 */
module FinancialAgent {
  import opened Wrappers
  import opened Text
  import opened Json
  import opened Models
  import opened Retry
  import opened BaseAgent

  const FailedMessage := "Failed to complete financial analysis"

  function CompletedMessage(location: string): string {
    "Completed financial analysis for " + location
  }

  const NextAgent := "Operations Consultant"

  function Spec(location: string): StageSpec<FinancialAnalysisData> {
    StageSpec(FinancialAdvisor, "FinancialAnalysisData", ValidateFinancial, f => FinancialData(f),
              CompletedMessage(location), FailedMessage, Some(NextAgent))
  }

  /** `_create_user_prompt(state.location, format_context_from_state(state))` */
  function UserPrompt(show: Show, state: ResearchState): string {
    CreateUserPrompt(state.location, Some(FormatContextFromState(show, state)))
  }

  const StartupCosts: Dict<real> := [
    ("food_truck", 75000.0), ("equipment", 25000.0), ("permits_licenses", 5000.0),
    ("initial_inventory", 3000.0), ("marketing", 2000.0), ("working_capital", 10000.0),
    ("insurance", 4000.0), ("other", 3000.0)]

  const MonthlyOperatingCosts: Dict<real> := [
    ("food_costs", 8000.0), ("fuel", 800.0), ("insurance", 400.0), ("permits", 200.0),
    ("maintenance", 500.0), ("marketing", 300.0), ("staff", 6000.0), ("other", 800.0)]

  const RevenueProjections: Dict<real> := [
    ("daily_revenue", 800.0), ("monthly_revenue", 20000.0), ("annual_revenue", 240000.0)]

  /**
   * `_extract_financial_data_fallback(location)`: a fixed budget; the
   * location is not read.
   */
  function Fallback(location: string): FinancialAnalysisData {
    FinancialAnalysisData(
      startupCosts := StartupCosts,
      monthlyOperatingCosts := MonthlyOperatingCosts,
      revenueProjections := RevenueProjections,
      breakEvenTimeline := "12-18 months",
      profitMargins := [("gross_margin", 0.65), ("net_margin", 0.15)],
      cashFlowAnalysis := "Seasonal variations expected, maintain 3-month cash reserve",
      fundingRequirements := 127000.0,
      roiProjection := "15-20% ROI expected within 2-3 years")
  }

  function FallbackOn(location: string): string -> FinancialAnalysisData {
    _ => Fallback(location)
  }

  /**
   * `process_request` once its prompt is built, given how to build the
   * fallback from the reply: SUCCESS exactly when the retried call on the
   * prompt returns text that is not a non-object JSON value, with the
   * stage's record and its successor named; otherwise ERROR with the
   * exception's text.
   */
  function Respond(env: Env, location: string, prompt: string, fallback: string -> FinancialAnalysisData): (r: AgentResponse)
    ensures r.agentName == AgentName(FinancialAdvisor)
    ensures var o := SafeLlmCall(env.llm, Request(FinancialAdvisor, prompt)).outcome;
      r.status == Success <==> o.Returns? && !Parse(env.decode, ValidateFinancial, o.value).NotAnObject?
    ensures r.status == Success ==>
      && r.message == CompletedMessage(location) && r.nextAgent == Some(NextAgent)
      && r.data.Some? && r.data.value.FinancialData? && r.errorDetails.None?
    ensures r.status == Error ==>
      r.message == FailedMessage && r.data.None? && r.nextAgent.None? && r.errorDetails.Some?
  {
    RunStage(env, Spec(location), prompt, fallback)
  }

  /** `process_request`: the prompt for the state, then the response to it. */
  function ProcessRequest(env: Env, state: ResearchState): AgentResponse {
    Respond(env, state.location, UserPrompt(env.show, state), FallbackOn(state.location))
  }

  /** The agent as the workflow holds it: its `process_request`. */
  function Processor(env: Env): ResearchState -> AgentResponse {
    state => ProcessRequest(env, state)
  }

  /** Whatever the state, SUCCESS carries this agent's own kind of record and ERROR carries the exception's text. */
  lemma ProcessorFaithful(env: Env)
    ensures Faithful(FinancialAdvisor, Processor(env))
  {
    forall state: ResearchState
      ensures var r := Processor(env)(state);
        && (r.status == Success ==> CarriesRecordOf(FinancialAdvisor, r.data))
        && (r.status == Error ==> r.errorDetails.Some?)
    {
      var r := ProcessRequest(env, state);
    }
  }

  /** Without earlier records the financial prompt is the bare prompt: no context block. */
  lemma PromptWithoutRecords(show: Show, state: ResearchState)
    requires state.marketResearch.None? && state.financialAnalysis.None? && state.operationsAnalysis.None?
    ensures UserPrompt(show, state) == PromptOpening(state.location) + PromptClosing
  {
    ContextEmptyIffNoRecords(show, state);
    UserPromptShape(state.location, Some(FormatContextFromState(show, state)));
    var p := UserPrompt(show, state);
    var n := |PromptOpening(state.location)|;
    assert p == p[..n] + p[n..|p| - |PromptClosing|] + p[|p| - |PromptClosing|..];
  }

  /** With a market record the prompt holds the context block, and the block quotes the competition level. */
  lemma PromptQuotesMarket(show: Show, state: ResearchState)
    requires state.marketResearch.Some?
    ensures var p := UserPrompt(show, state);
      && Contains(FormatContextFromState(show, state), "- Competition Level: " + state.marketResearch.value.competitionLevel)
      && p == PromptOpening(state.location) + ContextHeading + FormatContextFromState(show, state) + PromptClosing
  {
    ContextQuotesCompetitionLevel(show, state);
    ContextEmptyIffNoRecords(show, state);
    UserPromptShape(state.location, Some(FormatContextFromState(show, state)));
    var p := UserPrompt(show, state);
    var n := |PromptOpening(state.location)|;
    assert p == p[..n] + p[n..|p| - |PromptClosing|] + p[|p| - |PromptClosing|..];
  }

  /** The fallback does not depend on the location. */
  lemma FallbackIgnoresLocation(a: string, b: string)
    ensures Fallback(a) == Fallback(b)
  {
  }

  /** The fallback's startup costs add up exactly to the funding it requires, 127000. */
  lemma FallbackStartupCostsFundIt(location: string)
    ensures SumValues(Fallback(location).startupCosts) == Fallback(location).fundingRequirements == 127000.0
  {
    var d := StartupCosts;
    assert SumValues(d[7..]) == 3000.0;
    assert SumValues(d[6..]) == 7000.0;
    assert SumValues(d[5..]) == 17000.0;
    assert SumValues(d[4..]) == 19000.0;
    assert SumValues(d[3..]) == 22000.0;
    assert SumValues(d[2..]) == 27000.0;
    assert SumValues(d[1..]) == 52000.0;
  }

  /** The fallback's monthly operating costs add up to 17000, below its monthly revenue. */
  lemma FallbackMonthlyCostsBelowRevenue(location: string)
    ensures SumValues(Fallback(location).monthlyOperatingCosts) == 17000.0
    ensures Get(Fallback(location).revenueProjections, "monthly_revenue") == Some(20000.0)
  {
    var d := MonthlyOperatingCosts;
    assert SumValues(d[7..]) == 800.0;
    assert SumValues(d[6..]) == 6800.0;
    assert SumValues(d[5..]) == 7100.0;
    assert SumValues(d[4..]) == 7600.0;
    assert SumValues(d[3..]) == 7800.0;
    assert SumValues(d[2..]) == 8200.0;
    assert SumValues(d[1..]) == 9000.0;
  }

  /** The fallback's annual revenue is twelve months of its monthly revenue. */
  lemma FallbackAnnualIsTwelveMonths(location: string)
    ensures var rev := Fallback(location).revenueProjections;
      && Get(rev, "monthly_revenue").Some? && Get(rev, "annual_revenue").Some?
      && Get(rev, "annual_revenue").value == 12.0 * Get(rev, "monthly_revenue").value
  {
    var rev := RevenueProjections;
    assert Get(rev, "monthly_revenue") == Some(20000.0);
    assert Get(rev, "annual_revenue") == Some(240000.0);
  }

  /** The fallback is a valid `FinancialAnalysisData`: it survives `.dict()` and re-validation. */
  lemma FallbackIsValidRecord(location: string)
    ensures ValidateFinancial(FinancialToDict(Fallback(location))) == Some(Fallback(location))
  {
    FinancialRoundTrip(Fallback(location));
  }

  /** A reply that is not a valid financial record gives SUCCESS with the fallback. */
  lemma ParseFailureGivesFallback(env: Env, state: ResearchState, text: string)
    requires env.llm(Request(FinancialAdvisor, UserPrompt(env.show, state)), 0) == Content(text)
    requires Parse(env.decode, ValidateFinancial, text).NotJson? || Parse(env.decode, ValidateFinancial, text).SchemaInvalid?
    ensures ProcessRequest(env, state)
         == AgentResponse(AgentName(FinancialAdvisor), Success, CompletedMessage(state.location),
                          Some(FinancialData(Fallback(state.location))), Some(NextAgent))
  {
    ParseFailureFallsBack(env, Spec(state.location), UserPrompt(env.show, state), FallbackOn(state.location), text);
  }
}
