/**
 * The Business Consultant: the last stage. It reads all three earlier
 * records into one context, asks for a go / no-go / conditional decision,
 * and when the reply cannot be parsed falls back on a two-rule decision
 * over the funding and the competition level.
 */
module BusinessAgent {
  import opened Wrappers
  import opened Text
  import opened Json
  import opened Models
  import opened Retry
  import opened BaseAgent
  import MarketAgent
  import FinancialAgent

  const FailedMessage := "Failed to complete business recommendation synthesis"

  function CompletedMessage(location: string): string {
    "Completed business recommendation synthesis for " + location
  }

  /** The final agent names no successor. */
  function Spec(location: string): StageSpec<BusinessRecommendation> {
    StageSpec(BusinessConsultant, "BusinessRecommendation", ValidateBusiness, b => BusinessData(b),
              CompletedMessage(location), FailedMessage, None)
  }

  /* ---------- `_create_comprehensive_context` ---------- */

  function MarketLines(m: MarketResearchData): (lines: seq<string>)
    ensures |lines| == 8
  {
    [ "=== MARKET RESEARCH ANALYSIS ===",
      "Competition Level: " + m.competitionLevel,
      "Target Customers: " + Join(", ", m.targetCustomers),
      "Market Size Estimate: " + m.marketSizeEstimate,
      "Peak Hours: " + Join(", ", m.peakHours),
      "Key Opportunities: " + Join(", ", m.opportunities),
      "Key Challenges: " + Join(", ", m.challenges),
      "Seasonal Factors: " + Join(", ", m.seasonalFactors) ]
  }

  /** The line reporting a total, `f"{caption}${total:,.2f}"`. */
  function TotalLine(show: Show, caption: string, total: real): string {
    caption + "$" + show.money(total)
  }

  function FinancialLines(show: Show, f: FinancialAnalysisData): (lines: seq<string>)
    ensures |lines| == 8
  {
    [ "\n=== FINANCIAL ANALYSIS ===",
      TotalLine(show, "Total Funding Required: ", f.fundingRequirements),
      "Break-even Timeline: " + f.breakEvenTimeline,
      TotalLine(show, "Monthly Revenue Projection: ", GetOr(f.revenueProjections, "monthly_revenue", 0.0)),
      "ROI Projection: " + f.roiProjection,
      "Cash Flow Analysis: " + f.cashFlowAnalysis,
      TotalLine(show, "Total Startup Costs: ", SumValues(f.startupCosts)),
      TotalLine(show, "Monthly Operating Costs: ", SumValues(f.monthlyOperatingCosts)) ]
  }

  function OperationsLines(show: Show, o: OperationsAnalysisData): (lines: seq<string>)
    ensures |lines| == 7
  {
    [ "\n=== OPERATIONS ANALYSIS ===",
      "Permits Required: " + Join(", ", o.permitsRequired),
      "Permit Timeline: " + o.permitTimeline,
      "Key Health Regulations: " + Join(", ", Take(o.healthRegulations, 3)),
      "Location Constraints: " + Join(", ", Take(o.locationConstraints, 3)),
      "Staffing Requirements: " + show.str(JObj(o.staffingNeeds)),
      "Major Logistics Challenges: " + Join(", ", Take(o.logisticsChallenges, 3)) ]
  }

  /** The lines of a record when it is present: one group, or none. */
  function GroupOf<R>(record: Option<R>, lines: R -> seq<string>): (groups: seq<seq<string>>)
    ensures |groups| == if record.Some? then 1 else 0
    ensures record.Some? ==> groups[0] == lines(record.value)
  {
    if record.Some? then [lines(record.value)] else []
  }

  /** One group of lines per record present, in order market, financial, operations. */
  function Sections(show: Show, state: ResearchState): seq<seq<string>> {
    GroupOf(state.marketResearch, MarketLines)
    + GroupOf(state.financialAnalysis, f => FinancialLines(show, f))
    + GroupOf(state.operationsAnalysis, o => OperationsLines(show, o))
  }

  /** There is a section, each of several lines, exactly when there is a record. */
  lemma SectionsShape(show: Show, state: ResearchState)
    ensures var groups := Sections(show, state);
      && (forall i | 0 <= i < |groups| :: |groups[i]| > 1)
      && (|groups| == 0 <==> state.marketResearch.None? && state.financialAnalysis.None? && state.operationsAnalysis.None?)
  {
  }

  /** `_create_comprehensive_context`: every line of every section present, joined by newlines. */
  function ComprehensiveContext(show: Show, state: ResearchState): string {
    Join("\n", Flatten(Sections(show, state)))
  }

  /** The context is empty exactly when no earlier record is present. */
  lemma ContextEmptyIffNoRecords(show: Show, state: ResearchState)
    ensures ComprehensiveContext(show, state) == ""
        <==> state.marketResearch.None? && state.financialAnalysis.None? && state.operationsAnalysis.None?
  {
    SectionsShape(show, state);
    var groups := Sections(show, state);
    if |groups| > 0 {
      var lines := Flatten(groups);
      assert lines == groups[0] + Flatten(groups[1..]);
      assert Join("\n", lines) == lines[0] + "\n" + Join("\n", lines[1..]);
    }
  }

  /** The context is the present sections' texts, each whole, in order, separated by one newline. */
  lemma ContextIsSectionsInOrder(show: Show, state: ResearchState)
    ensures ComprehensiveContext(show, state) == Join("\n", JoinEach("\n", Sections(show, state)))
  {
    JoinFlatten("\n", Sections(show, state));
  }

  /** The financial lines of the context, wherever that section falls. */
  lemma FinancialSectionPresent(show: Show, state: ResearchState) returns (k: nat)
    requires state.financialAnalysis.Some?
    ensures k < |Sections(show, state)| && Sections(show, state)[k] == FinancialLines(show, state.financialAnalysis.value)
  {
    k := if state.marketResearch.Some? then 1 else 0;
  }

  /**
   * The startup and monthly totals the context reports are the sums of the
   * record's cost maps.
   */
  lemma ContextReportsCostSums(show: Show, state: ResearchState)
    requires state.financialAnalysis.Some?
    ensures var f := state.financialAnalysis.value;
      && Contains(ComprehensiveContext(show, state), TotalLine(show, "Total Startup Costs: ", SumValues(f.startupCosts)))
      && Contains(ComprehensiveContext(show, state), TotalLine(show, "Monthly Operating Costs: ", SumValues(f.monthlyOperatingCosts)))
  {
    var groups := Sections(show, state);
    var k := FinancialSectionPresent(show, state);
    ContextIsSectionsInOrder(show, state);
    var each := JoinEach("\n", groups);
    JoinContainsPart("\n", each, k);
    JoinContainsPart("\n", groups[k], 6);
    JoinContainsPart("\n", groups[k], 7);
    var ctx := ComprehensiveContext(show, state);
    ContainsTransitive(ctx, each[k], groups[k][6]);
    ContainsTransitive(ctx, each[k], groups[k][7]);
  }

  /** Every line of every section occurs in the context. */
  lemma ContextHasLine(show: Show, state: ResearchState, k: nat, j: nat)
    requires k < |Sections(show, state)| && j < |Sections(show, state)[k]|
    ensures Contains(ComprehensiveContext(show, state), Sections(show, state)[k][j])
  {
    var groups := Sections(show, state);
    ContextIsSectionsInOrder(show, state);
    var each := JoinEach("\n", groups);
    JoinContainsPart("\n", each, k);
    JoinContainsPart("\n", groups[k], j);
    ContainsTransitive(ComprehensiveContext(show, state), each[k], groups[k][j]);
  }

  /** The operations lines of the context, after the sections of the records before it. */
  lemma OperationsSectionPresent(show: Show, state: ResearchState) returns (k: nat)
    requires state.operationsAnalysis.Some?
    ensures k < |Sections(show, state)| && Sections(show, state)[k] == OperationsLines(show, state.operationsAnalysis.value)
  {
    k := (if state.marketResearch.Some? then 1 else 0) + (if state.financialAnalysis.Some? then 1 else 0);
  }

  /** With a market record, the context quotes every one of its fields under its caption. */
  lemma ContextQuotesMarket(show: Show, state: ResearchState)
    requires state.marketResearch.Some?
    ensures var ctx, m := ComprehensiveContext(show, state), state.marketResearch.value;
      && Contains(ctx, "Competition Level: " + m.competitionLevel)
      && Contains(ctx, "Target Customers: " + Join(", ", m.targetCustomers))
      && Contains(ctx, "Market Size Estimate: " + m.marketSizeEstimate)
      && Contains(ctx, "Peak Hours: " + Join(", ", m.peakHours))
      && Contains(ctx, "Key Opportunities: " + Join(", ", m.opportunities))
      && Contains(ctx, "Key Challenges: " + Join(", ", m.challenges))
      && Contains(ctx, "Seasonal Factors: " + Join(", ", m.seasonalFactors))
  {
    assert Sections(show, state)[0] == MarketLines(state.marketResearch.value);
    ContextHasLine(show, state, 0, 1);
    ContextHasLine(show, state, 0, 2);
    ContextHasLine(show, state, 0, 3);
    ContextHasLine(show, state, 0, 4);
    ContextHasLine(show, state, 0, 5);
    ContextHasLine(show, state, 0, 6);
    ContextHasLine(show, state, 0, 7);
  }

  /** With a financial record, the context quotes its funding, timelines, revenue and both cost totals. */
  lemma ContextQuotesFinancial(show: Show, state: ResearchState)
    requires state.financialAnalysis.Some?
    ensures var ctx, f := ComprehensiveContext(show, state), state.financialAnalysis.value;
      && Contains(ctx, TotalLine(show, "Total Funding Required: ", f.fundingRequirements))
      && Contains(ctx, "Break-even Timeline: " + f.breakEvenTimeline)
      && Contains(ctx, TotalLine(show, "Monthly Revenue Projection: ", GetOr(f.revenueProjections, "monthly_revenue", 0.0)))
      && Contains(ctx, "ROI Projection: " + f.roiProjection)
      && Contains(ctx, "Cash Flow Analysis: " + f.cashFlowAnalysis)
      && Contains(ctx, TotalLine(show, "Total Startup Costs: ", SumValues(f.startupCosts)))
      && Contains(ctx, TotalLine(show, "Monthly Operating Costs: ", SumValues(f.monthlyOperatingCosts)))
  {
    var k := FinancialSectionPresent(show, state);
    ContextHasLine(show, state, k, 1);
    ContextHasLine(show, state, k, 2);
    ContextHasLine(show, state, k, 3);
    ContextHasLine(show, state, k, 4);
    ContextHasLine(show, state, k, 5);
    ContextHasLine(show, state, k, 6);
    ContextHasLine(show, state, k, 7);
  }

  /**
   * With an operations record, the context quotes its permits, permit
   * timeline and staffing, and the first three items of each longer list.
   */
  lemma ContextQuotesOperations(show: Show, state: ResearchState)
    requires state.operationsAnalysis.Some?
    ensures var ctx, o := ComprehensiveContext(show, state), state.operationsAnalysis.value;
      && Contains(ctx, "Permits Required: " + Join(", ", o.permitsRequired))
      && Contains(ctx, "Permit Timeline: " + o.permitTimeline)
      && Contains(ctx, "Key Health Regulations: " + Join(", ", Take(o.healthRegulations, 3)))
      && Contains(ctx, "Location Constraints: " + Join(", ", Take(o.locationConstraints, 3)))
      && Contains(ctx, "Staffing Requirements: " + show.str(JObj(o.staffingNeeds)))
      && Contains(ctx, "Major Logistics Challenges: " + Join(", ", Take(o.logisticsChallenges, 3)))
  {
    var k := OperationsSectionPresent(show, state);
    ContextHasLine(show, state, k, 1);
    ContextHasLine(show, state, k, 2);
    ContextHasLine(show, state, k, 3);
    ContextHasLine(show, state, k, 4);
    ContextHasLine(show, state, k, 5);
    ContextHasLine(show, state, k, 6);
  }

  /** Text inside text inside `s` is inside `s`. */
  lemma ContainsTransitive(s: string, t: string, p: string)
    requires Contains(s, t) && Contains(t, p)
    ensures Contains(s, p)
  {
    var i: nat :| i <= |s| && MatchesAt(s, t, i);
    var j: nat :| j <= |t| && MatchesAt(t, p, j);
    forall k | 0 <= k < |p|
      ensures s[i + j + k] == p[k]
    {
      assert s[i..i + |t|][j + k] == t[j + k];
      assert t[j..j + |p|][k] == p[k];
    }
    assert s[i + j..i + j + |p|] == p;
    assert MatchesAt(s, p, i + j);
  }

  /**
   * Only the first three health regulations, location constraints and
   * logistics challenges reach the context: changing any later item
   * changes nothing.
   */
  lemma ContextReadsFirstThree(show: Show, state: ResearchState, h: seq<string>, l: seq<string>, g: seq<string>)
    requires state.operationsAnalysis.Some?
    requires var o := state.operationsAnalysis.value;
      Take(h, 3) == Take(o.healthRegulations, 3) && Take(l, 3) == Take(o.locationConstraints, 3)
      && Take(g, 3) == Take(o.logisticsChallenges, 3)
    ensures var o := state.operationsAnalysis.value;
      ComprehensiveContext(show, state.(operationsAnalysis := Some(o.(healthRegulations := h, locationConstraints := l, logisticsChallenges := g))))
      == ComprehensiveContext(show, state)
  {
    var o := state.operationsAnalysis.value;
    var o' := o.(healthRegulations := h, locationConstraints := l, logisticsChallenges := g);
    assert OperationsLines(show, o') == OperationsLines(show, o);
    assert Sections(show, state.(operationsAnalysis := Some(o'))) == Sections(show, state);
  }

  /* ---------- `_create_synthesis_prompt` ---------- */

  const SynthesisLead :=
    "Based on the comprehensive analysis below, provide a strategic business recommendation for starting a food truck business in "

  function SynthesisOpening(location: string): string {
    SynthesisLead + location + ".\n\n"
  }

  const SynthesisClosing: string :=
    "\n\nConsider the complete business picture:\n"
    + "1. Market viability and competitive landscape\n"
    + "2. Financial feasibility and investment requirements  \n"
    + "3. Operational complexity and regulatory requirements\n"
    + "4. Risk factors and success probability\n"
    + "5. Timeline and resource requirements\n\n"
    + "Provide a clear recommendation (go/no_go/conditional) with supporting rationale.\n"
    + "Include specific next steps and success factors if recommending to proceed.\n"
    + "Be realistic about challenges while identifying viable paths to success."

  /**
   * `_create_synthesis_prompt(location, context)`: the opening naming the
   * location, the context verbatim, then the fixed closing; unlike the
   * other stages' prompt, the context is placed even when it is empty.
   */
  function SynthesisPrompt(location: string, context: string): string {
    SynthesisOpening(location) + context + SynthesisClosing
  }

  /** The prompt is the opening, the context verbatim, and the closing, each recoverable by position. */
  lemma SynthesisPromptParts(location: string, context: string)
    ensures var p := SynthesisPrompt(location, context);
      && |p| == |SynthesisOpening(location)| + |context| + |SynthesisClosing|
      && p[..|SynthesisOpening(location)|] == SynthesisOpening(location)
      && p[|SynthesisOpening(location)|..|p| - |SynthesisClosing|] == context
      && p[|p| - |SynthesisClosing|..] == SynthesisClosing
  {
    ThreeParts(SynthesisOpening(location), context, SynthesisClosing);
  }

  /** Different contexts give different prompts: the prompt carries its context whole. */
  lemma SynthesisPromptInjective(location: string, c1: string, c2: string)
    requires SynthesisPrompt(location, c1) == SynthesisPrompt(location, c2)
    ensures c1 == c2
  {
    SynthesisPromptParts(location, c1);
    SynthesisPromptParts(location, c2);
  }

  /** The prompt the stage sends. */
  function UserPrompt(show: Show, state: ResearchState): string {
    SynthesisPrompt(state.location, ComprehensiveContext(show, state))
  }

  /* ---------- `_extract_recommendation_fallback` ---------- */

  /** Funding strictly above this makes the fallback say no-go. */
  const FundingLimit: real := 150000.0

  const KeyStrengths: seq<string> := [
    "Market opportunity identified", "Clear target customer segments", "Manageable operational requirements"]

  const KeyRisks: seq<string> := [
    "High initial investment", "Regulatory complexity", "Weather and seasonal dependencies"]

  const SuccessFactors: seq<string> := [
    "Unique food offering", "Prime location strategy", "Strong operational execution", "Effective marketing"]

  const NextSteps: seq<string> := [
    "Conduct detailed location scouting", "Secure financing commitments",
    "Begin permit application process", "Develop detailed business plan"]

  const AlternativeSuggestions: seq<string> := [
    "Consider food cart instead of truck", "Partner with existing business", "Start with catering focus"]

  /** The funding rule: a financial record asking for more than the limit. */
  predicate OverFunded(state: ResearchState) {
    state.financialAnalysis.Some? && state.financialAnalysis.value.fundingRequirements > FundingLimit
  }

  /** The competition rule: a market record whose level is exactly "Low". */
  predicate LowCompetition(state: ResearchState) {
    state.marketResearch.Some? && state.marketResearch.value.competitionLevel == "Low"
  }

  /**
   * The fallback recommendation: no-go with high confidence when over
   * funded, else go with high confidence on low competition, else
   * conditional with medium confidence; the rest of the record is fixed.
   */
  function Fallback(state: ResearchState): (b: BusinessRecommendation)
    ensures b.recommendation == NoGo <==> OverFunded(state)
    ensures b.recommendation == Go <==> !OverFunded(state) && LowCompetition(state)
    ensures b.confidenceLevel == "High" <==> b.recommendation != Conditional
    ensures b.confidenceLevel == "High" || b.confidenceLevel == "Medium"
  {
    var (recommendation, confidence) :=
      if OverFunded(state) then (NoGo, "High")
      else if LowCompetition(state) then (Go, "High")
      else (Conditional, "Medium");
    BusinessRecommendation(
      recommendation := recommendation,
      confidenceLevel := confidence,
      keyStrengths := KeyStrengths,
      keyRisks := KeyRisks,
      successFactors := SuccessFactors,
      nextSteps := NextSteps,
      timelineRecommendation := "6-12 months from decision to launch",
      alternativeSuggestions := AlternativeSuggestions)
  }

  function FallbackOn(state: ResearchState): string -> BusinessRecommendation {
    _ => Fallback(state)
  }

  /** Funding of exactly the limit is not over it: the rule is strict. */
  lemma FundingAtLimitIsNotNoGo(state: ResearchState)
    requires state.financialAnalysis.Some? && state.financialAnalysis.value.fundingRequirements == FundingLimit
    ensures Fallback(state).recommendation != NoGo
  {
  }

  /** The funding rule wins over the competition rule. */
  lemma FundingRuleFirst(state: ResearchState)
    requires OverFunded(state) && LowCompetition(state)
    ensures Fallback(state).recommendation == NoGo && Fallback(state).confidenceLevel == "High"
  {
  }

  /** With no earlier record the fallback is conditional with medium confidence. */
  lemma NoRecordsIsConditional(location: string)
    ensures Fallback(ResearchState(location)).recommendation == Conditional
    ensures Fallback(ResearchState(location)).confidenceLevel == "Medium"
  {
  }

  /**
   * With the market and financial fallbacks in the state (competition
   * "Medium", funding 127000), the business fallback is conditional with
   * medium confidence.
   */
  lemma FallbacksGiveConditional(state: ResearchState, response: string)
    requires state.marketResearch == Some(MarketAgent.Fallback(response, state.location))
    requires state.financialAnalysis == Some(FinancialAgent.Fallback(state.location))
    ensures Fallback(state).recommendation == Conditional && Fallback(state).confidenceLevel == "Medium"
  {
    assert !OverFunded(state);
    assert MarketAgent.Fallback(response, state.location).competitionLevel == "Medium";
    assert !LowCompetition(state);
  }

  /** Only the decision and its confidence depend on the state; every list and the timeline are fixed and non-empty. */
  lemma FallbackFixedParts(s1: ResearchState, s2: ResearchState)
    ensures var b1 := Fallback(s1); var b2 := Fallback(s2);
      b1.(recommendation := Go, confidenceLevel := "") == b2.(recommendation := Go, confidenceLevel := "")
    ensures var b := Fallback(s1);
      |b.keyStrengths| > 0 && |b.keyRisks| > 0 && |b.successFactors| > 0 && |b.nextSteps| > 0
      && |b.alternativeSuggestions| > 0 && |b.timelineRecommendation| > 0
  {
  }

  /** The fallback is a valid `BusinessRecommendation`: it survives `.dict()` and re-validation. */
  lemma FallbackIsValidRecord(state: ResearchState)
    ensures ValidateBusiness(BusinessToDict(Fallback(state))) == Some(Fallback(state))
  {
    BusinessRoundTrip(Fallback(state));
  }

  /* ---------- `process_request` ---------- */

  /**
   * `process_request` once its prompt is built, given how to build the
   * fallback: SUCCESS exactly when the retried call on the prompt returns
   * text that is not a non-object JSON value, with a recommendation and no
   * successor (the workflow ends here); otherwise ERROR with the
   * exception's text.
   */
  function Respond(env: Env, location: string, prompt: string, fallback: string -> BusinessRecommendation): (r: AgentResponse)
    ensures r.agentName == AgentName(BusinessConsultant)
    ensures var o := SafeLlmCall(env.llm, Request(BusinessConsultant, prompt)).outcome;
      r.status == Success <==> o.Returns? && !Parse(env.decode, ValidateBusiness, o.value).NotAnObject?
    ensures r.status == Success ==>
      && r.message == CompletedMessage(location) && r.nextAgent.None?
      && r.data.Some? && r.data.value.BusinessData? && r.errorDetails.None?
    ensures r.status == Error ==>
      r.message == FailedMessage && r.data.None? && r.nextAgent.None? && r.errorDetails.Some?
  {
    RunStage(env, Spec(location), prompt, fallback)
  }

  /** `process_request`: the synthesis prompt over the comprehensive context, then the response to it. */
  function ProcessRequest(env: Env, state: ResearchState): AgentResponse {
    Respond(env, state.location, UserPrompt(env.show, state), FallbackOn(state))
  }

  /** The agent as the workflow holds it: its `process_request`. */
  function Processor(env: Env): ResearchState -> AgentResponse {
    state => ProcessRequest(env, state)
  }

  /** Whatever the state, SUCCESS carries this agent's own kind of record and ERROR carries the exception's text. */
  lemma ProcessorFaithful(env: Env)
    ensures Faithful(BusinessConsultant, Processor(env))
  {
    forall state: ResearchState
      ensures var r := Processor(env)(state);
        && (r.status == Success ==> CarriesRecordOf(BusinessConsultant, r.data))
        && (r.status == Error ==> r.errorDetails.Some?)
    {
      var r := ProcessRequest(env, state);
    }
  }

  /** A reply that is not a valid recommendation gives SUCCESS with the fallback decided from the state. */
  lemma ParseFailureGivesFallback(env: Env, state: ResearchState, text: string)
    requires env.llm(Request(BusinessConsultant, UserPrompt(env.show, state)), 0) == Content(text)
    requires Parse(env.decode, ValidateBusiness, text).NotJson? || Parse(env.decode, ValidateBusiness, text).SchemaInvalid?
    ensures ProcessRequest(env, state)
         == AgentResponse(AgentName(BusinessConsultant), Success, CompletedMessage(state.location),
                          Some(BusinessData(Fallback(state))), None)
  {
    ParseFailureFallsBack(env, Spec(state.location), UserPrompt(env.show, state), FallbackOn(state), text);
  }

  /** A model whose first answer to this agent is never JSON makes the agent succeed on every state. */
  lemma UnparsedRepliesSucceed(env: Env, text: string)
    requires forall prompt :: env.llm(Request(BusinessConsultant, prompt), 0) == Content(text)
    requires env.decode(text).None?
    ensures forall state :: Processor(env)(state).status == Success
  {
    forall state ensures Processor(env)(state).status == Success {
      ParseFailureGivesFallback(env, state, text);
    }
  }
}
