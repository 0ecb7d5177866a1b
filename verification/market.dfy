/**
 * The Market Research Analyst: the first stage. Its prompt names the
 * location only; its fallback record is a fixed estimate for that location.
 */
module MarketAgent {
  import opened Wrappers
  import opened Json
  import opened Models
  import opened Retry
  import opened BaseAgent

  const FailedMessage := "Failed to complete market research analysis"

  function CompletedMessage(location: string): string {
    "Completed market research analysis for " + location
  }

  /** The next agent a successful market stage names. */
  const NextAgent := "Financial Advisor"

  function Spec(location: string): StageSpec<MarketResearchData> {
    StageSpec(MarketResearchAnalyst, "MarketResearchData", ValidateMarket, m => MarketData(m),
              CompletedMessage(location), FailedMessage, Some(NextAgent))
  }

  /** The prompt is `_create_user_prompt(state.location)`: no context argument. */
  function UserPrompt(state: ResearchState): string {
    CreateUserPrompt(state.location, None)
  }

  /**
   * `_extract_market_data_fallback(response, location)`: a fixed estimate
   * for the location; the response text is not read.
   */
  function Fallback(response: string, location: string): (m: MarketResearchData)
    ensures m.location == location && m.competitionLevel == "Medium"
    ensures |m.targetCustomers| > 0 && |m.peakHours| > 0 && |m.seasonalFactors| > 0
    ensures |m.competitionAnalysis| > 0 && |m.opportunities| > 0 && |m.challenges| > 0
  {
    MarketResearchData(
      location := location,
      competitionLevel := "Medium",
      targetCustomers := ["Office workers", "Students", "Families"],
      peakHours := ["11:30 AM - 1:30 PM", "5:30 PM - 7:30 PM"],
      seasonalFactors := ["Weather dependent", "Event-driven demand"],
      marketSizeEstimate := "300-500 daily customers",
      competitionAnalysis := [
        [ ("name", JStr("Local food trucks")),
          ("type", JStr("Various cuisines")),
          ("location", JStr("Downtown area")),
          ("strengths", JStr("Established customer base")),
          ("weaknesses", JStr("Limited variety")) ] ],
      opportunities := ["High foot traffic areas", "Event catering", "Corporate partnerships"],
      challenges := ["Permit requirements", "Seasonal weather", "Competition from restaurants"])
  }

  /** The fallback as the stage applies it, to the reply it could not parse. */
  function FallbackOn(location: string): string -> MarketResearchData {
    text => Fallback(text, location)
  }

  /**
   * `process_request` once its prompt is built, given how to build the
   * fallback from the reply: SUCCESS exactly when the retried call on the
   * prompt returns text that is not a non-object JSON value, with the
   * stage's record and its successor named; otherwise ERROR with the
   * exception's text.
   */
  function Respond(env: Env, location: string, prompt: string, fallback: string -> MarketResearchData): (r: AgentResponse)
    ensures r.agentName == AgentName(MarketResearchAnalyst)
    ensures var o := SafeLlmCall(env.llm, Request(MarketResearchAnalyst, prompt)).outcome;
      r.status == Success <==> o.Returns? && !Parse(env.decode, ValidateMarket, o.value).NotAnObject?
    ensures r.status == Success ==>
      && r.message == CompletedMessage(location) && r.nextAgent == Some(NextAgent)
      && r.data.Some? && r.data.value.MarketData? && r.errorDetails.None?
    ensures r.status == Error ==>
      r.message == FailedMessage && r.data.None? && r.nextAgent.None? && r.errorDetails.Some?
  {
    RunStage(env, Spec(location), prompt, fallback)
  }

  /** `process_request`: the prompt for the state, then the response to it. */
  function ProcessRequest(env: Env, state: ResearchState): AgentResponse {
    Respond(env, state.location, UserPrompt(state), FallbackOn(state.location))
  }

  /** The agent as the workflow holds it: its `process_request`. */
  function Processor(env: Env): ResearchState -> AgentResponse {
    state => ProcessRequest(env, state)
  }

  /** Whatever the state, SUCCESS carries this agent's own kind of record and ERROR carries the exception's text. */
  lemma ProcessorFaithful(env: Env)
    ensures Faithful(MarketResearchAnalyst, Processor(env))
  {
    forall state: ResearchState
      ensures var r := Processor(env)(state);
        && (r.status == Success ==> CarriesRecordOf(MarketResearchAnalyst, r.data))
        && (r.status == Error ==> r.errorDetails.Some?)
    {
      var r := ProcessRequest(env, state);
    }
  }

  /** A model that first refuses this agent with an error the classifier does not retry makes the agent fail on every state. */
  lemma RefusedAgentFails(env: Env, message: string)
    requires forall prompt :: env.llm(Request(MarketResearchAnalyst, prompt), 0) == Failure(message)
    requires !IsRetryableApiError(message)
    ensures forall state ::
      Processor(env)(state) == AgentResponse(AgentName(MarketResearchAnalyst), Error, FailedMessage, errorDetails := Some(message))
  {
    forall state ensures Processor(env)(state)
         == AgentResponse(AgentName(MarketResearchAnalyst), Error, FailedMessage, errorDetails := Some(message))
    {
      RefusedFailureFailsStage(env, Spec(state.location), UserPrompt(state), FallbackOn(state.location), message);
    }
  }

  /** The market prompt never carries a context block, whatever records the state holds. */
  lemma PromptHasNoContext(state: ResearchState)
    ensures UserPrompt(state) == PromptOpening(state.location) + PromptClosing
  {
    UserPromptShape(state.location, None);
    var p := UserPrompt(state);
    var n := |PromptOpening(state.location)|;
    assert p == p[..n] + p[n..|p| - |PromptClosing|] + p[|p| - |PromptClosing|..];
  }

  /** The fallback record is the same whatever the response was. */
  lemma FallbackIgnoresResponse(a: string, b: string, location: string)
    ensures Fallback(a, location) == Fallback(b, location)
  {
  }

  /** The fallback is a valid `MarketResearchData`: it survives `.dict()` and re-validation. */
  lemma FallbackIsValidRecord(response: string, location: string)
    ensures ValidateMarket(MarketToDict(Fallback(response, location))) == Some(Fallback(response, location))
  {
    MarketRoundTrip(Fallback(response, location));
  }

  /** A reply that is not a valid market record gives SUCCESS with the fallback for the state's location. */
  lemma ParseFailureGivesFallback(env: Env, state: ResearchState, text: string)
    requires env.llm(Request(MarketResearchAnalyst, UserPrompt(state)), 0) == Content(text)
    requires Parse(env.decode, ValidateMarket, text).NotJson? || Parse(env.decode, ValidateMarket, text).SchemaInvalid?
    ensures ProcessRequest(env, state)
         == AgentResponse(AgentName(MarketResearchAnalyst), Success, CompletedMessage(state.location),
                          Some(MarketData(Fallback(text, state.location))), Some(NextAgent))
  {
    ParseFailureFallsBack(env, Spec(state.location), UserPrompt(state), FallbackOn(state.location), text);
  }
}
