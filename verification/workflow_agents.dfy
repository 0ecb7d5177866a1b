/**
 * The graph's nodes wired to the four agents: every node's agent is the
 * agent module's `process_request` against the same model, and the pipeline
 * so built is sound. A concrete model shows the failure masking of the
 * unconditional edges happening through the agents themselves.
 */
module WorkflowAgents {
  import opened Wrappers
  import opened Models
  import opened Retry
  import opened BaseAgent
  import opened Workflow
  import MarketAgent
  import FinancialAgent
  import OperationsAgent
  import BusinessAgent

  /**
   * The `current_agent` a node writes is the name of the agent the stage's
   * own response names as its successor; the last node writes "Complete".
   */
  lemma SuccessorIsNextAgent()
    ensures Successor(MarketStage) == MarketAgent.NextAgent == AgentName(FinancialAdvisor)
    ensures Successor(FinancialStage) == FinancialAgent.NextAgent == AgentName(OperationsConsultant)
    ensures Successor(OperationsStage) == OperationsAgent.NextAgent == AgentName(BusinessConsultant)
    ensures Successor(BusinessStage) == "Complete"
  {
  }

  /** The agents of the pipeline, all talking to the same model. */
  function AgentsOf(env: Env): Agents {
    Pipeline(MarketAgent.Processor(env), FinancialAgent.Processor(env),
             OperationsAgent.Processor(env), BusinessAgent.Processor(env))
  }

  /** The pipeline's agents are sound, whatever the model replies. */
  lemma AgentsOfSound(env: Env)
    ensures Sound(AgentsOf(env))
  {
    MarketAgent.ProcessorFaithful(env);
    FinancialAgent.ProcessorFaithful(env);
    OperationsAgent.ProcessorFaithful(env);
    BusinessAgent.ProcessorFaithful(env);
    PipelineSound(MarketAgent.Processor(env), FinancialAgent.Processor(env),
                  OperationsAgent.Processor(env), BusinessAgent.Processor(env));
  }

  /**
   * A model that rejects the market agent's key ("invalid api key", which
   * is not retried) and answers every other agent with text that is not
   * JSON, so that they fall back to their fixed records.
   */
  function MaskingEnv(show: Show): Env {
    Env((req: Request, i: nat) => if req.agent == MarketResearchAnalyst then Failure("invalid api key") else Content("not json"),
        _ => None, show)
  }

  /** Under that model the market agent fails and the business agent succeeds, whatever their inputs. */
  lemma MaskingAgents(show: Show)
    ensures forall input :: MarketAgent.Processor(MaskingEnv(show))(input).status == Error
    ensures forall input :: BusinessAgent.Processor(MaskingEnv(show))(input).status == Success
  {
    var env := MaskingEnv(show);
    assert forall prompt :: env.llm(Request(MarketResearchAnalyst, prompt), 0) == Failure("invalid api key");
    assert forall prompt :: env.llm(Request(BusinessConsultant, prompt), 0) == Content("not json");
    InvalidApiKeyNotRetried();
    MarketAgent.RefusedAgentFails(env, "invalid api key");
    BusinessAgent.UnparsedRepliesSucceed(env, "not json");
  }

  /**
   * The masking is reachable through the agents themselves: with the key
   * rejected for the market agent only, the run for "Austin, TX" reports
   * "success" with no market record and the market's error still set.
   */
  lemma MaskedFailureExample(show: Show)
    ensures var r := RunGraph(AgentsOf(MaskingEnv(show)), "Austin, TX");
      r.status == StatusSuccess && !RecordPresent(r, MarketStage) && r.errorMessage != ""
  {
    var env := MaskingEnv(show);
    MaskingAgents(show);
    PipelineMasksFailure(MarketAgent.Processor(env), FinancialAgent.Processor(env),
                         OperationsAgent.Processor(env), BusinessAgent.Processor(env), "Austin, TX");
  }
}
