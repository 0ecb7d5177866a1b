/**
 * The research graph: four nodes, one per agent, joined by unconditional
 * edges market -> financial -> operations -> business -> END. Each node
 * builds the agent's input from the earlier records, runs the agent, and
 * writes back its record and a progress message on SUCCESS, or an error
 * status and message on ERROR. Later nodes run whatever an earlier node
 * reported, and each overwrites the status.
 */
module Workflow {
  import opened Wrappers
  import opened Text
  import opened Json
  import opened Models
  import opened Retry
  import opened BaseAgent

  /* ---------- the graph state ---------- */

  /** The four nodes. */
  datatype Stage = MarketStage | FinancialStage | OperationsStage | BusinessStage

  /** The order the edges impose, from START to END. */
  const Order: seq<Stage> := [MarketStage, FinancialStage, OperationsStage, BusinessStage]

  /** A stage's position in `Order`. */
  function Rank(s: Stage): (n: nat)
    ensures n < |Order| && Order[n] == s
  {
    match s
    case MarketStage => 0
    case FinancialStage => 1
    case OperationsStage => 2
    case BusinessStage => 3
  }

  /**
   * `WorkflowState`. The records are kept as records rather than as their
   * `.dict()`; the `.dict()`-then-validate round trip is the identity on
   * every record, so the two carry the same information.
   */
  datatype WorkflowState = WorkflowState(
    location: string,
    marketResearch: Option<MarketResearchData>,
    financialAnalysis: Option<FinancialAnalysisData>,
    operationsAnalysis: Option<OperationsAnalysisData>,
    businessRecommendation: Option<BusinessRecommendation>,
    messages: seq<string>,
    currentAgent: string,
    status: string,
    errorMessage: string)

  const StatusStarting := "starting"
  const StatusSuccess := "success"
  const StatusError := "error"

  /** Whether stage `s` has written its record into the state. */
  predicate RecordPresent(state: WorkflowState, s: Stage) {
    match s
    case MarketStage => state.marketResearch.Some?
    case FinancialStage => state.financialAnalysis.Some?
    case OperationsStage => state.operationsAnalysis.Some?
    case BusinessStage => state.businessRecommendation.Some?
  }

  /**
   * The state with stage `s`'s record key dropped and the bookkeeping keys
   * (messages, current agent, status, error message) blanked: what node `s`
   * may not change.
   */
  function Untouched(state: WorkflowState, s: Stage): WorkflowState {
    var w := state.(messages := [], currentAgent := "", status := "", errorMessage := "");
    match s
    case MarketStage => w.(marketResearch := None)
    case FinancialStage => w.(financialAnalysis := None)
    case OperationsStage => w.(operationsAnalysis := None)
    case BusinessStage => w.(businessRecommendation := None)
  }

  /* ---------- the nodes' fixed texts ---------- */

  /** The stage's name in its "completed" message. */
  function Title(s: Stage): string {
    match s
    case MarketStage => "Market Research"
    case FinancialStage => "Financial Analysis"
    case OperationsStage => "Operations Analysis"
    case BusinessStage => "Business Recommendation"
  }

  /** The stage's name in its "failed" and "error" messages. */
  function FailureTitle(s: Stage): string {
    match s
    case MarketStage => "Market Research"
    case FinancialStage => "Financial Analysis"
    case OperationsStage => "Operations Analysis"
    case BusinessStage => "Business Synthesis"
  }

  /** The error message a node writes when the response has no error details. */
  function DefaultError(s: Stage): string {
    match s
    case MarketStage => "Market research failed"
    case FinancialStage => "Financial analysis failed"
    case OperationsStage => "Operations analysis failed"
    case BusinessStage => "Business synthesis failed"
  }

  /** The head of the error message a node writes when it raises. */
  function NodeErrorHead(s: Stage): string {
    match s
    case MarketStage => "Market research node error: "
    case FinancialStage => "Financial analysis node error: "
    case OperationsStage => "Operations analysis node error: "
    case BusinessStage => "Business synthesis node error: "
  }

  /** The `current_agent` a node writes on SUCCESS. */
  function Successor(s: Stage): string {
    match s
    case MarketStage => "Financial Advisor"
    case FinancialStage => "Operations Consultant"
    case OperationsStage => "Business Consultant"
    case BusinessStage => "Complete"
  }

  /** A node's progress message names its stage. */
  predicate Reports(s: Stage, message: string) {
    (|Title(s)| <= |message| && message[..|Title(s)|] == Title(s))
    || (|FailureTitle(s)| <= |message| && message[..|FailureTitle(s)|] == FailureTitle(s))
  }

  /* ---------- one node ---------- */

  /**
   * The agent's input: the location, the messages, and the records of the
   * stages before `s` only (an absent record is passed as None).
   */
  function NodeInput(state: WorkflowState, s: Stage): (r: ResearchState)
    ensures r.location == state.location && r.messages == state.messages
    ensures r.marketResearch == if Rank(MarketStage) < Rank(s) then state.marketResearch else None
    ensures r.financialAnalysis == if Rank(FinancialStage) < Rank(s) then state.financialAnalysis else None
    ensures r.operationsAnalysis == if Rank(OperationsStage) < Rank(s) then state.operationsAnalysis else None
    ensures r.businessRecommendation.None? && r.currentAgent.None?
  {
    match s
    case MarketStage =>
      ResearchState(state.location, messages := state.messages)
    case FinancialStage =>
      ResearchState(state.location, marketResearch := state.marketResearch, messages := state.messages)
    case OperationsStage =>
      ResearchState(state.location, marketResearch := state.marketResearch,
                    financialAnalysis := state.financialAnalysis, messages := state.messages)
    case BusinessStage =>
      ResearchState(state.location, marketResearch := state.marketResearch,
                    financialAnalysis := state.financialAnalysis,
                    operationsAnalysis := state.operationsAnalysis, messages := state.messages)
  }

  /** The agent behind each node. */
  function AgentOf(s: Stage): (a: Agent)
    ensures s == MarketStage <==> a == MarketResearchAnalyst
    ensures s != MarketStage ==> AgentName(a) == Successor(Order[Rank(s) - 1])
  {
    match s
    case MarketStage => MarketResearchAnalyst
    case FinancialStage => FinancialAdvisor
    case OperationsStage => OperationsConsultant
    case BusinessStage => BusinessConsultant
  }

  /** Whether a response's data is the record stage `s` produces. */
  predicate DataFits(data: Option<StageData>, s: Stage) {
    CarriesRecordOf(AgentOf(s), data)
  }

  /**
   * `"x": response.data.dict() if response.data else {}`: the stage's key
   * gets the record; an empty dict reads back as no record.
   */
  function WithRecord(state: WorkflowState, s: Stage, data: Option<StageData>): (next: WorkflowState)
    ensures Untouched(next, s) == Untouched(state, s)
    ensures next.messages == state.messages && next.status == state.status
    ensures next.currentAgent == state.currentAgent && next.errorMessage == state.errorMessage
    ensures RecordPresent(next, s) <==> DataFits(data, s)
  {
    match s
    case MarketStage =>
      state.(marketResearch := if data.Some? && data.value.MarketData? then Some(data.value.market) else None)
    case FinancialStage =>
      state.(financialAnalysis := if data.Some? && data.value.FinancialData? then Some(data.value.financial) else None)
    case OperationsStage =>
      state.(operationsAnalysis := if data.Some? && data.value.OperationsData? then Some(data.value.operations) else None)
    case BusinessStage =>
      state.(businessRecommendation := if data.Some? && data.value.BusinessData? then Some(data.value.business) else None)
  }

  /** What the node's `try` block ended with: the agent's response, or an exception's text. */
  datatype NodeOutcome = Responded(response: AgentResponse) | NodeRaised(error: string)

  /** `response.error_details or default`: None and "" both give the default. */
  function DetailsOr(details: Option<string>, default: string): (m: string)
    ensures m != "" <==> default != "" || (details.Some? && details.value != "")
    ensures details.Some? && details.value != "" ==> m == details.value
    ensures details.None? || details.value == "" ==> m == default
  {
    if details.Some? && details.value != "" then details.value else default
  }

  /**
   * One node. SUCCESS: the stage's record key, `current_agent`, status
   * "success" and one "completed" message, and nothing else; an earlier
   * error message is left standing. ERROR or an exception: status "error",
   * a non-empty error message and one message, and nothing else.
   */
  function Node(s: Stage, state: WorkflowState, outcome: NodeOutcome): (next: WorkflowState)
    ensures Untouched(next, s) == Untouched(state, s)
    ensures |next.messages| == |state.messages| + 1 && next.messages[..|state.messages|] == state.messages
    ensures Reports(s, next.messages[|state.messages|])
    ensures next.status == StatusSuccess <==> outcome.Responded? && outcome.response.status == Success
    ensures next.status == StatusSuccess ==>
      && next.currentAgent == Successor(s) && next.errorMessage == state.errorMessage
      && (RecordPresent(next, s) <==> DataFits(outcome.response.data, s))
      && next.messages[|state.messages|] == Title(s) + " completed for " + state.location
    ensures next.status != StatusSuccess ==>
      && next.status == StatusError && next.errorMessage != ""
      && next.(status := state.status, errorMessage := state.errorMessage, messages := state.messages) == state
  {
    var n := |state.messages|;
    match outcome
    case Responded(r) =>
      if r.status == Success then
        var m := Title(s) + " completed for " + state.location;
        assert (state.messages + [m])[..n] == state.messages;
        assert m[..|Title(s)|] == Title(s);
        WithRecord(state, s, r.data).(currentAgent := Successor(s), status := StatusSuccess,
                                       messages := state.messages + [m])
      else
        var m := FailureTitle(s) + " failed: " + r.message;
        assert (state.messages + [m])[..n] == state.messages;
        assert m[..|FailureTitle(s)|] == FailureTitle(s);
        state.(status := StatusError, errorMessage := DetailsOr(r.errorDetails, DefaultError(s)),
               messages := state.messages + [m])
    case NodeRaised(e) =>
      var m := FailureTitle(s) + " error: " + e;
      assert (state.messages + [m])[..n] == state.messages;
      assert m[..|FailureTitle(s)|] == FailureTitle(s);
      state.(status := StatusError, errorMessage := NodeErrorHead(s) + e,
             messages := state.messages + [m])
  }

  /** A node that fails leaves every record as it was, its own included. */
  lemma FailedNodeWritesNoRecord(s: Stage, state: WorkflowState, outcome: NodeOutcome, t: Stage)
    requires Node(s, state, outcome).status != StatusSuccess
    ensures RecordPresent(Node(s, state, outcome), t) == RecordPresent(state, t)
  {
  }

  /** A node keeps every record of another stage. */
  lemma NodeKeepsOtherRecords(s: Stage, state: WorkflowState, outcome: NodeOutcome, t: Stage)
    requires t != s
    ensures RecordPresent(Node(s, state, outcome), t) == RecordPresent(state, t)
  {
    var next := Node(s, state, outcome);
    assert Untouched(next, s) == Untouched(state, s);
    match t
    case MarketStage => assert next.marketResearch == Untouched(next, s).marketResearch;
    case FinancialStage => assert next.financialAnalysis == Untouched(next, s).financialAnalysis;
    case OperationsStage => assert next.operationsAnalysis == Untouched(next, s).operationsAnalysis;
    case BusinessStage => assert next.businessRecommendation == Untouched(next, s).businessRecommendation;
  }

  /* ---------- the agents behind the nodes ---------- */

  /** `agent.process_request(input)` for each stage's agent. */
  type Agents = (Stage, ResearchState) -> AgentResponse

  /** One agent's `process_request`. */
  type StageAgent = ResearchState -> AgentResponse

  /** Every stage's agent, whenever it succeeds, carries that stage's own kind of record. */
  ghost predicate Sound(agents: Agents) {
    forall s: Stage, input: ResearchState ::
      agents(s, input).status == Success ==> DataFits(agents(s, input).data, s)
  }

  /** The four agents, one per node. */
  function Pipeline(market: StageAgent, financial: StageAgent, operations: StageAgent, business: StageAgent): Agents {
    (s: Stage, input: ResearchState) =>
      match s
      case MarketStage => market(input)
      case FinancialStage => financial(input)
      case OperationsStage => operations(input)
      case BusinessStage => business(input)
  }

  /** Four agents faithful to their own stages make a sound pipeline. */
  lemma PipelineSound(market: StageAgent, financial: StageAgent, operations: StageAgent, business: StageAgent)
    requires Faithful(MarketResearchAnalyst, market) && Faithful(FinancialAdvisor, financial)
    requires Faithful(OperationsConsultant, operations) && Faithful(BusinessConsultant, business)
    ensures Sound(Pipeline(market, financial, operations, business))
  {
    var agents := Pipeline(market, financial, operations, business);
    forall s: Stage, input: ResearchState
      ensures agents(s, input).status == Success ==> DataFits(agents(s, input).data, s)
    {
      match s
      case MarketStage => assert agents(s, input) == market(input);
      case FinancialStage => assert agents(s, input) == financial(input);
      case OperationsStage => assert agents(s, input) == operations(input);
      case BusinessStage => assert agents(s, input) == business(input);
    }
  }

  /** The node for stage `s` run on `state`: its agent on the node's input. */
  function Step(agents: Agents, s: Stage, state: WorkflowState): WorkflowState {
    Node(s, state, Responded(agents(s, NodeInput(state, s))))
  }

  /** A node whose agent is faithful writes its record exactly when it succeeds. */
  lemma StepRecordIffSuccess(agents: Agents, s: Stage, state: WorkflowState)
    requires Sound(agents)
    requires !RecordPresent(state, s)
    ensures RecordPresent(Step(agents, s, state), s) <==> Step(agents, s, state).status == StatusSuccess
  {
    var r := agents(s, NodeInput(state, s));
  }

  /* ---------- `run_research` ---------- */

  /** `initial_state` */
  function InitialState(location: string): (st: WorkflowState)
    ensures st.location == location && st.status == StatusStarting && st.errorMessage == ""
    ensures st.currentAgent == AgentName(MarketResearchAnalyst)
    ensures forall s: Stage :: !RecordPresent(st, s)
    ensures st.messages == ["Starting food truck research for " + location]
  {
    WorkflowState(location, None, None, None, None, ["Starting food truck research for " + location],
                  "Market Research Analyst", StatusStarting, "")
  }

  /** The graph from a given state over the remaining stages, each run exactly once whatever the others report. */
  function RunFrom(agents: Agents, stages: seq<Stage>, state: WorkflowState): WorkflowState
    decreases |stages|
  {
    if |stages| == 0 then state else RunFrom(agents, stages[1..], Step(agents, stages[0], state))
  }

  /** `self.workflow.invoke(initial_state)` as the edges are written: all four nodes, unconditionally. */
  function RunGraph(agents: Agents, location: string): WorkflowState {
    RunFrom(agents, Order, InitialState(location))
  }

  /**
   * `run_research`. `fault` is the text of an exception the graph runtime
   * raises, if any; then the initial state comes back with status "error",
   * the error message and one extra message.
   */
  function RunResearch(agents: Agents, location: string, fault: Option<string>): (st: WorkflowState)
    ensures fault.Some? ==>
      && st.status == StatusError && st.errorMessage == "Workflow execution failed: " + fault.value
      && st.messages == InitialState(location).messages + ["Workflow error: " + fault.value]
      && forall s: Stage :: !RecordPresent(st, s)
  {
    match fault
    case Some(e) =>
      var init := InitialState(location);
      init.(status := StatusError, errorMessage := "Workflow execution failed: " + e,
            messages := init.messages + ["Workflow error: " + e])
    case None =>
      RunGraph(agents, location)
  }

  /** A run keeps the location and the messages before it, and adds one message per stage. */
  lemma {:induction false} RunKeepsMessages(agents: Agents, stages: seq<Stage>, state: WorkflowState)
    ensures var r := RunFrom(agents, stages, state);
      && r.location == state.location
      && |r.messages| == |state.messages| + |stages|
      && r.messages[..|state.messages|] == state.messages
    decreases |stages|
  {
    if |stages| > 0 {
      var next := Step(agents, stages[0], state);
      RunKeepsMessages(agents, stages[1..], next);
      var r := RunFrom(agents, stages[1..], next);
      var n := |state.messages|;
      assert r.messages[..n] == r.messages[..n + 1][..n];
    }
  }

  /** The graph adds four messages after the starting one, whatever the nodes report. */
  lemma GraphRunsEveryNode(agents: Agents, location: string)
    ensures var r := RunGraph(agents, location);
      |r.messages| == 5 && r.messages[..1] == InitialState(location).messages
  {
    RunKeepsMessages(agents, Order, InitialState(location));
  }

  /** The state the business node receives. */
  function BeforeBusiness(agents: Agents, location: string): WorkflowState {
    Step(agents, OperationsStage, Step(agents, FinancialStage, Step(agents, MarketStage, InitialState(location))))
  }

  /** The run is the four steps in order. */
  lemma GraphIsFourSteps(agents: Agents, location: string)
    ensures RunGraph(agents, location) == Step(agents, BusinessStage, BeforeBusiness(agents, location))
  {
    var s0 := InitialState(location);
    assert Order[1..] == [FinancialStage, OperationsStage, BusinessStage];
    assert Order[1..][1..] == [OperationsStage, BusinessStage];
    assert Order[1..][1..][1..] == [BusinessStage];
    assert Order[1..][1..][1..][1..] == [];
  }

  /** A step appends one message, naming its stage, and keeps the ones before. */
  lemma StepAppendsReport(agents: Agents, s: Stage, state: WorkflowState, k: nat)
    requires k < |state.messages|
    ensures var next := Step(agents, s, state);
      && |next.messages| == |state.messages| + 1
      && next.messages[k] == state.messages[k]
      && Reports(s, next.messages[|state.messages|])
  {
    var next := Step(agents, s, state);
    assert next.messages[k] == next.messages[..|state.messages|][k];
  }

  /**
   * Every node runs, once, in order, whatever the others report: after the
   * starting message, the k-th message names the k-th stage.
   */
  lemma GraphReportsInOrder(agents: Agents, location: string)
    ensures var r := RunGraph(agents, location);
      && |r.messages| == 5
      && Reports(MarketStage, r.messages[1]) && Reports(FinancialStage, r.messages[2])
      && Reports(OperationsStage, r.messages[3]) && Reports(BusinessStage, r.messages[4])
  {
    GraphIsFourSteps(agents, location);
    var s0 := InitialState(location);
    var s1 := Step(agents, MarketStage, s0);
    var s2 := Step(agents, FinancialStage, s1);
    var s3 := Step(agents, OperationsStage, s2);
    var s4 := Step(agents, BusinessStage, s3);
    StepAppendsReport(agents, MarketStage, s0, 0);
    StepAppendsReport(agents, FinancialStage, s1, 1);
    StepAppendsReport(agents, OperationsStage, s2, 1);
    StepAppendsReport(agents, OperationsStage, s2, 2);
    StepAppendsReport(agents, BusinessStage, s3, 1);
    StepAppendsReport(agents, BusinessStage, s3, 2);
    StepAppendsReport(agents, BusinessStage, s3, 3);
  }

  /**
   * Every node writes the status, so the graph's final status is the
   * business node's: "success" exactly when the business agent succeeds,
   * whatever happened before.
   */
  lemma FinalStatusIsBusinessStatus(agents: Agents, location: string)
    ensures var before := BeforeBusiness(agents, location);
      RunGraph(agents, location).status == StatusSuccess
      <==> agents(BusinessStage, NodeInput(before, BusinessStage)).status == Success
    ensures RunGraph(agents, location).status in {StatusSuccess, StatusError}
  {
    GraphIsFourSteps(agents, location);
  }

  /**
   * As written, a failed stage is masked by a later success: when the
   * market agent fails and the business agent succeeds, the run reports
   * "success" with no market record and the market's error message still
   * set.
   */
  lemma FailureMaskedBySuccess(agents: Agents, location: string)
    requires agents(MarketStage, NodeInput(InitialState(location), MarketStage)).status == Error
    requires agents(BusinessStage, NodeInput(BeforeBusiness(agents, location), BusinessStage)).status == Success
    ensures RunGraph(agents, location).status == StatusSuccess
    ensures !RecordPresent(RunGraph(agents, location), MarketStage)
    ensures RunGraph(agents, location).errorMessage != ""
  {
    GraphIsFourSteps(agents, location);
    var s0 := InitialState(location);
    var s1 := Step(agents, MarketStage, s0);
    var s2 := Step(agents, FinancialStage, s1);
    var s3 := Step(agents, OperationsStage, s2);
    var s4 := Step(agents, BusinessStage, s3);
    NodeKeepsOtherRecords(FinancialStage, s1, Responded(agents(FinancialStage, NodeInput(s1, FinancialStage))), MarketStage);
    NodeKeepsOtherRecords(OperationsStage, s2, Responded(agents(OperationsStage, NodeInput(s2, OperationsStage))), MarketStage);
    NodeKeepsOtherRecords(BusinessStage, s3, Responded(agents(BusinessStage, NodeInput(s3, BusinessStage))), MarketStage);
    ErrorMessageSticks(agents, FinancialStage, s1);
    ErrorMessageSticks(agents, OperationsStage, s2);
    ErrorMessageSticks(agents, BusinessStage, s3);
  }

  /** A step never clears a non-empty error message. */
  lemma ErrorMessageSticks(agents: Agents, s: Stage, state: WorkflowState)
    requires state.errorMessage != ""
    ensures Step(agents, s, state).errorMessage != ""
  {
  }

  /** A market agent that always fails and a business agent that always succeeds mask the failure, whatever the others do. */
  lemma PipelineMasksFailure(market: StageAgent, financial: StageAgent, operations: StageAgent, business: StageAgent,
                             location: string)
    requires forall input :: market(input).status == Error
    requires forall input :: business(input).status == Success
    ensures var r := RunGraph(Pipeline(market, financial, operations, business), location);
      r.status == StatusSuccess && !RecordPresent(r, MarketStage) && r.errorMessage != ""
  {
    var agents := Pipeline(market, financial, operations, business);
    assert agents(MarketStage, NodeInput(InitialState(location), MarketStage)).status == Error;
    assert agents(BusinessStage, NodeInput(BeforeBusiness(agents, location), BusinessStage)).status == Success;
    FailureMaskedBySuccess(agents, location);
  }

  /* ---------- the corrected pipeline ---------- */

  /**
   * The pipeline as the design describes it: stop at the first node that
   * fails, keeping its error; later stages do not run.
   */
  function RunHalting(agents: Agents, stages: seq<Stage>, state: WorkflowState): WorkflowState
    decreases |stages|
  {
    if |stages| == 0 then state
    else
      var next := Step(agents, stages[0], state);
      if next.status == StatusError then next else RunHalting(agents, stages[1..], next)
  }

  function RunGraphHalting(agents: Agents, location: string): WorkflowState {
    RunHalting(agents, Order, InitialState(location))
  }

  /** A step with a faithful agent keeps every record, and adds its own unless it fails. */
  lemma StepKeepsRecords(agents: Agents, s: Stage, state: WorkflowState)
    requires Sound(agents)
    ensures forall t: Stage :: RecordPresent(state, t) ==> RecordPresent(Step(agents, s, state), t)
    ensures Step(agents, s, state).status != StatusError ==> RecordPresent(Step(agents, s, state), s)
  {
    var r := agents(s, NodeInput(state, s));
    forall t: Stage | t != s
      ensures RecordPresent(Step(agents, s, state), t) == RecordPresent(state, t)
    {
      NodeKeepsOtherRecords(s, state, Responded(r), t);
    }
  }

  /**
   * Halting keeps every record it finds, and a run that ends in "success"
   * has the record of every stage it was given.
   */
  lemma {:induction false} HaltingKeepsRecords(agents: Agents, stages: seq<Stage>, state: WorkflowState)
    requires Sound(agents)
    ensures var r := RunHalting(agents, stages, state);
      && (forall t: Stage :: RecordPresent(state, t) ==> RecordPresent(r, t))
      && (r.status == StatusSuccess ==> forall k | 0 <= k < |stages| :: RecordPresent(r, stages[k]))
    decreases |stages|
  {
    if |stages| > 0 {
      var s := stages[0];
      var next := Step(agents, s, state);
      StepKeepsRecords(agents, s, state);
      if next.status != StatusError {
        HaltingKeepsRecords(agents, stages[1..], next);
        var r := RunHalting(agents, stages, state);
        assert r == RunHalting(agents, stages[1..], next);
        if r.status == StatusSuccess {
          forall k | 1 <= k < |stages|
            ensures RecordPresent(r, stages[k])
          {
            assert stages[k] == stages[1..][k - 1];
          }
        }
      }
    }
  }

  /** In the corrected pipeline "success" means every stage wrote its record. */
  lemma HaltingSuccessHasAllRecords(agents: Agents, location: string)
    requires Sound(agents)
    requires RunGraphHalting(agents, location).status == StatusSuccess
    ensures forall s: Stage :: RecordPresent(RunGraphHalting(agents, location), s)
  {
    HaltingKeepsRecords(agents, Order, InitialState(location));
    forall s: Stage
      ensures RecordPresent(RunGraphHalting(agents, location), s)
    {
      assert Order[Rank(s)] == s;
    }
  }

  /** In the corrected pipeline a failed market stage fails the run, with the market's error. */
  lemma HaltingStopsAtFirstFailure(agents: Agents, location: string)
    requires agents(MarketStage, NodeInput(InitialState(location), MarketStage)).status == Error
    ensures RunGraphHalting(agents, location) == Step(agents, MarketStage, InitialState(location))
    ensures RunGraphHalting(agents, location).status == StatusError
    ensures |RunGraphHalting(agents, location).messages| == 2
  {
  }
}
