/**
 * What the four agents share: their names, the language-model oracle, the
 * provider choice, the user prompt, the context block built from earlier
 * records, the retried model call, and the three-way outcome of a stage.
 */
module BaseAgent {
  import opened Wrappers
  import opened Text
  import opened Json
  import opened Models
  import opened Retry

  /* ---------- the agents ---------- */

  /** The four agents, in workflow order. */
  datatype Agent = MarketResearchAnalyst | FinancialAdvisor | OperationsConsultant | BusinessConsultant

  /** Each agent's `agent_name`. */
  function AgentName(a: Agent): string {
    match a
    case MarketResearchAnalyst => "Market Research Analyst"
    case FinancialAdvisor => "Financial Advisor"
    case OperationsConsultant => "Operations Consultant"
    case BusinessConsultant => "Business Consultant"
  }

  /* ---------- the environment ---------- */

  /** One model call: which agent asks, and the user prompt it sends. */
  datatype Request = Request(agent: Agent, userPrompt: string)

  /**
   * What `llm.invoke` did: answered with content, answered with nothing
   * usable (no response or no `content`), or raised an exception, given by
   * its `str()`.
   */
  datatype Reply = Content(text: string) | NoContent | Failure(message: string)

  /**
   * The text conversions the renderers use and that are not modelled:
   * `f"{x:,.2f}"` for money and `str(v)` for a decoded value.
   */
  datatype Show = Show(money: real -> string, str: Json -> string)

  /**
   * The outside world: the model (`llm(request, i)` is the reply to the
   * request's `i`-th call), `json.loads` (None when it raises
   * `JSONDecodeError`), and the text conversions.
   */
  datatype Env = Env(llm: (Request, nat) -> Reply, decode: string -> Option<Json>, show: Show)

  /* ---------- `_initialize_llm` ---------- */

  datatype Provider = OpenAI | Anthropic

  /** The client an agent builds: its provider and the model name it is given. */
  datatype LlmClient = LlmClient(provider: Provider, model: string)

  /**
   * `_initialize_llm`: "gpt" in the lower-cased name picks OpenAI, else
   * "claude" picks Anthropic, else OpenAI with "gpt-4". The client's model
   * always names its provider's family, and the given name is kept exactly
   * when it names a family.
   */
  function InitializeLlm(modelName: string): (c: LlmClient)
    ensures c.provider == OpenAI ==> Contains(Lower(c.model), "gpt")
    ensures c.provider == Anthropic ==> Contains(Lower(c.model), "claude") && !Contains(Lower(modelName), "gpt")
    ensures c.model == modelName <==> Contains(Lower(modelName), "gpt") || Contains(Lower(modelName), "claude")
    ensures c.provider == Anthropic <==> !Contains(Lower(modelName), "gpt") && Contains(Lower(modelName), "claude")
    ensures !Contains(Lower(modelName), "gpt") && !Contains(Lower(modelName), "claude") ==> c == LlmClient(OpenAI, "gpt-4")
  {
    var name := Lower(modelName);
    if Contains(name, "gpt") then LlmClient(OpenAI, modelName)
    else if Contains(name, "claude") then LlmClient(Anthropic, modelName)
    else
      DefaultModelIsGpt();
      LlmClient(OpenAI, "gpt-4")
  }

  lemma DefaultModelIsGpt()
    ensures Contains(Lower("gpt-4"), "gpt")
  {
    assert IsLower("gpt-4");
    LowerOfLower("gpt-4");
    ContainsInfix("", "gpt", "-4");
    assert "" + "gpt" + "-4" == "gpt-4";
  }

  /* ---------- `_create_user_prompt` ---------- */

  function PromptOpening(location: string): string {
    "Please analyze the food truck business opportunity in " + location + "."
  }

  const ContextHeading: string := "\n\nContext from previous analysis:\n"

  const PromptClosing: string := "\n\nProvide a comprehensive analysis based on your expertise."

  /** Python truthiness of an `Optional[str]`: present and non-empty. */
  predicate HasText(context: Option<string>) {
    context.Some? && context.value != ""
  }

  /** The heading and the context, when there is context to give. */
  function ContextBlock(context: Option<string>): string {
    if HasText(context) then ContextHeading + context.value else ""
  }

  /** `_create_user_prompt(location, context)` */
  function CreateUserPrompt(location: string, context: Option<string>): string {
    PromptOpening(location) + ContextBlock(context) + PromptClosing
  }

  /**
   * The user prompt always starts with the fixed opening naming the
   * location and ends with the fixed closing; between them the context
   * block, present exactly when the context is non-empty (None and "" both
   * omit it).
   */
  lemma UserPromptShape(location: string, context: Option<string>)
    ensures var p := CreateUserPrompt(location, context);
      && |PromptOpening(location)| + |PromptClosing| <= |p|
      && p[..|PromptOpening(location)|] == PromptOpening(location)
      && p[|p| - |PromptClosing|..] == PromptClosing
      && p[|PromptOpening(location)|..|p| - |PromptClosing|]
         == (if HasText(context) then ContextHeading + context.value else "")
      && (|p| == |PromptOpening(location)| + |PromptClosing| <==> !HasText(context))
  {
    ThreeParts(PromptOpening(location), ContextBlock(context), PromptClosing);
  }

  /* ---------- `format_context_from_state` ---------- */

  function MarketContextLines(m: MarketResearchData): seq<string> {
    [ "MARKET RESEARCH FINDINGS:",
      "- Competition Level: " + m.competitionLevel,
      "- Target Customers: " + Join(", ", m.targetCustomers),
      "- Market Size: " + m.marketSizeEstimate ]
  }

  function FinancialContextLines(show: Show, f: FinancialAnalysisData): seq<string> {
    [ "\nFINANCIAL ANALYSIS:",
      "- Funding Required: $" + show.money(f.fundingRequirements),
      "- Break-even Timeline: " + f.breakEvenTimeline ]
  }

  function OperationsContextLines(o: OperationsAnalysisData): seq<string> {
    [ "\nOPERATIONS ANALYSIS:",
      "- Permits Required: " + Join(", ", o.permitsRequired),
      "- Permit Timeline: " + o.permitTimeline ]
  }

  /** The sections of the context, one group of lines per record present, in order market, financial, operations. */
  function ContextSections(show: Show, state: ResearchState): seq<seq<string>> {
    (if state.marketResearch.Some? then [MarketContextLines(state.marketResearch.value)] else [])
    + (if state.financialAnalysis.Some? then [FinancialContextLines(show, state.financialAnalysis.value)] else [])
    + (if state.operationsAnalysis.Some? then [OperationsContextLines(state.operationsAnalysis.value)] else [])
  }

  /** There is a section, each with a non-empty first line, exactly when there is a record. */
  lemma ContextSectionsShape(show: Show, state: ResearchState)
    ensures var groups := ContextSections(show, state);
      && (forall i | 0 <= i < |groups| :: |groups[i]| > 0 && |groups[i][0]| > 0)
      && (|groups| == 0 <==> state.marketResearch.None? && state.financialAnalysis.None? && state.operationsAnalysis.None?)
  {
  }

  /** `format_context_from_state`: the lines of every section present, joined by newlines. */
  function FormatContextFromState(show: Show, state: ResearchState): string {
    Join("\n", Flatten(ContextSections(show, state)))
  }

  /** The context is empty exactly when no earlier record is present. */
  lemma ContextEmptyIffNoRecords(show: Show, state: ResearchState)
    ensures FormatContextFromState(show, state) == ""
        <==> state.marketResearch.None? && state.financialAnalysis.None? && state.operationsAnalysis.None?
  {
    ContextSectionsShape(show, state);
    var groups := ContextSections(show, state);
    if |groups| > 0 {
      var lines := Flatten(groups);
      assert lines == groups[0] + Flatten(groups[1..]);
      assert lines[0] == groups[0][0];
      JoinStartsWith("\n", lines);
    }
  }

  /**
   * The context is the present sections' texts, each whole, in order,
   * separated by one newline; an absent record contributes nothing.
   */
  lemma ContextIsSectionsInOrder(show: Show, state: ResearchState)
    ensures FormatContextFromState(show, state) == Join("\n", JoinEach("\n", ContextSections(show, state)))
  {
    JoinFlatten("\n", ContextSections(show, state));
  }

  /** With a market record, the context quotes its competition level verbatim. */
  lemma ContextQuotesCompetitionLevel(show: Show, state: ResearchState)
    requires state.marketResearch.Some?
    ensures Contains(FormatContextFromState(show, state), "- Competition Level: " + state.marketResearch.value.competitionLevel)
  {
    var groups := ContextSections(show, state);
    var lines := Flatten(groups);
    assert groups[0] == MarketContextLines(state.marketResearch.value);
    assert lines == groups[0] + Flatten(groups[1..]);
    assert lines[1] == "- Competition Level: " + state.marketResearch.value.competitionLevel;
    JoinContainsPart("\n", lines, 1);
  }

  /* ---------- what an agent's response carries ---------- */

  /** Whether `data` is the kind of record agent `a` produces. */
  predicate CarriesRecordOf(a: Agent, data: Option<StageData>) {
    data.Some? &&
    match a
    case MarketResearchAnalyst => data.value.MarketData?
    case FinancialAdvisor => data.value.FinancialData?
    case OperationsConsultant => data.value.OperationsData?
    case BusinessConsultant => data.value.BusinessData?
  }

  /**
   * A `process_request` for agent `a` whose every SUCCESS carries the
   * agent's own kind of record and every ERROR carries error details.
   */
  ghost predicate Faithful(a: Agent, process: ResearchState -> AgentResponse) {
    forall state: ResearchState ::
      && (process(state).status == Success ==> CarriesRecordOf(a, process(state).data))
      && (process(state).status == Error ==> process(state).errorDetails.Some?)
  }

  /* ---------- `_safe_llm_call` ---------- */

  /** The text of the exception raised for a missing or content-less response. */
  const InvalidResponseHead := "Invalid response from LLM for "

  function InvalidResponseMessage(a: Agent): string {
    InvalidResponseHead + AgentName(a)
  }

  /** The body of `_safe_llm_call` on its `i`-th call: the reply's content, or the exception it raises. */
  function LlmAttempts(llm: (Request, nat) -> Reply, req: Request): nat -> Attempt<string, string> {
    (i: nat) =>
      match llm(req, i)
      case Content(text) => Returned(text)
      case NoContent => Raised(InvalidResponseMessage(req.agent))
      case Failure(message) => Raised(message)
  }

  /** `@retry_api_call(max_attempts=3, base_delay=1.0)` */
  function LlmRetry(): Decorator<string> {
    RetryApiCall(3, 1.0)
  }

  /** `_safe_llm_call(system_prompt, user_prompt)` as the decorator runs it. */
  function SafeLlmCall(llm: (Request, nat) -> Reply, req: Request): Trace<string, string> {
    RetryOnException(LlmRetry().handler, LlmRetry().policy, LlmAttempts(llm, req))
  }

  /**
   * The model is called one to three times, with sleeps of 1.0 and then 2.0
   * seconds between calls, and the call either returns text or raises; it
   * never returns None.
   */
  lemma SafeLlmCallShape(llm: (Request, nat) -> Reply, req: Request)
    ensures var t := SafeLlmCall(llm, req);
      && 1 <= t.calls <= 3
      && t.delays == [1.0, 2.0][..t.calls - 1]
      && !t.outcome.ReturnsNone?
  {
    var d := LlmRetry();
    RetryOnExceptionExplained(d.handler, d.policy, LlmAttempts(llm, req));
    assert CalculateDelay(d.handler, 0) == 1.0;
    assert Pow(2.0, 1) == 2.0;
    assert CalculateDelay(d.handler, 1) == 2.0;
    var t := SafeLlmCall(llm, req);
    assert t.delays == [1.0, 2.0][..t.calls - 1];
  }

  /** A first reply with content is returned at once. */
  lemma FirstContentReturned(llm: (Request, nat) -> Reply, req: Request, text: string)
    requires llm(req, 0) == Content(text)
    ensures SafeLlmCall(llm, req) == Trace(Returns(text), 1, [])
  {
    var d := LlmRetry();
    ReturnsFirstSuccess(d.handler, d.policy, LlmAttempts(llm, req), 0);
    SafeLlmCallShape(llm, req);
  }

  /** A first failure the classifier refuses is re-raised at once, without a sleep. */
  lemma RefusedFailureRaisedAtOnce(llm: (Request, nat) -> Reply, req: Request, message: string)
    requires llm(req, 0) == Failure(message)
    requires !IsRetryableApiError(message)
    ensures SafeLlmCall(llm, req) == Trace(Raises(message), 1, [])
  {
    var d := LlmRetry();
    StopsOnRefusedError(d.handler, d.policy, LlmAttempts(llm, req), 0);
    SafeLlmCallShape(llm, req);
  }

  /**
   * The "Invalid response" exception matches no non-retryable pattern, so it
   * is retried, for every agent. For each pattern the lower-cased message
   * lacks one of its characters, or holds the pattern's 'v' or 'd' only
   * inside "invalid", where the pattern cannot fit. Each fact about a
   * literal is proved on its own.
   */
  lemma InvalidResponseRetried(a: Agent)
    ensures IsRetryableApiError(InvalidResponseMessage(a))
  {
    match a
    case MarketResearchAnalyst => MarketMessageRetried();
    case FinancialAdvisor => FinancialMessageRetried();
    case OperationsConsultant => OperationsMessageRetried();
    case BusinessConsultant => BusinessMessageRetried();
  }

  lemma HeadLacksY()
    ensures 'y' !in InvalidResponseHead && 'Y' !in InvalidResponseHead
  {
  }

  lemma HeadLacksZ()
    ensures 'z' !in InvalidResponseHead && 'Z' !in InvalidResponseHead
  {
  }

  lemma HeadLacksU()
    ensures 'u' !in InvalidResponseHead && 'U' !in InvalidResponseHead
  {
  }

  lemma HeadLacksB()
    ensures 'b' !in InvalidResponseHead && 'B' !in InvalidResponseHead
  {
  }

  lemma HeadLacksH()
    ensures 'h' !in InvalidResponseHead && 'H' !in InvalidResponseHead
  {
  }

  lemma HeadLacksFour()
    ensures '4' !in InvalidResponseHead
  {
  }

  /** The head's one 'v', inside "Invalid". */
  lemma HeadAroundV()
    ensures InvalidResponseHead == "In" + ['v'] + "alid response from LLM for "
  {
  }

  lemma HeadRestLacksV()
    ensures 'v' !in "alid response from LLM for " && 'V' !in "alid response from LLM for "
  {
  }

  /** The head's one 'd', at the end of "Invalid". */
  lemma HeadAroundD()
    ensures InvalidResponseHead == "Invali" + ['d'] + " response from LLM for "
  {
  }

  lemma HeadRestLacksD()
    ensures 'd' !in " response from LLM for " && 'D' !in " response from LLM for "
  {
  }

  lemma MarketNameLacksU()
    ensures 'u' !in AgentName(MarketResearchAnalyst) && 'U' !in AgentName(MarketResearchAnalyst)
  {
    assert AgentName(MarketResearchAnalyst) == "Market Research Analyst";
  }

  lemma MarketNameLacksZ()
    ensures 'z' !in AgentName(MarketResearchAnalyst) && 'Z' !in AgentName(MarketResearchAnalyst)
  {
    assert AgentName(MarketResearchAnalyst) == "Market Research Analyst";
  }

  lemma MarketNameLacksB()
    ensures 'b' !in AgentName(MarketResearchAnalyst) && 'B' !in AgentName(MarketResearchAnalyst)
  {
    assert AgentName(MarketResearchAnalyst) == "Market Research Analyst";
  }

  lemma MarketNameLacksFour()
    ensures '4' !in AgentName(MarketResearchAnalyst)
  {
    assert AgentName(MarketResearchAnalyst) == "Market Research Analyst";
  }

  lemma MarketNameLacksV()
    ensures 'v' !in AgentName(MarketResearchAnalyst) && 'V' !in AgentName(MarketResearchAnalyst)
  {
    assert AgentName(MarketResearchAnalyst) == "Market Research Analyst";
  }

  lemma FinancialNameLacksY()
    ensures 'y' !in AgentName(FinancialAdvisor) && 'Y' !in AgentName(FinancialAdvisor)
  {
    assert AgentName(FinancialAdvisor) == "Financial Advisor";
  }

  lemma FinancialNameLacksH()
    ensures 'h' !in AgentName(FinancialAdvisor) && 'H' !in AgentName(FinancialAdvisor)
  {
    assert AgentName(FinancialAdvisor) == "Financial Advisor";
  }

  lemma FinancialNameLacksZ()
    ensures 'z' !in AgentName(FinancialAdvisor) && 'Z' !in AgentName(FinancialAdvisor)
  {
    assert AgentName(FinancialAdvisor) == "Financial Advisor";
  }

  lemma FinancialNameLacksB()
    ensures 'b' !in AgentName(FinancialAdvisor) && 'B' !in AgentName(FinancialAdvisor)
  {
    assert AgentName(FinancialAdvisor) == "Financial Advisor";
  }

  lemma FinancialNameLacksU()
    ensures 'u' !in AgentName(FinancialAdvisor) && 'U' !in AgentName(FinancialAdvisor)
  {
    assert AgentName(FinancialAdvisor) == "Financial Advisor";
  }

  lemma FinancialNameLacksFour()
    ensures '4' !in AgentName(FinancialAdvisor)
  {
    assert AgentName(FinancialAdvisor) == "Financial Advisor";
  }

  lemma OperationsNameLacksY()
    ensures 'y' !in AgentName(OperationsConsultant) && 'Y' !in AgentName(OperationsConsultant)
  {
    assert AgentName(OperationsConsultant) == "Operations Consultant";
  }

  lemma OperationsNameLacksH()
    ensures 'h' !in AgentName(OperationsConsultant) && 'H' !in AgentName(OperationsConsultant)
  {
    assert AgentName(OperationsConsultant) == "Operations Consultant";
  }

  lemma OperationsNameLacksZ()
    ensures 'z' !in AgentName(OperationsConsultant) && 'Z' !in AgentName(OperationsConsultant)
  {
    assert AgentName(OperationsConsultant) == "Operations Consultant";
  }

  lemma OperationsNameLacksB()
    ensures 'b' !in AgentName(OperationsConsultant) && 'B' !in AgentName(OperationsConsultant)
  {
    assert AgentName(OperationsConsultant) == "Operations Consultant";
  }

  lemma OperationsNameLacksFour()
    ensures '4' !in AgentName(OperationsConsultant)
  {
    assert AgentName(OperationsConsultant) == "Operations Consultant";
  }

  lemma OperationsNameLacksD()
    ensures 'd' !in AgentName(OperationsConsultant) && 'D' !in AgentName(OperationsConsultant)
  {
    assert AgentName(OperationsConsultant) == "Operations Consultant";
  }

  lemma BusinessNameLacksY()
    ensures 'y' !in AgentName(BusinessConsultant) && 'Y' !in AgentName(BusinessConsultant)
  {
    assert AgentName(BusinessConsultant) == "Business Consultant";
  }

  lemma BusinessNameLacksH()
    ensures 'h' !in AgentName(BusinessConsultant) && 'H' !in AgentName(BusinessConsultant)
  {
    assert AgentName(BusinessConsultant) == "Business Consultant";
  }

  lemma BusinessNameLacksZ()
    ensures 'z' !in AgentName(BusinessConsultant) && 'Z' !in AgentName(BusinessConsultant)
  {
    assert AgentName(BusinessConsultant) == "Business Consultant";
  }

  lemma BusinessNameLacksFour()
    ensures '4' !in AgentName(BusinessConsultant)
  {
    assert AgentName(BusinessConsultant) == "Business Consultant";
  }

  lemma BusinessNameLacksD()
    ensures 'd' !in AgentName(BusinessConsultant) && 'D' !in AgentName(BusinessConsultant)
  {
    assert AgentName(BusinessConsultant) == "Business Consultant";
  }

  /**
   * "invalid api key" has its 'v' at offset 2, so it could only start the
   * message, which it leaves at offset 8 ("invalid r...").
   */
  lemma InvalidApiKeyAnchored(name: string)
    requires 'v' !in name && 'V' !in name
    ensures !Contains(Lower(InvalidResponseHead + name), "invalid api key")
  {
    HeadAroundV();
    HeadRestLacksV();
    var rest := "alid response from LLM for " + name;
    assert InvalidResponseHead + name == "In" + ['v'] + rest;
    assert rest[5] == 'r';
    LowerAnchor("In", 'v', rest, "invalid api key", 2, 8);
  }

  /** "forbidden" has a 'd' at offset 6, so it could only start at the message's 'I'. */
  lemma ForbiddenAnchored(name: string)
    requires 'd' !in name && 'D' !in name
    ensures !Contains(Lower(InvalidResponseHead + name), "forbidden")
  {
    HeadAroundD();
    HeadRestLacksD();
    var rest := " response from LLM for " + name;
    assert InvalidResponseHead + name == "Invali" + ['d'] + rest;
    LowerAnchor("Invali", 'd', rest, "forbidden", 6, 0);
  }

  /** "not found" has its 'd' at offset 8, further in than the 'd' of "Invalid". */
  lemma NotFoundAnchored(name: string)
    requires 'd' !in name && 'D' !in name
    ensures !Contains(Lower(InvalidResponseHead + name), "not found")
  {
    HeadAroundD();
    HeadRestLacksD();
    var rest := " response from LLM for " + name;
    assert InvalidResponseHead + name == "Invali" + ['d'] + rest;
    LowerAnchor("Invali", 'd', rest, "not found", 8, 0);
  }

  lemma MarketMessageRetried()
    ensures IsRetryableApiError(InvalidResponseMessage(MarketResearchAnalyst))
  {
    var name := AgentName(MarketResearchAnalyst);
    var s := Lower(InvalidResponseHead + name);
    HeadLacksU(); MarketNameLacksU();
    LowerAbsentAppend(InvalidResponseHead, name, 'u');
    HeadLacksZ(); MarketNameLacksZ();
    LowerAbsentAppend(InvalidResponseHead, name, 'z');
    HeadLacksB(); MarketNameLacksB();
    LowerAbsentAppend(InvalidResponseHead, name, 'b');
    HeadLacksFour(); MarketNameLacksFour();
    LowerAbsentAppend(InvalidResponseHead, name, '4');
    MarketNameLacksV();
    InvalidApiKeyAnchored(name);
    AbsentChar(s, "authentication", 1);
    AbsentChar(s, "unauthorized", 9);
    AbsentChar(s, "forbidden", 3);
    AbsentChar(s, "not found", 6);
    NoStatusCode(s);
  }

  lemma FinancialMessageRetried()
    ensures IsRetryableApiError(InvalidResponseMessage(FinancialAdvisor))
  {
    var name := AgentName(FinancialAdvisor);
    var s := Lower(InvalidResponseHead + name);
    HeadLacksY(); FinancialNameLacksY();
    LowerAbsentAppend(InvalidResponseHead, name, 'y');
    HeadLacksH(); FinancialNameLacksH();
    LowerAbsentAppend(InvalidResponseHead, name, 'h');
    HeadLacksZ(); FinancialNameLacksZ();
    LowerAbsentAppend(InvalidResponseHead, name, 'z');
    HeadLacksB(); FinancialNameLacksB();
    LowerAbsentAppend(InvalidResponseHead, name, 'b');
    HeadLacksU(); FinancialNameLacksU();
    LowerAbsentAppend(InvalidResponseHead, name, 'u');
    HeadLacksFour(); FinancialNameLacksFour();
    LowerAbsentAppend(InvalidResponseHead, name, '4');
    AbsentChar(s, "invalid api key", 14);
    AbsentChar(s, "authentication", 3);
    AbsentChar(s, "unauthorized", 9);
    AbsentChar(s, "forbidden", 3);
    AbsentChar(s, "not found", 6);
    NoStatusCode(s);
  }

  lemma OperationsMessageRetried()
    ensures IsRetryableApiError(InvalidResponseMessage(OperationsConsultant))
  {
    var name := AgentName(OperationsConsultant);
    var s := Lower(InvalidResponseHead + name);
    HeadLacksY(); OperationsNameLacksY();
    LowerAbsentAppend(InvalidResponseHead, name, 'y');
    HeadLacksH(); OperationsNameLacksH();
    LowerAbsentAppend(InvalidResponseHead, name, 'h');
    HeadLacksZ(); OperationsNameLacksZ();
    LowerAbsentAppend(InvalidResponseHead, name, 'z');
    HeadLacksB(); OperationsNameLacksB();
    LowerAbsentAppend(InvalidResponseHead, name, 'b');
    HeadLacksFour(); OperationsNameLacksFour();
    LowerAbsentAppend(InvalidResponseHead, name, '4');
    AbsentChar(s, "invalid api key", 14);
    AbsentChar(s, "authentication", 3);
    AbsentChar(s, "unauthorized", 9);
    AbsentChar(s, "forbidden", 3);
    OperationsNameLacksD();
    NotFoundAnchored(name);
    NoStatusCode(s);
  }

  lemma BusinessMessageRetried()
    ensures IsRetryableApiError(InvalidResponseMessage(BusinessConsultant))
  {
    var name := AgentName(BusinessConsultant);
    var s := Lower(InvalidResponseHead + name);
    HeadLacksY(); BusinessNameLacksY();
    LowerAbsentAppend(InvalidResponseHead, name, 'y');
    HeadLacksH(); BusinessNameLacksH();
    LowerAbsentAppend(InvalidResponseHead, name, 'h');
    HeadLacksZ(); BusinessNameLacksZ();
    LowerAbsentAppend(InvalidResponseHead, name, 'z');
    HeadLacksFour(); BusinessNameLacksFour();
    LowerAbsentAppend(InvalidResponseHead, name, '4');
    AbsentChar(s, "invalid api key", 14);
    AbsentChar(s, "authentication", 3);
    AbsentChar(s, "unauthorized", 9);
    BusinessNameLacksD();
    ForbiddenAnchored(name);
    NotFoundAnchored(name);
    NoStatusCode(s);
  }

  /** Without a '4' none of the four status codes can occur. */
  lemma NoStatusCode(s: string)
    requires '4' !in s
    ensures !Contains(s, "400") && !Contains(s, "401") && !Contains(s, "403") && !Contains(s, "404")
  {
    AbsentChar(s, "400", 0);
    AbsentChar(s, "401", 0);
    AbsentChar(s, "403", 0);
    AbsentChar(s, "404", 0);
  }

  /** A model that never answers with content is called three times, and the "Invalid response" exception is raised. */
  lemma EmptyRepliesExhaustRetries(llm: (Request, nat) -> Reply, req: Request)
    requires forall i: nat | i < 3 :: llm(req, i) == NoContent
    ensures SafeLlmCall(llm, req) == Trace(Raises(InvalidResponseMessage(req.agent)), 3, [1.0, 2.0])
  {
    var d := LlmRetry();
    var func := LlmAttempts(llm, req);
    InvalidResponseRetried(req.agent);
    assert forall i: nat | i < 3 :: func(i) == Raised(InvalidResponseMessage(req.agent));
    ExhaustedRetries(d.handler, d.policy, func);
    SafeLlmCallShape(llm, req);
  }

  /* ---------- parsing a reply ---------- */

  /**
   * `json.loads(text)` then `Model(**data)`: a record; a `JSONDecodeError`;
   * a pydantic `ValidationError` (a `ValueError`); or the `TypeError` raised
   * when the decoded value is not an object, carrying the value's type name.
   */
  datatype ParseResult<T> = Valid(record: T) | NotJson | SchemaInvalid | NotAnObject(typeName: string)

  function Parse<T>(decode: string -> Option<Json>, validate: Dict<Json> -> Option<T>, text: string): ParseResult<T> {
    match decode(text)
    case None => NotJson
    case Some(j) =>
      if j.JObj? then
        match validate(j.fields)
        case Some(r) => Valid(r)
        case None => SchemaInvalid
      else NotAnObject(TypeName(j))
  }

  /**
   * The module the record classes live in, as the agents import it. From
   * Python 3.9 on, the `TypeError` of `Model(**value)` names the class by
   * its module and qualified name.
   */
  const RecordsModule: string := "models.research_models."

  /** The text of the `TypeError` from `Model(**value)` on a non-mapping. */
  function NotMappingMessage(model: string, typeName: string): string {
    RecordsModule + model + "() argument after ** must be a mapping, not " + typeName
  }

  /** The text of the `TypeError` from `json.loads(None)`. */
  const NoneTypeMessage: string := "the JSON object must be str, bytes or bytearray, not NoneType"

  /* ---------- the stage outcome ---------- */

  /** What distinguishes one agent's `process_request` from another's. */
  datatype StageSpec<!T> = StageSpec(
    agent: Agent,
    model: string,
    validate: Dict<Json> -> Option<T>,
    wrap: T -> StageData,
    completed: string,
    failed: string,
    next: Option<string>)

  /** The record a successful stage reports: the parsed one, or the fallback when parsing failed. */
  function Chosen<T>(p: ParseResult<T>, fallback: T): T {
    if p.Valid? then p.record else fallback
  }

  /**
   * The end of every `process_request`: a parsed record gives SUCCESS with
   * it; a `JSONDecodeError` or `ValueError` gives SUCCESS with the fallback
   * built from the reply; any other exception (the model call's, after
   * retries; the `TypeError` of a non-object) gives ERROR with
   * `error_details = str(e)` and no data.
   */
  function Conclude<T>(spec: StageSpec<T>, decode: string -> Option<Json>, fallback: string -> T,
                       outcome: Outcome<string, string>): (r: AgentResponse)
    ensures r.agentName == AgentName(spec.agent)
    ensures r.status == Success <==> outcome.Returns? && !Parse(decode, spec.validate, outcome.value).NotAnObject?
    ensures r.status == Success ==>
      && r.message == spec.completed && r.nextAgent == spec.next && r.errorDetails.None?
      && r.data == Some(spec.wrap(Chosen(Parse(decode, spec.validate, outcome.value), fallback(outcome.value))))
    ensures r.status == Error ==>
      r.message == spec.failed && r.data.None? && r.nextAgent.None? && r.errorDetails.Some?
    ensures outcome.Raises? ==> r.errorDetails == Some(outcome.error)
    ensures outcome.Returns? && Parse(decode, spec.validate, outcome.value).NotAnObject? ==>
      r.errorDetails == Some(NotMappingMessage(spec.model, Parse(decode, spec.validate, outcome.value).typeName))
  {
    var name := AgentName(spec.agent);
    match outcome
    case Raises(e) => AgentResponse(name, Error, spec.failed, errorDetails := Some(e))
    case ReturnsNone => AgentResponse(name, Error, spec.failed, errorDetails := Some(NoneTypeMessage))
    case Returns(text) =>
      match Parse(decode, spec.validate, text)
      case Valid(record) => AgentResponse(name, Success, spec.completed, Some(spec.wrap(record)), spec.next)
      case NotJson => AgentResponse(name, Success, spec.completed, Some(spec.wrap(fallback(text))), spec.next)
      case SchemaInvalid => AgentResponse(name, Success, spec.completed, Some(spec.wrap(fallback(text))), spec.next)
      case NotAnObject(t) => AgentResponse(name, Error, spec.failed, errorDetails := Some(NotMappingMessage(spec.model, t)))
  }

  /** A stage's whole `process_request`: the retried call on its request, then the outcome. */
  function RunStage<T>(env: Env, spec: StageSpec<T>, userPrompt: string, fallback: string -> T): AgentResponse {
    Conclude(spec, env.decode, fallback, SafeLlmCall(env.llm, Request(spec.agent, userPrompt)).outcome)
  }

  /**
   * A parse failure never makes a stage fail: whenever the model answers,
   * the stage reports ERROR only for a decoded value that is not an object.
   */
  lemma StageErrorsOnlyOnCallFailureOrNonObject<T>(env: Env, spec: StageSpec<T>, userPrompt: string, fallback: string -> T)
    ensures var t := SafeLlmCall(env.llm, Request(spec.agent, userPrompt));
      RunStage(env, spec, userPrompt, fallback).status == Error <==>
        t.outcome.Raises? || Parse(env.decode, spec.validate, t.outcome.value).NotAnObject?
  {
    SafeLlmCallShape(env.llm, Request(spec.agent, userPrompt));
  }

  /**
   * A first reply that is not JSON, or is an object the record type
   * rejects, gives SUCCESS with the fallback built from that reply, after a
   * single call.
   */
  lemma ParseFailureFallsBack<T>(env: Env, spec: StageSpec<T>, userPrompt: string, fallback: string -> T, text: string)
    requires env.llm(Request(spec.agent, userPrompt), 0) == Content(text)
    requires Parse(env.decode, spec.validate, text).NotJson? || Parse(env.decode, spec.validate, text).SchemaInvalid?
    ensures RunStage(env, spec, userPrompt, fallback)
         == AgentResponse(AgentName(spec.agent), Success, spec.completed, Some(spec.wrap(fallback(text))), spec.next)
  {
    FirstContentReturned(env.llm, Request(spec.agent, userPrompt), text);
  }

  /** A first reply that parses into a record gives SUCCESS with exactly that record. */
  lemma ValidReplyAccepted<T>(env: Env, spec: StageSpec<T>, userPrompt: string, fallback: string -> T, text: string, record: T)
    requires env.llm(Request(spec.agent, userPrompt), 0) == Content(text)
    requires Parse(env.decode, spec.validate, text) == Valid(record)
    ensures RunStage(env, spec, userPrompt, fallback)
         == AgentResponse(AgentName(spec.agent), Success, spec.completed, Some(spec.wrap(record)), spec.next)
  {
    FirstContentReturned(env.llm, Request(spec.agent, userPrompt), text);
  }

  /** A first failure the classifier refuses fails the stage at once, carrying the exception's text. */
  lemma RefusedFailureFailsStage<T>(env: Env, spec: StageSpec<T>, userPrompt: string, fallback: string -> T, message: string)
    requires env.llm(Request(spec.agent, userPrompt), 0) == Failure(message)
    requires !IsRetryableApiError(message)
    ensures RunStage(env, spec, userPrompt, fallback)
         == AgentResponse(AgentName(spec.agent), Error, spec.failed, errorDetails := Some(message))
  {
    RefusedFailureRaisedAtOnce(env.llm, Request(spec.agent, userPrompt), message);
  }

  /** A model that never answers with content makes the stage fail with the "Invalid response" text. */
  lemma EmptyRepliesFailStage<T>(env: Env, spec: StageSpec<T>, userPrompt: string, fallback: string -> T)
    requires forall i: nat | i < 3 :: env.llm(Request(spec.agent, userPrompt), i) == NoContent
    ensures RunStage(env, spec, userPrompt, fallback)
         == AgentResponse(AgentName(spec.agent), Error, spec.failed, errorDetails := Some(InvalidResponseMessage(spec.agent)))
  {
    EmptyRepliesExhaustRetries(env.llm, Request(spec.agent, userPrompt));
  }
}
