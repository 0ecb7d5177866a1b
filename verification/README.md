# Food truck research agents: a Dafny model of the pipeline core

This project models the core of a multi-agent food-truck research tool in
Dafny and proves properties of the model. Four language-model agents run in
a fixed sequence over a shared state:

1. the Market Research Analyst;
2. the Financial Advisor;
3. the Operations Consultant;
4. the Business Consultant.

Each agent builds a prompt from the records produced before it and calls the
model through a retrying wrapper. It parses the reply into a typed record,
and falls back to a fixed record when parsing fails. The graph runs the four
nodes and `format_results` renders the final state as a Markdown report. A
few pure helpers of the command-line front end complete the core: the report
file name, the location check, the model fallback, the argument parsing and
the progress bar.

Modules, one per component:

- `Wrappers`: `Option`.
- `Text`: Python string operations.
  - `lower`/`upper` on ASCII letters;
  - `strip`, `split`, `join`, `replace`, `*`;
  - containment.
- `Json`: decoded JSON values and insertion-ordered dicts.
- `Retry`: the retry executor and the API-error classifier.
- `Models`: the pydantic records, the recommendation enum, `.dict()` and validation.
- `BaseAgent`:
  - the language-model oracle;
  - `_initialize_llm`, the user prompt and the context block;
  - `_safe_llm_call` under its retry decorator;
  - the shared end of every `process_request`.
- `MarketAgent`, `FinancialAgent`, `OperationsAgent`, `BusinessAgent`: each agent's prompt, fallback and `process_request`.
- `Workflow`: the graph state, the four nodes, the edges as written, and a corrected pipeline that stops at the first failure.
- `WorkflowAgents`: the graph wired to the four real agents, and a concrete run that masks a failure.
- `Report`: `format_results`.
- `Cli`: the pure helpers of `main.py`.

The language model is a parameter. `llm(request, i)` is the reply to the
`i`-th call of a request, and a request names the agent and carries its user
prompt. A reply is content, an unusable response, or an exception given by
its text. `json.loads` is also a parameter: it gives `None` when decoding
raises.

## Model

| member | source | states |
|---|---|---|
| Retry.CalculateDelay | src/utils/retry_handler.py:38-41 | the delay never exceeds `max_delay` or the exponential term, and equals one of them |
| Retry.DelayNonDecreasing | src/utils/retry_handler.py:38-41 | with a non-negative base delay and a base of at least 1, later attempts never wait less |
| Retry.DelayPositive | src/utils/retry_handler.py:38-41 | positive parameters give a positive delay |
| Retry.UnitTestDelay | test_basic_functionality.py:164-170 | example: the test's handler (3 attempts, base 0.1) waits 0.2 > 0 after attempt 1 |
| Retry.LoopExplained | src/utils/retry_handler.py:57-87 | from any attempt reached by retried failures, the loop's trace satisfies the loop-free description `Explains` |
| Retry.RetryOnExceptionExplained | src/utils/retry_handler.py:43-90 | the wrapper's trace satisfies `Explains`: calls 1..max_attempts, one `calculate_delay(i)` sleep after each retried failure, and it stops at the first success, refused error or last attempt |
| Retry.ExplainsUnique | src/utils/retry_handler.py:57-87 | `Explains` admits exactly one trace, so it fully specifies the wrapper |
| Retry.ExhaustedRetries | src/utils/retry_handler.py:72-75 | when every attempt fails with a retried error, the function runs exactly `max_attempts` times, sleeps `max_attempts - 1` times and the last error is raised |
| Retry.StopsOnRefusedError | src/utils/retry_handler.py:67-70 | an error that `should_retry_func` refuses is raised at once, after `k + 1` calls and `k` sleeps |
| Retry.ReturnsFirstSuccess | src/utils/retry_handler.py:60-62 | the first successful call's value is returned, after `k + 1` calls |
| Retry.NoneOnlyWithoutAttempts | src/utils/retry_handler.py:85-87 | the wrapper returns None exactly when `max_attempts <= 0`; the final re-raise is unreachable otherwise |
| Retry.RunWithRetry | src/utils/retry_handler.py:57-87 | the imperative loop computes the same trace as the functional model, with 1..max_attempts calls and one sleep fewer than calls |
| Retry.RetryableIffNoFatalPattern | src/utils/retry_handler.py:93-143 | an error is retried exactly when its lower-cased text holds no non-retryable pattern; the retryable list changes nothing |
| Retry.FatalPatternWins | src/utils/retry_handler.py:132-135 | any non-retryable pattern in the text makes the error non-retryable, whatever retryable pattern is also there |
| Retry.UnauthorizedTimeoutNotRetried | src/utils/retry_handler.py:132-135 | text with both "unauthorized" and "timeout" is not retried |
| Retry.ClientStatusCodeNotRetried | src/utils/retry_handler.py:126-129 | text containing "400", "401", "403" or "404", even inside a longer number, is not retried |
| Retry.RateLimitRetried | test_basic_functionality.py:173 | "rate limit exceeded" is retried |
| Retry.InvalidApiKeyNotRetried | test_basic_functionality.py:174 | "invalid api key" is not retried |
| Retry.BackoffRetriesEverything | src/utils/retry_handler.py:156-159 | `retry_with_backoff` stops only on a success or after `max_attempts` calls |
| Json.GetSpec | src/graph/workflow.py:245 | `dict.get` finds a key exactly when it is stored, and returns the value of its first entry |
| Json.GetAt | src/graph/workflow.py:245 | the first entry stored under a key is what lookup returns |
| Json.KeysFindStored | src/models/research_models.py:17-28 | a key is listed by `keys()` exactly when lookup finds a value for it |
| Json.SumValuesAppend | src/agents/business_consultant_agent.py:123-124 | the sum of a dict's values built in two pieces is the sum of the pieces |
| Models.ParseRecommendation | src/models/research_models.py:10-14 | only "go", "no_go" and "conditional" validate, each to the member with that value |
| Models.RecommendationRoundTrip | src/models/research_models.py:10-14 | every enum member's value validates back to that member |
| Models.UnknownRecommendationRejected | src/models/research_models.py:61 | an object whose recommendation is not one of the three values fails validation |
| Models.FreshStateIsEmpty | src/models/research_models.py:74-80 | a state built from the location alone has no records, no messages and no current agent |
| Models.ResponseDefaults | src/models/research_models.py:93-95 | a response's data, next agent and error details default to None |
| Models.StrListRoundTrip | src/models/research_models.py:22 | a `List[str]` field survives `.dict()` and validation |
| Models.FloatDictRoundTrip | src/models/research_models.py:34 | a `Dict[str, float]` field survives `.dict()` and validation |
| Models.ObjectListRoundTrip | src/models/research_models.py:26 | a `List[Dict[str, Any]]` field survives `.dict()` and validation |
| Models.FieldPresent | src/models/research_models.py:17-68 | a field that validates is present in the object |
| Models.MarketRoundTrip | src/models/research_models.py:17-28 | `MarketResearchData(**m.dict()) == m` |
| Models.MarketLookups1 | src/models/research_models.py:20-24 | `.dict()` maps the first five market fields to their values |
| Models.MarketLookups2 | src/models/research_models.py:25-28 | `.dict()` maps the last four market fields to their values |
| Models.MarketDictKeys | src/models/research_models.py:17-28 | `.dict()` has exactly the declared market fields, in declaration order |
| Models.MarketFieldsRequired | src/models/research_models.py:17-28 | an object that validates as market data has every declared key |
| Models.FinancialRoundTrip | src/models/research_models.py:31-41 | `FinancialAnalysisData(**f.dict()) == f` |
| Models.FinancialLookups1 | src/models/research_models.py:34-37 | `.dict()` maps the first four financial fields to their values |
| Models.FinancialLookups2 | src/models/research_models.py:38-41 | `.dict()` maps the last four financial fields to their values |
| Models.FinancialDictKeys | src/models/research_models.py:31-41 | `.dict()` has exactly the declared financial fields, in order |
| Models.FinancialFieldsRequired | src/models/research_models.py:31-41 | an object that validates as financial data has every declared key |
| Models.OperationsRoundTrip | src/models/research_models.py:44-55 | `OperationsAnalysisData(**o.dict()) == o` |
| Models.OperationsLookups1 | src/models/research_models.py:47-51 | `.dict()` maps the first five operations fields to their values |
| Models.OperationsLookups2 | src/models/research_models.py:52-55 | `.dict()` maps the last four operations fields to their values |
| Models.OperationsDictKeys | src/models/research_models.py:44-55 | `.dict()` has exactly the declared operations fields, in order |
| Models.OperationsFieldsRequired | src/models/research_models.py:44-55 | an object that validates as operations data has every declared key |
| Models.BusinessRoundTrip | src/models/research_models.py:58-68 | `BusinessRecommendation(**b.dict()) == b`, with the enum stored as its value |
| Models.BusinessLookups1 | src/models/research_models.py:61-64 | `.dict()` maps the first four recommendation fields to their values |
| Models.BusinessLookups2 | src/models/research_models.py:65-68 | `.dict()` maps the last four recommendation fields to their values |
| Models.BusinessDictKeys | src/models/research_models.py:58-68 | `.dict()` has exactly the declared recommendation fields, in order |
| Models.BusinessFieldsRequired | src/models/research_models.py:58-68 | an object that validates as a recommendation has every declared key |
| Text.UpperIsUpper | src/graph/workflow.py:284 | `upper()` leaves no small letter, is idempotent, and agrees with `lower()`: `s.upper().lower() == s.lower()` and `s.lower().upper() == s.upper()` |
| Text.LowerIsLower | src/main.py:142 | a lower-cased string has no capital and lowering it again changes nothing |
| Text.LowerAppend | src/utils/retry_handler.py:103 | lower-casing works piece by piece |
| Text.ContainsLower | src/utils/retry_handler.py:103-135 | a lower-case pattern found in a text is found in its lower case |
| Text.Repeat | src/main.py:84 | `c * n` is `n` copies of `c`, and empty for `n <= 0` |
| Text.ReplaceCharMembers | src/main.py:142 | after `replace(a, b)` no `a` remains when `a != b`; `b` is present exactly when `a` or `b` was; every other character is present exactly when it was |
| Text.RemoveCharAppend | src/main.py:142 | `replace(c, "")` on a concatenation is the concatenation of the two removals, so the kept characters keep their order; `RemoveChar` itself leaves no `c`, keeps every other character and shortens the text by the count of `c` |
| Text.TrimStart | src/main.py:54 | the kept suffix starts with a non-space, and everything cut is whitespace |
| Text.TrimEnd | src/main.py:54 | the kept prefix ends with a non-space, and everything cut is whitespace |
| Text.StripKeepsNonSpace | src/main.py:54 | `strip()` removes only whitespace |
| Text.SplitLength | src/main.py:61 | `split(c)` has one more piece than the text has `c` characters |
| Text.SplitJoin | src/main.py:61 | joining the pieces of `split(c)` with `c` gives the text back |
| Text.JoinAppend | src/graph/workflow.py:303 | joining two non-empty lists puts one separator between their joins |
| Text.JoinStartsWith | src/graph/workflow.py:303 | a joined list begins with its first element |
| Text.JoinContainsPart | src/agents/base_agent.py:112 | every element of a joined list appears in the joined text |
| Text.JoinFlatten | src/agents/base_agent.py:94-112 | joining all lines of the groups equals joining each group and then joining the results |
| Text.Take | src/agents/business_consultant_agent.py:134-137 | `xs[:n]` is the first `n` items, or all of them |
| BaseAgent.InitializeLlm | src/agents/base_agent.py:23-43 | Anthropic is picked exactly when the lower-cased name holds "claude" and not "gpt"; a name holding neither gives OpenAI with "gpt-4"; otherwise the given name is kept; the client's model always names its provider |
| BaseAgent.DefaultModelIsGpt | src/agents/base_agent.py:17 | helper fact: the default "gpt-4" selects OpenAI |
| BaseAgent.UserPromptShape | src/agents/base_agent.py:67-75 | the prompt is the opening naming the location, the context block exactly when the context is non-empty, and the closing |
| BaseAgent.ContextSectionsShape | src/agents/base_agent.py:92-112 | there is one section per present record, each with a non-empty first line |
| BaseAgent.ContextEmptyIffNoRecords | src/agents/base_agent.py:92-112 | the context is empty exactly when no earlier record is present |
| BaseAgent.ContextIsSectionsInOrder | src/agents/base_agent.py:92-112 | the context is the present sections, each whole, in market-financial-operations order, separated by newlines |
| BaseAgent.ContextQuotesCompetitionLevel | src/agents/base_agent.py:96-98 | with a market record, the context quotes its competition level verbatim |
| BaseAgent.SafeLlmCallShape | src/agents/base_agent.py:77-90 | the model is called one to three times with sleeps 1.0 then 2.0, and the call returns text or raises, never None |
| BaseAgent.FirstContentReturned | src/agents/base_agent.py:85-90 | a first reply with content is returned after one call and no sleep |
| BaseAgent.RefusedFailureRaisedAtOnce | src/agents/base_agent.py:77 | a first exception the classifier refuses is raised after one call |
| BaseAgent.InvalidResponseRetried | src/agents/base_agent.py:87-88 | the "Invalid response" exception is retryable for every agent |
| BaseAgent.EmptyRepliesExhaustRetries | src/agents/base_agent.py:77-88 | a model that never gives content is called three times and the "Invalid response" exception is raised |
| BaseAgent.NoStatusCode | src/utils/retry_handler.py:126-129 | helper fact for the classifier lemmas: text without a '4' holds none of the four status codes |
| BaseAgent.InvalidApiKeyAnchored | src/utils/retry_handler.py:121 | helper fact for the classifier lemmas: the "Invalid response" text never contains "invalid api key" |
| BaseAgent.ForbiddenAnchored | src/utils/retry_handler.py:124 | helper fact for the classifier lemmas: the "Invalid response" text never contains "forbidden" |
| BaseAgent.NotFoundAnchored | src/utils/retry_handler.py:125 | helper fact for the classifier lemmas: the "Invalid response" text never contains "not found" |
| BaseAgent.Conclude | src/agents/market_research_agent.py:68-90 | SUCCESS exactly when the call returned and the reply is not a non-object JSON value; the record is the parsed one or the fallback; ERROR carries `str(e)`, which for a non-object reply names the class as `models.research_models.<Class>()` |
| BaseAgent.StageErrorsOnlyOnCallFailureOrNonObject | src/agents/market_research_agent.py:69-74 | a parse failure never fails a stage: with a reply, ERROR comes only from a non-object value |
| BaseAgent.ParseFailureFallsBack | src/agents/market_research_agent.py:72-74 | a first reply that is not JSON, or is rejected by validation, gives SUCCESS with the fallback after one call |
| BaseAgent.ValidReplyAccepted | src/agents/market_research_agent.py:70-82 | a first reply that validates gives SUCCESS with exactly that record |
| BaseAgent.RefusedFailureFailsStage | src/agents/market_research_agent.py:84-90 | a refused first exception gives ERROR with the exception's text |
| BaseAgent.EmptyRepliesFailStage | src/agents/market_research_agent.py:84-90 | a model that never gives content gives ERROR with the "Invalid response" text |
| MarketAgent.Fallback | src/agents/market_research_agent.py:92-113 | the fallback names the location, says "Medium" competition and has every list non-empty |
| MarketAgent.Respond | src/agents/market_research_agent.py:59-90 | SUCCESS iff the call returned non-non-object text, then with a market record and "Financial Advisor" next; otherwise ERROR with details and no data |
| MarketAgent.ProcessorFaithful | src/agents/market_research_agent.py:76-90 | every SUCCESS carries a market record and every ERROR carries error details |
| MarketAgent.RefusedAgentFails | src/agents/market_research_agent.py:84-90 | a model that refuses the market agent with a non-retryable error makes it fail on every state with that text |
| MarketAgent.PromptHasNoContext | src/agents/market_research_agent.py:63 | the market prompt never carries a context block |
| MarketAgent.FallbackIgnoresResponse | src/agents/market_research_agent.py:92-95 | the fallback does not depend on the reply |
| MarketAgent.FallbackIsValidRecord | src/agents/market_research_agent.py:95-113 | the fallback survives `.dict()` and validation |
| MarketAgent.ParseFailureGivesFallback | src/agents/market_research_agent.py:72-82 | an unparseable reply gives SUCCESS with the fallback for the state's location |
| FinancialAgent.Respond | src/agents/financial_advisor_agent.py:78-112 | SUCCESS iff the call returned non-non-object text, then with a financial record and "Operations Consultant" next; otherwise ERROR with details |
| FinancialAgent.ProcessorFaithful | src/agents/financial_advisor_agent.py:98-112 | every SUCCESS carries a financial record and every ERROR carries error details |
| FinancialAgent.PromptWithoutRecords | src/agents/financial_advisor_agent.py:84-85 | without earlier records the prompt has no context block |
| FinancialAgent.PromptQuotesMarket | src/agents/financial_advisor_agent.py:84-85 | with a market record the prompt holds the context block, which quotes the competition level |
| FinancialAgent.FallbackIgnoresLocation | src/agents/financial_advisor_agent.py:114-116 | the fallback does not depend on the location |
| FinancialAgent.FallbackStartupCostsFundIt | src/agents/financial_advisor_agent.py:117-126 | the startup costs sum to the funding requirement, 127000 |
| FinancialAgent.FallbackMonthlyCostsBelowRevenue | src/agents/financial_advisor_agent.py:127-141 | the monthly costs sum to 17000, against 20000 monthly revenue |
| FinancialAgent.FallbackAnnualIsTwelveMonths | src/agents/financial_advisor_agent.py:137-141 | the annual revenue is twelve times the monthly revenue |
| FinancialAgent.FallbackIsValidRecord | src/agents/financial_advisor_agent.py:116-149 | the fallback survives `.dict()` and validation |
| FinancialAgent.ParseFailureGivesFallback | src/agents/financial_advisor_agent.py:91-104 | an unparseable reply gives SUCCESS with the fallback |
| OperationsAgent.Respond | src/agents/operations_consultant_agent.py:69-103 | SUCCESS iff the call returned non-non-object text, then with an operations record and "Business Consultant" next; otherwise ERROR with details |
| OperationsAgent.ProcessorFaithful | src/agents/operations_consultant_agent.py:89-103 | every SUCCESS carries an operations record and every ERROR carries error details |
| OperationsAgent.PromptBareIffNoRecords | src/agents/operations_consultant_agent.py:75-76 | the prompt has no context block exactly when no earlier record is present |
| OperationsAgent.FallbackIgnoresLocation | src/agents/operations_consultant_agent.py:105-107 | the fallback does not depend on the location |
| OperationsAgent.FallbackPricesEveryPermit | src/agents/operations_consultant_agent.py:108-121 | five permits are listed and five are priced |
| OperationsAgent.FallbackStaffingOrdered | src/agents/operations_consultant_agent.py:146-149 | minimum staff 2 does not exceed peak staff 4 |
| OperationsAgent.FallbackIsValidRecord | src/agents/operations_consultant_agent.py:107-171 | the fallback survives `.dict()` and validation |
| OperationsAgent.ParseFailureGivesFallback | src/agents/operations_consultant_agent.py:82-95 | an unparseable reply gives SUCCESS with the fallback |
| BusinessAgent.ContextQuotesMarket | src/agents/business_consultant_agent.py:102-111 | with a market record the context holds each field under its caption: competition level, market size, and the lists of customers, peak hours, opportunities, challenges and seasonal factors joined by ", " |
| BusinessAgent.ContextQuotesFinancial | src/agents/business_consultant_agent.py:114-126 | with a financial record the context holds its funding, break-even timeline, monthly revenue (0 when absent), ROI, cash flow and the two cost totals, each under its caption |
| BusinessAgent.ContextQuotesOperations | src/agents/business_consultant_agent.py:129-137 | with an operations record the context holds its permits, permit timeline, staffing, and the first three health regulations, location constraints and logistics challenges, each under its caption |
| BusinessAgent.ContextHasLine | src/agents/business_consultant_agent.py:100-139 | every line of every present section occurs in the context |
| BusinessAgent.SectionsShape | src/agents/business_consultant_agent.py:97-139 | there is one section of several lines per present record |
| BusinessAgent.ContextEmptyIffNoRecords | src/agents/business_consultant_agent.py:97-139 | the comprehensive context is empty exactly when no earlier record is present |
| BusinessAgent.ContextIsSectionsInOrder | src/agents/business_consultant_agent.py:97-139 | the context is the present sections, each whole, in order, separated by newlines |
| BusinessAgent.FinancialSectionPresent | src/agents/business_consultant_agent.py:114-126 | with a financial record its lines are one of the sections |
| BusinessAgent.ContextReportsCostSums | src/agents/business_consultant_agent.py:123-126 | the context states the sums of the startup and monthly costs |
| BusinessAgent.ContextReadsFirstThree | src/agents/business_consultant_agent.py:134-137 | the health, location and logistics lines quote only the first three items |
| BusinessAgent.SynthesisPromptParts | src/agents/business_consultant_agent.py:141-156 | the prompt is the opening, the context verbatim and the closing, each recoverable by position |
| BusinessAgent.SynthesisPromptInjective | src/agents/business_consultant_agent.py:141-156 | different contexts give different prompts |
| BusinessAgent.Fallback | src/agents/business_consultant_agent.py:158-205 | NO_GO iff funding > 150000; GO iff not that and competition is exactly "Low"; confidence "High" iff not CONDITIONAL |
| BusinessAgent.FundingAtLimitIsNotNoGo | src/agents/business_consultant_agent.py:165-166 | funding of exactly 150000 is not NO_GO |
| BusinessAgent.FundingRuleFirst | src/agents/business_consultant_agent.py:165-172 | the funding rule wins over low competition |
| BusinessAgent.NoRecordsIsConditional | src/agents/business_consultant_agent.py:161-162 | with no records the fallback is CONDITIONAL with "Medium" confidence |
| BusinessAgent.FallbacksGiveConditional | src/agents/business_consultant_agent.py:165-172 | over the other agents' fallbacks ("Medium", 127000) the decision is CONDITIONAL |
| BusinessAgent.FallbackFixedParts | src/agents/business_consultant_agent.py:174-205 | only the decision and confidence depend on the state; the lists and timeline are fixed and non-empty |
| BusinessAgent.FallbackIsValidRecord | src/agents/business_consultant_agent.py:174-205 | the fallback survives `.dict()` and validation |
| BusinessAgent.Respond | src/agents/business_consultant_agent.py:61-95 | SUCCESS iff the call returned non-non-object text, then with a recommendation and no next agent; otherwise ERROR with details |
| BusinessAgent.ProcessorFaithful | src/agents/business_consultant_agent.py:81-95 | every SUCCESS carries a recommendation and every ERROR carries error details |
| BusinessAgent.ParseFailureGivesFallback | src/agents/business_consultant_agent.py:74-87 | an unparseable reply gives SUCCESS with the fallback decided from the state |
| BusinessAgent.UnparsedRepliesSucceed | src/agents/business_consultant_agent.py:74-87 | a model whose first answer is never JSON makes the agent succeed on every state |
| Workflow.Rank | src/graph/workflow.py:56-60 | each stage has a position in the edge order |
| Workflow.NodeInput | src/graph/workflow.py:68-71 | a node passes the location, the messages and exactly the records of earlier stages |
| Workflow.AgentOf | src/graph/workflow.py:35-38 | the market node's agent is the first; every other node's agent is the one its predecessor names as current |
| Workflow.WithRecord | src/graph/workflow.py:76-82 | storing a record changes only that stage's slot, and the slot is filled exactly when the data is that stage's kind |
| Workflow.DetailsOr | src/graph/workflow.py:86 | `details or default`: non-empty details are chosen, None or "" gives the default |
| Workflow.Node | src/graph/workflow.py:64-95 | a node appends one message naming its stage; "success" iff the agent answered SUCCESS, with the successor named; otherwise "error" with a non-empty message and nothing else changed |
| Workflow.FailedNodeWritesNoRecord | src/graph/workflow.py:83-95 | a failing node writes no record |
| Workflow.NodeKeepsOtherRecords | src/graph/workflow.py:76-82 | a node never touches another stage's record |
| Workflow.PipelineSound | src/graph/workflow.py:35-38 | four agents faithful to their own stages make a pipeline whose every success carries its stage's record |
| Workflow.StepRecordIffSuccess | src/graph/workflow.py:76-95 | with faithful agents, a node writes its record exactly when it reports success |
| Workflow.InitialState | src/graph/workflow.py:206-216 | the run starts with no records, status "starting", an empty error and one message naming the location |
| Workflow.RunResearch | src/graph/workflow.py:218-229 | an exception from the graph gives "error", its text, the start message plus one error message, and no records |
| Workflow.RunKeepsMessages | src/graph/workflow.py:56-60 | a run keeps the location and earlier messages and adds one message per stage |
| Workflow.GraphRunsEveryNode | src/graph/workflow.py:56-60 | the graph adds four messages after the starting one, whatever the nodes report |
| Workflow.GraphIsFourSteps | src/graph/workflow.py:56-60 | the run is the four nodes in edge order |
| Workflow.StepAppendsReport | src/graph/workflow.py:81-94 | a step keeps every earlier message and appends one naming its stage |
| Workflow.GraphReportsInOrder | src/graph/workflow.py:56-60 | the run's messages 1 to 4 report market, financial, operations and business, in that order |
| Workflow.FinalStatusIsBusinessStatus | src/graph/workflow.py:56-60 | the final status is the business node's, and is "success" or "error" |
| Workflow.FailureMaskedBySuccess | src/graph/workflow.py:56-60 | a failed market node followed by a successful business node ends "success" without a market record but with an error message |
| Workflow.ErrorMessageSticks | src/graph/workflow.py:76-82 | no node clears a non-empty error message |
| Workflow.PipelineMasksFailure | src/graph/workflow.py:56-60 | a market agent that always fails and a business agent that always succeeds give a masked run |
| Workflow.StepKeepsRecords | src/graph/workflow.py:76-95 | with faithful agents a step keeps every record, and adds its own unless it fails |
| Workflow.HaltingKeepsRecords | src/graph/workflow.py:56-60 | the corrected run keeps records, and on success every stage it ran wrote one |
| Workflow.HaltingSuccessHasAllRecords | src/graph/workflow.py:56-60 | in the corrected run, "success" means all four records are present |
| Workflow.HaltingStopsAtFirstFailure | src/graph/workflow.py:56-60 | in the corrected run a failed market node ends the run with "error" after one node |
| WorkflowAgents.SuccessorIsNextAgent | src/graph/workflow.py:79 | each node's successor is the agent its agent names next, and the last is "Complete" |
| WorkflowAgents.AgentsOfSound | src/graph/workflow.py:35-38 | the four real agents form a sound pipeline, whatever the model replies |
| WorkflowAgents.MaskingAgents | src/graph/workflow.py:74-95 | under a model refusing the market agent's key and answering the others in prose, the market agent fails and the business agent succeeds |
| WorkflowAgents.MaskedFailureExample | src/graph/workflow.py:56-60 | under that model, the research for "Austin, TX" reports "success" with no market record |
| Report.Bullets | src/graph/workflow.py:299 | one line per next step, in order, each the step behind "- " |
| Report.ReportKind | src/graph/workflow.py:231-242 | a failed run gives "Research failed: " and its error message, which can be read back; any other run starts with the title naming the location |
| Report.FailureIgnoresRecords | src/graph/workflow.py:234-235 | example: a failed run's report depends only on its error message, whatever records it holds |
| Report.ReportLineCount | src/graph/workflow.py:237-303 | 3 header lines, then 7, 5, 5 and 6 lines per present record, plus the caption, the steps and a blank line when there are steps |
| Report.LabelNamesRecommendation | src/graph/workflow.py:284 | the upper-cased label lowers back to the enum value and names the recommendation |
| Report.NextStepsCloseReport | src/graph/workflow.py:295-301 | a report with next steps ends with the caption, every step as a bullet in order, and a blank line |
| Report.HeadingsAppend | src/graph/workflow.py:247-301 | the headings of two blocks are the headings of each, in order |
| Report.NoHeadings | src/graph/workflow.py:238-242 | lines that are not headings contribute none |
| Report.BlockHeading | src/graph/workflow.py:247-255 | a heading followed by non-headings has that one heading |
| Report.LineKinds | src/graph/workflow.py:248-249 | heading lines are headings; field, bold, bullet, title and blank lines are not |
| Report.HeaderHasNoHeading | src/graph/workflow.py:238-242 | the title block holds no section heading |
| Report.MarketBlockHeading | src/graph/workflow.py:247-255 | the market block's only heading is its own |
| Report.FinancialBlockHeading | src/graph/workflow.py:261-267 | the financial block's only heading is its own |
| Report.OperationsBlockHeading | src/graph/workflow.py:273-279 | the operations block's only heading is its own |
| Report.NextStepsHaveNoHeading | src/graph/workflow.py:296-301 | the next-steps block has no heading |
| Report.RecommendationBlockHeading | src/graph/workflow.py:286-293 | the recommendation block's only heading is its own |
| Report.BusinessBlockHeading | src/graph/workflow.py:283-301 | the business section's only heading is its own |
| Report.SectionHeadings | src/graph/workflow.py:244-301 | each section has its heading exactly when its record is present |
| Report.SectionsFollowRecords | src/graph/workflow.py:237-303 | the report's headings are the present records' headings, in market-financial-operations-business order |
| Report.NotFailedIsReport | src/graph/workflow.py:234-303 | a run whose status is not "error" is rendered as its report lines, never as a failure |
| Report.NoMarketSection | src/graph/workflow.py:244-256 | without a market record the report has no market section |
| Report.EverySection | src/graph/workflow.py:237-303 | with all four records the report has the four sections in stage order |
| Report.MaskedRunReportsNoMarket | src/graph/workflow.py:56-60 | as written, a failed market node followed by a successful business node is rendered as a full report lacking the market section |
| Report.CorrectedReportHasEverySection | src/graph/workflow.py:231-303 | in the corrected pipeline, a report that is not a failure has all four sections in stage order |
| Report.CorrectedFailureIsReported | src/graph/workflow.py:234-235 | in the corrected pipeline a failed market node is rendered as "Research failed: " and a non-empty error message |
| Cli.SafeLocationShape | src/main.py:142 | the stem has no space or comma, no capital, and is one character shorter per comma |
| Cli.SafeLocationIdempotent | src/main.py:142 | deriving the stem of a stem changes nothing |
| Cli.FilenameCarriesStem | src/main.py:143 | the file name is the prefix, the stem and ".md", and the stem can be read back |
| Cli.FilenamesCollide | src/main.py:142-143 | example: "A, B" and "a B" map to the same file |
| Cli.ReplaceKeepsCount | src/main.py:142 | replacing spaces keeps the comma count |
| Cli.LowerKeepsPunctuation | src/main.py:142 | lower-casing neither adds nor removes spaces or commas |
| Cli.RemoveAbsent | src/main.py:142 | removing an absent character changes nothing |
| Cli.AcceptedIffComma | src/main.py:54-65 | a line is accepted exactly when it contains a comma, and the stripped line is returned |
| Cli.ReadLocation | src/main.py:53-65 | the loop returns the first line holding a comma, stripped, having rejected every line before it |
| Cli.ClaudeFallbackIsLower | src/main.py:46 | helper fact: the Claude fallback name is already lower case |
| Cli.ClaudeFallbackChars | src/main.py:46 | helper fact: the Claude fallback begins with "claude" and has no 'p' |
| Cli.ClaudeFallbackIsClaude | src/main.py:46 | the Claude fallback names Claude and not GPT |
| Cli.DefaultModelIsNotClaude | src/main.py:35 | "gpt-4" names GPT and not Claude |
| Cli.FallbackHasKey | src/main.py:41-46 | with a key present and a GPT or Claude name, the client built for the chosen name uses a provider whose key is present; a usable name is kept |
| Cli.ArgsRoundTrip | src/main.py:189-194 | every mode is reached from its argument list, and extra arguments change nothing |
| Cli.OverrideWins | src/main.py:163-164 | a non-empty model argument replaces the configured and fallback model |
| Cli.CountAppend | src/main.py:84 | counts add over concatenation |
| Cli.CountRepeat | src/main.py:84 | `n` copies of `c` hold `c` exactly `n` times |
| Cli.ProgressBarShape | src/main.py:84 | the bar is `total` wide, cell `i` is filled iff `i < current`, and it holds `current` filled cells |
| Cli.ProgressBarCounts | src/main.py:84 | the filled and empty counts are `current` and `total - current` |
| Cli.ProgressBarOutOfRange | src/main.py:84 | out of range, a negative repeat contributes nothing |

## Left out

- Monetary and value formatting: Python's `f"{x:,.2f}"` and `str()` of decoded values are opaque parameters (`Show`). No property depends on their text.
- System prompts: agent descriptions and system prompts are fixed text sent with each call; the model request names the agent instead.
- The language model itself, `os.getenv`, `load_dotenv`, logging and `time.sleep` are external. The model is a parameter, key presence is two booleans, and the sleeps appear as the list of requested delays.
- `load_environment`'s exit when neither key is set (src/main.py:21-28): modelled as the precondition of `Cli.FallbackHasKey`, since the program exits otherwise.
- `TEMPERATURE` parsing, `display_header`, the interactive and command-line drivers' printing, `input()` prompts, file writing and `sys.exit` are I/O.
- `Cli.ReadLocation` reads a finite list of typed lines. The source loops forever on standard input until a line is accepted.
- `Cli.OverrideWins`: the command-line model bypasses the key check, kept as written; the model does not claim the overriding name has a key.
- The state's dicts: the workflow stores typed records rather than `.dict()` output. `Models.*RoundTrip` proves validation gives the same record back, so the nodes' re-validation is the identity. A record with no data (`{}` when `response.data` is None) counts as absent, matching Python truthiness.
- `format_results` reads `results.get('error_message', 'Unknown error')`; the key is always present in the graph's state, so the default is never used.
- The `add_messages` reducer on the messages field: messages are modelled as plain appended strings, and `str(msg)` on them is the identity.
- `Text.Lower` and `Text.Upper` map ASCII letters only; Python's full Unicode case mapping is not modelled.
- Pydantic validation is strict: it accepts ints and floats for float fields and nothing else; lax coercion of numeric strings is not modelled.
- The `TypeError` text of `Model(**value)` is Python 3.9's and later, which names the class by its module; the module is `models.research_models`, as the agents import it with `src` on the path.
- Decoded JSON objects are assumed to have distinct keys, as `json.loads` gives them.
- The node-level `except Exception` branch (src/graph/workflow.py:90-95) is modelled as a `NodeRaised` outcome; nothing in the modelled agents raises there, as `process_request` catches everything.

## Findings

| source | as written | input that shows it | evidently intended | confidence | as-written member | corrected member |
|---|---|---|---|---|---|---|
| src/graph/workflow.py:56-60 | the edges are unconditional, so every node runs after a failure and the last node's status overwrites "error" | a model that answers the market agent with "invalid api key" and the others with non-JSON text: location "Austin, TX" ends with status "success", no market record and a non-empty error message | stop at the first failed node, so "success" means every record is present (main.py:113 and 172 rely on status "error" to report failure) | not executed | WorkflowAgents.MaskedFailureExample | Workflow.HaltingSuccessHasAllRecords |
