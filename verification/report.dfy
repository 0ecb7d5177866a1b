/**
 * `format_results`: the text report of a finished run. A run whose status
 * is "error" is reported by its error message alone; any other run gets a
 * title block, then one section per record present, in stage order, the
 * business section closing with the next steps when there are any. The
 * report is the lines joined with newlines.
 */
module Report {
  import opened Wrappers
  import opened Text
  import opened Json
  import opened Models
  import opened BaseAgent
  import opened Workflow

  const FailurePrefix := "Research failed: "

  /** `**text**` */
  function Bold(text: string): string {
    "**" + text + "**"
  }

  /** A field line: `**Caption:** value`. */
  function Field(caption: string, value: string): string {
    Bold(caption + ":") + " " + value
  }

  /** A section heading line: `## Title`. */
  function Heading(title: string): string {
    "## " + title
  }

  const MarketHeading := Heading("Market Research Analysis")
  const FinancialHeading := Heading("Financial Analysis")
  const OperationsHeading := Heading("Operations Requirements")
  const BusinessHeading := Heading("Business Recommendation")
  const NextStepsCaption := Bold("Recommended Next Steps:")

  /** `', '.join(xs)` */
  function ListText(xs: seq<string>): string {
    Join(", ", xs)
  }

  /** The title naming the location, a rule of sixty '=' and a blank line. */
  function Header(location: string): seq<string> {
    ["# " + "Food Truck Business Research Report: " + location, Repeat('=', 60), ""]
  }

  function MarketBlock(m: MarketResearchData): seq<string> {
    [ MarketHeading,
      Field("Competition Level", m.competitionLevel),
      Field("Target Customers", ListText(m.targetCustomers)),
      Field("Market Size", m.marketSizeEstimate),
      Field("Peak Hours", ListText(m.peakHours)),
      Field("Key Opportunities", ListText(m.opportunities)),
      "" ]
  }

  function FinancialBlock(show: Show, f: FinancialAnalysisData): seq<string> {
    [ FinancialHeading,
      Field("Total Funding Required", "$" + show.money(f.fundingRequirements)),
      Field("Break-even Timeline", f.breakEvenTimeline),
      Field("ROI Projection", f.roiProjection),
      "" ]
  }

  /** `staffing_needs.get('minimum_staff', 'N/A')` as the f-string prints it. */
  function MinimumStaff(show: Show, staffing: Dict<Json>): string {
    match Get(staffing, "minimum_staff")
    case Some(j) => show.str(j)
    case None => "N/A"
  }

  function OperationsBlock(show: Show, o: OperationsAnalysisData): seq<string> {
    [ OperationsHeading,
      Field("Required Permits", ListText(o.permitsRequired)),
      Field("Permit Timeline", o.permitTimeline),
      Field("Staffing Needs", MinimumStaff(show, o.staffingNeeds) + " minimum staff"),
      "" ]
  }

  /** `recommendation.upper()`: the enum value in capitals. */
  function RecommendationLabel(t: RecommendationType): string {
    Upper(RecommendationValue(t))
  }

  /** `[f"- {step}" for step in next_steps]` */
  function Bullets(steps: seq<string>): (lines: seq<string>)
    ensures |lines| == |steps|
    ensures forall k | 0 <= k < |steps| :: lines[k] == "- " + steps[k]
  {
    seq(|steps|, k requires 0 <= k < |steps| => "- " + steps[k])
  }

  /** The caption, one bullet per step and a blank line; nothing when there are no steps. */
  function NextStepsBlock(steps: seq<string>): seq<string> {
    if |steps| == 0 then [] else [NextStepsCaption] + Bullets(steps) + [""]
  }

  /** The business section before its next steps. */
  function RecommendationBlock(b: BusinessRecommendation): seq<string> {
    [ BusinessHeading,
      Field("Recommendation", RecommendationLabel(b.recommendation) + " (Confidence: " + b.confidenceLevel + ")"),
      Field("Key Strengths", ListText(b.keyStrengths)),
      Field("Key Risks", ListText(b.keyRisks)),
      Field("Timeline", b.timelineRecommendation),
      "" ]
  }

  function BusinessBlock(b: BusinessRecommendation): seq<string> {
    RecommendationBlock(b) + NextStepsBlock(b.nextSteps)
  }

  /* `if data:` — an absent record (an empty dict) contributes no lines. */

  function MarketSection(st: WorkflowState): seq<string> {
    if st.marketResearch.Some? then MarketBlock(st.marketResearch.value) else []
  }

  function FinancialSection(show: Show, st: WorkflowState): seq<string> {
    if st.financialAnalysis.Some? then FinancialBlock(show, st.financialAnalysis.value) else []
  }

  function OperationsSection(show: Show, st: WorkflowState): seq<string> {
    if st.operationsAnalysis.Some? then OperationsBlock(show, st.operationsAnalysis.value) else []
  }

  function BusinessSection(st: WorkflowState): seq<string> {
    if st.businessRecommendation.Some? then BusinessBlock(st.businessRecommendation.value) else []
  }

  /** The report's lines for a run that did not fail. */
  function ReportLines(show: Show, st: WorkflowState): seq<string> {
    Header(st.location) + MarketSection(st) + FinancialSection(show, st) + OperationsSection(show, st) + BusinessSection(st)
  }

  /** `format_results` */
  function FormatResults(show: Show, st: WorkflowState): string {
    if st.status == StatusError then FailurePrefix + st.errorMessage
    else Join("\n", ReportLines(show, st))
  }

  /* ---------- properties ---------- */

  /**
   * The first character tells the two kinds of report apart: a failed
   * run's report starts with "Research failed: " and gives back the error
   * message after it; any other run's starts with the title naming the
   * location.
   */
  lemma ReportKind(show: Show, st: WorkflowState)
    ensures var text := FormatResults(show, st);
      && (st.status == StatusError <==> text[0] == 'R')
      && (st.status == StatusError ==> text[..|FailurePrefix|] == FailurePrefix && text[|FailurePrefix|..] == st.errorMessage)
      && (st.status != StatusError ==> text[..|Header(st.location)[0]|] == Header(st.location)[0])
  {
    if st.status != StatusError {
      JoinStartsWith("\n", ReportLines(show, st));
      assert ReportLines(show, st)[0] == Header(st.location)[0];
    }
  }

  /** A failed run's report does not depend on the records, the messages or the location. */
  lemma FailureIgnoresRecords(show: Show, a: WorkflowState, b: WorkflowState)
    requires a.status == StatusError && b.status == StatusError
    requires a.errorMessage == b.errorMessage
    ensures FormatResults(show, a) == FormatResults(show, b)
  {
  }

  /** The line count: three for the title, then 7, 5, 5 and 6 for each record present, plus the next steps. */
  lemma ReportLineCount(show: Show, st: WorkflowState)
    ensures |ReportLines(show, st)|
         == 3
          + (if st.marketResearch.Some? then 7 else 0)
          + (if st.financialAnalysis.Some? then 5 else 0)
          + (if st.operationsAnalysis.Some? then 5 else 0)
          + (if st.businessRecommendation.None? then 0
             else if |st.businessRecommendation.value.nextSteps| == 0 then 6
             else 8 + |st.businessRecommendation.value.nextSteps|)
  {
  }

  /** The label is the enum value in capitals: lowering it gives the value back, so it names the recommendation. */
  lemma LabelNamesRecommendation(t: RecommendationType)
    ensures Lower(RecommendationLabel(t)) == RecommendationValue(t)
    ensures ParseRecommendation(Lower(RecommendationLabel(t))) == Some(t)
    ensures RecommendationLabel(t) in {"GO", "NO_GO", "CONDITIONAL"}
  {
    match t
    case Go =>
      assert Upper("go") == "GO";
      assert Lower("GO") == "go";
    case NoGo =>
      assert Upper("no_go") == "NO_GO";
      assert Lower("NO_GO") == "no_go";
    case Conditional =>
      assert Upper("conditional") == "CONDITIONAL";
      assert Lower("CONDITIONAL") == "conditional";
  }

  /** A report with next steps ends with the caption, every step as a bullet in order, and a blank line. */
  lemma NextStepsCloseReport(show: Show, st: WorkflowState)
    requires st.businessRecommendation.Some? && |st.businessRecommendation.value.nextSteps| > 0
    ensures var lines := ReportLines(show, st);
      var steps := st.businessRecommendation.value.nextSteps;
      && |lines| >= |steps| + 2
      && lines[|lines| - |steps| - 2] == NextStepsCaption
      && (forall k | 0 <= k < |steps| :: lines[|lines| - |steps| - 1 + k] == "- " + steps[k])
      && lines[|lines| - 1] == ""
  {
    var lines := ReportLines(show, st);
    var b := st.businessRecommendation.value;
    var steps := b.nextSteps;
    var tail := NextStepsBlock(steps);
    var head := Header(st.location) + MarketSection(st) + FinancialSection(show, st) + OperationsSection(show, st)
                + RecommendationBlock(b);
    assert lines == head + tail;
    assert |tail| == |steps| + 2;
    forall k | 0 <= k < |steps|
      ensures lines[|lines| - |steps| - 1 + k] == "- " + steps[k]
    {
      assert lines[|lines| - |steps| - 1 + k] == tail[1 + k];
    }
  }

  /* ---------- the section headings ---------- */

  /** A section heading: a line beginning "## ". */
  predicate IsHeading(line: string) {
    |line| >= 3 && line[0] == '#' && line[1] == '#' && line[2] == ' '
  }

  /** The headings among `lines`, in order. */
  function Headings(lines: seq<string>): seq<string>
    decreases |lines|
  {
    if |lines| == 0 then []
    else (if IsHeading(lines[0]) then [lines[0]] else []) + Headings(lines[1..])
  }

  lemma {:induction false} HeadingsAppend(a: seq<string>, b: seq<string>)
    ensures Headings(a + b) == Headings(a) + Headings(b)
    decreases |a|
  {
    if |a| == 0 {
      assert a + b == b;
    } else {
      assert (a + b)[0] == a[0];
      assert (a + b)[1..] == a[1..] + b;
      HeadingsAppend(a[1..], b);
    }
  }

  /** Lines that are not headings contribute none. */
  lemma {:induction false} NoHeadings(lines: seq<string>)
    requires forall i | 0 <= i < |lines| :: !IsHeading(lines[i])
    ensures Headings(lines) == []
    decreases |lines|
  {
    if |lines| > 0 {
      NoHeadings(lines[1..]);
    }
  }

  /** A block that is a heading followed by lines that are not has that heading only. */
  lemma BlockHeading(block: seq<string>)
    requires |block| > 0 && IsHeading(block[0])
    requires forall i | 1 <= i < |block| :: !IsHeading(block[i])
    ensures Headings(block) == [block[0]]
  {
    NoHeadings(block[1..]);
  }

  /** Headings are headings; bold text, bullets, the title and blank lines are not. */
  lemma LineKinds(title: string, text: string, value: string)
    ensures IsHeading(Heading(title))
    ensures !IsHeading(Field(text, value)) && !IsHeading(Bold(text))
    ensures !IsHeading("- " + value) && !IsHeading("# " + text + value) && !IsHeading("")
  {
    assert Field(text, value)[0] == '*' && Field(text, value)[1] == '*';
    assert Bold(text)[0] == '*';
    assert ("- " + value)[0] == '-';
    assert ("# " + text + value)[1] == ' ';
  }

  lemma HeaderHasNoHeading(location: string)
    ensures Headings(Header(location)) == []
  {
    LineKinds("", "Food Truck Business Research Report: ", location);
    assert Repeat('=', 60)[0] == '=';
    NoHeadings(Header(location));
  }

  lemma MarketBlockHeading(m: MarketResearchData)
    ensures Headings(MarketBlock(m)) == [MarketHeading]
  {
    forall text, value ensures !IsHeading(Field(text, value)) { LineKinds("", text, value); }
    LineKinds("Market Research Analysis", "", "");
    BlockHeading(MarketBlock(m));
  }

  lemma FinancialBlockHeading(show: Show, f: FinancialAnalysisData)
    ensures Headings(FinancialBlock(show, f)) == [FinancialHeading]
  {
    forall text, value ensures !IsHeading(Field(text, value)) { LineKinds("", text, value); }
    LineKinds("Financial Analysis", "", "");
    BlockHeading(FinancialBlock(show, f));
  }

  lemma OperationsBlockHeading(show: Show, o: OperationsAnalysisData)
    ensures Headings(OperationsBlock(show, o)) == [OperationsHeading]
  {
    forall text, value ensures !IsHeading(Field(text, value)) { LineKinds("", text, value); }
    LineKinds("Operations Requirements", "", "");
    BlockHeading(OperationsBlock(show, o));
  }

  lemma NextStepsHaveNoHeading(steps: seq<string>)
    ensures Headings(NextStepsBlock(steps)) == []
  {
    var block := NextStepsBlock(steps);
    forall i | 0 <= i < |block|
      ensures !IsHeading(block[i])
    {
      LineKinds("", "Recommended Next Steps:", "");
      if 1 <= i <= |steps| {
        LineKinds("", "", steps[i - 1]);
      }
    }
    NoHeadings(block);
  }

  lemma RecommendationBlockHeading(b: BusinessRecommendation)
    ensures Headings(RecommendationBlock(b)) == [BusinessHeading]
  {
    forall text, value ensures !IsHeading(Field(text, value)) { LineKinds("", text, value); }
    LineKinds("Business Recommendation", "", "");
    BlockHeading(RecommendationBlock(b));
  }

  lemma BusinessBlockHeading(b: BusinessRecommendation)
    ensures Headings(BusinessBlock(b)) == [BusinessHeading]
  {
    RecommendationBlockHeading(b);
    NextStepsHaveNoHeading(b.nextSteps);
    HeadingsAppend(RecommendationBlock(b), NextStepsBlock(b.nextSteps));
  }

  /** The heading of a section when its record is present, nothing otherwise. */
  function HeadingIf<R>(record: Option<R>, heading: string): seq<string> {
    if record.Some? then [heading] else []
  }

  /** Each section has its record's heading when the record is present, and nothing otherwise. */
  lemma SectionHeadings(show: Show, st: WorkflowState)
    ensures Headings(MarketSection(st)) == HeadingIf(st.marketResearch, MarketHeading)
    ensures Headings(FinancialSection(show, st)) == HeadingIf(st.financialAnalysis, FinancialHeading)
    ensures Headings(OperationsSection(show, st)) == HeadingIf(st.operationsAnalysis, OperationsHeading)
    ensures Headings(BusinessSection(st)) == HeadingIf(st.businessRecommendation, BusinessHeading)
  {
    if st.marketResearch.Some? { MarketBlockHeading(st.marketResearch.value); }
    if st.financialAnalysis.Some? { FinancialBlockHeading(show, st.financialAnalysis.value); }
    if st.operationsAnalysis.Some? { OperationsBlockHeading(show, st.operationsAnalysis.value); }
    if st.businessRecommendation.Some? { BusinessBlockHeading(st.businessRecommendation.value); }
  }

  /**
   * The report's sections are exactly those of the records present, in
   * stage order: no other line of the report reads as a heading.
   */
  lemma SectionsFollowRecords(show: Show, st: WorkflowState)
    ensures Headings(ReportLines(show, st))
         == HeadingIf(st.marketResearch, MarketHeading)
          + HeadingIf(st.financialAnalysis, FinancialHeading)
          + HeadingIf(st.operationsAnalysis, OperationsHeading)
          + HeadingIf(st.businessRecommendation, BusinessHeading)
  {
    var h := Header(st.location);
    var m := MarketSection(st);
    var f := FinancialSection(show, st);
    var o := OperationsSection(show, st);
    var b := BusinessSection(st);
    HeaderHasNoHeading(st.location);
    SectionHeadings(show, st);
    HeadingsAppend(h, m);
    HeadingsAppend(h + m, f);
    HeadingsAppend(h + m + f, o);
    HeadingsAppend(h + m + f + o, b);
  }

  /* ---------- the reports of the two pipelines ---------- */

  /** A run that did not fail is rendered as its report's lines. */
  lemma NotFailedIsReport(show: Show, st: WorkflowState)
    requires st.status != StatusError
    ensures FormatResults(show, st) == Join("\n", ReportLines(show, st))
  {
  }

  /** Without a market record the report has no market section. */
  lemma NoMarketSection(show: Show, st: WorkflowState)
    requires st.marketResearch.None?
    ensures MarketHeading !in Headings(ReportLines(show, st))
  {
    SectionsFollowRecords(show, st);
  }

  /** With all four records the report has all four sections, in stage order. */
  lemma EverySection(show: Show, st: WorkflowState)
    requires st.marketResearch.Some? && st.financialAnalysis.Some?
    requires st.operationsAnalysis.Some? && st.businessRecommendation.Some?
    ensures Headings(ReportLines(show, st)) == [MarketHeading, FinancialHeading, OperationsHeading, BusinessHeading]
  {
    SectionsFollowRecords(show, st);
  }

  /**
   * As the edges are written, a failed market stage followed by a
   * successful business stage is rendered as a full report, not as a
   * failure, and the report simply has no market section.
   */
  lemma MaskedRunReportsNoMarket(show: Show, agents: Agents, location: string)
    requires agents(MarketStage, NodeInput(InitialState(location), MarketStage)).status == Error
    requires agents(BusinessStage, NodeInput(BeforeBusiness(agents, location), BusinessStage)).status == Success
    ensures var st := RunGraph(agents, location);
      && FormatResults(show, st) == Join("\n", ReportLines(show, st))
      && MarketHeading !in Headings(ReportLines(show, st))
  {
    FailureMaskedBySuccess(agents, location);
    var st := RunGraph(agents, location);
    NotFailedIsReport(show, st);
    NoMarketSection(show, st);
  }

  /** In the corrected pipeline a successful run's report has all four sections, in stage order. */
  lemma CorrectedReportHasEverySection(show: Show, agents: Agents, location: string)
    requires Sound(agents)
    requires RunGraphHalting(agents, location).status == StatusSuccess
    ensures var st := RunGraphHalting(agents, location);
      && FormatResults(show, st) == Join("\n", ReportLines(show, st))
      && Headings(ReportLines(show, st)) == [MarketHeading, FinancialHeading, OperationsHeading, BusinessHeading]
  {
    HaltingSuccessHasAllRecords(agents, location);
    var st := RunGraphHalting(agents, location);
    assert RecordPresent(st, MarketStage) && RecordPresent(st, FinancialStage);
    assert RecordPresent(st, OperationsStage) && RecordPresent(st, BusinessStage);
    NotFailedIsReport(show, st);
    EverySection(show, st);
  }

  /** In the corrected pipeline a failed market stage is reported as a failure, with its error message. */
  lemma CorrectedFailureIsReported(show: Show, agents: Agents, location: string)
    requires agents(MarketStage, NodeInput(InitialState(location), MarketStage)).status == Error
    ensures var st := RunGraphHalting(agents, location);
      && st.errorMessage != ""
      && FormatResults(show, st) == FailurePrefix + st.errorMessage
  {
    HaltingStopsAtFirstFailure(agents, location);
  }
}
