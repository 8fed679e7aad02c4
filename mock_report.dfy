/** The demonstration report agent: counts the issues by day, month, state
    and label with explicit loops, and assembles the four reports and the
    final report from the state. Its fixed prose sections are `Doc` values
    that keep only the figures they quote. */
module MockReport {
  import opened Base
  import opened Json
  import opened State
  import opened Counting
  import opened Routing
  import opened IssueMetrics
  import opened MockAgents

  // ------------------------------------------------------------------
  // Dashboard counting
  // ------------------------------------------------------------------

  /** `{"open": 0, "closed": 0}`. */
  const OpenClosed: Dict<string, int> := [(OpenState, 0), (ClosedState, 0)]

  lemma TalliedSnoc<K>(init: Dict<K, int>, keys: seq<K>, k: K)
    ensures Tallied(init, keys + [k]) == Bump(Tallied(init, keys), k)
  {
    assert (keys + [k])[..|keys|] == keys;
  }

  /** `daily[day] = daily.get(day, 0) + 1` and the same per month, for each
      issue in turn. */
  method TallyDates(issues: seq<Issue>) returns (daily: Dict<Day, int>, monthly: Dict<Month, int>)
    ensures daily == Tallied([], DaysOf(issues))
    ensures monthly == Tallied([], MonthsOf(issues))
  {
    daily, monthly := [], [];
    for i := 0 to |issues|
      invariant daily == Tallied([], DaysOf(issues[..i]))
      invariant monthly == Tallied([], MonthsOf(issues[..i]))
    {
      assert issues[..i + 1][..i] == issues[..i];
      TalliedSnoc([], DaysOf(issues[..i]), CivilDay(issues[i].createdAt));
      TalliedSnoc([], MonthsOf(issues[..i]), CivilMonth(issues[i].createdAt));
      daily := Bump(daily, CivilDay(issues[i].createdAt));
      monthly := Bump(monthly, CivilMonth(issues[i].createdAt));
    }
    assert issues[..|issues|] == issues;
  }

  /** `state_counts[state] = state_counts.get(state, 0) + 1` from
      `{"open": 0, "closed": 0}`. */
  method TallyStates(issues: seq<Issue>) returns (counts: Dict<string, int>)
    ensures counts == Tallied(OpenClosed, StatesOf(issues))
  {
    counts := OpenClosed;
    for i := 0 to |issues|
      invariant counts == Tallied(OpenClosed, StatesOf(issues[..i]))
    {
      assert issues[..i + 1][..i] == issues[..i];
      TalliedSnoc(OpenClosed, StatesOf(issues[..i]), issues[i].state);
      counts := Bump(counts, issues[i].state);
    }
    assert issues[..|issues|] == issues;
  }

  /** The nested loop over every label of every issue. */
  method TallyLabels(issues: seq<Issue>) returns (counts: Dict<string, int>)
    ensures counts == Tallied([], LabelsOf(issues))
  {
    counts := [];
    for i := 0 to |issues|
      invariant counts == Tallied([], LabelsOf(issues[..i]))
    {
      assert issues[..i + 1][..i] == issues[..i];
      var labels := issues[i].labels;
      assert LabelsOf(issues[..i]) + labels[..0] == LabelsOf(issues[..i]);
      for j := 0 to |labels|
        invariant counts == Tallied([], LabelsOf(issues[..i]) + labels[..j])
      {
        assert labels[..j + 1] == labels[..j] + [labels[j]];
        assert LabelsOf(issues[..i]) + labels[..j + 1] == (LabelsOf(issues[..i]) + labels[..j]) + [labels[j]];
        TalliedSnoc([], LabelsOf(issues[..i]) + labels[..j], labels[j]);
        counts := Bump(counts, labels[j]);
      }
      assert labels[..|labels|] == labels;
      assert LabelsOf(issues[..i + 1]) == LabelsOf(issues[..i]) + labels;
    }
    assert issues[..|issues|] == issues;
  }

  /** The issues whose state is `"open"`, counted through their states. */
  lemma {:induction false} OpenStates(issues: seq<Issue>)
    ensures Count(StatesOf(issues), OpenState) == OpenCount(issues)
  {
    if issues != [] {
      var init := issues[..|issues| - 1];
      OpenStates(init);
      assert StatesOf(issues)[..|issues| - 1] == StatesOf(init);
    }
  }

  // ------------------------------------------------------------------
  // Reading the trend and the insights
  // ------------------------------------------------------------------

  /** `trend_analysis.trend_direction if trend_analysis else default`, and
      the same for the other trend fields the reports quote. */
  function DirectionOr(trend: Option<TrendAnalysis>, default: string): string
  {
    if trend.Some? then trend.value.trendDirection else default
  }

  function ConfidenceOr(trend: Option<TrendAnalysis>, default: real): real
  {
    if trend.Some? then trend.value.confidenceScore else default
  }

  function SlopeOr(trend: Option<TrendAnalysis>): real
  {
    if trend.Some? then trend.value.trendSlope else 0.0
  }

  function AnomalyCount(trend: Option<TrendAnalysis>): nat
  {
    if trend.Some? then |trend.value.anomalies| else 0
  }

  function ForecastOr(trend: Option<TrendAnalysis>): Value
  {
    if trend.Some? then trend.value.forecast else Object([])
  }

  /** `repo_metadata.get("full_name", state.repository_url)`. */
  function RepositoryName(processed: Dict<string, Processed>, url: string): (r: string)
    ensures Get(processed, RepositoryMetadataKey).None? ==> r == url
  {
    match Get(processed, RepositoryMetadataKey)
    case Some(p) => if p.RepoMetadataEntry? then p.meta.fullName else url
    case None => url
  }

  /** `ai_insights.get(category, {}).get(key, default)`: a category that is
      not a dictionary has no `get`, and the call raises. */
  function CategoryGet(ai: Dict<string, Value>, category: string, key: string, default: Value)
    : (r: Result<Value, string>)
    ensures r.Ok? <==> GetOr(ai, category, Object([])).Object?
    ensures Get(ai, category).None? ==> r == Ok(default)
  {
    DictGet(GetOr(ai, category, Object([])), key, default)
  }

  const NotAvailable := "N/A"
  const Moderate := "moderate"
  const DefaultHealth := 7

  /** The executive summary's reads: the health score (`"N/A"` when
      missing) and the engagement level (`"moderate"` when missing). */
  function ExecutiveReads(ai: Dict<string, Value>): (r: Result<(Value, Value), string>)
    ensures r.Ok? <==> GetOr(ai, HealthKey, Object([])).Object? && GetOr(ai, CommunityKey, Object([])).Object?
  {
    var health := CategoryGet(ai, HealthKey, HealthScoreKey, Str(NotAvailable));
    if health.Err? then Err(health.error)
    else
      var engagement := CategoryGet(ai, CommunityKey, EngagementLevelKey, Str(Moderate));
      if engagement.Err? then Err(engagement.error) else Ok((health.value, engagement.value))
  }

  /** The dashboard's reads: the health score (7 when missing) and the
      overall risk (`"medium"` when missing). */
  function DashboardReads(ai: Dict<string, Value>): (r: Result<(Value, Value), string>)
    ensures r.Ok? <==> GetOr(ai, HealthKey, Object([])).Object? && GetOr(ai, RisksKey, Object([])).Object?
  {
    var health := CategoryGet(ai, HealthKey, HealthScoreKey, Int(DefaultHealth));
    if health.Err? then Err(health.error)
    else
      var risk := CategoryGet(ai, RisksKey, OverallRiskKey, Str(Medium));
      if risk.Err? then Err(risk.error) else Ok((health.value, risk.value))
  }

  // ------------------------------------------------------------------
  // The reports
  // ------------------------------------------------------------------

  /** The dashboard data, as the counting loops and the reads define it. */
  function MockDashboard(issues: seq<Issue>, trend: Option<TrendAnalysis>, health: Value, risk: Value,
                         now: Timestamp): (d: Dashboard)
  {
    var states := Tallied(OpenClosed, StatesOf(issues));
    TalliedCounts(OpenClosed, StatesOf(issues), OpenState);
    Dashboard(|issues|, GetOr(states, OpenState, 0), DirectionOr(trend, Stable), health, risk,
              Tallied([], DaysOf(issues)), Tallied([], MonthsOf(issues)), states,
              TopN(Tallied([], LabelsOf(issues)), 10), SlopeOr(trend), ConfidenceOr(trend, 0.7),
              AnomalyCount(trend), ForecastOr(trend), now)
  }

  /** The dashboard's counts agree with the issues: the open count is the
      number of open issues, the daily, monthly and per-state counts each
      add up to the number of issues, and the top labels are at most ten of
      the label counts, largest first. */
  lemma MockDashboardCounts(issues: seq<Issue>, trend: Option<TrendAnalysis>, health: Value, risk: Value,
                            now: Timestamp)
    ensures var d := MockDashboard(issues, trend, health, risk, now);
            && d.totalIssues == |issues|
            && d.openIssues == OpenCount(issues)
            && Total(d.dailyIssues) == |issues| && Total(d.monthlyIssues) == |issues|
            && Total(d.issueStates) == |issues|
            && |d.topLabels| <= 10 && NonIncreasing(d.topLabels)
            && multiset(d.topLabels) <= multiset(Tallied([], LabelsOf(issues)))
  {
    assert Total(OpenClosed) == 0 by {
      assert OpenClosed[1..] == [(ClosedState, 0)];
      assert [(ClosedState, 0)][1..] == [];
      assert Total<string>([(ClosedState, 0)]) == 0;
    }
    TalliedCounts(OpenClosed, StatesOf(issues), OpenState);
    OpenStates(issues);
    TalliedTotal([], DaysOf(issues));
    TalliedTotal([], MonthsOf(issues));
    TalliedTotal(OpenClosed, StatesOf(issues));
    TopNIsTop(Tallied([], LabelsOf(issues)), 10);
  }

  /** Builds the dashboard with the counting loops. */
  method BuildMockDashboard(issues: seq<Issue>, trend: Option<TrendAnalysis>, health: Value, risk: Value,
                            now: Timestamp) returns (d: Dashboard)
    ensures d == MockDashboard(issues, trend, health, risk, now)
  {
    var daily, monthly := TallyDates(issues);
    var states := TallyStates(issues);
    var labels := TallyLabels(issues);
    TalliedCounts(OpenClosed, StatesOf(issues), OpenState);
    d := Dashboard(|issues|, GetOr(states, OpenState, 0), DirectionOr(trend, Stable), health, risk,
                   daily, monthly, states, TopN(labels, 10), SlopeOr(trend), ConfidenceOr(trend, 0.7),
                   AnomalyCount(trend), ForecastOr(trend), now);
  }

  const ExecutiveKind := "executive_summary"
  const TechnicalKind := "technical_analysis"
  const ActionPlanKind := "action_plan"
  const TrendDirectionKey := "trend_direction"
  const ConfidenceScoreKey := "confidence_score"
  const AnomaliesDetectedKey := "anomalies_detected"
  const SeasonalPatternsKey := "seasonal_patterns"

  /** The executive summary: its prose quotes the repository, the trend,
      the issue count and period, the trend confidence when there is a
      trend, the health score and the engagement level. */
  function MockExecutive(name: string, trend: Option<TrendAnalysis>, issueCount: nat, periodDays: int,
                         health: Value, engagement: Value): Value
  {
    Doc(ExecutiveKind, [Str(name), Str(DirectionOr(trend, Stable)), Int(issueCount), Int(periodDays),
                        if trend.Some? then Real(trend.value.confidenceScore) else Null, health, engagement])
  }

  /** The technical analysis: fixed prose around the statistical figures. */
  function MockTechnical(trend: Option<TrendAnalysis>): Value
  {
    Doc(TechnicalKind, [Object([(TrendDirectionKey, Str(DirectionOr(trend, Stable))),
                                (ConfidenceScoreKey, Real(ConfidenceOr(trend, 0.7))),
                                (AnomaliesDetectedKey, Int(AnomalyCount(trend))),
                                (SeasonalPatternsKey, Bool(trend.Some? && Truthy(trend.value.seasonalPatterns)))])])
  }

  /** The action plan: fixed prose, three immediate actions among them. */
  const MockActionPlan: ActionPlan := ActionPlan(Doc(ActionPlanKind, []), None)
  const ImmediateActions := 3

  /** The eight sections of the final report: the metadata (demonstration
      mode, confidence 0.7 without a trend), the four reports, the insights
      as stored, and the state's recommendations and insights projected in
      order. */
  function MockFinalReport(url: string, periodDays: int, issues: seq<Issue>, sessionId: string,
                           trend: Option<TrendAnalysis>, recs: seq<RecommendationRecord>,
                           insights: seq<InsightRecord>, ai: Dict<string, Value>, executive: Value,
                           dashboard: Dashboard, now: Timestamp): (r: FinalReport)
    ensures r.AnalysisReport? && r.reflection.None?
    ensures r.metadata.totalIssuesAnalyzed == |issues| && r.metadata.demoMode == Some(true)
    ensures r.metadata.confidenceScore == if trend.Some? then trend.value.confidenceScore else 0.7
    ensures |r.recommendations| == |recs| && |r.insights| == |insights|
    ensures forall i :: 0 <= i < |insights| ==>
              r.insights[i].source == insights[i].agentId && r.insights[i].content == insights[i].content
  {
    AnalysisReport(
      Metadata(url, now, periodDays, |issues|, sessionId, ConfidenceOr(trend, 0.7), Some(true), None),
      executive, MockTechnical(trend), MockActionPlan, dashboard, Object(ai),
      ProjectRecommendations(recs), ProjectInsights(insights), None)
  }

  const FinalReportSections := 8
  const ReportsGeneratedKey := "reports_generated"
  const FinalReportSectionsKey := "final_report_sections"
  const ActionItemsCountKey := "action_items_count"
  const ExecutiveKey := "executive"
  const TechnicalKey := "technical"
  const ActionableKey := "actionable"
  const DashboardKey := "dashboard"

  /** The report agent's output: the four reports, the eight sections of
      the final report and the three immediate actions. */
  const MockReportOutput: Value :=
    Object([(ReportsGeneratedKey, StrList([ExecutiveKey, TechnicalKey, ActionableKey, DashboardKey])),
            (FinalReportSectionsKey, Int(FinalReportSections)),
            (ActionItemsCountKey, Int(ImmediateActions))])

  /** Where the mock report stops: at the executive summary's reads, at
      the dashboard's reads, or nowhere. */
  datatype ReportStop = StopAtExecutive(error: string) | StopAtDashboard(error: string) | Finished

  /** The reads in the order the reports make them; the first that raises
      stops the report. */
  function ReportStopOf(ai: Dict<string, Value>): (r: ReportStop)
    ensures r.Finished? ==> ExecutiveReads(ai).Ok? && DashboardReads(ai).Ok?
  {
    var executive := ExecutiveReads(ai);
    if executive.Err? then StopAtExecutive(executive.error)
    else
      var dashboard := DashboardReads(ai);
      if dashboard.Err? then StopAtDashboard(dashboard.error) else Finished
  }

  /** Why the mock report fails, if it does. */
  function ReportFailure(ai: Dict<string, Value>): Option<string>
  {
    var stop := ReportStopOf(ai);
    if stop.Finished? then None else Some(stop.error)
  }

  /** The mock report fails exactly when the health, community or risks
      category it reads is present and not a dictionary. */
  lemma ReportFailureCases(ai: Dict<string, Value>)
    ensures ReportFailure(ai).None? <==> && GetOr(ai, HealthKey, Object([])).Object?
                                         && GetOr(ai, CommunityKey, Object([])).Object?
                                         && GetOr(ai, RisksKey, Object([])).Object?
  {
  }

  const GeneratingReports := "Generating comprehensive reports..."
  const CreatingExecutive := "Creating executive summary..."
  const GeneratingTechnical := "Generating technical analysis..."
  const CompilingActions := "Compiling action items..."
  const PreparingDashboard := "Preparing dashboard data..."
  const AssemblingReport := "Assembling final report..."
  const ReportsCompleted := "Report generation completed"

  /** The steps between the executive summary and the dashboard's reads. */
  function ReportMidSteps(now: Timestamp): (r: seq<ProgressEntry>)
    ensures StepsOnly(r)
  {
    [StepEvent(now, ReportKey, 45.0, Str(GeneratingTechnical)),
     StepEvent(now, ReportKey, 65.0, Str(CompilingActions)),
     StepEvent(now, ReportKey, 80.0, Str(PreparingDashboard))]
  }

  /** The assembly's steps, recorded only when the dashboard's reads succeed. */
  function AssemblySteps(finished: bool, now: Timestamp): (r: seq<ProgressEntry>)
    ensures StepsOnly(r)
  {
    if finished then [StepEvent(now, ReportKey, 90.0, Str(AssemblingReport)),
                      StepEvent(now, ReportKey, 100.0, Str(ReportsCompleted))]
    else []
  }

  /** The steps the report records after starting, up to where it stops:
      the executive summary, then the middle steps if its reads succeed,
      then the assembly and completion if the dashboard's reads succeed. */
  function ReportTrail(stop: ReportStop, now: Timestamp): (r: seq<ProgressEntry>)
    ensures StepsOnly(r)
    ensures |r| == match stop case StopAtExecutive(_) => 1 case StopAtDashboard(_) => 4 case Finished => 6
  {
    [StepEvent(now, ReportKey, 25.0, Str(CreatingExecutive))]
    + if stop.StopAtExecutive? then [] else ReportMidSteps(now) + AssemblySteps(stop.Finished?, now)
  }

  /** What the reports are built from, as the state holds it when the
      report agent starts. */
  datatype ReportSource = ReportSource(
    processed: Dict<string, Processed>, url: string, periodDays: int, issues: seq<Issue>,
    sessionId: string, trend: Option<TrendAnalysis>, recs: seq<RecommendationRecord>,
    insights: seq<InsightRecord>)

  /** The final report and the four stored reports, when the insights'
      categories can be read: the executive summary names the repository
      (its metadata's full name, or the URL). */
  function MockReports(src: ReportSource, ai: Dict<string, Value>, now: Timestamp): (r: (FinalReport, Reports))
    requires ReportStopOf(ai).Finished?
    ensures r.0.AnalysisReport? && r.0.reflection.None?
    ensures r.0.metadata.repository == src.url && r.0.metadata.totalIssuesAnalyzed == |src.issues|
    ensures r.0.detailedInsights == Object(ai)
    ensures |r.0.recommendations| == |src.recs| && |r.0.insights| == |src.insights|
    ensures r.0.executiveSummary == r.1.executive && r.0.technicalAnalysis == r.1.technical
            && r.0.actionPlan == r.1.actionable && r.0.dashboardData == r.1.dashboard
  {
    var exec := ExecutiveReads(ai).value;
    var dash := DashboardReads(ai).value;
    var executive := MockExecutive(RepositoryName(src.processed, src.url), src.trend, |src.issues|,
                                   src.periodDays, exec.0, exec.1);
    var dashboard := MockDashboard(src.issues, src.trend, dash.0, dash.1, now);
    (MockFinalReport(src.url, src.periodDays, src.issues, src.sessionId, src.trend, src.recs, src.insights, ai,
                     executive, dashboard, now),
     Reports(executive, MockTechnical(src.trend), MockActionPlan, dashboard))
  }

  /** The assembly: the final report and the four reports, stored. */
  method StoreReport(st: WorkflowState, src: ReportSource, ai: Dict<string, Value>, executive: Value,
                     dashboard: Dashboard, now: Timestamp)
    modifies st`progressUpdates, st`currentStep, st`completionPercentage, st`finalReport, st`processedData
    ensures st.finalReport == Some(MockFinalReport(src.url, src.periodDays, src.issues, src.sessionId, src.trend,
                                                   src.recs, src.insights, ai, executive, dashboard, now))
    ensures st.processedData == Put(old(st.processedData), AllReportsKey,
                                    AllReportsEntry(Reports(executive, MockTechnical(src.trend),
                                                            MockActionPlan, dashboard)))
    ensures st.currentStep == ReportKey && st.completionPercentage == 100.0
    ensures st.progressUpdates == old(st.progressUpdates) + AssemblySteps(true, now)
  {
    st.UpdateProgress(ReportKey, 90.0, Str(AssemblingReport), now);
    st.finalReport := Some(MockFinalReport(src.url, src.periodDays, src.issues, src.sessionId, src.trend,
                                           src.recs, src.insights, ai, executive, dashboard, now));
    st.processedData := Put(st.processedData, AllReportsKey,
                            AllReportsEntry(Reports(executive, MockTechnical(src.trend), MockActionPlan,
                                                    dashboard)));
    st.UpdateProgress(ReportKey, 100.0, Str(ReportsCompleted), now);
  }

  /** The technical analysis, the action plan and the start of the dashboard. */
  method ReportMidProgress(st: WorkflowState, now: Timestamp)
    modifies st`progressUpdates, st`currentStep, st`completionPercentage
    ensures st.currentStep == ReportKey && st.completionPercentage == 80.0
    ensures st.progressUpdates == old(st.progressUpdates) + ReportMidSteps(now)
  {
    st.UpdateProgress(ReportKey, 45.0, Str(GeneratingTechnical), now);
    st.UpdateProgress(ReportKey, 65.0, Str(CompilingActions), now);
    st.UpdateProgress(ReportKey, 80.0, Str(PreparingDashboard), now);
  }

  /** From the technical analysis on: the dashboard's reads, the dashboard,
      the final report and the stored reports. */
  method ComposeReport(st: WorkflowState, src: ReportSource, ai: Dict<string, Value>, executive: Value,
                       now: Timestamp) returns (error: Option<string>)
    modifies st`progressUpdates, st`currentStep, st`completionPercentage, st`finalReport, st`processedData
    ensures error == (var got := DashboardReads(ai); if got.Err? then Some(got.error) else None)
    ensures error.Some? ==> st.finalReport == old(st.finalReport) && st.processedData == old(st.processedData)
                            && st.completionPercentage == 80.0
    ensures error.None? ==>
              var got := DashboardReads(ai).value;
              var dashboard := MockDashboard(src.issues, src.trend, got.0, got.1, now);
              && st.finalReport == Some(MockFinalReport(src.url, src.periodDays, src.issues, src.sessionId,
                                                        src.trend, src.recs, src.insights, ai, executive,
                                                        dashboard, now))
              && st.processedData == Put(old(st.processedData), AllReportsKey,
                                         AllReportsEntry(Reports(executive, MockTechnical(src.trend),
                                                                 MockActionPlan, dashboard)))
              && st.completionPercentage == 100.0
    ensures st.progressUpdates == old(st.progressUpdates) + ReportMidSteps(now) + AssemblySteps(error.None?, now)
    ensures st.currentStep == ReportKey
  {
    ReportMidProgress(st, now);
    var got := DashboardReads(ai);
    if got.Err? {
      return Some(got.error);
    }
    var dashboard := BuildMockDashboard(src.issues, src.trend, got.value.0, got.value.1, now);
    StoreReport(st, src, ai, executive, dashboard, now);
    error := None;
  }

  /** The report's body after its first suspension point: the executive
      summary's reads, then the rest of the reports. */
  method ReportBody(st: WorkflowState, src: ReportSource, ai: Dict<string, Value>, now: Timestamp)
    returns (error: Option<string>)
    modifies st`progressUpdates, st`currentStep, st`completionPercentage, st`finalReport, st`processedData
    ensures error == ReportFailure(ai)
    ensures error.Some? ==> st.finalReport == old(st.finalReport) && st.processedData == old(st.processedData)
    ensures error.None? ==>
              && st.finalReport == Some(MockReports(src, ai, now).0)
              && st.processedData == Put(old(st.processedData), AllReportsKey,
                                         AllReportsEntry(MockReports(src, ai, now).1))
    ensures st.currentStep == ReportKey
    ensures st.progressUpdates == old(st.progressUpdates) + ReportTrail(ReportStopOf(ai), now)
  {
    st.UpdateProgress(ReportKey, 25.0, Str(CreatingExecutive), now);
    var first := StepEvent(now, ReportKey, 25.0, Str(CreatingExecutive));
    var got := ExecutiveReads(ai);
    if got.Err? {
      assert ReportTrail(ReportStopOf(ai), now) == [first];
      return Some(got.error);
    }
    var executive := MockExecutive(RepositoryName(src.processed, src.url), src.trend, |src.issues|,
                                   src.periodDays, got.value.0, got.value.1);
    error := ComposeReport(st, src, ai, executive, now);
    assert ReportTrail(ReportStopOf(ai), now)
           == [first] + (ReportMidSteps(now) + AssemblySteps(error.None?, now));
    RegroupTrail(old(st.progressUpdates), [first], ReportMidSteps(now), AssemblySteps(error.None?, now));
  }

  lemma RegroupTrail(entries: seq<ProgressEntry>, a: seq<ProgressEntry>, b: seq<ProgressEntry>,
                     c: seq<ProgressEntry>)
    ensures entries + a + b + c == entries + (a + (b + c))
  {
  }

  /** A started report records its agent running, then completed or
      failed, and no other status of any agent. */
  lemma ReportLifecycle(entries: seq<ProgressEntry>, stop: ReportStop, now: Timestamp)
    ensures var final := if stop.Finished? then Completed else Failed;
            forall a :: StatusTrace(entries + [StatusEvent(now, ReportAgentId, Running)]
                                    + [StepEvent(now, ReportKey, 10.0, Str(GeneratingReports))]
                                    + ReportTrail(stop, now) + [StatusEvent(now, ReportAgentId, final)], a)
                        == StatusTrace(entries, a) + (if a == ReportAgentId then [Running, final] else [])
  {
    var final := if stop.Finished? then Completed else Failed;
    var first := StepEvent(now, ReportKey, 10.0, Str(GeneratingReports));
    RegroupSteps2(entries, StatusEvent(now, ReportAgentId, Running), [first], ReportTrail(stop, now),
                  StatusEvent(now, ReportAgentId, final));
    assert StepsOnly([first] + ReportTrail(stop, now));
    forall a {
      LifecycleTrace(entries, ReportAgentId, [first] + ReportTrail(stop, now), final, now, a);
    }
  }

  /** The report once started: running, the reports, then completed with
      the summary output or failed with the error. */
  method RunReport(st: WorkflowState, src: ReportSource, ai: Dict<string, Value>, now: Timestamp)
    modifies st`agentStatuses, st`updatedAt, st`agentOutputs, st`agentErrors, st`progressUpdates,
             st`currentStep, st`completionPercentage, st`finalReport, st`processedData
    ensures var failure := ReportFailure(ai);
            && st.agentStatuses == Put(old(st.agentStatuses), ReportAgentId,
                                       if failure.None? then Completed else Failed)
            && st.agentErrors == PutIf(old(st.agentErrors), ReportAgentId, failure)
            && (failure.Some? ==> st.agentOutputs == old(st.agentOutputs) && st.finalReport == old(st.finalReport)
                                  && st.processedData == old(st.processedData))
            && (failure.None? ==>
                  && st.finalReport == Some(MockReports(src, ai, now).0)
                  && st.processedData == Put(old(st.processedData), AllReportsKey,
                                             AllReportsEntry(MockReports(src, ai, now).1))
                  && st.agentOutputs == Put(old(st.agentOutputs), ReportAgentId, MockReportOutput))
            && st.progressUpdates == old(st.progressUpdates) + [StatusEvent(now, ReportAgentId, Running)]
                 + [StepEvent(now, ReportKey, 10.0, Str(GeneratingReports))] + ReportTrail(ReportStopOf(ai), now)
                 + [StatusEvent(now, ReportAgentId, if failure.None? then Completed else Failed)]
    ensures st.currentStep == ReportKey
  {
    StartReport(st, now);
    var failure := ReportBody(st, src, ai, now);
    FinishReport(st, failure, now);
    PutTwice(old(st.agentStatuses), ReportAgentId, Running, if failure.None? then Completed else Failed);
  }

  /** The report agent marked running, then the first progress step. */
  method StartReport(st: WorkflowState, now: Timestamp)
    modifies st`agentStatuses, st`updatedAt, st`agentOutputs, st`agentErrors, st`progressUpdates,
             st`currentStep, st`completionPercentage
    ensures st.agentStatuses == Put(old(st.agentStatuses), ReportAgentId, Running)
    ensures st.agentOutputs == old(st.agentOutputs) && st.agentErrors == old(st.agentErrors)
    ensures st.progressUpdates == old(st.progressUpdates) + [StatusEvent(now, ReportAgentId, Running)]
                                  + [StepEvent(now, ReportKey, 10.0, Str(GeneratingReports))]
  {
    st.UpdateAgentStatus(ReportAgentId, Running, None, None, now);
    st.UpdateProgress(ReportKey, 10.0, Str(GeneratingReports), now);
  }

  /** The last status: completed with the summary output, or failed with
      the error. */
  method FinishReport(st: WorkflowState, failure: Option<string>, now: Timestamp)
    modifies st`agentStatuses, st`updatedAt, st`agentOutputs, st`agentErrors, st`progressUpdates
    ensures st.agentStatuses == Put(old(st.agentStatuses), ReportAgentId,
                                    if failure.None? then Completed else Failed)
    ensures st.agentErrors == PutIf(old(st.agentErrors), ReportAgentId, failure)
    ensures st.agentOutputs == if failure.None? then Put(old(st.agentOutputs), ReportAgentId, MockReportOutput)
                               else old(st.agentOutputs)
    ensures st.progressUpdates == old(st.progressUpdates)
              + [StatusEvent(now, ReportAgentId, if failure.None? then Completed else Failed)]
  {
    if failure.Some? {
      st.UpdateAgentStatus(ReportAgentId, Failed, None, failure, now);
    } else {
      st.UpdateAgentStatus(ReportAgentId, Completed, Some(MockReportOutput), None, now);
    }
  }

  /** The mock report agent: the executive summary, technical analysis,
      action plan and dashboard, assembled into the final report and stored
      under `all_reports`; it fails when a category it reads from the
      insights is not a dictionary, or with `fault`, raised at its first
      suspension point. */
  method ExecuteReport(st: WorkflowState, fault: Option<string>, now: Timestamp)
    modifies st`agentStatuses, st`updatedAt, st`agentOutputs, st`agentErrors, st`progressUpdates,
             st`currentStep, st`completionPercentage, st`finalReport, st`processedData
    ensures var ai := AiInsightsOf(old(st.processedData));
            var failure := if fault.Some? then fault else ReportFailure(ai);
            && st.agentStatuses == Put(old(st.agentStatuses), ReportAgentId,
                                       if failure.None? then Completed else Failed)
            && st.agentErrors == PutIf(old(st.agentErrors), ReportAgentId, failure)
            && (failure.Some? ==> st.agentOutputs == old(st.agentOutputs) && st.finalReport == old(st.finalReport)
                                  && st.processedData == old(st.processedData))
            && (failure.None? ==>
                  var src := old(ReportSource(st.processedData, st.repositoryUrl, st.analysisPeriodDays,
                                              st.rawIssues, st.sessionId, st.trendAnalysis, st.recommendations,
                                              st.insights));
                  && st.finalReport == Some(MockReports(src, ai, now).0)
                  && st.processedData == Put(old(st.processedData), AllReportsKey,
                                             AllReportsEntry(MockReports(src, ai, now).1))
                  && st.agentOutputs == Put(old(st.agentOutputs), ReportAgentId, MockReportOutput))
            && StatusTrace(st.progressUpdates, ReportAgentId)
               == StatusTrace(old(st.progressUpdates), ReportAgentId)
                  + [Running, if failure.None? then Completed else Failed]
    ensures st.currentStep == ReportKey
  {
    if fault.Some? {
      FailAtFirstAwait(st, ReportAgentId, ReportKey, GeneratingReports, fault.value, now);
      LifecycleTrace(old(st.progressUpdates), ReportAgentId,
                     [StepEvent(now, ReportKey, 10.0, Str(GeneratingReports))], Failed, now, ReportAgentId);
    } else {
      var ai := AiInsightsOf(st.processedData);
      var src := ReportSource(st.processedData, st.repositoryUrl, st.analysisPeriodDays, st.rawIssues,
                              st.sessionId, st.trendAnalysis, st.recommendations, st.insights);
      RunReport(st, src, ai, now);
      ReportLifecycle(old(st.progressUpdates), ReportStopOf(ai), now);
    }
  }
}
