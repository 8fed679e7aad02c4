/** The shared workflow state: the one record every stage reads and updates,
    with its status, output, error and memory dictionaries, the insight,
    recommendation and progress logs, and the final report. */
module State {
  import opened Base
  import opened Json

  datatype AgentStatus = Pending | Running | Completed | Failed | Skipped

  /** `status.value`. */
  function StatusValue(s: AgentStatus): string
  {
    match s
    case Pending => "pending"
    case Running => "running"
    case Completed => "completed"
    case Failed => "failed"
    case Skipped => "skipped"
  }

  datatype AnalysisQuality = Excellent | Good | Poor | Insufficient

  /** `quality.value`. */
  function QualityValue(q: AnalysisQuality): string
  {
    match q
    case Excellent => "excellent"
    case Good => "good"
    case Poor => "poor"
    case Insufficient => "insufficient"
  }

  /** `quality.value if quality else "unknown"`. */
  function QualityLabel(q: Option<AnalysisQuality>): string
  {
    if q.Some? then QualityValue(q.value) else "unknown"
  }

  /** A reading of the naive local clock, in whole seconds. */
  type Timestamp = int

  const SecondsPerDay: int := 86400

  /** `(later - earlier).days`: whole days, rounded towards minus infinity. */
  function DaysBetween(later: Timestamp, earlier: Timestamp): int
  {
    (later - earlier) / SecondsPerDay
  }

  datatype Issue = Issue(
    id: int, number: int, title: string, body: Option<string>, state: string,
    createdAt: Timestamp, updatedAt: Timestamp, closedAt: Option<Timestamp>,
    labels: seq<string>, assignees: seq<string>, author: string,
    commentsCount: int, reactionsCount: int)

  /** The two states an issue can be in. */
  const OpenState := "open"
  const ClosedState := "closed"

  datatype TrendAnalysis = TrendAnalysis(
    trendDirection: string, trendSlope: real, seasonalPatterns: Value,
    anomalies: seq<Value>, forecast: Value, confidenceScore: real,
    analysisPeriod: Value)

  datatype InsightRecord = InsightRecord(
    agentId: string, kind: string, content: Value, confidence: real, timestamp: Timestamp)

  datatype RecommendationRecord = RecommendationRecord(
    agentId: string, recommendation: Value, priority: string, rationale: string, timestamp: Timestamp)

  /** An entry of the streaming log: a status change of an agent, or a step
      of the workflow with its (unclamped) percentage. */
  datatype ProgressEntry =
    | StatusEvent(timestamp: Timestamp, agentId: string, status: AgentStatus)
    | StepEvent(timestamp: Timestamp, step: string, percentage: real, payload: Value)

  /** The statuses the log records for one agent, oldest first. */
  function StatusTrace(entries: seq<ProgressEntry>, agentId: string): seq<AgentStatus>
  {
    if entries == [] then []
    else
      var e := entries[|entries| - 1];
      StatusTrace(entries[..|entries| - 1], agentId)
        + (if e.StatusEvent? && e.agentId == agentId then [e.status] else [])
  }

  datatype WorkflowPattern = WorkflowPattern(
    repository: string, dataQuality: string, agentSuccess: string,
    workflowScore: real, timestamp: Timestamp)

  datatype StrategicRecord = StrategicRecord(
    repository: string, timestamp: Timestamp, healthScore: Value,
    maintenanceLoad: Value, riskLevel: Value, communityHealth: Value)

  /** Per-agent memory. The free-form pattern store holds two histories, under
      the keys "workflow_patterns" and "strategic_insights"; an absent key
      reads as the empty list. */
  datatype AgentMemory = AgentMemory(
    agentId: string, conversations: seq<Value>,
    workflowPatterns: seq<WorkflowPattern>, strategicInsights: seq<StrategicRecord>,
    performanceMetrics: Dict<string, int>, lastUpdated: Timestamp)

  function NewMemory(agentId: string, now: Timestamp): AgentMemory
  {
    AgentMemory(agentId, [], [], [], [], now)
  }

  datatype RepositoryMetadata = RepositoryMetadata(
    fullName: string, stars: int, language: string, others: Value)

  datatype Metadata = Metadata(
    repository: string, analysisDate: Timestamp, analysisPeriodDays: int,
    totalIssuesAnalyzed: nat, sessionId: string, confidenceScore: real,
    demoMode: Option<bool>, status: Option<string>)

  datatype ReportRecommendation = ReportRecommendation(
    category: string, recommendation: Value, priority: string, rationale: string)

  datatype ReportInsight = ReportInsight(
    source: string, kind: string, content: Value, confidence: real)

  /** A calendar day (year, month, day) and a calendar month (year, month). */
  type Day = (int, int, int)
  type Month = (int, int)

  /** `ts.strftime("%Y-%m-%d")` as numbers: the proleptic Gregorian date of
      a clock reading (days since 1970-01-01, converted with the usual
      era-of-400-years method; `/` is floor division on the non-negative
      operands used here). */
  function CivilDay(ts: Timestamp): (r: Day)
    ensures 1 <= r.1 <= 12 && 1 <= r.2 <= 31
  {
    var z := ts / SecondsPerDay + 719468;
    var era := z / 146097;
    var doe := z - era * 146097;
    var yoe := (doe - doe / 1460 + doe / 36524 - doe / 146096) / 365;
    var doy := doe - (365 * yoe + yoe / 4 - yoe / 100);
    var mp := (5 * doy + 2) / 153;
    var d := doy - (153 * mp + 2) / 5 + 1;
    var m := if mp < 10 then mp + 3 else mp - 9;
    (yoe + era * 400 + (if m <= 2 then 1 else 0), m, d)
  }

  /** `ts.strftime("%Y-%m")` as numbers. */
  function CivilMonth(ts: Timestamp): Month
  {
    var day := CivilDay(ts);
    (day.0, day.1)
  }

  datatype Dashboard = Dashboard(
    totalIssues: nat, openIssues: nat, trendDirection: string,
    healthScore: Value, riskLevel: Value,
    dailyIssues: Dict<Day, int>, monthlyIssues: Dict<Month, int>,
    issueStates: Dict<string, int>, topLabels: Dict<string, int>,
    slope: real, confidence: real, anomalies: nat, forecast: Value,
    generatedAt: Timestamp)

  datatype ActionItem = ActionItem(
    action: Value, priority: string, source: string, rationale: string, category: string)

  /** An action plan: its narrative part, and the assembled action items when
      the producer attaches them. */
  datatype ActionPlan = ActionPlan(plan: Value, allActionItems: Option<seq<ActionItem>>)

  datatype Reports = Reports(
    executive: Value, technical: Value, actionable: ActionPlan, dashboard: Dashboard)

  datatype ReportMetadata = ReportMetadata(
    generatedAt: Timestamp, repository: string, analysisPeriod: int,
    totalIssuesAnalyzed: nat, reportFormats: seq<string>, confidenceScore: real)

  /** The report's view of the state's recommendations: one entry per
      record, in order, the producing agent becoming the category. */
  function ProjectRecommendations(recs: seq<RecommendationRecord>): (r: seq<ReportRecommendation>)
    ensures |r| == |recs|
    ensures forall i :: 0 <= i < |recs| ==>
              r[i].category == recs[i].agentId && r[i].recommendation == recs[i].recommendation
              && r[i].priority == recs[i].priority && r[i].rationale == recs[i].rationale
  {
    if recs == [] then []
    else ProjectRecommendations(recs[..|recs| - 1])
           + [ReportRecommendation(recs[|recs| - 1].agentId, recs[|recs| - 1].recommendation,
                                   recs[|recs| - 1].priority, recs[|recs| - 1].rationale)]
  }

  /** The report's view of the state's insights: one entry per record, in
      order, the producing agent becoming the source. */
  function ProjectInsights(ins: seq<InsightRecord>): (r: seq<ReportInsight>)
    ensures |r| == |ins|
    ensures forall i :: 0 <= i < |ins| ==>
              r[i].source == ins[i].agentId && r[i].kind == ins[i].kind
              && r[i].content == ins[i].content && r[i].confidence == ins[i].confidence
  {
    if ins == [] then []
    else ProjectInsights(ins[..|ins| - 1])
           + [ReportInsight(ins[|ins| - 1].agentId, ins[|ins| - 1].kind,
                            ins[|ins| - 1].content, ins[|ins| - 1].confidence)]
  }

  /** Projecting a grown list extends the earlier projection: the report of a
      later state starts with the report of an earlier one. */
  lemma {:induction false} ProjectInsightsAppend(a: seq<InsightRecord>, b: seq<InsightRecord>)
    ensures ProjectInsights(a + b) == ProjectInsights(a) + ProjectInsights(b)
  {
    if b != [] {
      var b' := b[..|b| - 1];
      assert (a + b)[..|a + b| - 1] == a + b';
      ProjectInsightsAppend(a, b');
    } else {
      assert a + b == a;
    }
  }

  lemma {:induction false} ProjectRecommendationsAppend(a: seq<RecommendationRecord>, b: seq<RecommendationRecord>)
    ensures ProjectRecommendations(a + b) == ProjectRecommendations(a) + ProjectRecommendations(b)
  {
    if b != [] {
      var b' := b[..|b| - 1];
      assert (a + b)[..|a + b| - 1] == a + b';
      ProjectRecommendationsAppend(a, b');
    } else {
      assert a + b == a;
    }
  }

  /** What the demonstration insight agent measures before it renders its
      categories. */
  datatype InsightFigures = InsightFigures(
    total: nat, healthScore: int, bugRatio: real, loadAssessment: string,
    engagementLevel: string, communityHealth: int, uniqueAuthors: nat,
    riskFactors: seq<RiskFactor>, riskLevel: string, debtCount: nat)

  /** The values stored in `processed_data`, one kind per key. The
      demonstration insight agent's categories are kept as the figures they
      are rendered from (`MockAgents.MockInsightCategories`). */
  datatype Processed =
    | RepoMetadataEntry(meta: RepositoryMetadata)
    | AiInsightsEntry(categories: Dict<string, Value>)
    | MockInsightsEntry(figures: InsightFigures)
    | AllReportsEntry(reports: Reports)
    | ReportMetadataEntry(reportMeta: ReportMetadata)

  /** The keys of `processed_data`. */
  const RepositoryMetadataKey: string := "repository_metadata"
  const AiInsightsKey: string := "ai_insights"
  const AllReportsKey: string := "all_reports"
  const ReportMetadataKey: string := "report_metadata"

  datatype ErrorSummary = ErrorSummary(
    failedAgents: seq<string>, errorMessages: Dict<string, Option<string>>,
    issuesRetrieved: nat, insightsGenerated: nat, recommendationsCount: nat,
    recoverySuggestions: seq<string>)

  datatype FallbackDashboard = FallbackDashboard(
    dailyIssues: seq<nat>, openIssues: nat, closedIssues: nat,
    issueTypes: Dict<string, nat>, priorityLevels: Dict<string, nat>,
    topLabels: Dict<string, nat>, totalIssues: nat)

  /** A list kept from the state, or the single placeholder put in its place. */
  datatype Entries<T, P> = Kept(items: seq<T>) | Substituted(placeholder: P)

  /** The risk factors an insight assessment can name. */
  datatype RiskFactor =
    | HighOpenIssueRatio | IncreasingIssueTrend | RapidIssueGrowth
    | LowCommunityEngagement | SecurityConcerns

  function RiskFactorName(f: RiskFactor): string
  {
    match f
    case HighOpenIssueRatio => "high_open_issue_ratio"
    case IncreasingIssueTrend => "increasing_issue_trend"
    case RapidIssueGrowth => "rapid_issue_growth"
    case LowCommunityEngagement => "low_community_engagement"
    case SecurityConcerns => "security_concerns"
  }

  function RiskFactorNames(fs: seq<RiskFactor>): (r: seq<string>)
    ensures |r| == |fs|
    ensures forall i :: 0 <= i < |fs| ==> r[i] == RiskFactorName(fs[i])
  {
    if fs == [] then [] else [RiskFactorName(fs[0])] + RiskFactorNames(fs[1..])
  }

  /** The overall risk for a number of factors: more than two is high, one
      or two is medium, none is low. */
  function RiskLevel(factors: nat): (r: string)
    ensures r == "high" <==> factors > 2
    ensures r == "medium" <==> 0 < factors <= 2
    ensures r == "low" <==> factors == 0
  {
    if factors > 2 then "high" else if factors > 0 then "medium" else "low"
  }

  /** The improvement suggestions a reflection can make. */
  datatype Suggestion =
    | ImproveErrorHandling | ExtendPeriod | EnrichData | EnhanceInsights
    | DebugAgents(failed: seq<string>)

  function SuggestionText(s: Suggestion): string
  {
    match s
    case ImproveErrorHandling => "Consider improving error handling and recovery mechanisms"
    case ExtendPeriod => "Increase analysis period or check repository activity level"
    case EnrichData => "Implement data enrichment strategies for low-activity repositories"
    case EnhanceInsights => "Enhance insight generation with additional analysis dimensions"
    case DebugAgents(failed) => "Debug and improve reliability of agents: " + Join(failed, ", ")
  }

  datatype Reflection = Reflection(
    workflowScore: real, successfulAgents: seq<string>, failedAgents: seq<string>,
    routingPath: seq<string>, dataQualityAssessment: string, totalExecutionTime: int,
    dataCoverage: real, insightQuality: real, recommendationQuality: real,
    improvementSuggestions: seq<Suggestion>)

  datatype FinalReport =
    | AnalysisReport(
        metadata: Metadata, executiveSummary: Value, technicalAnalysis: Value,
        actionPlan: ActionPlan, dashboardData: Dashboard, detailedInsights: Value,
        recommendations: seq<ReportRecommendation>, insights: seq<ReportInsight>,
        reflection: Option<Reflection>)
    | FallbackReport(
        metadata: Metadata, fallbackDashboard: FallbackDashboard, dataAssessment: string,
        detailedInsightsOrPlaceholder: Entries<InsightRecord, ReportInsight>,
        recommendationsOrPlaceholder: Entries<RecommendationRecord, ReportRecommendation>,
        keptInsights: seq<InsightRecord>, errorSummary: ErrorSummary,
        reflection: Option<Reflection>)
    | WorkflowFailed(error: string, generatedAt: Timestamp, reflection: Option<Reflection>)

  /** `min(100.0, max(0.0, percentage))`. */
  function Clamp(percentage: real): (r: real)
    ensures 0.0 <= r <= 100.0
    ensures 0.0 <= percentage <= 100.0 ==> r == percentage
    ensures percentage < 0.0 ==> r == 0.0
    ensures percentage > 100.0 ==> r == 100.0
  {
    if percentage < 0.0 then 0.0 else if percentage > 100.0 then 100.0 else percentage
  }

  /** The text a status change is logged with. */
  function StatusMessage(e: ProgressEntry): string
    requires e.StatusEvent?
  {
    "Agent " + e.agentId + " is now " + StatusValue(e.status)
  }

  /** The whole state as one value. */
  datatype StateValue = StateValue(
    sessionId: string, createdAt: Timestamp, updatedAt: Timestamp,
    repositoryUrl: string, analysisPeriodDays: int, includeClosedIssues: bool,
    agentStatuses: Dict<string, AgentStatus>, agentOutputs: Dict<string, Value>,
    agentErrors: Dict<string, string>, rawIssues: seq<Issue>,
    processedData: Dict<string, Processed>, trendAnalysis: Option<TrendAnalysis>,
    dataQuality: Option<AnalysisQuality>, routingDecisions: seq<string>,
    insights: seq<InsightRecord>, recommendations: seq<RecommendationRecord>,
    finalReport: Option<FinalReport>, agentMemories: Dict<string, AgentMemory>,
    progressUpdates: seq<ProgressEntry>, currentStep: string,
    completionPercentage: real)

  /** A freshly constructed state: the given inputs, everything else empty. */
  function Initial(sessionId: string, now: Timestamp, repositoryUrl: string,
                   analysisPeriodDays: int, includeClosedIssues: bool): StateValue
  {
    StateValue(sessionId, now, now, repositoryUrl, analysisPeriodDays, includeClosedIssues,
      [], [], [], [], [], None, None, [], [], [], None, [], [], "initializing", 0.0)
  }

  /** One key/value pair of an `update_state` call: a field of the state with
      a value of its type, or a key that names no field. */
  datatype FieldUpdate =
    | SetSessionId(sessionId: string)
    | SetCreatedAt(createdAt: Timestamp)
    | SetUpdatedAt(updatedAt: Timestamp)
    | SetRepositoryUrl(repositoryUrl: string)
    | SetAnalysisPeriodDays(analysisPeriodDays: int)
    | SetIncludeClosedIssues(includeClosedIssues: bool)
    | SetAgentStatuses(agentStatuses: Dict<string, AgentStatus>)
    | SetAgentOutputs(agentOutputs: Dict<string, Value>)
    | SetAgentErrors(agentErrors: Dict<string, string>)
    | SetRawIssues(rawIssues: seq<Issue>)
    | SetProcessedData(processedData: Dict<string, Processed>)
    | SetTrendAnalysis(trendAnalysis: Option<TrendAnalysis>)
    | SetDataQuality(dataQuality: Option<AnalysisQuality>)
    | SetRoutingDecisions(routingDecisions: seq<string>)
    | SetInsights(insights: seq<InsightRecord>)
    | SetRecommendations(recommendations: seq<RecommendationRecord>)
    | SetFinalReport(finalReport: Option<FinalReport>)
    | SetAgentMemories(agentMemories: Dict<string, AgentMemory>)
    | SetProgressUpdates(progressUpdates: seq<ProgressEntry>)
    | SetCurrentStep(currentStep: string)
    | SetCompletionPercentage(completionPercentage: real)
    | Unknown(key: string)

  /** `setattr(current, key, value)` when the key is a field; nothing
      otherwise. */
  function ApplyUpdate(s: StateValue, u: FieldUpdate): StateValue
  {
    match u
    case SetSessionId(v) => s.(sessionId := v)
    case SetCreatedAt(v) => s.(createdAt := v)
    case SetUpdatedAt(v) => s.(updatedAt := v)
    case SetRepositoryUrl(v) => s.(repositoryUrl := v)
    case SetAnalysisPeriodDays(v) => s.(analysisPeriodDays := v)
    case SetIncludeClosedIssues(v) => s.(includeClosedIssues := v)
    case SetAgentStatuses(v) => s.(agentStatuses := v)
    case SetAgentOutputs(v) => s.(agentOutputs := v)
    case SetAgentErrors(v) => s.(agentErrors := v)
    case SetRawIssues(v) => s.(rawIssues := v)
    case SetProcessedData(v) => s.(processedData := v)
    case SetTrendAnalysis(v) => s.(trendAnalysis := v)
    case SetDataQuality(v) => s.(dataQuality := v)
    case SetRoutingDecisions(v) => s.(routingDecisions := v)
    case SetInsights(v) => s.(insights := v)
    case SetRecommendations(v) => s.(recommendations := v)
    case SetFinalReport(v) => s.(finalReport := v)
    case SetAgentMemories(v) => s.(agentMemories := v)
    case SetProgressUpdates(v) => s.(progressUpdates := v)
    case SetCurrentStep(v) => s.(currentStep := v)
    case SetCompletionPercentage(v) => s.(completionPercentage := v)
    case Unknown(_) => s
  }

  /** The pairs applied in order, the last one naming a field winning. */
  function ApplyAll(s: StateValue, us: seq<FieldUpdate>): StateValue
  {
    if us == [] then s else ApplyUpdate(ApplyAll(s, us[..|us| - 1]), us[|us| - 1])
  }

  /** The attributes of the state. */
  datatype Attribute =
    | SessionIdAttr | CreatedAtAttr | UpdatedAtAttr | RepositoryUrlAttr
    | AnalysisPeriodDaysAttr | IncludeClosedIssuesAttr | AgentStatusesAttr | AgentOutputsAttr
    | AgentErrorsAttr | RawIssuesAttr | ProcessedDataAttr | TrendAnalysisAttr
    | DataQualityAttr | RoutingDecisionsAttr | InsightsAttr | RecommendationsAttr
    | FinalReportAttr | AgentMemoriesAttr | ProgressUpdatesAttr | CurrentStepAttr
    | CompletionPercentageAttr

  /** The attribute a pair names; none for an unknown key. */
  function AttributeOf(u: FieldUpdate): Option<Attribute>
  {
    match u
    case SetSessionId(_) => Some(SessionIdAttr)
    case SetCreatedAt(_) => Some(CreatedAtAttr)
    case SetUpdatedAt(_) => Some(UpdatedAtAttr)
    case SetRepositoryUrl(_) => Some(RepositoryUrlAttr)
    case SetAnalysisPeriodDays(_) => Some(AnalysisPeriodDaysAttr)
    case SetIncludeClosedIssues(_) => Some(IncludeClosedIssuesAttr)
    case SetAgentStatuses(_) => Some(AgentStatusesAttr)
    case SetAgentOutputs(_) => Some(AgentOutputsAttr)
    case SetAgentErrors(_) => Some(AgentErrorsAttr)
    case SetRawIssues(_) => Some(RawIssuesAttr)
    case SetProcessedData(_) => Some(ProcessedDataAttr)
    case SetTrendAnalysis(_) => Some(TrendAnalysisAttr)
    case SetDataQuality(_) => Some(DataQualityAttr)
    case SetRoutingDecisions(_) => Some(RoutingDecisionsAttr)
    case SetInsights(_) => Some(InsightsAttr)
    case SetRecommendations(_) => Some(RecommendationsAttr)
    case SetFinalReport(_) => Some(FinalReportAttr)
    case SetAgentMemories(_) => Some(AgentMemoriesAttr)
    case SetProgressUpdates(_) => Some(ProgressUpdatesAttr)
    case SetCurrentStep(_) => Some(CurrentStepAttr)
    case SetCompletionPercentage(_) => Some(CompletionPercentageAttr)
    case Unknown(_) => None
  }

  /** The pair that sets attribute `a` to the value it has in `s`. */
  function Read(s: StateValue, a: Attribute): FieldUpdate
  {
    match a
    case SessionIdAttr => SetSessionId(s.sessionId)
    case CreatedAtAttr => SetCreatedAt(s.createdAt)
    case UpdatedAtAttr => SetUpdatedAt(s.updatedAt)
    case RepositoryUrlAttr => SetRepositoryUrl(s.repositoryUrl)
    case AnalysisPeriodDaysAttr => SetAnalysisPeriodDays(s.analysisPeriodDays)
    case IncludeClosedIssuesAttr => SetIncludeClosedIssues(s.includeClosedIssues)
    case AgentStatusesAttr => SetAgentStatuses(s.agentStatuses)
    case AgentOutputsAttr => SetAgentOutputs(s.agentOutputs)
    case AgentErrorsAttr => SetAgentErrors(s.agentErrors)
    case RawIssuesAttr => SetRawIssues(s.rawIssues)
    case ProcessedDataAttr => SetProcessedData(s.processedData)
    case TrendAnalysisAttr => SetTrendAnalysis(s.trendAnalysis)
    case DataQualityAttr => SetDataQuality(s.dataQuality)
    case RoutingDecisionsAttr => SetRoutingDecisions(s.routingDecisions)
    case InsightsAttr => SetInsights(s.insights)
    case RecommendationsAttr => SetRecommendations(s.recommendations)
    case FinalReportAttr => SetFinalReport(s.finalReport)
    case AgentMemoriesAttr => SetAgentMemories(s.agentMemories)
    case ProgressUpdatesAttr => SetProgressUpdates(s.progressUpdates)
    case CurrentStepAttr => SetCurrentStep(s.currentStep)
    case CompletionPercentageAttr => SetCompletionPercentage(s.completionPercentage)
  }

  /** The last pair of `us` that names attribute `a`. */
  function LastFor(us: seq<FieldUpdate>, a: Attribute): (r: Option<FieldUpdate>)
    ensures r.Some? ==> r.value in us && AttributeOf(r.value) == Some(a)
    ensures r.None? ==> forall u <- us :: AttributeOf(u) != Some(a)
  {
    if us == [] then None
    else if AttributeOf(us[|us| - 1]) == Some(a) then Some(us[|us| - 1])
    else LastFor(us[..|us| - 1], a)
  }

  /** One `setattr` sets the attribute it names ... */
  lemma ReadAfterOwnUpdate(s: StateValue, u: FieldUpdate, a: Attribute)
    requires AttributeOf(u) == Some(a)
    ensures Read(ApplyUpdate(s, u), a) == u
  {
  }

  /** ... and leaves every other attribute as it was. */
  lemma ReadAfterOtherUpdate(s: StateValue, u: FieldUpdate, a: Attribute)
    requires AttributeOf(u) != Some(a)
    ensures Read(ApplyUpdate(s, u), a) == Read(s, a)
  {
    if SetsEarlyField(u) {
      ReadAfterOtherEarlyUpdate(s, u, a);
    } else {
      ReadAfterOtherLateUpdate(s, u, a);
    }
  }

  /** The pairs naming one of the first ten fields. */
  predicate SetsEarlyField(u: FieldUpdate)
  {
    || u.SetSessionId? || u.SetCreatedAt? || u.SetUpdatedAt? || u.SetRepositoryUrl?
    || u.SetAnalysisPeriodDays? || u.SetIncludeClosedIssues? || u.SetAgentStatuses?
    || u.SetAgentOutputs? || u.SetAgentErrors? || u.SetRawIssues?
  }

  lemma ReadAfterOtherEarlyUpdate(s: StateValue, u: FieldUpdate, a: Attribute)
    requires SetsEarlyField(u) && AttributeOf(u) != Some(a)
    ensures Read(ApplyUpdate(s, u), a) == Read(s, a)
  {
  }

  lemma ReadAfterOtherLateUpdate(s: StateValue, u: FieldUpdate, a: Attribute)
    requires !SetsEarlyField(u) && AttributeOf(u) != Some(a)
    ensures Read(ApplyUpdate(s, u), a) == Read(s, a)
  {
  }

  /** After the whole loop, each attribute holds the value of the last pair
      naming it, or its old value when no pair names it. */
  lemma {:induction false} ReadAfterAll(s: StateValue, us: seq<FieldUpdate>, a: Attribute)
    ensures Read(ApplyAll(s, us), a)
            == if LastFor(us, a).Some? then LastFor(us, a).value else Read(s, a)
  {
    if us != [] {
      ReadAfterAll(s, us[..|us| - 1], a);
      var last := us[|us| - 1];
      if AttributeOf(last) == Some(a) {
        ReadAfterOwnUpdate(ApplyAll(s, us[..|us| - 1]), last, a);
      } else {
        ReadAfterOtherUpdate(ApplyAll(s, us[..|us| - 1]), last, a);
      }
    }
  }

  /** `update_state(current, update)`: every pair that names an attribute is
      assigned in order, the others are ignored, then the update time is
      stamped. */
  function UpdateState(current: StateValue, updates: seq<FieldUpdate>, now: Timestamp)
    : (r: StateValue)
    ensures r.updatedAt == now
    ensures forall a :: a != UpdatedAtAttr ==>
              Read(r, a) == if LastFor(updates, a).Some? then LastFor(updates, a).value
                            else Read(current, a)
  {
    var applied := ApplyAll(current, updates);
    forall a | a != UpdatedAtAttr
      ensures Read(applied.(updatedAt := now), a) == Read(applied, a)
    {
    }
    forall a
      ensures Read(applied, a)
              == if LastFor(updates, a).Some? then LastFor(updates, a).value else Read(current, a)
    {
      ReadAfterAll(current, updates, a);
    }
    applied.(updatedAt := now)
  }

  /** The pairs that name a field, in order. */
  function KnownUpdates(us: seq<FieldUpdate>): (r: seq<FieldUpdate>)
    ensures forall u <- r :: !u.Unknown?
  {
    if us == [] then []
    else KnownUpdates(us[..|us| - 1]) + (if us[|us| - 1].Unknown? then [] else [us[|us| - 1]])
  }

  /** Keys that name no field are ignored: applying all pairs is applying
      only the pairs that name a field. */
  lemma {:induction false} UnknownKeysIgnored(s: StateValue, us: seq<FieldUpdate>)
    ensures ApplyAll(s, us) == ApplyAll(s, KnownUpdates(us))
  {
    if us != [] {
      var init := us[..|us| - 1];
      var last := us[|us| - 1];
      UnknownKeysIgnored(s, init);
      if last.Unknown? {
        assert KnownUpdates(us) == KnownUpdates(init) + [];
        assert KnownUpdates(init) + [] == KnownUpdates(init);
      } else {
        var k := KnownUpdates(init) + [last];
        assert KnownUpdates(us) == k;
        assert k[..|k| - 1] == KnownUpdates(init);
        assert ApplyAll(s, k) == ApplyUpdate(ApplyAll(s, KnownUpdates(init)), last);
      }
    }
  }

  /** A completion percentage written through `update_state` bypasses the
      clamp of `update_progress`: any value is stored as given. */
  lemma UpdateStateSkipsClamp(current: StateValue, updates: seq<FieldUpdate>, p: real, now: Timestamp)
    ensures UpdateState(current, updates + [SetCompletionPercentage(p)], now).completionPercentage == p
  {
    var us := updates + [SetCompletionPercentage(p)];
    assert LastFor(us, CompletionPercentageAttr) == Some(SetCompletionPercentage(p));
    assert Read(UpdateState(current, us, now), CompletionPercentageAttr) == SetCompletionPercentage(p);
  }

  class WorkflowState {
    var sessionId: string
    var createdAt: Timestamp
    var updatedAt: Timestamp
    var repositoryUrl: string
    var analysisPeriodDays: int
    var includeClosedIssues: bool
    var agentStatuses: Dict<string, AgentStatus>
    var agentOutputs: Dict<string, Value>
    var agentErrors: Dict<string, string>
    var rawIssues: seq<Issue>
    var processedData: Dict<string, Processed>
    var trendAnalysis: Option<TrendAnalysis>
    var dataQuality: Option<AnalysisQuality>
    var routingDecisions: seq<string>
    var insights: seq<InsightRecord>
    var recommendations: seq<RecommendationRecord>
    var finalReport: Option<FinalReport>
    var agentMemories: Dict<string, AgentMemory>
    var progressUpdates: seq<ProgressEntry>
    var currentStep: string
    var completionPercentage: real

    function Snapshot(): StateValue
      reads this
    {
      StateValue(sessionId, createdAt, updatedAt, repositoryUrl, analysisPeriodDays,
        includeClosedIssues, agentStatuses, agentOutputs, agentErrors, rawIssues,
        processedData, trendAnalysis, dataQuality, routingDecisions, insights,
        recommendations, finalReport, agentMemories, progressUpdates, currentStep,
        completionPercentage)
    }

    constructor (sessionId: string, now: Timestamp, repositoryUrl: string,
                 analysisPeriodDays: int, includeClosedIssues: bool)
      ensures Snapshot() == Initial(sessionId, now, repositoryUrl, analysisPeriodDays, includeClosedIssues)
      ensures DistinctKeys(agentStatuses)
    {
      this.sessionId := sessionId;
      createdAt, updatedAt := now, now;
      this.repositoryUrl := repositoryUrl;
      this.analysisPeriodDays := analysisPeriodDays;
      this.includeClosedIssues := includeClosedIssues;
      agentStatuses, agentOutputs, agentErrors := [], [], [];
      rawIssues, processedData := [], [];
      trendAnalysis, dataQuality := None, None;
      routingDecisions, insights, recommendations := [], [], [];
      finalReport, agentMemories, progressUpdates := None, [], [];
      currentStep, completionPercentage := "initializing", 0.0;
    }

    /** Records a new status for one agent, and its output or error when
        given; logs the change. */
    method UpdateAgentStatus(agentId: string, status: AgentStatus,
                             output: Option<Value>, error: Option<string>, now: Timestamp)
      modifies this`agentStatuses, this`updatedAt, this`agentOutputs, this`agentErrors,
               this`progressUpdates
      ensures agentStatuses == Put(old(agentStatuses), agentId, status)
      ensures DistinctKeys(old(agentStatuses)) ==> DistinctKeys(agentStatuses)
      ensures updatedAt == now
      ensures agentOutputs == PutIf(old(agentOutputs), agentId, output)
      ensures agentErrors == PutIf(old(agentErrors), agentId, error)
      ensures progressUpdates == old(progressUpdates)
                                 + [StatusEvent(now, agentId, status)]
    {
      var statuses, outputs, errors := Put(agentStatuses, agentId, status),
        PutIf(agentOutputs, agentId, output), PutIf(agentErrors, agentId, error);
      if DistinctKeys(agentStatuses) {
        PutKeepsDistinct(agentStatuses, agentId, status);
      }
      agentStatuses, agentOutputs, agentErrors := statuses, outputs, errors;
      updatedAt := now;
      progressUpdates := progressUpdates
        + [StatusEvent(now, agentId, status)];
    }

    method AddInsight(agentId: string, kind: string, content: Value, confidence: real, now: Timestamp)
      modifies this`insights
      ensures insights == old(insights) + [InsightRecord(agentId, kind, content, confidence, now)]
    {
      insights := insights + [InsightRecord(agentId, kind, content, confidence, now)];
    }

    method AddRecommendation(agentId: string, recommendation: Value, priority: string,
                             rationale: string, now: Timestamp)
      modifies this`recommendations
      ensures recommendations == old(recommendations)
                                 + [RecommendationRecord(agentId, recommendation, priority, rationale, now)]
    {
      recommendations := recommendations
        + [RecommendationRecord(agentId, recommendation, priority, rationale, now)];
    }

    /** Moves to a step: the completion is clamped into [0, 100], the log
        keeps the percentage as given. */
    method UpdateProgress(step: string, percentage: real, message: Value, now: Timestamp)
      modifies this`currentStep, this`completionPercentage, this`progressUpdates
      ensures currentStep == step
      ensures completionPercentage == Clamp(percentage)
      ensures progressUpdates == old(progressUpdates) + [StepEvent(now, step, percentage, message)]
    {
      currentStep := step;
      completionPercentage := Clamp(percentage);
      progressUpdates := progressUpdates + [StepEvent(now, step, percentage, message)];
    }

    /** Get-or-create: an existing memory is returned untouched, a missing one
        is inserted empty. */
    method GetAgentMemory(agentId: string, now: Timestamp) returns (memory: AgentMemory)
      modifies this`agentMemories
      ensures agentMemories == MemoriesWith(old(agentMemories), agentId, now)
      ensures Get(agentMemories, agentId) == Some(memory)
      ensures Get(old(agentMemories), agentId).Some? ==> memory == Get(old(agentMemories), agentId).value
      ensures Get(old(agentMemories), agentId).None? ==> memory == NewMemory(agentId, now)
    {
      match Get(agentMemories, agentId)
      case Some(m) =>
        memory := m;
      case None =>
        memory := NewMemory(agentId, now);
        PutGet(agentMemories, agentId, memory, agentId);
        agentMemories := Put(agentMemories, agentId, memory);
    }
  }

  /** The memory dictionary after `get_agent_memory(agentId)`. */
  function MemoriesWith(memories: Dict<string, AgentMemory>, agentId: string, now: Timestamp)
    : (r: Dict<string, AgentMemory>)
    ensures Get(r, agentId).Some?
    ensures forall k :: k != agentId ==> Get(r, k) == Get(memories, k)
    ensures Get(memories, agentId).Some? ==> r == memories
  {
    if Get(memories, agentId).Some? then memories
    else
      PutSpec(memories, agentId, NewMemory(agentId, now));
      Put(memories, agentId, NewMemory(agentId, now))
  }

  /** Get-or-create is idempotent: a second call, at any time, leaves the
      dictionary as the first call left it. */
  lemma MemoriesWithIdempotent(memories: Dict<string, AgentMemory>, agentId: string,
                               now: Timestamp, later: Timestamp)
    ensures MemoriesWith(MemoriesWith(memories, agentId, now), agentId, later)
            == MemoriesWith(memories, agentId, now)
  {
  }

  /** Status changes logged for one agent, one entry at a time. */
  lemma StatusTraceAppend(entries: seq<ProgressEntry>, e: ProgressEntry, agentId: string)
    ensures StatusTrace(entries + [e], agentId)
            == StatusTrace(entries, agentId)
               + (if e.StatusEvent? && e.agentId == agentId then [e.status] else [])
  {
    assert (entries + [e])[..|entries|] == entries;
  }

  /** `StatusTraceAppend` for every agent at once. */
  lemma StatusTraceAppendAll(entries: seq<ProgressEntry>, e: ProgressEntry)
    ensures forall a :: StatusTrace(entries + [e], a)
                        == StatusTrace(entries, a) + (if e.StatusEvent? && e.agentId == a then [e.status] else [])
  {
    forall a
      ensures StatusTrace(entries + [e], a)
              == StatusTrace(entries, a) + (if e.StatusEvent? && e.agentId == a then [e.status] else [])
    {
      StatusTraceAppend(entries, e, a);
    }
  }

  predicate StepsOnly(steps: seq<ProgressEntry>)
  {
    forall i :: 0 <= i < |steps| ==> steps[i].StepEvent?
  }

  /** Step events leave every agent's status trace as it was. */
  lemma {:induction false} StepsKeepTrace(entries: seq<ProgressEntry>, steps: seq<ProgressEntry>, a: string)
    requires StepsOnly(steps)
    ensures StatusTrace(entries + steps, a) == StatusTrace(entries, a)
  {
    if steps != [] {
      var init := steps[..|steps| - 1];
      assert entries + steps == (entries + init) + [steps[|steps| - 1]];
      assert steps[|steps| - 1].StepEvent?;
      assert StepsOnly(init) by {
        forall i | 0 <= i < |init| ensures init[i].StepEvent? { assert init[i] == steps[i]; }
      }
      StatusTraceAppend(entries + init, steps[|steps| - 1], a);
      assert StatusTrace(entries + steps, a) == StatusTrace(entries + init, a) + [];
      StepsKeepTrace(entries, init, a);
    } else {
      assert entries + steps == entries;
    }
  }

  /** An agent run (marked running, its steps, then its final status) adds
      exactly "running, then the final status" to its own status trace and
      nothing to any other agent's. */
  lemma LifecycleTrace(entries: seq<ProgressEntry>, agentId: string, steps: seq<ProgressEntry>,
                       final: AgentStatus, now: Timestamp, a: string)
    requires StepsOnly(steps)
    ensures StatusTrace(entries + [StatusEvent(now, agentId, Running)] + steps + [StatusEvent(now, agentId, final)], a)
            == StatusTrace(entries, a) + (if a == agentId then [Running, final] else [])
  {
    var running := entries + [StatusEvent(now, agentId, Running)];
    var last := StatusEvent(now, agentId, final);
    StatusTraceAppend(running + steps, last, a);
    StepsKeepTrace(running, steps, a);
    StatusTraceAppend(entries, StatusEvent(now, agentId, Running), a);
    if a == agentId {
      assert StatusTrace(running, a) == StatusTrace(entries, a) + [Running];
      assert StatusTrace(running + steps + [last], a) == StatusTrace(entries, a) + [Running] + [final];
    } else {
      assert StatusTrace(running + steps + [last], a) == StatusTrace(entries, a) + [] + [];
    }
  }

  /** Regrouping a run's log: the steps between its two status events form
      one block. */
  lemma RegroupSteps(entries: seq<ProgressEntry>, running: ProgressEntry, a: seq<ProgressEntry>,
                     b: seq<ProgressEntry>, c: seq<ProgressEntry>, final: ProgressEntry)
    ensures entries + [running] + a + b + c + [final] == entries + [running] + (a + b + c) + [final]
  {
  }

  lemma RegroupSteps2(entries: seq<ProgressEntry>, running: ProgressEntry, a: seq<ProgressEntry>,
                      b: seq<ProgressEntry>, final: ProgressEntry)
    ensures entries + [running] + a + b + [final] == entries + [running] + (a + b) + [final]
  {
  }
}
