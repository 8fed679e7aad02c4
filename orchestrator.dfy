/** The orchestrator's node bodies and its driver. Each node logs a workflow
    step and records its name in the routing trail, then runs its agent; the
    quality gate records a sentinel instead; the error handler builds the
    fallback report; the reflection scores the run, attaches the score to a
    report that exists and teaches every agent's memory. The driver walks the
    stage graph of `Routing` until a stage leads to the end. The agents are
    the demonstration agents; their generated data, random draws and faults
    are the `DemoDraws` of a run. */
module Orchestrator {
  import opened Base
  import opened Json
  import opened State
  import opened Counting
  import opened Routing
  import MockAgents
  import MockReport

  /** The step name every node logs under, and the extra names the graph's
      own nodes use. */
  const WorkflowStep: string := "workflow"
  const QualityGateStep: string := "quality_gate"
  const ErrorHandlerKey: string := "error_handler"
  const ReflectionKey: string := "reflection"
  const ErrorRecoveryStep: string := "error_recovery"
  const CompletedStep: string := "completed"
  const OrchestratorId: string := "orchestrator"

  const ExecutingRetrieval: string := "Executing data retrieval agent..."
  const AssessingQuality: string := "Assessing data quality..."
  const QualityTemplate: string := "Data quality: {}, Issues: {}"
  const ExecutingAnalysis: string := "Executing analysis agent..."
  const ExecutingInsights: string := "Executing insight generation agent..."
  const ExecutingReports: string := "Executing report generation agent..."
  const HandlingErrors: string := "Handling errors and generating fallback results..."
  const PerformingReflection: string := "Performing workflow reflection..."
  const ReflectionDone: string := "Workflow completed with reflection"

  /** What a run of the demonstration agents draws: each agent's fault, the
      generated repository and issues, the analysis and community draws, and
      the error handler's 90 daily variations. */
  datatype DemoDraws = DemoDraws(
    retrievalFault: Option<string>, meta: RepositoryMetadata, issues: seq<Issue>,
    analysisFault: Option<string>, weekday: Value, anomalies: seq<Value>, linearForecast: Value,
    insightFault: Option<string>, communityDraw: nat,
    reportFault: Option<string>, variations: seq<int>)

  // ------------------------------------------------------------------
  // Agent nodes
  // ------------------------------------------------------------------

  /** The stage keys the as-written routers read are never written by the
      demonstration agents. */
  predicate StageKeysKept(before: Dict<string, AgentStatus>, after: Dict<string, AgentStatus>)
  {
    Get(after, AnalysisKey) == Get(before, AnalysisKey) && Get(after, InsightKey) == Get(before, InsightKey)
  }

  /** What a stage keeps of the status dictionary: the stage keys the
      routers read, and the absence of repeated keys. */
  ghost predicate StatusesKept(before: Dict<string, AgentStatus>, after: Dict<string, AgentStatus>)
  {
    StageKeysKept(before, after) && (DistinctKeys(before) ==> DistinctKeys(after))
  }

  /** An agent writing under its own id keeps the stage keys. */
  lemma OwnIdKeepsStageKeys(statuses: Dict<string, AgentStatus>, id: string, v: AgentStatus)
    requires id != AnalysisKey && id != InsightKey
    ensures StatusesKept(statuses, Put(statuses, id, v))
  {
    PutGet(statuses, id, v, AnalysisKey);
    PutGet(statuses, id, v, InsightKey);
    if DistinctKeys(statuses) {
      PutKeepsDistinct(statuses, id, v);
    }
  }

  /** `OwnIdKeepsStageKeys` for every status the agent may write. */
  lemma OwnIdKeepsStatuses(statuses: Dict<string, AgentStatus>, id: string)
    requires id != AnalysisKey && id != InsightKey
    ensures forall v :: StatusesKept(statuses, Put(statuses, id, v))
  {
    forall v
      ensures StatusesKept(statuses, Put(statuses, id, v))
    {
      OwnIdKeepsStageKeys(statuses, id, v);
    }
  }

  /** The common head of the agent nodes and the graph's own nodes: a
      workflow step at `percentage`, and `key` appended to the trail. */
  method EnterStage(st: WorkflowState, key: string, percentage: real, message: string, now: Timestamp)
    modifies st`currentStep, st`completionPercentage, st`progressUpdates, st`routingDecisions
    ensures st.currentStep == WorkflowStep && st.completionPercentage == Clamp(percentage)
    ensures st.progressUpdates == old(st.progressUpdates) + [StepEvent(now, WorkflowStep, percentage, Str(message))]
    ensures st.routingDecisions == old(st.routingDecisions) + [key]
  {
    st.UpdateProgress(WorkflowStep, percentage, Str(message), now);
    st.routingDecisions := st.routingDecisions + [key];
  }

  /** `_data_retrieval_node`. */
  method DoRetrieval(st: WorkflowState, d: DemoDraws, now: Timestamp)
    modifies st`agentStatuses, st`updatedAt, st`agentOutputs, st`agentErrors, st`progressUpdates,
             st`currentStep, st`completionPercentage, st`processedData, st`rawIssues,
             st`dataQuality, st`insights, st`routingDecisions
    ensures st.routingDecisions == old(st.routingDecisions) + [RetrievalKey]
    ensures st.agentStatuses
            == Put(old(st.agentStatuses), RetrievalAgentId, if d.retrievalFault.None? then Completed else Failed)
    ensures d.retrievalFault.None? ==>
              st.rawIssues == d.issues && st.dataQuality == Some(MockAgents.QualityForCount(|d.issues|))
    ensures d.retrievalFault.Some? ==> st.rawIssues == old(st.rawIssues) && st.dataQuality == old(st.dataQuality)
    ensures StatusesKept(old(st.agentStatuses), st.agentStatuses)
  {
    EnterStage(st, RetrievalKey, 5.0, ExecutingRetrieval, now);
    MockAgents.ExecuteRetrieval(st, d.retrievalFault, d.meta, d.issues, now);
    OwnIdKeepsStageKeys(old(st.agentStatuses), RetrievalAgentId, if d.retrievalFault.None? then Completed else Failed);
  }

  /** `_analysis_node`. */
  method DoAnalysis(st: WorkflowState, d: DemoDraws, now: Timestamp)
    modifies st`agentStatuses, st`updatedAt, st`agentOutputs, st`agentErrors, st`progressUpdates,
             st`currentStep, st`completionPercentage, st`trendAnalysis, st`insights, st`routingDecisions
    ensures st.routingDecisions == old(st.routingDecisions) + [AnalysisKey]
    ensures st.agentStatuses
            == Put(old(st.agentStatuses), AnalysisAgentId,
                   if MockAgents.AnalysisFailure(st.rawIssues, d.analysisFault, d.anomalies,
                                                 st.analysisPeriodDays).None?
                   then Completed else Failed)
    ensures StatusesKept(old(st.agentStatuses), st.agentStatuses)
  {
    EnterStage(st, AnalysisKey, 25.0, ExecutingAnalysis, now);
    MockAgents.ExecuteAnalysis(st, d.analysisFault, d.weekday, d.anomalies, d.linearForecast, now);
    OwnIdKeepsStageKeys(old(st.agentStatuses), AnalysisAgentId,
                        if MockAgents.AnalysisFailure(st.rawIssues, d.analysisFault, d.anomalies,
                                                      st.analysisPeriodDays).None?
                        then Completed else Failed);
  }

  /** `_insight_generation_node`. */
  method DoInsights(st: WorkflowState, d: DemoDraws, now: Timestamp)
    modifies st`agentStatuses, st`updatedAt, st`agentOutputs, st`agentErrors, st`progressUpdates,
             st`currentStep, st`completionPercentage, st`processedData, st`insights,
             st`recommendations, st`routingDecisions
    ensures st.routingDecisions == old(st.routingDecisions) + [InsightKey]
    ensures st.agentStatuses
            == Put(old(st.agentStatuses), InsightAgentId, if d.insightFault.None? then Completed else Failed)
    ensures StatusesKept(old(st.agentStatuses), st.agentStatuses)
  {
    EnterStage(st, InsightKey, 60.0, ExecutingInsights, now);
    MockAgents.ExecuteInsight(st, d.insightFault, d.communityDraw, now);
    OwnIdKeepsStageKeys(old(st.agentStatuses), InsightAgentId, if d.insightFault.None? then Completed else Failed);
  }

  /** `_report_generation_node`. */
  method DoReports(st: WorkflowState, d: DemoDraws, now: Timestamp)
    modifies st`agentStatuses, st`updatedAt, st`agentOutputs, st`agentErrors, st`progressUpdates,
             st`currentStep, st`completionPercentage, st`finalReport, st`processedData,
             st`routingDecisions
    ensures st.routingDecisions == old(st.routingDecisions) + [ReportKey]
    ensures var failure := if d.reportFault.Some? then d.reportFault
                           else MockReport.ReportFailure(MockAgents.AiInsightsOf(old(st.processedData)));
            st.agentStatuses == Put(old(st.agentStatuses), ReportAgentId, if failure.None? then Completed else Failed)
    ensures StageKeysKept(old(st.agentStatuses), st.agentStatuses)
  {
    EnterStage(st, ReportKey, 85.0, ExecutingReports, now);
    ghost var failure := if d.reportFault.Some? then d.reportFault
                         else MockReport.ReportFailure(MockAgents.AiInsightsOf(old(st.processedData)));
    MockReport.ExecuteReport(st, d.reportFault, now);
    OwnIdKeepsStageKeys(old(st.agentStatuses), ReportAgentId, if failure.None? then Completed else Failed);
  }

  // ------------------------------------------------------------------
  // Quality gate
  // ------------------------------------------------------------------

  /** The log entry the gate adds after a successful retrieval. */
  function GateLog(retrieval: Option<AgentStatus>, quality: Option<AnalysisQuality>, issues: nat, now: Timestamp)
    : (r: seq<ProgressEntry>)
    ensures |r| == (if retrieval == Some(Completed) then 1 else 0)
  {
    if retrieval != Some(Completed) then []
    else [StepEvent(now, QualityGateStep, 20.0, Text(QualityTemplate, [Str(QualityLabel(quality)), Int(issues)]))]
  }

  /** `_quality_gate_node`: logs the assessment and appends exactly one
      sentinel, and no node name, to the trail. The entry it logs after a
      successful retrieval goes straight to the log: the current step and
      the completion stay those of the workflow step before it. */
  method DoQualityGate(st: WorkflowState, now: Timestamp)
    modifies st`currentStep, st`completionPercentage, st`progressUpdates, st`routingDecisions
    ensures st.routingDecisions
            == old(st.routingDecisions) + [QualitySentinel(RetrievalStatus(st.agentStatuses), st.dataQuality)]
    ensures st.currentStep == WorkflowStep && st.completionPercentage == 15.0
    ensures st.progressUpdates
            == old(st.progressUpdates) + [StepEvent(now, WorkflowStep, 15.0, Str(AssessingQuality))]
               + GateLog(RetrievalStatus(st.agentStatuses), st.dataQuality, |st.rawIssues|, now)
  {
    st.UpdateProgress(WorkflowStep, 15.0, Str(AssessingQuality), now);
    var retrieval := RetrievalStatus(st.agentStatuses);
    if retrieval != Some(Completed) {
      st.routingDecisions := st.routingDecisions + [GateFailed];
      assert st.progressUpdates == st.progressUpdates + [];
      return;
    }
    var quality := st.dataQuality;
    st.progressUpdates := st.progressUpdates
      + [StepEvent(now, QualityGateStep, 20.0, Text(QualityTemplate, [Str(QualityLabel(quality)), Int(|st.rawIssues|)]))];
    if quality == Some(Insufficient) {
      st.routingDecisions := st.routingDecisions + [InsufficientData];
    } else if quality.Some? {
      st.routingDecisions := st.routingDecisions + [ProceedToAnalysis];
    } else {
      st.routingDecisions := st.routingDecisions + [QualityUnknown];
    }
  }

  // ------------------------------------------------------------------
  // Error handler
  // ------------------------------------------------------------------

  /** `max(0, issues // 90 + variation)`: one day of the mock series. */
  function DailyCount(issues: nat, variation: int): nat
  {
    if issues / 90 + variation < 0 then 0 else issues / 90 + variation
  }

  /** The mock series, newest day first. */
  function MockDailyCounts(issues: nat, variations: seq<int>): (r: seq<nat>)
    requires |variations| == 90
  {
    seq(90, i requires 0 <= i < 90 => DailyCount(issues, variations[i]))
  }

  /** What `random.randint(-2, 3)` can draw, 90 times. */
  predicate Variations(variations: seq<int>)
  {
    |variations| == 90 && forall v <- variations :: -2 <= v <= 3
  }

  /** Every day of the mock series lies within the draw's reach of the
      average day: never below zero nor above `issues // 90 + 3`, and at
      least `issues // 90 - 2`. */
  lemma DailyCountsBounded(issues: nat, variations: seq<int>)
    requires Variations(variations)
    ensures var r := MockDailyCounts(issues, variations);
            && |r| == 90
            && forall i :: 0 <= i < 90 ==> issues / 90 - 2 <= r[i] <= issues / 90 + 3
  {
    var r := MockDailyCounts(issues, variations);
    forall i | 0 <= i < 90
      ensures issues / 90 - 2 <= r[i] <= issues / 90 + 3
    {
      assert variations[i] in variations;
    }
  }

  /** `_generate_mock_time_series`: 90 days, one count per day. The dates
      it keys the counts by are the positions, newest first. */
  method MockTimeSeries(issues: nat, variations: seq<int>) returns (daily: seq<nat>)
    requires Variations(variations)
    ensures daily == MockDailyCounts(issues, variations)
  {
    daily := [];
    for i := 0 to 90
      invariant |daily| == i
      invariant forall j :: 0 <= j < i ==> daily[j] == DailyCount(issues, variations[j])
    {
      var base := issues / 90;
      var count := if base + variations[i] < 0 then 0 else base + variations[i];
      daily := daily + [count];
    }
  }

  const RecoverySuggestions: seq<string> := [
    "Check API credentials and rate limits",
    "Verify repository URL format",
    "Ensure sufficient data for analysis"]

  /** `{agent_id: state.agent_errors.get(agent_id) for agent_id in failed}`. */
  function ErrorMessages(failed: seq<string>, errors: Dict<string, string>): (r: Dict<string, Option<string>>)
  {
    seq(|failed|, i requires 0 <= i < |failed| => (failed[i], Get(errors, failed[i])))
  }

  /** The fallback dashboard over `issues` issues: half of them (rounded
      down) open, fixed fractions for types, priorities and labels. */
  function FallbackDashboardOf(issues: nat, daily: seq<nat>): FallbackDashboard
  {
    FallbackDashboard(
      daily, issues / 2, issues - issues / 2,
      [("bug", issues / 3), ("feature", issues / 3), ("enhancement", issues / 3)],
      [("high", issues / 4), ("medium", issues / 2), ("low", issues / 4)],
      [("bug", issues / 4), ("enhancement", issues / 5), ("documentation", issues / 6),
       ("help wanted", issues / 8), ("good first issue", issues / 10), ("question", issues / 12),
       ("duplicate", issues / 15), ("invalid", issues / 20)],
      issues)
  }

  const FallbackStatus: string := "fallback_completion"
  const FallbackConfidence: real := 0.75

  /** The single placeholder insight and recommendation of an empty list. */
  function PlaceholderInsight(issues: nat, url: string): ReportInsight
  {
    ReportInsight("error_recovery", "data_analysis",
                  Text("Successfully analyzed {} issues from {}", [Int(issues), Str(url)]), 0.8)
  }

  function PlaceholderRecommendation(): ReportRecommendation
  {
    ReportRecommendation("workflow", Str("Implement comprehensive issue analysis workflow"), "high",
                         "Current analysis completed with fallback data")
  }

  /** The fallback report of `_error_handler_node`. The fixed prose of the
      executive summary, the technical analysis and the action plan is not
      modelled. */
  function FallbackReportOf(url: string, periodDays: int, sessionId: string, issues: nat,
                            insights: seq<InsightRecord>, recommendations: seq<RecommendationRecord>,
                            statuses: Dict<string, AgentStatus>, errors: Dict<string, string>,
                            daily: seq<nat>, now: Timestamp): FinalReport
  {
    var failed := KeysWhere(statuses, Failed);
    FallbackReport(
      Metadata(url, now, periodDays, issues, sessionId, FallbackConfidence, Some(true), Some(FallbackStatus)),
      FallbackDashboardOf(issues, daily),
      if issues > 50 then "Good" else "Limited",
      if insights != [] then Kept(insights) else Substituted(PlaceholderInsight(issues, url)),
      if recommendations != [] then Kept(recommendations) else Substituted(PlaceholderRecommendation()),
      insights,
      ErrorSummary(failed, ErrorMessages(failed, errors), issues, |insights|, |recommendations|,
                   RecoverySuggestions),
      None)
  }

  /** What the error handler promises: the failed agents are exactly the
      FAILED keys, each once, with their error messages under exactly those
      keys; open and closed counts add up to the issue count; the status is
      a fallback completion with confidence 0.75; non-empty insights and
      recommendations are kept and empty ones get exactly one placeholder. */
  lemma FallbackReportFacts(url: string, periodDays: int, sessionId: string, issues: nat,
                            insights: seq<InsightRecord>, recommendations: seq<RecommendationRecord>,
                            statuses: Dict<string, AgentStatus>, errors: Dict<string, string>,
                            daily: seq<nat>, now: Timestamp)
    requires DistinctKeys(statuses)
    ensures var r := FallbackReportOf(url, periodDays, sessionId, issues, insights, recommendations,
                                      statuses, errors, daily, now);
            && r.FallbackReport?
            && (forall a :: a in r.errorSummary.failedAgents <==> Get(statuses, a) == Some(Failed))
            && (forall i, j :: 0 <= i < j < |r.errorSummary.failedAgents|
                               ==> r.errorSummary.failedAgents[i] != r.errorSummary.failedAgents[j])
            && Keys(r.errorSummary.errorMessages) == r.errorSummary.failedAgents
            && (forall a :: Get(statuses, a) == Some(Failed)
                            ==> Get(r.errorSummary.errorMessages, a) == Some(Get(errors, a)))
            && r.fallbackDashboard.openIssues + r.fallbackDashboard.closedIssues == issues
            && r.metadata.status == Some(FallbackStatus) && r.metadata.confidenceScore == 0.75
            && r.metadata.totalIssuesAnalyzed == issues
            && (insights != [] ==> r.detailedInsightsOrPlaceholder == Kept(insights))
            && (insights == [] ==> r.detailedInsightsOrPlaceholder.Substituted?)
            && (recommendations != [] ==> r.recommendationsOrPlaceholder == Kept(recommendations))
            && (recommendations == [] ==> r.recommendationsOrPlaceholder.Substituted?)
  {
    var failed := KeysWhere(statuses, Failed);
    KeysWhereExact(statuses, Failed);
    MessagesFacts(failed, errors);
  }

  /** The message dictionary has the failed agents as keys, in order, and
      maps each to its recorded error, if any. */
  lemma {:induction false} MessagesFacts(failed: seq<string>, errors: Dict<string, string>)
    ensures Keys(ErrorMessages(failed, errors)) == failed
    ensures forall a :: a in failed ==> Get(ErrorMessages(failed, errors), a) == Some(Get(errors, a))
  {
    if failed != [] {
      MessagesFacts(failed[1..], errors);
      assert ErrorMessages(failed, errors)[1..] == ErrorMessages(failed[1..], errors);
    }
  }

  /** `_error_handler_node`: the fallback report replaces whatever report
      there was, and the run is marked as recovered and complete. */
  method HandleErrors(st: WorkflowState, variations: seq<int>, now: Timestamp)
    requires Variations(variations)
    modifies st`currentStep, st`completionPercentage, st`progressUpdates, st`routingDecisions, st`finalReport
    ensures st.routingDecisions == old(st.routingDecisions) + [ErrorHandlerKey]
    ensures st.progressUpdates == old(st.progressUpdates) + [StepEvent(now, WorkflowStep, 90.0, Str(HandlingErrors))]
    ensures st.finalReport
            == Some(FallbackReportOf(st.repositoryUrl, st.analysisPeriodDays, st.sessionId, |st.rawIssues|,
                                     st.insights, st.recommendations, st.agentStatuses, st.agentErrors,
                                     MockDailyCounts(|st.rawIssues|, variations), now))
    ensures st.currentStep == ErrorRecoveryStep && st.completionPercentage == 100.0
  {
    EnterStage(st, ErrorHandlerKey, 90.0, HandlingErrors, now);
    var daily := MockTimeSeries(|st.rawIssues|, variations);
    st.finalReport := Some(FallbackReportOf(st.repositoryUrl, st.analysisPeriodDays, st.sessionId,
                                            |st.rawIssues|, st.insights, st.recommendations,
                                            st.agentStatuses, st.agentErrors, daily, now));
    st.currentStep := ErrorRecoveryStep;
    st.completionPercentage := 100.0;
  }

  // ------------------------------------------------------------------
  // Reflection
  // ------------------------------------------------------------------

  /** The reflection of a run, from the state when it is taken. */
  function ReflectionOf(statuses: Dict<string, AgentStatus>, issues: nat, insights: nat, recommendations: nat,
                        quality: Option<AnalysisQuality>, trail: seq<string>, createdAt: Timestamp,
                        now: Timestamp): Reflection
  {
    var successful := KeysWhere(statuses, Completed);
    var failed := KeysWhere(statuses, Failed);
    var score := WorkflowScore(|successful|, issues, insights, recommendations);
    Reflection(score, successful, failed, trail, QualityLabel(quality), now - createdAt,
               DataCoverage(issues), InsightQuality(insights), RecommendationQuality(recommendations),
               ImprovementSuggestions(score, issues, quality, insights, failed))
  }

  /** What a reflection promises: the successful and failed agents are
      exactly the COMPLETED and FAILED keys; each quality metric lies in
      [0, 1] and saturates at 100 issues, 10 insights and 5
      recommendations; the score lies in [0, 1] whenever at most four
      statuses are COMPLETED. */
  lemma ReflectionFacts(statuses: Dict<string, AgentStatus>, issues: nat, insights: nat, recommendations: nat,
                        quality: Option<AnalysisQuality>, trail: seq<string>, createdAt: Timestamp,
                        now: Timestamp)
    requires DistinctKeys(statuses)
    ensures var r := ReflectionOf(statuses, issues, insights, recommendations, quality, trail, createdAt, now);
            && (forall a :: a in r.successfulAgents <==> Get(statuses, a) == Some(Completed))
            && (forall a :: a in r.failedAgents <==> Get(statuses, a) == Some(Failed))
            && 0.0 <= r.dataCoverage <= 1.0 && (r.dataCoverage == 1.0 <==> issues >= 100)
            && 0.0 <= r.insightQuality <= 1.0 && (r.insightQuality == 1.0 <==> insights >= 10)
            && 0.0 <= r.recommendationQuality <= 1.0 && (r.recommendationQuality == 1.0 <==> recommendations >= 5)
            && r.workflowScore >= 0.0
            && (|r.successfulAgents| <= AgentCount ==> r.workflowScore <= 1.0)
            && (DebugAgents(r.failedAgents) in r.improvementSuggestions <==> r.failedAgents != [])
  {
    KeysWhereExact(statuses, Completed);
    KeysWhereExact(statuses, Failed);
  }

  const SuccessfulExecutions: string := "successful_executions"
  const FailedExecutions: string := "failed_executions"
  const PatternCap: nat := 50

  /** The run's lesson for every memory: repository, data quality and
      score. */
  datatype Lesson = Lesson(repository: string, quality: string, score: real)

  /** One agent's memory after the lesson: one of its two counters bumped,
      the pattern appended to a history of at most 50. */
  function Taught(m: AgentMemory, status: AgentStatus, lesson: Lesson, now: Timestamp): AgentMemory
  {
    var counter := if status == Completed then SuccessfulExecutions else FailedExecutions;
    var pattern := WorkflowPattern(lesson.repository, lesson.quality, StatusValue(status), lesson.score, now);
    m.(performanceMetrics := Bump(m.performanceMetrics, counter),
       workflowPatterns := KeepLast(m.workflowPatterns + [pattern], PatternCap),
       lastUpdated := now)
  }

  /** The status the lesson reads for a key: PENDING when absent. */
  function StatusOr(statuses: Dict<string, AgentStatus>, key: string): AgentStatus
  {
    GetOr(statuses, key, Pending)
  }

  /** The memories after one agent key is taught: got or created, then
      updated in place. */
  function TeachOne(memories: Dict<string, AgentMemory>, key: string, statuses: Dict<string, AgentStatus>,
                    lesson: Lesson, now: Timestamp): Dict<string, AgentMemory>
  {
    var ms := MemoriesWith(memories, key, now);
    Put(ms, key, Taught(Get(ms, key).value, StatusOr(statuses, key), lesson, now))
  }

  /** The memories after each key is taught in turn. */
  function TeachAll(memories: Dict<string, AgentMemory>, keys: seq<string>, statuses: Dict<string, AgentStatus>,
                    lesson: Lesson, now: Timestamp): Dict<string, AgentMemory>
  {
    if keys == [] then memories
    else TeachOne(TeachAll(memories, keys[..|keys| - 1], statuses, lesson, now), keys[|keys| - 1], statuses,
                  lesson, now)
  }

  /** `_update_agent_memories_with_reflection`: one pass over the
      orchestrator's own agent keys. */
  method TeachAgents(st: WorkflowState, lesson: Lesson, now: Timestamp)
    modifies st`agentMemories
    ensures st.agentMemories == TeachAll(old(st.agentMemories), AgentKeys, st.agentStatuses, lesson, now)
  {
    for i := 0 to |AgentKeys|
      invariant st.agentMemories == TeachAll(old(st.agentMemories), AgentKeys[..i], st.agentStatuses, lesson, now)
    {
      var key := AgentKeys[i];
      var memory := st.GetAgentMemory(key, now);
      var status := GetOr(st.agentStatuses, key, Pending);
      st.agentMemories := Put(st.agentMemories, key, Taught(memory, status, lesson, now));
      assert AgentKeys[..i + 1][..i] == AgentKeys[..i];
    }
    assert AgentKeys[..|AgentKeys|] == AgentKeys;
  }

    /** The lesson bumps exactly one counter by one: successes when the
      agent's status is COMPLETED, failures otherwise; no other metric
      changes. */
  lemma TaughtCounts(m: AgentMemory, status: AgentStatus, lesson: Lesson, now: Timestamp)
    ensures var t := Taught(m, status, lesson, now);
            && GetOr(t.performanceMetrics, SuccessfulExecutions, 0)
               == GetOr(m.performanceMetrics, SuccessfulExecutions, 0) + (if status == Completed then 1 else 0)
            && GetOr(t.performanceMetrics, FailedExecutions, 0)
               == GetOr(m.performanceMetrics, FailedExecutions, 0) + (if status == Completed then 0 else 1)
            && (forall k :: k != SuccessfulExecutions && k != FailedExecutions
                            ==> Get(t.performanceMetrics, k) == Get(m.performanceMetrics, k))
  {
    var counter := if status == Completed then SuccessfulExecutions else FailedExecutions;
    var t := Taught(m, status, lesson, now);
    assert t.performanceMetrics == Bump(m.performanceMetrics, counter);
    BumpGet(m.performanceMetrics, counter, SuccessfulExecutions);
    BumpGet(m.performanceMetrics, counter, FailedExecutions);
    forall k | k != SuccessfulExecutions && k != FailedExecutions
      ensures Get(t.performanceMetrics, k) == Get(m.performanceMetrics, k)
    {
      PutGet(m.performanceMetrics, counter, GetOr(m.performanceMetrics, counter, 0) + 1, k);
    }
  }

  /** The lesson's pattern ends a non-empty history of at most 50; the
      conversations and strategic insights are untouched. */
  lemma TaughtPatterns(m: AgentMemory, status: AgentStatus, lesson: Lesson, now: Timestamp)
    ensures var t := Taught(m, status, lesson, now);
            && 0 < |t.workflowPatterns| <= PatternCap
            && t.workflowPatterns[|t.workflowPatterns| - 1]
               == WorkflowPattern(lesson.repository, lesson.quality, StatusValue(status), lesson.score, now)
            && t.conversations == m.conversations && t.strategicInsights == m.strategicInsights
  {
    var pattern := WorkflowPattern(lesson.repository, lesson.quality, StatusValue(status), lesson.score, now);
    CappedAppend(m.workflowPatterns, pattern, PatternCap);
  }

  /** One key's teaching changes that key's memory alone. */
  lemma TeachOneGet(memories: Dict<string, AgentMemory>, key: string, statuses: Dict<string, AgentStatus>,
                    lesson: Lesson, now: Timestamp, k: string)
    ensures Get(TeachOne(memories, key, statuses, lesson, now), k)
            == if k == key
               then Some(Taught(Get(MemoriesWith(memories, key, now), key).value, StatusOr(statuses, key), lesson, now))
               else Get(memories, k)
  {
    var ms := MemoriesWith(memories, key, now);
    PutGet(ms, key, Taught(Get(ms, key).value, StatusOr(statuses, key), lesson, now), k);
  }

  /** Teaching a list of distinct keys teaches each of them exactly once,
      from its memory as it was (or a new one), and leaves every other
      memory alone. */
  lemma {:induction false} TeachAllEach(memories: Dict<string, AgentMemory>, keys: seq<string>,
                                        statuses: Dict<string, AgentStatus>, lesson: Lesson, now: Timestamp,
                                        k: string)
    requires forall i, j :: 0 <= i < j < |keys| ==> keys[i] != keys[j]
    ensures k in keys ==>
              Get(TeachAll(memories, keys, statuses, lesson, now), k)
              == Some(Taught(Get(MemoriesWith(memories, k, now), k).value, StatusOr(statuses, k), lesson, now))
    ensures k !in keys ==> Get(TeachAll(memories, keys, statuses, lesson, now), k) == Get(memories, k)
  {
    if keys != [] {
      var init := keys[..|keys| - 1];
      var last := keys[|keys| - 1];
      var before := TeachAll(memories, init, statuses, lesson, now);
      assert keys == init + [last];
      assert forall i, j :: 0 <= i < j < |init| ==> init[i] != init[j] by {
        forall i, j | 0 <= i < j < |init| ensures init[i] != init[j] {
          assert init[i] == keys[i] && init[j] == keys[j];
        }
      }
      TeachAllEach(memories, init, statuses, lesson, now, k);
      TeachOneGet(before, last, statuses, lesson, now, k);
      if k == last {
        LastNotEarlier(keys);
        MemoriesWithSameGet(before, memories, k, now);
      }
    }
  }

  /** The last of distinct keys is not among the earlier ones. */
  lemma LastNotEarlier(keys: seq<string>)
    requires keys != []
    requires forall i, j :: 0 <= i < j < |keys| ==> keys[i] != keys[j]
    ensures keys[|keys| - 1] !in keys[..|keys| - 1]
  {
    var init := keys[..|keys| - 1];
    forall i | 0 <= i < |init|
      ensures init[i] != keys[|keys| - 1]
    {
      assert init[i] == keys[i];
    }
  }

  /** Get-or-create depends only on what the key holds. */
  lemma MemoriesWithSameGet(a: Dict<string, AgentMemory>, b: Dict<string, AgentMemory>, k: string, now: Timestamp)
    requires Get(a, k) == Get(b, k)
    ensures Get(MemoriesWith(a, k, now), k) == Get(MemoriesWith(b, k, now), k)
  {
    PutGet(a, k, NewMemory(k, now), k);
    PutGet(b, k, NewMemory(k, now), k);
  }

  /** For each of the orchestrator's agent keys, the reflection bumps
      exactly one of its memory's counters by one, a missing status counting
      as a failure, and leaves at most 50 patterns ending with this run's. */
  lemma ReflectionTeaches(memories: Dict<string, AgentMemory>, statuses: Dict<string, AgentStatus>,
                          lesson: Lesson, now: Timestamp, k: string)
    requires k in AgentKeys
    ensures var before := Get(MemoriesWith(memories, k, now), k).value;
            var after := Get(TeachAll(memories, AgentKeys, statuses, lesson, now), k);
            var completed := Get(statuses, k) == Some(Completed);
            && after.Some?
            && GetOr(after.value.performanceMetrics, SuccessfulExecutions, 0)
               == GetOr(before.performanceMetrics, SuccessfulExecutions, 0) + (if completed then 1 else 0)
            && GetOr(after.value.performanceMetrics, FailedExecutions, 0)
               == GetOr(before.performanceMetrics, FailedExecutions, 0) + (if completed then 0 else 1)
            && 0 < |after.value.workflowPatterns| <= PatternCap
  {
    TeachAllEach(memories, AgentKeys, statuses, lesson, now, k);
    TaughtCounts(Get(MemoriesWith(memories, k, now), k).value, StatusOr(statuses, k), lesson, now);
    TaughtPatterns(Get(MemoriesWith(memories, k, now), k).value, StatusOr(statuses, k), lesson, now);
  }

  /** `if state.final_report: state.final_report["workflow_reflection"] = r`.
      A report is never an empty dictionary, so only an absent one is
      skipped. */
  method AttachReflection(st: WorkflowState, r: Reflection)
    modifies st`finalReport
    ensures st.finalReport == if old(st.finalReport).Some? then Some(old(st.finalReport).value.(reflection := Some(r))) else None
  {
    if st.finalReport.Some? {
      st.finalReport := Some(st.finalReport.value.(reflection := Some(r)));
    }
  }

  /** The reflection `r` attached to the report and taught to every
      agent's memory. */
  method Learn(st: WorkflowState, r: Reflection, now: Timestamp)
    modifies st`finalReport, st`agentMemories
    ensures st.finalReport == (if old(st.finalReport).Some?
                               then Some(old(st.finalReport).value.(reflection := Some(r))) else None)
    ensures st.agentMemories == TeachAll(old(st.agentMemories), AgentKeys, old(st.agentStatuses),
                                         Lesson(old(st.repositoryUrl), QualityLabel(old(st.dataQuality)),
                                                r.workflowScore),
                                         now)
  {
    AttachReflection(st, r);
    TeachAgents(st, Lesson(st.repositoryUrl, QualityLabel(st.dataQuality), r.workflowScore), now);
  }

  /** The reflection node's progress: 95% on entry, 100% and the
      completed step on exit, and its key on the trail. */
  method ReflectionProgress(st: WorkflowState, now: Timestamp)
    modifies st`currentStep, st`completionPercentage, st`progressUpdates, st`routingDecisions
    ensures st.routingDecisions == old(st.routingDecisions) + [ReflectionKey]
    ensures st.currentStep == CompletedStep && st.completionPercentage == 100.0
    ensures st.progressUpdates == old(st.progressUpdates) + [StepEvent(now, WorkflowStep, 95.0, Str(PerformingReflection))]
                                  + [StepEvent(now, WorkflowStep, 100.0, Str(ReflectionDone))]
  {
    EnterStage(st, ReflectionKey, 95.0, PerformingReflection, now);
    st.UpdateProgress(WorkflowStep, 100.0, Str(ReflectionDone), now);
    st.currentStep := CompletedStep;
  }

  /** `_reflection_node`: the reflection, whose trail already ends with the
      node's own key, is attached to the final report only when there is
      one; every agent's memory learns from the run. The reflection reads
      none of the fields the progress update and the trail append change,
      so it is taken first here. */
  method Reflect(st: WorkflowState, now: Timestamp) returns (r: Reflection)
    modifies st`currentStep, st`completionPercentage, st`progressUpdates, st`routingDecisions,
             st`finalReport, st`agentMemories
    ensures st.routingDecisions == old(st.routingDecisions) + [ReflectionKey]
    ensures r == ReflectionOf(old(st.agentStatuses), old(|st.rawIssues|), old(|st.insights|),
                              old(|st.recommendations|), old(st.dataQuality),
                              old(st.routingDecisions) + [ReflectionKey], old(st.createdAt), now)
    ensures st.finalReport == (if old(st.finalReport).Some?
                               then Some(old(st.finalReport).value.(reflection := Some(r))) else None)
    ensures st.agentMemories == TeachAll(old(st.agentMemories), AgentKeys, old(st.agentStatuses),
                                         Lesson(old(st.repositoryUrl), QualityLabel(old(st.dataQuality)),
                                                r.workflowScore),
                                         now)
    ensures st.currentStep == CompletedStep && st.completionPercentage == 100.0
    ensures st.progressUpdates == old(st.progressUpdates) + [StepEvent(now, WorkflowStep, 95.0, Str(PerformingReflection))]
                                  + [StepEvent(now, WorkflowStep, 100.0, Str(ReflectionDone))]
  {
    r := ReflectionOf(st.agentStatuses, |st.rawIssues|, |st.insights|, |st.recommendations|,
                      st.dataQuality, st.routingDecisions + [ReflectionKey], st.createdAt, now);
    Learn(st, r, now);
    ghost var taught := st.agentMemories;
    ReflectionProgress(st, now);
    assert st.agentMemories == taught;
  }

  // ------------------------------------------------------------------
  // Driver
  // ------------------------------------------------------------------

  /** What a stage appends to the routing trail: its own name, or for the
      gate its sentinel. */
  function Decision(s: Stage, statuses: Dict<string, AgentStatus>, quality: Option<AnalysisQuality>): string
  {
    match s
    case RetrievalNode => RetrievalKey
    case QualityGateNode => QualitySentinel(RetrievalStatus(statuses), quality)
    case AnalysisNode => AnalysisKey
    case InsightNode => InsightKey
    case ReportNode => ReportKey
    case ErrorNode => ErrorHandlerKey
    case ReflectionNode => ReflectionKey
  }

  /** Runs the body of one stage. */
  method RunStage(st: WorkflowState, s: Stage, d: DemoDraws, now: Timestamp)
    requires Variations(d.variations)
    modifies st`agentStatuses, st`updatedAt, st`agentOutputs, st`agentErrors, st`progressUpdates,
             st`currentStep, st`completionPercentage, st`processedData, st`rawIssues, st`dataQuality,
             st`insights, st`recommendations, st`trendAnalysis, st`finalReport, st`agentMemories,
             st`routingDecisions
    ensures st.routingDecisions
            == old(st.routingDecisions) + [Decision(s, old(st.agentStatuses), old(st.dataQuality))]
    ensures StatusesKept(old(st.agentStatuses), st.agentStatuses)
  {
    match s
    case RetrievalNode =>
      DoRetrieval(st, d, now);
    case QualityGateNode =>
      DoQualityGate(st, now);
    case AnalysisNode =>
      DoAnalysis(st, d, now);
    case InsightNode =>
      DoInsights(st, d, now);
    case ReportNode =>
      OwnIdKeepsStatuses(st.agentStatuses, ReportAgentId);
      DoReports(st, d, now);
    case ErrorNode =>
      HandleErrors(st, d.variations, now);
    case ReflectionNode =>
      var _ := Reflect(st, now);
  }

  /** Only the two terminal stages lead to the end: the report stage's
      router always picks the reflection. */
  lemma FinishOnlyAtTerminals(s: Stage, statuses: Dict<string, AgentStatus>, trail: seq<string>, fixed: bool)
    ensures Next(s, statuses, trail, fixed).Finish? <==> s == ErrorNode || s == ReflectionNode
  {
  }

  /** One step of the run stays on the graph and climbs in rank; it ends
      only at a terminal stage; and while the stage keys are not COMPLETED
      under the routers as written, it never reaches the reports or the
      reflection. */
  lemma StepOnGraph(path: seq<Stage>, s: Stage, statuses: Dict<string, AgentStatus>, trail: seq<string>,
                    fixed: bool, stuck: bool)
    requires IsPath(path + [s])
    requires stuck ==> && !fixed && Get(statuses, AnalysisKey) != Some(Completed)
                       && Get(statuses, InsightKey) != Some(Completed)
                       && s != ReportNode && s != ReflectionNode
    ensures var t := Next(s, statuses, trail, fixed);
            && (t.Goto? ==> IsPath(path + [s] + [t.stage]) && Rank(s) < Rank(t.stage))
            && (t.Finish? ==> s == ErrorNode || s == ReflectionNode)
            && (stuck && t.Goto? ==> t.stage != ReportNode && t.stage != ReflectionNode)
            && (stuck && t.Finish? ==> s == ErrorNode)
  {
    var t := Next(s, statuses, trail, fixed);
    FinishOnlyAtTerminals(s, statuses, trail, fixed);
    if t.Goto? {
      LabelLeadsTo(s, Route(s, statuses, trail, fixed));
      EdgesClimb(s, t.stage);
      var p := path + [s] + [t.stage];
      assert p[..|p| - 1] == path + [s];
      assert forall i :: 0 < i < |p| - 1 ==> p[i] == (path + [s])[i];
    }
  }

  /** Appending a stage's decision keeps the trail's prefix and records
      every non-gate stage of the path at its position. */
  lemma TrailStep(trail0: seq<string>, before: seq<string>, after: seq<string>, path: seq<Stage>, s: Stage)
    requires |before| == |trail0| + |path| && before[..|trail0|] == trail0
    requires forall i :: 0 <= i < |path| && path[i] != QualityGateNode
                         ==> before[|trail0| + i] == Decision(path[i], [], None)
    requires |after| == |before| + 1 && after[..|before|] == before
    requires s != QualityGateNode ==> after[|before|] == Decision(s, [], None)
    ensures |after| == |trail0| + |path + [s]| && after[..|trail0|] == trail0
    ensures forall i :: 0 <= i < |path + [s]| && (path + [s])[i] != QualityGateNode
                        ==> after[|trail0| + i] == Decision((path + [s])[i], [], None)
  {
    assert after[..|trail0|] == before[..|trail0|];
    forall i | 0 <= i < |path + [s]| && (path + [s])[i] != QualityGateNode
      ensures after[|trail0| + i] == Decision((path + [s])[i], [], None)
    {
      if i < |path| {
        assert after[|trail0| + i] == after[..|before|][|trail0| + i];
      }
    }
  }

  /** The run of the graph from the data retrieval stage: the stages it
      visits form a path of the graph that ends at the error handler or the
      reflection, and each stage leaves its decision in the trail. With the
      routers as written, a state whose stage keys "analysis" and
      "insight_generation" are not COMPLETED (a fresh one, say) never
      reaches the reports: the run always ends at the error handler. */
  method RunWorkflow(st: WorkflowState, d: DemoDraws, fixed: bool, now: Timestamp) returns (path: seq<Stage>)
    requires Variations(d.variations)
    modifies st`agentStatuses, st`updatedAt, st`agentOutputs, st`agentErrors, st`progressUpdates,
             st`currentStep, st`completionPercentage, st`processedData, st`rawIssues, st`dataQuality,
             st`insights, st`recommendations, st`trendAnalysis, st`finalReport, st`agentMemories,
             st`routingDecisions
    ensures IsPath(path)
    ensures path[|path| - 1] == ErrorNode || path[|path| - 1] == ReflectionNode
    ensures |st.routingDecisions| == |old(st.routingDecisions)| + |path|
    ensures st.routingDecisions[..|old(st.routingDecisions)|] == old(st.routingDecisions)
    ensures forall i :: 0 <= i < |path| && path[i] != QualityGateNode
                        ==> st.routingDecisions[|old(st.routingDecisions)| + i] == Decision(path[i], [], None)
    ensures !fixed && Get(old(st.agentStatuses), AnalysisKey) != Some(Completed)
            && Get(old(st.agentStatuses), InsightKey) != Some(Completed)
            ==> path[|path| - 1] == ErrorNode && ReportNode !in path
    ensures DistinctKeys(old(st.agentStatuses)) ==> DistinctKeys(st.agentStatuses)
  {
    ghost var trail0 := st.routingDecisions;
    ghost var statuses0 := st.agentStatuses;
    ghost var stuck := !fixed && Get(statuses0, AnalysisKey) != Some(Completed)
                       && Get(statuses0, InsightKey) != Some(Completed);
    var t := Goto(RetrievalNode);
    path := [];
    while t.Goto?
      invariant t.Goto? ==> IsPath(path + [t.stage])
      invariant t.Finish? ==> IsPath(path) && (path[|path| - 1] == ErrorNode || path[|path| - 1] == ReflectionNode)
      invariant |st.routingDecisions| == |trail0| + |path| && st.routingDecisions[..|trail0|] == trail0
      invariant forall i :: 0 <= i < |path| && path[i] != QualityGateNode
                            ==> st.routingDecisions[|trail0| + i] == Decision(path[i], [], None)
      invariant StageKeysKept(statuses0, st.agentStatuses)
      invariant DistinctKeys(statuses0) ==> DistinctKeys(st.agentStatuses)
      invariant stuck ==> ReportNode !in path && (t.Goto? ==> t.stage != ReportNode && t.stage != ReflectionNode)
      invariant stuck && t.Finish? ==> path[|path| - 1] == ErrorNode
      decreases if t.Goto? then 6 - Rank(t.stage) else 0
    {
      var s := t.stage;
      ghost var before := st.routingDecisions;
      RunStage(st, s, d, now);
      TrailStep(trail0, before, st.routingDecisions, path, s);
      StepOnGraph(path, s, st.agentStatuses, st.routingDecisions, fixed, stuck);
      path := path + [s];
      t := Next(s, st.agentStatuses, st.routingDecisions, fixed);
    }
  }

  /** The exception branch of `execute_workflow_with_state`: the initial
      state records the orchestrator as failed and carries a failure report
      in place of any other. */
  method RecordCatastrophe(st: WorkflowState, error: string, now: Timestamp)
    modifies st`agentStatuses, st`updatedAt, st`agentOutputs, st`agentErrors, st`progressUpdates, st`finalReport
    ensures st.agentStatuses == Put(old(st.agentStatuses), OrchestratorId, Failed)
    ensures st.agentErrors == Put(old(st.agentErrors), OrchestratorId, error)
    ensures st.agentOutputs == old(st.agentOutputs)
    ensures st.progressUpdates == old(st.progressUpdates) + [StatusEvent(now, OrchestratorId, Failed)]
    ensures st.finalReport == Some(WorkflowFailed(error, now, None))
  {
    st.UpdateAgentStatus(OrchestratorId, Failed, None, Some(error), now);
    st.finalReport := Some(WorkflowFailed(error, now, None));
  }
}
