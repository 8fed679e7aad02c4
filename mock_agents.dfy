/** The demonstration agents: stand-ins for the four real agents that run
    without network or language model. Each one marks itself RUNNING, reports
    its progress, and ends COMPLETED or FAILED under its own id. Generated
    data, random draws and the clock are parameters; an exception raised by
    the data generator or the event loop is the `fault` parameter, raised at
    the agent's first suspension point. */
module MockAgents {
  import opened Base
  import opened Json
  import opened State
  import opened Counting
  import opened Routing
  import opened IssueMetrics

  /** A mock agent that fails at its first suspension point: marked running,
      progress 10 on `step`, then marked failed with `error`. */
  method FailAtFirstAwait(st: WorkflowState, agentId: string, step: string, message: string,
                          error: string, now: Timestamp)
    modifies st`agentStatuses, st`updatedAt, st`agentErrors, st`progressUpdates,
             st`currentStep, st`completionPercentage, st`agentOutputs
    ensures st.agentStatuses == Put(old(st.agentStatuses), agentId, Failed)
    ensures st.agentErrors == Put(old(st.agentErrors), agentId, error)
    ensures st.agentOutputs == old(st.agentOutputs)
    ensures st.currentStep == step && st.completionPercentage == 10.0
    ensures st.progressUpdates == old(st.progressUpdates) + [StatusEvent(now, agentId, Running)]
                                  + [StepEvent(now, step, 10.0, Str(message))] + [StatusEvent(now, agentId, Failed)]
  {
    st.UpdateAgentStatus(agentId, Running, None, None, now);
    st.UpdateProgress(step, 10.0, Str(message), now);
    st.UpdateAgentStatus(agentId, Failed, None, Some(error), now);
    PutTwice(old(st.agentStatuses), agentId, Running, Failed);
  }

  // ------------------------------------------------------------------
  // Data retrieval
  // ------------------------------------------------------------------

  /** The data quality of a batch of `n` issues. */
  function QualityForCount(n: nat): (q: AnalysisQuality)
    ensures q == Excellent <==> n >= 100
    ensures q == Good <==> 50 <= n < 100
    ensures q == Poor <==> 20 <= n < 50
    ensures q == Insufficient <==> n < 20
  {
    if n >= 100 then Excellent
    else if n >= 50 then Good
    else if n >= 20 then Poor
    else Insufficient
  }

  /** The qualities from worst to best. */
  function QualityRank(q: AnalysisQuality): nat
  {
    match q
    case Insufficient => 0
    case Poor => 1
    case Good => 2
    case Excellent => 3
  }

  /** More issues never give a worse quality. */
  lemma QualityMonotone(m: nat, n: nat)
    requires m <= n
    ensures QualityRank(QualityForCount(m)) <= QualityRank(QualityForCount(n))
  {
  }

  const IssuesCountKey := "issues_count"
  const DataQualityKey := "data_quality"
  const RepositoryKey := "repository"
  const RetrievalSuccess := "data_retrieval_success"

  function RetrievalOutput(count: nat, q: AnalysisQuality, fullName: string): Value
  {
    Object([(IssuesCountKey, Int(count)), (DataQualityKey, Str(QualityValue(q))),
            (RepositoryKey, Str(fullName))])
  }

  function RetrievalInsight(count: nat, meta: RepositoryMetadata): Value
  {
    Text(RetrievalTemplate, [Int(count), Str(meta.fullName), Int(meta.stars), Str(meta.language)])
  }

  const RetrievalTemplate := "Successfully retrieved {} issues from {}. Repository has {} stars and is primarily written in {}."
  const RetrievedRepository := "Retrieved repository: {}"
  const RetrievedIssues := "Retrieved {} issues successfully"
  const SimulatingRetrieval := "Simulating GitHub API data retrieval..."
  const GeneratingIssues := "Generating realistic issue data..."
  const AssessingQuality := "Assessing data quality..."

  /** The progress steps logged between the start and the end of a
      successful retrieval. */
  function RetrievalSteps(meta: RepositoryMetadata, now: Timestamp): (r: seq<ProgressEntry>)
    ensures StepsOnly(r)
  {
    [StepEvent(now, RetrievalKey, 40.0, Text(RetrievedRepository, [Str(meta.fullName)])),
     StepEvent(now, RetrievalKey, 60.0, Str(GeneratingIssues)),
     StepEvent(now, RetrievalKey, 80.0, Str(AssessingQuality))]
  }

  /** The middle of a successful retrieval: the metadata, the issues, their
      quality and the success insight are stored. */
  method StoreRetrieved(st: WorkflowState, meta: RepositoryMetadata, issues: seq<Issue>, now: Timestamp)
    modifies st`processedData, st`progressUpdates, st`currentStep, st`completionPercentage,
             st`rawIssues, st`dataQuality, st`insights
    ensures st.processedData == Put(old(st.processedData), RepositoryMetadataKey, RepoMetadataEntry(meta))
    ensures st.rawIssues == issues
    ensures st.dataQuality == Some(QualityForCount(|issues|))
    ensures st.insights == old(st.insights)
                           + [InsightRecord(RetrievalAgentId, RetrievalSuccess,
                                            RetrievalInsight(|issues|, meta), 0.9, now)]
    ensures st.progressUpdates == old(st.progressUpdates) + RetrievalSteps(meta, now)
  {
    st.processedData := Put(st.processedData, RepositoryMetadataKey, RepoMetadataEntry(meta));
    st.UpdateProgress(RetrievalKey, 40.0, Text(RetrievedRepository, [Str(meta.fullName)]), now);
    st.UpdateProgress(RetrievalKey, 60.0, Str(GeneratingIssues), now);
    st.rawIssues := issues;
    st.UpdateProgress(RetrievalKey, 80.0, Str(AssessingQuality), now);
    st.dataQuality := Some(QualityForCount(|issues|));
    st.AddInsight(RetrievalAgentId, RetrievalSuccess, RetrievalInsight(|issues|, meta), 0.9, now);
  }

  /** The mock retrieval run to completion on the generated metadata and
      issues. */
  method SucceedRetrieval(st: WorkflowState, meta: RepositoryMetadata, issues: seq<Issue>, now: Timestamp)
    modifies st`agentStatuses, st`updatedAt, st`agentOutputs, st`agentErrors, st`progressUpdates,
             st`currentStep, st`completionPercentage, st`processedData, st`rawIssues,
             st`dataQuality, st`insights
    ensures st.agentStatuses == Put(old(st.agentStatuses), RetrievalAgentId, Completed)
    ensures st.agentErrors == old(st.agentErrors)
    ensures st.agentOutputs == Put(old(st.agentOutputs), RetrievalAgentId,
                                   RetrievalOutput(|issues|, QualityForCount(|issues|), meta.fullName))
    ensures st.rawIssues == issues && st.dataQuality == Some(QualityForCount(|issues|))
    ensures st.processedData == Put(old(st.processedData), RepositoryMetadataKey, RepoMetadataEntry(meta))
    ensures st.insights == old(st.insights)
                           + [InsightRecord(RetrievalAgentId, RetrievalSuccess, RetrievalInsight(|issues|, meta), 0.9, now)]
    ensures st.currentStep == RetrievalKey && st.completionPercentage == 100.0
    ensures st.progressUpdates == old(st.progressUpdates) + [StatusEvent(now, RetrievalAgentId, Running)]
              + [StepEvent(now, RetrievalKey, 10.0, Str(SimulatingRetrieval))] + RetrievalSteps(meta, now)
              + [StepEvent(now, RetrievalKey, 100.0, Text(RetrievedIssues, [Int(|issues|)]))]
              + [StatusEvent(now, RetrievalAgentId, Completed)]
  {
    st.UpdateAgentStatus(RetrievalAgentId, Running, None, None, now);
    st.UpdateProgress(RetrievalKey, 10.0, Str(SimulatingRetrieval), now);
    StoreRetrieved(st, meta, issues, now);
    st.UpdateProgress(RetrievalKey, 100.0, Text(RetrievedIssues, [Int(|issues|)]), now);
    st.UpdateAgentStatus(RetrievalAgentId, Completed,
                         Some(RetrievalOutput(|issues|, QualityForCount(|issues|), meta.fullName)), None, now);
    PutTwice(old(st.agentStatuses), RetrievalAgentId, Running, Completed);
  }

  /** The mock retrieval: stores the generated repository metadata and
      issues, classifies the data quality and records one insight. */
  method ExecuteRetrieval(st: WorkflowState, fault: Option<string>, meta: RepositoryMetadata,
                          issues: seq<Issue>, now: Timestamp)
    modifies st`agentStatuses, st`updatedAt, st`agentOutputs, st`agentErrors, st`progressUpdates,
             st`currentStep, st`completionPercentage, st`processedData, st`rawIssues,
             st`dataQuality, st`insights
    ensures st.agentStatuses
            == Put(old(st.agentStatuses), RetrievalAgentId, if fault.None? then Completed else Failed)
    ensures st.agentErrors == PutIf(old(st.agentErrors), RetrievalAgentId, fault)
    ensures fault.Some? ==>
              && st.agentOutputs == old(st.agentOutputs)
              && st.rawIssues == old(st.rawIssues) && st.dataQuality == old(st.dataQuality)
              && st.processedData == old(st.processedData) && st.insights == old(st.insights)
              && st.completionPercentage == 10.0
    ensures fault.None? ==>
              && st.agentOutputs == Put(old(st.agentOutputs), RetrievalAgentId,
                                        RetrievalOutput(|issues|, QualityForCount(|issues|), meta.fullName))
              && st.rawIssues == issues
              && st.dataQuality == Some(QualityForCount(|issues|))
              && st.processedData == Put(old(st.processedData), RepositoryMetadataKey, RepoMetadataEntry(meta))
              && st.insights == old(st.insights)
                                + [InsightRecord(RetrievalAgentId, RetrievalSuccess,
                                                 RetrievalInsight(|issues|, meta), 0.9, now)]
              && st.completionPercentage == 100.0
    ensures st.currentStep == RetrievalKey
    ensures StatusTrace(st.progressUpdates, RetrievalAgentId)
            == StatusTrace(old(st.progressUpdates), RetrievalAgentId) + [Running, if fault.None? then Completed else Failed]
  {
    if fault.Some? {
      FailAtFirstAwait(st, RetrievalAgentId, RetrievalKey, SimulatingRetrieval, fault.value, now);
      LifecycleTrace(old(st.progressUpdates), RetrievalAgentId,
                     [StepEvent(now, RetrievalKey, 10.0, Str(SimulatingRetrieval))], Failed, now, RetrievalAgentId);
    } else {
      SucceedRetrieval(st, meta, issues, now);
      var first, last := StepEvent(now, RetrievalKey, 10.0, Str(SimulatingRetrieval)),
                         StepEvent(now, RetrievalKey, 100.0, Text(RetrievedIssues, [Int(|issues|)]));
      RegroupSteps(old(st.progressUpdates), StatusEvent(now, RetrievalAgentId, Running), [first],
                   RetrievalSteps(meta, now), [last], StatusEvent(now, RetrievalAgentId, Completed));
      assert StepsOnly([first] + RetrievalSteps(meta, now) + [last]);
      LifecycleTrace(old(st.progressUpdates), RetrievalAgentId, [first] + RetrievalSteps(meta, now) + [last],
                     Completed, now, RetrievalAgentId);
    }
  }

  // ------------------------------------------------------------------
  // Time-series analysis
  // ------------------------------------------------------------------

  const Increasing := "increasing"
  const Decreasing := "decreasing"
  const Stable := "stable"

  /** The mock trend: issues per day of the last 30 days, less the rate of
      the older issues over the rest of the analysis period. */
  function TrendSlope(recent: nat, older: nat, periodDays: int): (r: real)
    ensures r <= recent as real / 30.0
    ensures older == 0 ==> r >= 0.0
    ensures older > 0 && recent == 0 ==> r < 0.0
  {
    if older > 0 then
      var rest := if periodDays - 30 > 1 then periodDays - 30 else 1;
      recent as real / 30.0 - older as real / rest as real
    else recent as real / 30.0
  }

  /** Slopes above 0.1 issues a day are rising, below -0.1 falling. */
  function TrendDirection(slope: real): (r: string)
    ensures r == Increasing <==> slope > 0.1
    ensures r == Decreasing <==> slope < -0.1
    ensures r == Stable <==> -0.1 <= slope <= 0.1
  {
    if slope > 0.1 then Increasing else if slope < -0.1 then Decreasing else Stable
  }

  /** A repository with no issue older than 30 days is never reported as
      declining. */
  lemma OnlyRecentNeverDecreasing(issues: seq<Issue>, now: Timestamp, periodDays: int)
    requires OlderCount(issues, now) == 0
    ensures TrendDirection(TrendSlope(RecentCount(issues, now), OlderCount(issues, now), periodDays))
            != Decreasing
  {
  }

  /** More recent issues, or fewer older ones, never lower the slope. */
  lemma {:induction false} TrendSlopeMonotone(r1: nat, o1: nat, r2: nat, o2: nat, periodDays: int)
    requires r1 <= r2 && o2 <= o1
    ensures TrendSlope(r1, o1, periodDays) <= TrendSlope(r2, o2, periodDays)
  {
    var rest := if periodDays - 30 > 1 then periodDays - 30 else 1;
    assert r1 as real / 30.0 <= r2 as real / 30.0;
    if o2 > 0 {
      assert o2 as real / rest as real <= o1 as real / rest as real by {
        DivMonotone(o2 as real, o1 as real, rest as real);
      }
    }
  }

  lemma DivMonotone(a: real, b: real, d: real)
    requires a <= b && d > 0.0
    ensures a / d <= b / d
  {
    assert b / d - a / d == (b - a) / d;
  }

  /** 0.8 above 50 issues, 0.6 above 20, 0.4 otherwise. */
  function AnalysisConfidence(total: nat): (r: real)
    ensures r == 0.8 <==> total > 50
    ensures r == 0.6 <==> 20 < total <= 50
    ensures r == 0.4 <==> total <= 20
  {
    if total > 50 then 0.8 else if total > 20 then 0.6 else 0.4
  }

  const TrendAnalysisKind := "trend_analysis"
  const TrendWarningKind := "trend_warning"
  const TrendTemplate := "Issue trend is {} with {} anomalies detected. Confidence score: {:.2f}"
  const TrendWarning := "Increasing issue trend detected. Consider allocating additional resources for issue resolution."
  const DaysTemplate := "{} days"
  const NoIssuesData := "No issues data available"
  const EmptyRangePrefix := "empty range in randrange(1, "
  const StartingAnalysis := "Starting statistical trend analysis..."
  const AnalyzingTrends := "Analyzing issue creation trends..."
  const DetectingSeasonal := "Detecting seasonal patterns..."
  const DetectingAnomalies := "Detecting anomalies..."
  const GeneratingForecasts := "Generating forecasts..."
  const AnalysisCompleted := "Time-series analysis completed"

  /** `random.randint(1, stop - 1)` on an empty range. */
  function RandRangeError(stop: int): (r: string)
    ensures StartsWith(r, EmptyRangePrefix)
  {
    EmptyRangePrefix + IntToString(stop) + ")"
  }

  /** The forecast dictionary: the drawn linear forecast, the average number
      of issues per 30 days over the period, and the trend. */
  function MockForecast(linearForecast: Value, total: nat, periodDays: int, direction: string): Value
  {
    var days := if periodDays > 1 then periodDays else 1;
    Object([("linear_forecast", linearForecast),
            ("historical_average", Real(total as real / days as real * 30.0)),
            ("recent_trend", Str(direction))])
  }

  /** The trend analysis the mock stores. */
  function MockTrendAnalysis(issues: seq<Issue>, now: Timestamp, periodDays: int, weekday: Value,
                             anomalies: seq<Value>, linearForecast: Value): (r: TrendAnalysis)
    ensures r.trendDirection in {Increasing, Decreasing, Stable}
    ensures r.trendDirection == Increasing <==> r.trendSlope > 0.1
    ensures r.confidenceScore in {0.4, 0.6, 0.8}
    ensures r.anomalies == anomalies
  {
    var slope := TrendSlope(RecentCount(issues, now), OlderCount(issues, now), periodDays);
    var direction := TrendDirection(slope);
    TrendAnalysis(direction, slope, Object([("weekday", weekday)]), anomalies,
                  MockForecast(linearForecast, |issues|, periodDays, direction),
                  AnalysisConfidence(|issues|), Text(DaysTemplate, [Int(periodDays)]))
  }

  /** The insights the analysis records: the trend summary, and a warning
      when the trend is rising. */
  function AnalysisInsights(t: TrendAnalysis, now: Timestamp): (r: seq<InsightRecord>)
    ensures |r| == (if t.trendDirection == Increasing then 2 else 1)
    ensures r[0].kind == TrendAnalysisKind && r[0].confidence == t.confidenceScore
    ensures forall x <- r :: x.agentId == AnalysisAgentId
  {
    [InsightRecord(AnalysisAgentId, TrendAnalysisKind,
                   Text(TrendTemplate, [Str(t.trendDirection), Int(|t.anomalies|), Real(t.confidenceScore)]),
                   t.confidenceScore, now)]
    + (if t.trendDirection == Increasing
       then [InsightRecord(AnalysisAgentId, TrendWarningKind, Str(TrendWarning), 0.8, now)]
       else [])
  }

  function AnalysisOutput(t: TrendAnalysis): Value
  {
    Object([("trend_direction", Str(t.trendDirection)), ("confidence", Real(t.confidenceScore)),
            ("anomalies_detected", Int(|t.anomalies|)), ("forecast_available", Bool(true))])
  }

  /** Drawing the anomaly dates with `randint(1, period)` fails when there
      are anomalies to date and the period is empty. */
  function AnomalyDrawFailure(anomalies: seq<Value>, periodDays: int): (r: Option<string>)
    ensures r.Some? <==> |anomalies| > 0 && periodDays < 1
  {
    if |anomalies| > 0 && periodDays < 1 then Some(RandRangeError(periodDays + 1)) else None
  }

  /** The progress steps of the analysis after its first suspension point:
      all of them, or up to the anomaly detection when that fails. */
  function AnalysisTrail(completed: bool, now: Timestamp): (r: seq<ProgressEntry>)
    ensures StepsOnly(r)
  {
    [StepEvent(now, AnalysisKey, 30.0, Str(AnalyzingTrends)),
     StepEvent(now, AnalysisKey, 50.0, Str(DetectingSeasonal)),
     StepEvent(now, AnalysisKey, 70.0, Str(DetectingAnomalies))]
    + if completed then [StepEvent(now, AnalysisKey, 90.0, Str(GeneratingForecasts)),
                         StepEvent(now, AnalysisKey, 100.0, Str(AnalysisCompleted))]
      else []
  }

  /** The forecast step: the trend analysis `t` and its insights are stored. */
  method StoreTrend(st: WorkflowState, t: TrendAnalysis, now: Timestamp)
    modifies st`progressUpdates, st`currentStep, st`completionPercentage, st`trendAnalysis, st`insights
    ensures st.trendAnalysis == Some(t)
    ensures st.insights == old(st.insights) + AnalysisInsights(t, now)
    ensures st.currentStep == AnalysisKey && st.completionPercentage == 100.0
    ensures st.progressUpdates == old(st.progressUpdates)
              + [StepEvent(now, AnalysisKey, 90.0, Str(GeneratingForecasts)),
                 StepEvent(now, AnalysisKey, 100.0, Str(AnalysisCompleted))]
  {
    st.UpdateProgress(AnalysisKey, 90.0, Str(GeneratingForecasts), now);
    st.trendAnalysis := Some(t);
    st.AddInsight(AnalysisAgentId, TrendAnalysisKind,
                  Text(TrendTemplate, [Str(t.trendDirection), Int(|t.anomalies|), Real(t.confidenceScore)]),
                  t.confidenceScore, now);
    if t.trendDirection == Increasing {
      st.AddInsight(AnalysisAgentId, TrendWarningKind, Str(TrendWarning), 0.8, now);
    }
    st.UpdateProgress(AnalysisKey, 100.0, Str(AnalysisCompleted), now);
  }

  /** The analysis after its first suspension point: the trend is computed,
      and drawing the anomaly dates fails when the analysis period is empty. */
  method AnalyzeTrends(st: WorkflowState, weekday: Value, anomalies: seq<Value>, linearForecast: Value,
                       now: Timestamp) returns (error: Option<string>)
    modifies st`progressUpdates, st`currentStep, st`completionPercentage, st`trendAnalysis, st`insights
    ensures error == AnomalyDrawFailure(anomalies, st.analysisPeriodDays)
    ensures error.Some? ==> st.trendAnalysis == old(st.trendAnalysis) && st.insights == old(st.insights)
                            && st.completionPercentage == 70.0
    ensures error.None? ==>
              var t := MockTrendAnalysis(st.rawIssues, now, st.analysisPeriodDays, weekday, anomalies,
                                         linearForecast);
              && st.trendAnalysis == Some(t)
              && st.insights == old(st.insights) + AnalysisInsights(t, now)
              && st.completionPercentage == 100.0
    ensures st.currentStep == AnalysisKey
    ensures st.progressUpdates == old(st.progressUpdates) + AnalysisTrail(error.None?, now)
  {
    st.UpdateProgress(AnalysisKey, 30.0, Str(AnalyzingTrends), now);
    st.UpdateProgress(AnalysisKey, 50.0, Str(DetectingSeasonal), now);
    st.UpdateProgress(AnalysisKey, 70.0, Str(DetectingAnomalies), now);
    if |anomalies| > 0 && st.analysisPeriodDays < 1 {
      return Some(RandRangeError(st.analysisPeriodDays + 1));
    }
    StoreTrend(st, MockTrendAnalysis(st.rawIssues, now, st.analysisPeriodDays, weekday, anomalies, linearForecast),
               now);
    error := None;
  }

  /** The mock analysis past its first suspension point, with issues to
      analyse. */
  method RunAnalysis(st: WorkflowState, weekday: Value, anomalies: seq<Value>, linearForecast: Value,
                     now: Timestamp)
    modifies st`agentStatuses, st`updatedAt, st`agentOutputs, st`agentErrors, st`progressUpdates,
             st`currentStep, st`completionPercentage, st`trendAnalysis, st`insights
    ensures var failure := AnomalyDrawFailure(anomalies, st.analysisPeriodDays);
            && st.agentStatuses == Put(old(st.agentStatuses), AnalysisAgentId,
                                       if failure.None? then Completed else Failed)
            && st.agentErrors == PutIf(old(st.agentErrors), AnalysisAgentId, failure)
            && (failure.Some? ==> st.agentOutputs == old(st.agentOutputs)
                                  && st.trendAnalysis == old(st.trendAnalysis) && st.insights == old(st.insights))
            && (failure.None? ==>
                  var t := MockTrendAnalysis(st.rawIssues, now, st.analysisPeriodDays, weekday, anomalies,
                                             linearForecast);
                  && st.trendAnalysis == Some(t)
                  && st.insights == old(st.insights) + AnalysisInsights(t, now)
                  && st.agentOutputs == Put(old(st.agentOutputs), AnalysisAgentId, AnalysisOutput(t))
                  && st.completionPercentage == 100.0)
            && st.progressUpdates == old(st.progressUpdates) + [StatusEvent(now, AnalysisAgentId, Running)]
                 + [StepEvent(now, AnalysisKey, 10.0, Str(StartingAnalysis))] + AnalysisTrail(failure.None?, now)
                 + [StatusEvent(now, AnalysisAgentId, if failure.None? then Completed else Failed)]
    ensures st.currentStep == AnalysisKey
  {
    st.UpdateAgentStatus(AnalysisAgentId, Running, None, None, now);
    st.UpdateProgress(AnalysisKey, 10.0, Str(StartingAnalysis), now);
    var failure := AnalyzeTrends(st, weekday, anomalies, linearForecast, now);
    if failure.Some? {
      st.UpdateAgentStatus(AnalysisAgentId, Failed, None, failure, now);
      PutTwice(old(st.agentStatuses), AnalysisAgentId, Running, Failed);
    } else {
      st.UpdateAgentStatus(AnalysisAgentId, Completed, Some(AnalysisOutput(st.trendAnalysis.value)), None, now);
      PutTwice(old(st.agentStatuses), AnalysisAgentId, Running, Completed);
    }
  }

  /** Why the mock analysis fails, if it does: no issues, an exception at
      its first suspension point, or an empty range for the anomaly dates. */
  function AnalysisFailure(issues: seq<Issue>, fault: Option<string>, anomalies: seq<Value>, periodDays: int)
    : (r: Option<string>)
    ensures issues == [] ==> r == Some(NoIssuesData)
    ensures r.None? <==> issues != [] && fault.None? && (|anomalies| == 0 || periodDays >= 1)
  {
    if issues == [] then Some(NoIssuesData)
    else if fault.Some? then fault
    else AnomalyDrawFailure(anomalies, periodDays)
  }

  /** The mock analysis: fails without issues, otherwise stores the trend
      analysis with its insights; the weekday pattern, the anomalies and the
      linear forecast are the random draws. */
  method ExecuteAnalysis(st: WorkflowState, fault: Option<string>, weekday: Value, anomalies: seq<Value>,
                         linearForecast: Value, now: Timestamp)
    modifies st`agentStatuses, st`updatedAt, st`agentOutputs, st`agentErrors, st`progressUpdates,
             st`currentStep, st`completionPercentage, st`trendAnalysis, st`insights
    ensures var failure := AnalysisFailure(st.rawIssues, fault, anomalies, st.analysisPeriodDays);
            && st.agentStatuses == Put(old(st.agentStatuses), AnalysisAgentId,
                                       if failure.None? then Completed else Failed)
            && st.agentErrors == PutIf(old(st.agentErrors), AnalysisAgentId, failure)
            && (failure.Some? ==> st.agentOutputs == old(st.agentOutputs)
                                  && st.trendAnalysis == old(st.trendAnalysis) && st.insights == old(st.insights))
            && (failure.None? ==>
                  var t := MockTrendAnalysis(st.rawIssues, now, st.analysisPeriodDays, weekday, anomalies,
                                             linearForecast);
                  && st.trendAnalysis == Some(t)
                  && st.insights == old(st.insights) + AnalysisInsights(t, now)
                  && st.agentOutputs == Put(old(st.agentOutputs), AnalysisAgentId, AnalysisOutput(t))
                  && st.completionPercentage == 100.0)
            && StatusTrace(st.progressUpdates, AnalysisAgentId)
               == StatusTrace(old(st.progressUpdates), AnalysisAgentId)
                  + [Running, if failure.None? then Completed else Failed]
    ensures st.rawIssues == [] || fault.Some? ==> st.completionPercentage == 10.0
    ensures st.currentStep == AnalysisKey
  {
    if st.rawIssues == [] || fault.Some? {
      var error := if st.rawIssues == [] then NoIssuesData else fault.value;
      FailAtFirstAwait(st, AnalysisAgentId, AnalysisKey, StartingAnalysis, error, now);
      LifecycleTrace(old(st.progressUpdates), AnalysisAgentId,
                     [StepEvent(now, AnalysisKey, 10.0, Str(StartingAnalysis))], Failed, now, AnalysisAgentId);
    } else {
      RunAnalysis(st, weekday, anomalies, linearForecast, now);
      var ok := AnomalyDrawFailure(anomalies, st.analysisPeriodDays).None?;
      var first := StepEvent(now, AnalysisKey, 10.0, Str(StartingAnalysis));
      RegroupSteps2(old(st.progressUpdates), StatusEvent(now, AnalysisAgentId, Running), [first],
                    AnalysisTrail(ok, now), StatusEvent(now, AnalysisAgentId, if ok then Completed else Failed));
      assert StepsOnly([first] + AnalysisTrail(ok, now));
      LifecycleTrace(old(st.progressUpdates), AnalysisAgentId, [first] + AnalysisTrail(ok, now),
                     if ok then Completed else Failed, now, AnalysisAgentId);
    }
  }

  // ------------------------------------------------------------------
  // Insight generation
  // ------------------------------------------------------------------

  const High := "high"
  const Medium := "medium"
  const Low := "low"
  const CriticalWord := "critical"
  const BugWord := "bug"
  const SecurityWord := "security"

  /** `trend_analysis and trend_analysis.trend_direction == "increasing"`. */
  predicate IsIncreasing(trend: Option<TrendAnalysis>)
  {
    trend.Some? && trend.value.trendDirection == Increasing
  }

  /** Issues carrying a label that mentions `word`. */
  function MentionCount(issues: seq<Issue>, word: string): (r: nat)
    ensures r <= |issues|
  {
    CountIf(issues, i => LabelMentions(i, word))
  }

  /** `part / total if total > 0 else 0`. */
  function Ratio(part: nat, total: nat): (r: real)
    ensures total == 0 ==> r == 0.0
    ensures total > 0 ==> r * total as real == part as real
    ensures 0.0 <= r
  {
    if total > 0 then part as real / total as real else 0.0
  }

  /** The mock health score: ten, less three for a mostly open backlog, two
      for a rising trend and two for more than five critical issues. */
  function MockHealthScore(openRatio: real, increasing: bool, critical: nat): (r: int)
    ensures 3 <= r <= 10
    ensures r == 10 <==> openRatio <= 0.7 && !increasing && critical <= 5
    ensures openRatio > 0.7 ==> r <= 7
    ensures increasing || critical > 5 ==> r <= 8
    ensures r < 5 <==> openRatio > 0.7 && increasing && critical > 5
  {
    var s := 10 - (if openRatio > 0.7 then 3 else 0) - (if increasing then 2 else 0)
                 - (if critical > 5 then 2 else 0);
    if s > 1 then s else 1
  }

  /** The maintenance load from the share of bug issues. */
  function LoadAssessment(bugRatio: real): (r: string)
    ensures r == High <==> bugRatio > 0.5
    ensures r == Medium <==> 0.3 < bugRatio <= 0.5
    ensures r == Low <==> bugRatio <= 0.3
  {
    if bugRatio > 0.5 then High else if bugRatio > 0.3 then Medium else Low
  }

  /** The engagement level from the average number of comments. */
  function Engagement(avgComments: real): (r: string)
    ensures r == High <==> avgComments > 3.0
    ensures r == Medium <==> 1.0 < avgComments <= 3.0
    ensures r == Low <==> avgComments <= 1.0
  {
    if avgComments > 3.0 then High else if avgComments > 1.0 then Medium else Low
  }

  /** The community health: a base for the engagement level plus a drawn
      `random.randint(0, 2)` or `random.randint(0, 3)`. */
  function MockCommunityHealth(avgComments: real, draw: nat): (r: int)
    ensures avgComments > 3.0 ==> 8 <= r <= 10
    ensures 1.0 < avgComments <= 3.0 ==> 5 <= r <= 8
    ensures avgComments <= 1.0 ==> 2 <= r <= 5
  {
    if avgComments > 3.0 then 8 + draw % 3
    else if avgComments > 1.0 then 5 + draw % 4
    else 2 + draw % 4
  }

  /** The risk factors the mock finds, in the order it checks them. */
  function MockRiskFactors(openRatio: real, increasing: bool, avgComments: real, security: bool)
    : (r: seq<RiskFactor>)
    ensures HighOpenIssueRatio in r <==> openRatio > 0.7
    ensures IncreasingIssueTrend in r <==> increasing
    ensures LowCommunityEngagement in r <==> avgComments < 1.0
    ensures SecurityConcerns in r <==> security
    ensures RapidIssueGrowth !in r
    ensures |r| <= 4
  {
    (if openRatio > 0.7 then [HighOpenIssueRatio] else [])
    + (if increasing then [IncreasingIssueTrend] else [])
    + (if avgComments < 1.0 then [LowCommunityEngagement] else [])
    + (if security then [SecurityConcerns] else [])
  }

  function MockFigures(issues: seq<Issue>, trend: Option<TrendAnalysis>, draw: nat, now: Timestamp)
    : (f: InsightFigures)
    ensures f.total == |issues|
    ensures f.riskLevel == RiskLevel(|f.riskFactors|)
    ensures f.loadAssessment == LoadAssessment(f.bugRatio)
    ensures 3 <= f.healthScore <= 10 && 2 <= f.communityHealth <= 10
    ensures f.debtCount <= |issues|
  {
    var openRatio := OpenRatio(issues);
    var avg := AvgComments(issues);
    var increasing := IsIncreasing(trend);
    var bugRatio := Ratio(MentionCount(issues, BugWord), |issues|);
    var factors := MockRiskFactors(openRatio, increasing, avg, MentionCount(issues, SecurityWord) > 0);
    InsightFigures(
      |issues|, MockHealthScore(openRatio, increasing, MentionCount(issues, CriticalWord)),
      bugRatio, LoadAssessment(bugRatio), Engagement(avg), MockCommunityHealth(avg, draw),
      UniqueAuthors(issues), factors, RiskLevel(|factors|),
      CountIf(issues, i => Age(i, now) > 90 && IsOpen(i)))
  }

  /** A high risk means at least three factors, so the backlog is mostly open
      or the trend is rising: the health score has lost points. */
  lemma HighRiskLowersHealth(issues: seq<Issue>, trend: Option<TrendAnalysis>, draw: nat, now: Timestamp)
    ensures var f := MockFigures(issues, trend, draw, now);
            f.riskLevel == High ==> f.healthScore <= 8
  {
    var openRatio := OpenRatio(issues);
    var avg := AvgComments(issues);
    var factors := MockRiskFactors(openRatio, IsIncreasing(trend), avg, MentionCount(issues, SecurityWord) > 0);
    if openRatio <= 0.7 && !IsIncreasing(trend) {
      assert |factors| <= 2;
    }
  }

  const HealthSummaryTemplate := "Repository shows {} health indicators."
  const ExcellentWord := "excellent"
  const GoodWord := "good"
  const Concerning := "concerning"
  const NeedsImprovement := "needs improvement"
  const ActiveIssueTracking := "Active issue tracking"
  const GoodLabelingSystem := "Good labeling system"
  const RegularMaintenance := "Regular maintenance"
  const HighOpenIssueRatioText := "High open issue ratio"
  const IncreasingIssueTrendText := "Increasing issue trend"
  const ImplementAutomatedIssueTriage := "Implement automated issue triage"
  const SetUpRegularMaintenanceSchedules := "Set up regular maintenance schedules"
  const ImproveIssueLabelingConsistency := "Improve issue labeling consistency"
  const BugFixes := "Bug fixes"
  const PerformanceImprovements := "Performance improvements"
  const DocumentationUpdates := "Documentation updates"
  const ImproveContributorDocumentation := "Improve contributor documentation"
  const AddCommunityGuidelines := "Add community guidelines"
  const CreateMentorshipPrograms := "Create mentorship programs"
  const AddressIssueBacklogSystematically := "Address issue backlog systematically"
  const ImproveCommunityEngagement := "Improve community engagement"
  const ImplementBetterMonitoring := "Implement better monitoring"
  const AutomatedIssueLabeling := "Automated issue labeling"
  const ResponseTimeTracking := "Response time tracking"
  const CommunityFeedbackLoops := "Community feedback loops"
  const LeverageCommunityExpertise := "Leverage community expertise"
  const ImplementAutomationTools := "Implement automation tools"
  const ImproveDocumentation := "Improve documentation"
  const RegularIssueTriage := "Regular issue triage"
  const CommunityEngagementInitiatives := "Community engagement initiatives"
  const ProcessOptimization := "Process optimization"
  const PositiveIndicators: Value := List([Str(ActiveIssueTracking), Str(GoodLabelingSystem), Str(RegularMaintenance)])
  const HealthConcerns: Value := List([Str(HighOpenIssueRatioText), Str(IncreasingIssueTrendText)])
  const MaintenanceAdvice: Value := List([Str(ImplementAutomatedIssueTriage), Str(SetUpRegularMaintenanceSchedules), Str(ImproveIssueLabelingConsistency)])
  const PriorityAreas: Value := List([Str(BugFixes), Str(PerformanceImprovements), Str(DocumentationUpdates)])
  const GrowthOpportunities: Value := List([Str(ImproveContributorDocumentation), Str(AddCommunityGuidelines), Str(CreateMentorshipPrograms)])
  const Priorities := [AddressIssueBacklogSystematically, ImproveCommunityEngagement, ImplementBetterMonitoring]
  const PrioritiesValue: Value := List([Str(AddressIssueBacklogSystematically), Str(ImproveCommunityEngagement), Str(ImplementBetterMonitoring)])
  const RoadmapImpact := "Consider issue trends in product planning"
  const ScalingAdvice := "Monitor velocity and adjust team size accordingly"
  const ProcessImprovements: Value := List([Str(AutomatedIssueLabeling), Str(ResponseTimeTracking), Str(CommunityFeedbackLoops)])
  const Opportunities: Value := List([Str(LeverageCommunityExpertise), Str(ImplementAutomationTools), Str(ImproveDocumentation)])
  const RecommendedActions: Value := List([Str(RegularIssueTriage), Str(CommunityEngagementInitiatives), Str(ProcessOptimization)])

  /** `min(10, old_open / 5)`: the integer 10 unless the quotient is smaller. */
  function DebtScore(oldOpen: nat): (r: Value)
    ensures oldOpen < 50 <==> r.Real?
    ensures r.Real? ==> r.r == oldOpen as real / 5.0
    ensures r.Int? ==> r.i == 10
  {
    if (oldOpen as real / 5.0) < 10.0 then Real(oldOpen as real / 5.0) else Int(10)
  }

  function HealthSummary(score: int): (r: Value)
  {
    Text(HealthSummaryTemplate, [Str(if score > 8 then ExcellentWord else if score > 6 then GoodWord else Concerning)])
  }

  // The keys of the stored insight categories.
  const CommunityKey := "community"
  const ConcernsKey := "concerns"
  const DebtScoreKey := "debt_score"
  const DiversityAssessmentKey := "diversity_assessment"
  const EngagementLevelKey := "engagement_level"
  const GrowthOpportunitiesKey := "growth_opportunities"
  const HealthKey := "health"
  const HealthScoreKey := "health_score"
  const LoadAssessmentKey := "load_assessment"
  const MaintenanceKey := "maintenance"
  const OpportunitiesKey := "opportunities"
  const OverallRiskKey := "overall_risk"
  const PositiveIndicatorsKey := "positive_indicators"
  const PrioritiesKey := "priorities"
  const PriorityAreasKey := "priority_areas"
  const ProcessImprovementsKey := "process_improvements"
  const RecommendationsKey := "recommendations"
  const RecommendedActionsKey := "recommended_actions"
  const RisksKey := "risks"
  const RoadmapImpactKey := "roadmap_impact"
  const ScalingAdviceKey := "scaling_advice"
  const StrategicKey := "strategic"
  const SummaryKey := "summary"
  const TopRisksKey := "top_risks"

  /** The five categories the mock stores under `ai_insights`. */
  function MockInsightCategories(f: InsightFigures): (r: Dict<string, Value>)

  {
    [(HealthKey, Object([(HealthScoreKey, Int(f.healthScore)),
                        (PositiveIndicatorsKey, if f.healthScore > 6 then PositiveIndicators else List([])),
                        (ConcernsKey, if f.healthScore < 5 then HealthConcerns else List([])),
                        (SummaryKey, HealthSummary(f.healthScore))])),
     (MaintenanceKey, Object([(LoadAssessmentKey, Str(f.loadAssessment)),
                             (DebtScoreKey, DebtScore(f.debtCount)),
                             (RecommendationsKey, MaintenanceAdvice),
                             (PriorityAreasKey, PriorityAreas)])),
     (CommunityKey, Object([(HealthScoreKey, Int(f.communityHealth)),
                           (EngagementLevelKey, Str(f.engagementLevel)),
                           (DiversityAssessmentKey,
                            Str(if f.uniqueAuthors * 2 > f.total then GoodWord else NeedsImprovement)),
                           (GrowthOpportunitiesKey, GrowthOpportunities)])),
     (StrategicKey, Object([(PrioritiesKey, PrioritiesValue),
                           (RoadmapImpactKey, Str(RoadmapImpact)),
                           (ScalingAdviceKey, Str(ScalingAdvice)),
                           (ProcessImprovementsKey, ProcessImprovements)])),
     (RisksKey, Object([(OverallRiskKey, Str(f.riskLevel)),
                       (TopRisksKey, StrList(RiskFactorNames(if |f.riskFactors| <= 3 then f.riskFactors
                                                             else f.riskFactors[..3]))),
                       (OpportunitiesKey, Opportunities),
                       (RecommendedActionsKey, RecommendedActions)]))]
  }

  /** `processed_data.get("ai_insights", {})`: the stored categories, the
      demonstration agent's rendered from its figures. */
  function AiInsightsOf(processed: Dict<string, Processed>): (r: Dict<string, Value>)
    ensures Get(processed, AiInsightsKey).None? ==> r == []
  {
    match Get(processed, AiInsightsKey)
    case Some(p) =>
      if p.AiInsightsEntry? then p.categories
      else if p.MockInsightsEntry? then MockInsightCategories(p.figures)
      else []
    case None => []
  }

  const RepositoryHealthKind := "repository_health"
  const MaintenanceLoadKind := "maintenance_load"
  const CommunityEngagementKind := "community_engagement"
  const RiskAssessmentKind := "risk_assessment"
  const InsightsGeneratedKey := "insights_generated"
  const CategoriesAnalyzedKey := "categories_analyzed"
  const RiskLevelKey := "risk_level"
  const HealthInsightTemplate := "Repository health score: {}/10. {}"
  const LoadInsightTemplate := "Maintenance load assessed as {}. Bug ratio: {:.1%}"
  const CommunityInsightTemplate := "Community engagement is {} with {} unique contributors."
  const RiskInsightTemplate := "Overall risk level: {}. {} risk factors identified."
  const MockRationale := "Based on comprehensive repository analysis"

  /** The four insights of the mock, with their fixed confidences. */
  function MockInsightRecords(f: InsightFigures, now: Timestamp): (r: seq<InsightRecord>)
    ensures |r| == 4
    ensures forall x <- r :: x.agentId == InsightAgentId && 0.7 <= x.confidence <= 0.9
  {
    [InsightRecord(InsightAgentId, RepositoryHealthKind,
                   Text(HealthInsightTemplate, [Int(f.healthScore), HealthSummary(f.healthScore)]), 0.8, now),
     InsightRecord(InsightAgentId, MaintenanceLoadKind,
                   Text(LoadInsightTemplate, [Str(f.loadAssessment), Real(f.bugRatio)]), 0.7, now),
     InsightRecord(InsightAgentId, CommunityEngagementKind,
                   Text(CommunityInsightTemplate, [Str(f.engagementLevel), Int(f.uniqueAuthors)]), 0.7, now),
     InsightRecord(InsightAgentId, RiskAssessmentKind,
                   Text(RiskInsightTemplate, [Str(f.riskLevel), Int(|f.riskFactors|)]), 0.9, now)]
  }

  /** One recommendation per strategic priority, high priority exactly when
      the overall risk is high. */
  function MockRecommendation(priority: string, riskLevel: string, now: Timestamp): (r: RecommendationRecord)
    ensures r.agentId == InsightAgentId && r.recommendation == Str(priority)
    ensures r.priority == High <==> riskLevel == High
    ensures r.priority in {High, Medium}
  {
    RecommendationRecord(InsightAgentId, Str(priority), if riskLevel == High then High else Medium,
                         MockRationale, now)
  }

  /** The three recommendations of the mock, one per strategic priority. */
  function MockRecommendations(riskLevel: string, now: Timestamp): (r: seq<RecommendationRecord>)
    ensures |r| == 3
    ensures forall k :: 0 <= k < 3 ==> r[k] == MockRecommendation(Priorities[k], riskLevel, now)
  {
    [MockRecommendation(Priorities[0], riskLevel, now), MockRecommendation(Priorities[1], riskLevel, now),
     MockRecommendation(Priorities[2], riskLevel, now)]
  }

  /** `for rec in priorities[:3]: add_recommendation(...)`. */
  method AddMockRecommendations(st: WorkflowState, riskLevel: string, now: Timestamp)
    modifies st`recommendations
    ensures st.recommendations == old(st.recommendations) + MockRecommendations(riskLevel, now)
  {
    var n := |st.recommendations|;
    for k := 0 to 3
      invariant st.recommendations == old(st.recommendations) + MockRecommendations(riskLevel, now)[..k]
    {
      st.AddRecommendation(InsightAgentId, Str(Priorities[k]), if riskLevel == High then High else Medium,
                           MockRationale, now);
      assert MockRecommendations(riskLevel, now)[..k + 1]
          == MockRecommendations(riskLevel, now)[..k] + [MockRecommendations(riskLevel, now)[k]];
    }
  }

  const GeneratingInsights := "Generating strategic insights..."
  const AnalyzingHealth := "Analyzing repository health..."
  const IdentifyingMaintenance := "Identifying maintenance patterns..."
  const AnalyzingCommunity := "Analyzing community engagement..."
  const AssessingRisks := "Assessing risks and opportunities..."
  const InsightsGenerated := "Strategic insights generated successfully"

  /** The progress steps the mock insight agent logs between its first
      suspension point and its completion. */
  function InsightMidSteps(now: Timestamp): (r: seq<ProgressEntry>)
    ensures StepsOnly(r)
  {
    [StepEvent(now, InsightKey, 25.0, Str(AnalyzingHealth)),
     StepEvent(now, InsightKey, 40.0, Str(IdentifyingMaintenance)),
     StepEvent(now, InsightKey, 55.0, Str(AnalyzingCommunity)),
     StepEvent(now, InsightKey, 70.0, Str(AssessingRisks))]
  }

  /** Every progress step of a successful mock insight run. */
  function InsightSteps(now: Timestamp): (r: seq<ProgressEntry>)
    ensures StepsOnly(r)
  {
    [StepEvent(now, InsightKey, 10.0, Str(GeneratingInsights))] + InsightMidSteps(now)
      + [StepEvent(now, InsightKey, 100.0, Str(InsightsGenerated))]
  }

  /** The steps of a successful mock insight run between its status
      changes, for the figures `f` it measures. */
  method StoreMockInsights(st: WorkflowState, f: InsightFigures, now: Timestamp)
    modifies st`progressUpdates, st`currentStep, st`completionPercentage, st`processedData,
             st`insights, st`recommendations
    ensures st.processedData == Put(old(st.processedData), AiInsightsKey, MockInsightsEntry(f))
    ensures st.insights == old(st.insights) + MockInsightRecords(f, now)
    ensures st.recommendations == old(st.recommendations) + MockRecommendations(f.riskLevel, now)
    ensures st.currentStep == InsightKey && st.completionPercentage == 70.0
    ensures st.progressUpdates == old(st.progressUpdates) + InsightMidSteps(now)
  {
    st.UpdateProgress(InsightKey, 25.0, Str(AnalyzingHealth), now);
    st.UpdateProgress(InsightKey, 40.0, Str(IdentifyingMaintenance), now);
    st.UpdateProgress(InsightKey, 55.0, Str(AnalyzingCommunity), now);
    st.UpdateProgress(InsightKey, 70.0, Str(AssessingRisks), now);
    st.processedData := Put(st.processedData, AiInsightsKey, MockInsightsEntry(f));
    st.insights := st.insights + MockInsightRecords(f, now);
    AddMockRecommendations(st, f.riskLevel, now);
  }

  function MockInsightOutput(riskLevel: string): Value
  {
    Object([(InsightsGeneratedKey, Int(5)),
            (CategoriesAnalyzedKey, StrList([HealthKey, MaintenanceKey, CommunityKey, StrategicKey, RisksKey])),
            (RiskLevelKey, Str(riskLevel))])
  }

  /** The mock insight agent run to completion on the figures `f`. */
  method SucceedInsight(st: WorkflowState, f: InsightFigures, now: Timestamp)
    modifies st`agentStatuses, st`updatedAt, st`agentOutputs, st`agentErrors, st`progressUpdates,
             st`currentStep, st`completionPercentage, st`processedData, st`insights, st`recommendations
    ensures st.agentStatuses == Put(old(st.agentStatuses), InsightAgentId, Completed)
    ensures st.agentErrors == old(st.agentErrors)
    ensures st.agentOutputs == Put(old(st.agentOutputs), InsightAgentId, MockInsightOutput(f.riskLevel))
    ensures st.processedData == Put(old(st.processedData), AiInsightsKey, MockInsightsEntry(f))
    ensures st.insights == old(st.insights) + MockInsightRecords(f, now)
    ensures st.recommendations == old(st.recommendations) + MockRecommendations(f.riskLevel, now)
    ensures st.currentStep == InsightKey && st.completionPercentage == 100.0
    ensures st.progressUpdates == old(st.progressUpdates) + [StatusEvent(now, InsightAgentId, Running)]
              + [StepEvent(now, InsightKey, 10.0, Str(GeneratingInsights))] + InsightMidSteps(now)
              + [StepEvent(now, InsightKey, 100.0, Str(InsightsGenerated))] + [StatusEvent(now, InsightAgentId, Completed)]
  {
    st.UpdateAgentStatus(InsightAgentId, Running, None, None, now);
    st.UpdateProgress(InsightKey, 10.0, Str(GeneratingInsights), now);
    StoreMockInsights(st, f, now);
    st.UpdateProgress(InsightKey, 100.0, Str(InsightsGenerated), now);
    st.UpdateAgentStatus(InsightAgentId, Completed, Some(MockInsightOutput(f.riskLevel)), None, now);
    PutTwice(old(st.agentStatuses), InsightAgentId, Running, Completed);
  }

  /** The mock insight agent: scores health, maintenance load, community and
      risk from the issues and the trend, stores them under `ai_insights`
      with four insights and three recommendations; the community score's
      random part is `draw`. */
  method ExecuteInsight(st: WorkflowState, fault: Option<string>, draw: nat, now: Timestamp)
    modifies st`agentStatuses, st`updatedAt, st`agentOutputs, st`agentErrors, st`progressUpdates,
             st`currentStep, st`completionPercentage, st`processedData, st`insights, st`recommendations
    ensures st.agentStatuses == Put(old(st.agentStatuses), InsightAgentId,
                                    if fault.None? then Completed else Failed)
    ensures st.agentErrors == PutIf(old(st.agentErrors), InsightAgentId, fault)
    ensures fault.Some? ==>
              && st.agentOutputs == old(st.agentOutputs) && st.processedData == old(st.processedData)
              && st.insights == old(st.insights) && st.recommendations == old(st.recommendations)
              && st.completionPercentage == 10.0
    ensures fault.None? ==>
              var f := MockFigures(old(st.rawIssues), old(st.trendAnalysis), draw, now);
              && st.agentOutputs == Put(old(st.agentOutputs), InsightAgentId, MockInsightOutput(f.riskLevel))
              && st.processedData == Put(old(st.processedData), AiInsightsKey, MockInsightsEntry(f))
              && st.insights == old(st.insights) + MockInsightRecords(f, now)
              && st.recommendations == old(st.recommendations) + MockRecommendations(f.riskLevel, now)
              && st.completionPercentage == 100.0
    ensures st.currentStep == InsightKey
    ensures StatusTrace(st.progressUpdates, InsightAgentId)
            == StatusTrace(old(st.progressUpdates), InsightAgentId) + [Running, if fault.None? then Completed else Failed]
  {
    if fault.Some? {
      FailAtFirstAwait(st, InsightAgentId, InsightKey, GeneratingInsights, fault.value, now);
      LifecycleTrace(old(st.progressUpdates), InsightAgentId, [StepEvent(now, InsightKey, 10.0, Str(GeneratingInsights))],
                     Failed, now, InsightAgentId);
    } else {
      SucceedInsight(st, MockFigures(st.rawIssues, st.trendAnalysis, draw, now), now);
      RegroupSteps(old(st.progressUpdates), StatusEvent(now, InsightAgentId, Running),
                   [StepEvent(now, InsightKey, 10.0, Str(GeneratingInsights))], InsightMidSteps(now),
                   [StepEvent(now, InsightKey, 100.0, Str(InsightsGenerated))], StatusEvent(now, InsightAgentId, Completed));
      LifecycleTrace(old(st.progressUpdates), InsightAgentId, InsightSteps(now), Completed, now, InsightAgentId);
    }
  }
}
