/** The report generation agent. Once a trend analysis and insights exist
    it builds four reports in turn (an executive summary, a technical
    analysis, an action plan and the dashboard data), assembles them into
    the final report, and stores the reports and their metadata. The first
    three ask the language model; a call or a decoding that raises, or a
    reply that cannot take the agent's additions, falls back to a fixed
    report that carries the error. The replies are parameters, and every
    clock reading of one run is the same `now`.

    The flag `fixed` selects the corrected behaviour of the two defects
    listed in the README's findings: the executive prompt's division by
    the number of issues, and the count of action items in the output. */
module ReportAgent {
  import opened Base
  import opened Json
  import opened State
  import opened Counting
  import opened Routing
  import opened IssueMetrics
  import opened MockAgents
  import opened MockReport
  import opened InsightAgent

  /** The replies to the three prompts, in the order they are asked. */
  datatype ReportReplies = ReportReplies(executive: Reply, technical: Reply, actionable: Reply)

  const MissingReportData := "Missing required data for report generation"
  const ReportFailedPrefix := "Report generation failed: "
  const DivisionByZero := "division by zero"
  /** `KeyError('date')`, as `str` renders it. */
  const DateKeyError := "'date'"
  const RepositoryWord := "repository"

  // ------------------------------------------------------------------
  // Executive summary
  // ------------------------------------------------------------------

  const OverviewKey := "overview"
  const KeyFindingsKey := "key_findings"
  const BusinessImpactKey := "business_impact"
  const RecommendationsKey := "recommendations"
  const ResourcesNeededKey := "resources_needed"
  const OverviewText := "Analysis of {} shows {} issue trends."
  const IssueCountText := "Repository has {} total issues with {} currently open"
  const TrendIsText := "Issue trend is {}"
  const HealthAtText := "Health score assessed at {}/10"
  const BusinessImpactText := "Repository health impacts development velocity and user satisfaction."
  const ExecutiveAdvice := ["Monitor issue trends", "Improve response times", "Enhance documentation"]
  const ResourcesText := "Development team attention for issue triage and resolution"

  /** The fallback summary: the repository (by its full name, or
      "repository"), the trend, the issue counts, the health score, three
      fixed recommendations and the error. */
  function ExecutiveFallback(name: string, direction: string, total: nat, open: nat, health: Value,
                             error: string): (r: Value)
    ensures r.Object? && Get(r.fields, ErrorKey) == Some(Str(error))
    ensures Get(r.fields, OverviewKey) == Some(Text(OverviewText, [Str(name), Str(direction)]))
  {
    var d := [(OverviewKey, Text(OverviewText, [Str(name), Str(direction)])),
              (KeyFindingsKey, List([Text(IssueCountText, [Int(total), Int(open)]),
                                     Text(TrendIsText, [Str(direction)]),
                                     Text(HealthAtText, [health])])),
              (BusinessImpactKey, Str(BusinessImpactText)),
              (RecommendationsKey, StrList(ExecutiveAdvice)),
              (ResourcesNeededKey, Str(ResourcesText))];
    GetAppended(d, ErrorKey, Str(error));
    Object(d + [(ErrorKey, Str(error))])
  }

  /** The executive summary. The health score and the overall risk are
      read first (a category that is not a dictionary has no `get`); then
      the prompt is formatted, and it divides the open issues by the total
      whatever the total, so no issues raise `ZeroDivisionError` (not when
      `fixed`). The decoded reply is the summary; a call that raises yields
      the fallback. */
  function ExecutiveSummary(src: ReportSource, trend: TrendAnalysis, ai: Dict<string, Value>, reply: Reply,
                            fixed: bool): (r: Result<Value, string>)
    ensures r.Ok? <==> && GetOr(ai, HealthKey, Object([])).Object?
                       && GetOr(ai, RisksKey, Object([])).Object?
                       && (fixed || src.issues != [])
    ensures r.Ok? && reply.Decoded? ==> r.value == reply.value
    ensures r.Ok? && reply.Raised? ==> r.value.Object? && Get(r.value.fields, ErrorKey) == Some(Str(reply.message))
  {
    var health := CategoryGet(ai, HealthKey, HealthScoreKey, Str(UnknownWord));
    if health.Err? then Err(health.error)
    else
      var risk := CategoryGet(ai, RisksKey, OverallRiskKey, Str(UnknownWord));
      if risk.Err? then Err(risk.error)
      else if !fixed && src.issues == [] then Err(DivisionByZero)
      else match reply
        case Decoded(v) => Ok(v)
        case Raised(e) =>
          Ok(ExecutiveFallback(RepositoryName(src.processed, RepositoryWord), trend.trendDirection,
                               |src.issues|, OpenCount(src.issues), health.value, e))
  }

  // ------------------------------------------------------------------
  // Technical analysis
  // ------------------------------------------------------------------

  const DataSummaryKey := "data_summary"
  const TotalIssuesAnalyzedKey := "total_issues_analyzed"
  const AnalysisConfidenceKey := "analysis_confidence"
  const AnomaliesCountKey := "anomalies_count"
  const TrendSlopeKey := "trend_slope"
  const MethodologyKey := "methodology"
  const StatisticalAnalysisKey := "statistical_analysis"
  const PatternsIdentifiedKey := "patterns_identified"
  const TechnicalRecommendationsKey := "technical_recommendations"
  const ImplementationGuideKey := "implementation_guide"
  const MethodologyText := "Time-series analysis of GitHub issues using statistical modeling"
  const FallbackPatterns := ["Weekly patterns in issue creation", "Maintenance issue clustering"]
  const FallbackTechnicalAdvice := ["Implement automated issue labeling", "Set up monitoring dashboards"]
  const ImplementationText := "Use CI/CD integration for automated analysis"

  /** The figures a decoded technical report is annotated with. */
  function DataSummary(issueCount: nat, trend: TrendAnalysis): Value
  {
    Object([(TotalIssuesAnalyzedKey, Int(issueCount)), (AnalysisConfidenceKey, Real(trend.confidenceScore)),
            (AnomaliesCountKey, Int(|trend.anomalies|)), (TrendSlopeKey, Real(trend.trendSlope))])
  }

  function TechnicalFallback(trend: TrendAnalysis, error: string): (r: Value)
    ensures r.Object? && Get(r.fields, ErrorKey) == Some(Str(error))
  {
    var d := [(MethodologyKey, Str(MethodologyText)),
              (StatisticalAnalysisKey, Object([(TrendDirectionKey, Str(trend.trendDirection)),
                                               (ConfidenceScoreKey, Real(trend.confidenceScore)),
                                               (AnomaliesDetectedKey, Int(|trend.anomalies|))])),
              (PatternsIdentifiedKey, StrList(FallbackPatterns)),
              (TechnicalRecommendationsKey, StrList(FallbackTechnicalAdvice)),
              (ImplementationGuideKey, Str(ImplementationText))];
    GetAppended(d, ErrorKey, Str(error));
    Object(d + [(ErrorKey, Str(error))])
  }

  /** The technical analysis never raises: a dictionary reply gets the
      data summary; any other decoded reply cannot take it, and, like a
      call that raises, yields the fallback with the error. */
  function TechnicalReport(issueCount: nat, trend: TrendAnalysis, reply: Reply): (r: Value)
    ensures r.Object?
    ensures reply.Decoded? && reply.value.Object? ==>
              Get(r.fields, DataSummaryKey) == Some(DataSummary(issueCount, trend))
    ensures reply.Raised? ==> Get(r.fields, ErrorKey) == Some(Str(reply.message))
    ensures reply.Decoded? && !reply.value.Object? ==>
              Get(r.fields, ErrorKey) == Some(Str(NoItemAssignment(reply.value)))
  {
    match reply
    case Decoded(v) =>
      if v.Object? then
        PutGet(v.fields, DataSummaryKey, DataSummary(issueCount, trend), DataSummaryKey);
        Object(Put(v.fields, DataSummaryKey, DataSummary(issueCount, trend)))
      else TechnicalFallback(trend, NoItemAssignment(v))
    case Raised(e) => TechnicalFallback(trend, e)
  }

  /** The annotation leaves every other field of the reply as it was. */
  lemma TechnicalKeepsReply(issueCount: nat, trend: TrendAnalysis, fields: Dict<string, Value>, key: string)
    requires key != DataSummaryKey
    ensures Get(TechnicalReport(issueCount, trend, Decoded(Object(fields))).fields, key) == Get(fields, key)
  {
    PutGet(fields, DataSummaryKey, DataSummary(issueCount, trend), key);
  }

  // ------------------------------------------------------------------
  // Action items and the action plan
  // ------------------------------------------------------------------

  const AgentSourcePrefix := "Agent: "
  const GeneralItems := "general"
  const StrategicSource := "Strategic Analysis"
  const StrategicItemRationale := "Derived from strategic pattern analysis"
  const StrategicItems := "strategic"
  const RiskSource := "Risk Assessment"
  const RiskItemRationale := "Risk mitigation strategy"
  const RiskItems := "risk_mitigation"

  /** The action item of a recommendation, credited to the agent that made it. */
  function RecommendationItem(rec: RecommendationRecord): ActionItem
  {
    ActionItem(rec.recommendation, rec.priority, AgentSourcePrefix + rec.agentId, rec.rationale, GeneralItems)
  }

  function StrategicItem(action: Value): ActionItem
  {
    ActionItem(action, Medium, StrategicSource, StrategicItemRationale, StrategicItems)
  }

  function RiskItem(action: Value): ActionItem
  {
    ActionItem(action, High, RiskSource, RiskItemRationale, RiskItems)
  }

  /** The strategic and risk categories have the shape of decoded JSON
      where the action items are looked up. */
  predicate ActionShapes(ai: Dict<string, Value>)
  {
    && ListedShape(GetOr(ai, StrategicKey, Object([])), RecommendedActionsKey)
    && ListedShape(GetOr(ai, RisksKey, Object([])), RecommendedActionsKey)
  }

  /** Up to three recommended actions of the strategic category. */
  function StrategicActions(ai: Dict<string, Value>): (r: Result<seq<Value>, string>)
    requires ActionShapes(ai)
  {
    ItemsUnder(GetOr(ai, StrategicKey, Object([])), RecommendedActionsKey, 3)
  }

  /** Up to two recommended actions of the risk category. */
  function RiskActions(ai: Dict<string, Value>): (r: Result<seq<Value>, string>)
    requires ActionShapes(ai)
  {
    ItemsUnder(GetOr(ai, RisksKey, Object([])), RecommendedActionsKey, 2)
  }

  /** The action items: one per recommendation, in order, then a medium
      priority item per strategic action, then a high priority item per
      risk action; or the error raised while looking the actions up. */
  function ActionItemsFor(recs: seq<RecommendationRecord>, ai: Dict<string, Value>)
    : (r: Result<seq<ActionItem>, string>)
    requires ActionShapes(ai)
    ensures r.Ok? <==> StrategicActions(ai).Ok? && RiskActions(ai).Ok?
    ensures r.Ok? ==> && r.value == ItemsOf(recs, StrategicActions(ai).value, RiskActions(ai).value)
                      && |r.value| <= |recs| + 5
  {
    var s := StrategicActions(ai);
    if s.Err? then Err(s.error)
    else
      var k := RiskActions(ai);
      if k.Err? then Err(k.error)
      else Ok(ItemsOf(recs, s.value, k.value))
  }

  /** One action item per element, in order. */
  function Mapped<T>(xs: seq<T>, item: T -> ActionItem): (r: seq<ActionItem>)
    ensures |r| == |xs|
    ensures forall i :: 0 <= i < |xs| ==> r[i] == item(xs[i])
  {
    seq(|xs|, i requires 0 <= i < |xs| => item(xs[i]))
  }
  /** The recommendations' items, then the strategic ones, then the risk ones. */
  function ItemsOf(recs: seq<RecommendationRecord>, s: seq<Value>, k: seq<Value>): (r: seq<ActionItem>)
    ensures |r| == |recs| + |s| + |k|
    ensures forall i :: 0 <= i < |recs| ==> r[i] == RecommendationItem(recs[i])
    ensures forall i :: 0 <= i < |s| ==> r[|recs| + i] == StrategicItem(s[i])
    ensures forall i :: 0 <= i < |k| ==> r[|recs| + |s| + i] == RiskItem(k[i])
  {
    Mapped(recs, RecommendationItem) + Mapped(s, StrategicItem) + Mapped(k, RiskItem)
  }


  /** The loops that append the action items one by one. */
  method CollectActionItems(recs: seq<RecommendationRecord>, ai: Dict<string, Value>)
    returns (r: Result<seq<ActionItem>, string>)
    requires ActionShapes(ai)
    ensures r == ActionItemsFor(recs, ai)
  {
    var items := AppendItems([], recs, RecommendationItem);
    var strategic := StrategicActions(ai);
    if strategic.Err? {
      return Err(strategic.error);
    }
    var withStrategic := AppendItems(items, strategic.value, StrategicItem);
    var risks := RiskActions(ai);
    if risks.Err? {
      return Err(risks.error);
    }
    var all := AppendItems(withStrategic, risks.value, RiskItem);
    assert items == Mapped(recs, RecommendationItem);
    r := Ok(all);
  }

  /** `for action in actions: action_items.append(...)`: one action item
      per element, in order. */
  method AppendItems<T>(items: seq<ActionItem>, xs: seq<T>, item: T -> ActionItem)
    returns (r: seq<ActionItem>)
    ensures r == items + Mapped(xs, item)
  {
    r := items;
    for i := 0 to |xs|
      invariant |r| == |items| + i && r[..|items|] == items
      invariant forall j :: 0 <= j < i ==> r[|items| + j] == item(xs[j])
    {
      r := r + [item(xs[i])];
    }
    assert r == items + Mapped(xs, item);
  }

  const ImmediateActionsKey := "immediate_actions"
  const ShortTermActionsKey := "short_term_actions"
  const LongTermActionsKey := "long_term_actions"
  const ResourceRequirementsKey := "resource_requirements"
  const SuccessMetricsKey := "success_metrics"
  const ActionItemsKey := "action_items"
  const FallbackImmediate := ["Review open issues older than 90 days", "Implement issue labeling strategy"]
  const FallbackShortTerm := ["Set up automated issue triage", "Establish response time targets"]
  const FallbackLongTerm := ["Implement comprehensive monitoring", "Develop community engagement strategy"]
  const FallbackResources := "2-3 hours per week for issue management"
  const FallbackMetrics := ["Reduced average issue resolution time", "Improved community engagement"]

  const AllActionItemsKey := "all_action_items"
  const ActionKey := "action"
  const ItemPriorityKey := "priority"
  const ItemSourceKey := "source"
  const ItemRationaleKey := "rationale"
  const ItemCategoryKey := "category"

  /** An action item as the dictionary the agent builds for it. */
  function ItemValue(a: ActionItem): Value
  {
    Object([(ActionKey, a.action), (ItemPriorityKey, Str(a.priority)), (ItemSourceKey, Str(a.source)),
            (ItemRationaleKey, Str(a.rationale)), (ItemCategoryKey, Str(a.category))])
  }

  /** The action items as the list stored under `all_action_items`. */
  function ItemsValue(items: seq<ActionItem>): Value
  {
    List(seq(|items|, i requires 0 <= i < |items| => ItemValue(items[i])))
  }

  /** The fallback plan's fixed entries: two actions for each horizon, the
      resources and two success metrics. */
  function FallbackPlanHead(): Dict<string, Value>
  {
    [(ImmediateActionsKey, StrList(FallbackImmediate)),
     (ShortTermActionsKey, StrList(FallbackShortTerm)),
     (LongTermActionsKey, StrList(FallbackLongTerm)),
     (ResourceRequirementsKey, Str(FallbackResources)),
     (SuccessMetricsKey, StrList(FallbackMetrics))]
  }

  /** The keys the fallback plan adds, and the one it lacks, are not among
      its fixed entries' keys, and differ from each other. */
  lemma FallbackHeadKeys()
    ensures forall p <- FallbackPlanHead() ::
              p.0 != AllActionItemsKey && p.0 != ErrorKey && p.0 != ActionItemsKey
    ensures AllActionItemsKey != ErrorKey && AllActionItemsKey != ActionItemsKey && ErrorKey != ActionItemsKey
  {
  }

  /** The fallback plan: the fixed entries, the action items and the error;
      it lists no `action_items`. */
  function PlanFallback(items: seq<ActionItem>, error: string): (r: Value)
    ensures r.Object? && Get(r.fields, ErrorKey) == Some(Str(error))
    ensures Get(r.fields, AllActionItemsKey) == Some(ItemsValue(items))
  {
    FallbackHeadKeys();
    AppendTwoGet(FallbackPlanHead(), AllActionItemsKey, ItemsValue(items), ErrorKey, Str(error));
    Object(FallbackPlanHead() + [(AllActionItemsKey, ItemsValue(items))] + [(ErrorKey, Str(error))])
  }

  /** The fallback plan lists no `action_items`. */
  lemma PlanFallbackShape(items: seq<ActionItem>, error: string)
    ensures Get(PlanFallback(items, error).fields, ActionItemsKey).None?
    ensures ListedShape(PlanFallback(items, error), ActionItemsKey)
  {
    FallbackHeadKeys();
    GetAppended(PlanFallback(items, error).fields, ActionItemsKey, Null);
  }

  /** The action plan: a dictionary reply with the action items assigned
      under `all_action_items`, or the fallback plan (for any other decoded
      reply, which cannot take the assignment, and for a call that raises).
      Either way the plan's `all_action_items` are the collected items. */
  function ActionPlanOf(items: seq<ActionItem>, reply: Reply): (r: ActionPlan)
    ensures r.allActionItems == Some(items) && r.plan.Object?
    ensures Get(r.plan.fields, AllActionItemsKey) == Some(ItemsValue(items))
    ensures reply.Decoded? && reply.value.Object? ==>
              r.plan == Object(Put(reply.value.fields, AllActionItemsKey, ItemsValue(items)))
    ensures reply.Raised? ==> r.plan == PlanFallback(items, reply.message)
    ensures reply.Decoded? && !reply.value.Object? ==> r.plan == PlanFallback(items, NoItemAssignment(reply.value))
    ensures JsonReply(reply) ==> ListedShape(r.plan, ActionItemsKey)
  {
    match reply
    case Decoded(v) =>
      if v.Object? then
        var fields := Put(v.fields, AllActionItemsKey, ItemsValue(items));
        PutGet(v.fields, AllActionItemsKey, ItemsValue(items), AllActionItemsKey);
        (if IsJson(v) then
           JsonListedShape(v, ActionItemsKey);
           PlanAttachShape(v.fields, ItemsValue(items));
           ActionPlan(Object(fields), Some(items))
         else ActionPlan(Object(fields), Some(items)))
      else PlanFallbackShape(items, NoItemAssignment(v)); ActionPlan(PlanFallback(items, NoItemAssignment(v)), Some(items))
    case Raised(e) => PlanFallbackShape(items, e); ActionPlan(PlanFallback(items, e), Some(items))
  }

  /** Assigning `all_action_items` leaves the reply's `action_items` entry
      as it was. */
  lemma PlanAttachShape(fields: Dict<string, Value>, v: Value)
    requires ListedShape(Object(fields), ActionItemsKey)
    ensures ListedShape(Object(Put(fields, AllActionItemsKey, v)), ActionItemsKey)
  {
    forall p <- Put(fields, AllActionItemsKey, v)
      ensures p.0 == ActionItemsKey ==> !p.1.Text? && !p.1.Doc?
    {
      PutPairs(fields, AllActionItemsKey, v, p);
    }
  }

  /** The assignment replaces a reply's own `all_action_items` in its place,
      or adds the key last; every other field of the reply is kept. */
  lemma PlanKeepsReply(items: seq<ActionItem>, fields: Dict<string, Value>, key: string)
    ensures var plan := ActionPlanOf(items, Decoded(Object(fields))).plan;
            && (key != AllActionItemsKey ==> Get(plan.fields, key) == Get(fields, key))
            && Keys(plan.fields) == if AllActionItemsKey in Keys(fields) then Keys(fields)
                                    else Keys(fields) + [AllActionItemsKey]
  {
    PutGet(fields, AllActionItemsKey, ItemsValue(items), key);
  }

  /** The action step: the items, then the overall risk read for the
      prompt, then the plan. */
  function ActionStep(recs: seq<RecommendationRecord>, ai: Dict<string, Value>, reply: Reply)
    : (r: Result<ActionPlan, string>)
    requires ActionShapes(ai)
    ensures r.Ok? <==> ActionItemsFor(recs, ai).Ok? && GetOr(ai, RisksKey, Object([])).Object?
    ensures r.Ok? ==> r.value == ActionPlanOf(ActionItemsFor(recs, ai).value, reply)
  {
    var items := ActionItemsFor(recs, ai);
    if items.Err? then Err(items.error)
    else
      var risk := CategoryGet(ai, RisksKey, OverallRiskKey, Str(UnknownWord));
      if risk.Err? then Err(risk.error) else Ok(ActionPlanOf(items.value, reply))
  }

  method BuildActionPlan(recs: seq<RecommendationRecord>, ai: Dict<string, Value>, reply: Reply)
    returns (r: Result<ActionPlan, string>)
    requires ActionShapes(ai)
    ensures r == ActionStep(recs, ai, reply)
  {
    var items := CollectActionItems(recs, ai);
    if items.Err? {
      return Err(items.error);
    }
    var risk := CategoryGet(ai, RisksKey, OverallRiskKey, Str(UnknownWord));
    if risk.Err? {
      return Err(risk.error);
    }
    r := Ok(ActionPlanOf(items.value, reply));
  }

  // ------------------------------------------------------------------
  // Dashboard
  // ------------------------------------------------------------------

  /** A day's place in calendar order, which is the order of its
      `%Y-%m-%d` text for four-digit years. */
  function DayOrder(p: (Day, int)): int
  {
    p.0.0 * 10000 + p.0.1 * 100 + p.0.2
  }

  /** A month's place in calendar order, likewise for its `%Y-%m` text. */
  function MonthOrder(p: (Month, int)): int
  {
    p.0.0 * 100 + p.0.1
  }

  /** The dashboard data: the summary figures, the issues counted per day
      and per month (`groupby(...).size()`, in ascending key order) and per
      state (`value_counts()`, by descending count), the ten most frequent
      labels, and the trend's figures. */
  function DashboardOf(issues: seq<Issue>, trend: TrendAnalysis, health: Value, risk: Value,
                       now: Timestamp): Dashboard
  {
    Dashboard(|issues|, OpenCount(issues), trend.trendDirection, health, risk,
              SortBy(Tallied([], DaysOf(issues)), DayOrder), SortBy(Tallied([], MonthsOf(issues)), MonthOrder),
              SortDesc(Tallied([], StatesOf(issues))),
              TopN(Tallied([], LabelsOf(issues)), 10), trend.trendSlope, trend.confidenceScore,
              |trend.anomalies|, trend.forecast, now)
  }

  /** The dashboard step. A table built from no issues has no `date`
      column, and grouping by it raises before anything is read; then the
      health score (0 when missing) and the overall risk are read. */
  function DashboardStep(issues: seq<Issue>, trend: TrendAnalysis, ai: Dict<string, Value>, now: Timestamp)
    : (r: Result<Dashboard, string>)
    ensures r.Ok? <==> && issues != []
                       && GetOr(ai, HealthKey, Object([])).Object?
                       && GetOr(ai, RisksKey, Object([])).Object?
    ensures issues == [] ==> r == Err(DateKeyError)
    ensures r.Ok? ==> r.value == DashboardOf(issues, trend, CategoryGet(ai, HealthKey, HealthScoreKey, Int(0)).value,
                                             CategoryGet(ai, RisksKey, OverallRiskKey, Str(UnknownWord)).value, now)
  {
    if issues == [] then Err(DateKeyError)
    else
      var health := CategoryGet(ai, HealthKey, HealthScoreKey, Int(0));
      if health.Err? then Err(health.error)
      else
        var risk := CategoryGet(ai, RisksKey, OverallRiskKey, Str(UnknownWord));
        if risk.Err? then Err(risk.error) else Ok(DashboardOf(issues, trend, health.value, risk.value, now))
  }

  /** The dashboard's figures agree with the issues: the open count is the
      number of open issues and the per-state count of `"open"`, the daily,
      monthly and per-state counts each add up to the number of issues, and
      the top labels are at most ten of the label counts, largest first,
      none smaller than a label left out. */
  lemma DashboardCounts(issues: seq<Issue>, trend: TrendAnalysis, health: Value, risk: Value, now: Timestamp)
    ensures var d := DashboardOf(issues, trend, health, risk, now);
            && d.totalIssues == |issues|
            && d.openIssues == GetOr(d.issueStates, OpenState, 0)
            && Total(d.dailyIssues) == |issues| && Total(d.monthlyIssues) == |issues|
            && Total(d.issueStates) == |issues|
            && |d.topLabels| <= 10 && NonIncreasing(d.topLabels)
            && multiset(d.topLabels) <= multiset(Tallied([], LabelsOf(issues)))
            && forall i, j :: 0 <= i < |d.topLabels| && 0 <= j < |Dropped(Tallied([], LabelsOf(issues)), 10)| ==>
                 d.topLabels[i].1 >= Dropped(Tallied([], LabelsOf(issues)), 10)[j].1
  {
    TalliedCounts([], StatesOf(issues), OpenState);
    OpenStates(issues);
    SortedTally(DaysOf(issues), DayOrder);
    SortedTally(MonthsOf(issues), MonthOrder);
    SortedTally(StatesOf(issues), ByCountDesc);
    SortedTallyGet(StatesOf(issues), ByCountDesc, OpenState);
    TopNIsTop(Tallied([], LabelsOf(issues)), 10);
  }

  /** The daily and monthly counts run in calendar order, the per-state
      counts from the most frequent state down, and each of them gives every
      day, month and state its number of issues. */
  lemma DashboardSeries(issues: seq<Issue>, trend: TrendAnalysis, health: Value, risk: Value, now: Timestamp)
    ensures var d := DashboardOf(issues, trend, health, risk, now);
            && Ascending(d.dailyIssues, DayOrder) && Ascending(d.monthlyIssues, MonthOrder)
            && NonIncreasing(d.issueStates)
            && (forall day :: GetOr(d.dailyIssues, day, 0) == Count(DaysOf(issues), day))
            && (forall month :: GetOr(d.monthlyIssues, month, 0) == Count(MonthsOf(issues), month))
            && (forall state :: GetOr(d.issueStates, state, 0) == Count(StatesOf(issues), state))
  {
    var d := DashboardOf(issues, trend, health, risk, now);
    assert d.dailyIssues == SortBy(Tallied([], DaysOf(issues)), DayOrder);
    assert d.monthlyIssues == SortBy(Tallied([], MonthsOf(issues)), MonthOrder);
    assert d.issueStates == SortBy(Tallied([], StatesOf(issues)), ByCountDesc);
    SortedTally(DaysOf(issues), DayOrder);
    SortedTally(MonthsOf(issues), MonthOrder);
    SortDescSorted(Tallied([], StatesOf(issues)));
    forall day
      ensures GetOr(d.dailyIssues, day, 0) == Count(DaysOf(issues), day)
    {
      SortedTallyGet(DaysOf(issues), DayOrder, day);
    }
    forall month
      ensures GetOr(d.monthlyIssues, month, 0) == Count(MonthsOf(issues), month)
    {
      SortedTallyGet(MonthsOf(issues), MonthOrder, month);
    }
    forall state
      ensures GetOr(d.issueStates, state, 0) == Count(StatesOf(issues), state)
    {
      SortedTallyGet(StatesOf(issues), ByCountDesc, state);
    }
  }

  /** `all_labels.extend(issue.labels)` for each issue in turn. */
  method GatherLabels(issues: seq<Issue>) returns (all: seq<string>)
    ensures all == LabelsOf(issues)
  {
    all := [];
    for i := 0 to |issues|
      invariant all == LabelsOf(issues[..i])
    {
      assert issues[..i + 1][..i] == issues[..i];
      all := all + issues[i].labels;
    }
    assert issues[..|issues|] == issues;
  }

  method BuildDashboard(issues: seq<Issue>, trend: TrendAnalysis, ai: Dict<string, Value>, now: Timestamp)
    returns (r: Result<Dashboard, string>)
    ensures r == DashboardStep(issues, trend, ai, now)
  {
    if issues == [] {
      return Err(DateKeyError);
    }
    var labels := GatherLabels(issues);
    var health := CategoryGet(ai, HealthKey, HealthScoreKey, Int(0));
    if health.Err? {
      return Err(health.error);
    }
    var risk := CategoryGet(ai, RisksKey, OverallRiskKey, Str(UnknownWord));
    if risk.Err? {
      return Err(risk.error);
    }
    r := Ok(Dashboard(|issues|, OpenCount(issues), trend.trendDirection, health.value, risk.value,
                      SortBy(Tallied([], DaysOf(issues)), DayOrder), SortBy(Tallied([], MonthsOf(issues)), MonthOrder),
                      SortDesc(Tallied([], StatesOf(issues))),
                      TopN(Tallied([], labels), 10), trend.trendSlope, trend.confidenceScore,
                      |trend.anomalies|, trend.forecast, now));
  }

  // ------------------------------------------------------------------
  // The final report and the output
  // ------------------------------------------------------------------

  const RepositoryHealthKey := "repository_health"
  const MaintenanceAnalysisKey := "maintenance_analysis"
  const CommunityAssessmentKey := "community_assessment"
  const RiskEvaluationKey := "risk_evaluation"
  const ReportFormats := [ExecutiveKey, TechnicalKey, ActionableKey, DashboardKey]

  /** The four categories the final report quotes in full, `{}` for a
      missing one. */
  function DetailedInsights(ai: Dict<string, Value>): Value
  {
    Object([(RepositoryHealthKey, GetOr(ai, HealthKey, Object([]))),
            (MaintenanceAnalysisKey, GetOr(ai, MaintenanceKey, Object([]))),
            (CommunityAssessmentKey, GetOr(ai, CommunityKey, Object([]))),
            (RiskEvaluationKey, GetOr(ai, RisksKey, Object([])))])
  }

  /** The final report: the run's metadata (no demonstration flag), the four
      reports as built, the insights' categories, and the state's
      recommendations and insights projected in order; no reflection yet. */
  function FinalReportOf(src: ReportSource, trend: TrendAnalysis, ai: Dict<string, Value>, reports: Reports,
                         now: Timestamp): (r: FinalReport)
    ensures r.AnalysisReport? && r.reflection.None? && r.metadata.demoMode.None?
    ensures r.metadata.totalIssuesAnalyzed == |src.issues| && r.metadata.confidenceScore == trend.confidenceScore
    ensures |r.recommendations| == |src.recs| && |r.insights| == |src.insights|
  {
    AnalysisReport(Metadata(src.url, now, src.periodDays, |src.issues|, src.sessionId, trend.confidenceScore,
                            None, None),
                   reports.executive, reports.technical, reports.actionable, reports.dashboard,
                   DetailedInsights(ai), ProjectRecommendations(src.recs), ProjectInsights(src.insights), None)
  }

  function ReportMetadataOf(src: ReportSource, trend: TrendAnalysis, now: Timestamp): ReportMetadata
  {
    ReportMetadata(now, src.url, src.periodDays, |src.issues|, ReportFormats, trend.confidenceScore)
  }

  /** `processed_data["all_reports"]`, then `processed_data["report_metadata"]`. */
  function StoredData(processed: Dict<string, Processed>, reports: Reports, meta: ReportMetadata)
    : Dict<string, Processed>
  {
    Put(Put(processed, AllReportsKey, AllReportsEntry(reports)), ReportMetadataKey, ReportMetadataEntry(meta))
  }

  /** `len(v)` of a decoded value: the items of a list, the characters of a
      string, the distinct keys of a dictionary; other values have no
      length. */
  function Length(v: Value): (r: Result<nat, string>)
    requires !v.Text? && !v.Doc?
    ensures r.Ok? <==> v.List? || v.Str? || v.Object?
  {
    match v
    case List(items) => Ok(|items|)
    case Str(s) => Ok(|s|)
    case Object(fields) => Ok(|(set k <- Keys(fields))|)
    case _ => Result<nat, string>.Err("object of type '" + TypeName(v) + "' has no len()")
  }

  /** `len(reports["actionable"].get("action_items", []))`: the plan's own
      `action_items` field, which no plan the agent builds sets, so a plan
      without it counts none. With `fixed`, the action items compiled. */
  function ActionItemsCount(plan: ActionPlan, fixed: bool): (r: Result<nat, string>)
    requires ListedShape(plan.plan, ActionItemsKey)
    ensures fixed ==> r == Ok(if plan.allActionItems.Some? then |plan.allActionItems.value| else 0)
    ensures !fixed && plan.plan.Object? && Get(plan.plan.fields, ActionItemsKey).None? ==> r == Ok(0)
    ensures !fixed && !plan.plan.Object? ==> r.Err?
  {
    if fixed then Ok(if plan.allActionItems.Some? then |plan.allActionItems.value| else 0)
    else match DictGet(plan.plan, ActionItemsKey, List([]))
      case Err(e) => Err(e)
      case Ok(v) => Length(v)
  }

  /** `len(final_report.get("sections", []))`: the final report has no
      `sections` key. */
  const NoSections := 0

  /** The output of a completed run: the four report formats, no sections,
      and the count of action items. */
  function ReportOutput(count: nat): Value
  {
    Object([(ReportsGeneratedKey, StrList(ReportFormats)), (FinalReportSectionsKey, Int(NoSections)),
            (ActionItemsCountKey, Int(count))])
  }

  // ------------------------------------------------------------------
  // Where a run stops
  // ------------------------------------------------------------------

  /** Where a started report stops: at the executive summary, the action
      step, the dashboard, or the output once the reports are stored, each
      with the error raised; or done, with the count of action items. */
  datatype Stop =
    | AtExecutive(error: string)
    | AtActions(error: string)
    | AtDashboard(error: string)
    | AtOutput(error: string)
    | Done(count: nat)

  /** After the executive summary: the technical analysis, the action plan
      and the dashboard, or where they stop. */
  function ReportsAfter(src: ReportSource, trend: TrendAnalysis, ai: Dict<string, Value>, rs: ReportReplies,
                        executive: Value, now: Timestamp): (r: Result<Reports, Stop>)
    requires ActionShapes(ai)
    ensures r.Err? ==> r.error.AtActions? || r.error.AtDashboard?
    ensures r.Ok? && JsonReply(rs.actionable) ==> ListedShape(r.value.actionable.plan, ActionItemsKey)
  {
    var plan := ActionStep(src.recs, ai, rs.actionable);
    if plan.Err? then Err(AtActions(plan.error))
    else Assembled(src, trend, ai, executive, TechnicalReport(|src.issues|, trend, rs.technical), plan.value, now)
  }

  /** The dashboard, then the four reports; or the dashboard's error. */
  function Assembled(src: ReportSource, trend: TrendAnalysis, ai: Dict<string, Value>, executive: Value,
                     technical: Value, plan: ActionPlan, now: Timestamp): (r: Result<Reports, Stop>)
    ensures r.Err? ==> r.error.AtDashboard?
    ensures r.Ok? ==> r.value.actionable == plan
  {
    var dashboard := DashboardStep(src.issues, trend, ai, now);
    if dashboard.Err? then Err(AtDashboard(dashboard.error))
    else Ok(Reports(executive, technical, plan, dashboard.value))
  }

  /** The four reports, or where building them stops. */
  function ReportsOf(src: ReportSource, trend: TrendAnalysis, ai: Dict<string, Value>, rs: ReportReplies,
                     fixed: bool, now: Timestamp): (r: Result<Reports, Stop>)
    requires ActionShapes(ai)
    ensures r.Err? ==> !r.error.AtOutput? && !r.error.Done?
    ensures r.Ok? && JsonReply(rs.actionable) ==> ListedShape(r.value.actionable.plan, ActionItemsKey)
  {
    var executive := ExecutiveSummary(src, trend, ai, rs.executive, fixed);
    if executive.Err? then Err(AtExecutive(executive.error))
    else ReportsAfter(src, trend, ai, rs, executive.value, now)
  }

  /** Counting the action items for the output, after the reports are stored. */
  function Counted(reports: Reports, fixed: bool): (r: Stop)
    requires ListedShape(reports.actionable.plan, ActionItemsKey)
    ensures r.AtOutput? || r.Done?
  {
    match ActionItemsCount(reports.actionable, fixed)
    case Ok(n) => Done(n)
    case Err(e) => AtOutput(e)
  }

  function StopOf(src: ReportSource, trend: TrendAnalysis, ai: Dict<string, Value>, rs: ReportReplies,
                  fixed: bool, now: Timestamp): (r: Stop)
    requires ActionShapes(ai) && JsonReply(rs.actionable)
    ensures r.AtOutput? || r.Done? <==> ReportsOf(src, trend, ai, rs, fixed, now).Ok?
  {
    match ReportsOf(src, trend, ai, rs, fixed, now)
    case Err(stop) => stop
    case Ok(reports) => Counted(reports, fixed)
  }

  function StopStatus(stop: Stop): AgentStatus
  {
    if stop.Done? then Completed else Failed
  }

  function StopError(stop: Stop): Option<string>
  {
    if stop.Done? then None else Some(ReportFailedPrefix + stop.error)
  }

  function StopOutput(stop: Stop): Option<Value>
  {
    if stop.Done? then Some(ReportOutput(stop.count)) else None
  }

  /** The steps from the technical analysis on: the dashboard's step when
      the action plan is built, the assembly's when the dashboard is. */
  function LaterSteps(result: Result<Reports, Stop>, now: Timestamp): (r: seq<ProgressEntry>)
    ensures StepsOnly(r)
  {
    EarlySteps(now) + if result.Err? && result.error.AtActions? then [] else DashboardSteps(result.Ok?, now)
  }

  /** The steps a started report records, up to where it stops. */
  function ReportSteps(result: Result<Reports, Stop>, now: Timestamp): (r: seq<ProgressEntry>)
    ensures StepsOnly(r)
    ensures |r| == if result.Ok? then 6 else match result.error
                     case AtExecutive(_) => 1 case AtActions(_) => 3 case _ => 4
  {
    [StepEvent(now, ReportKey, 25.0, Str(CreatingExecutive))]
    + if result.Err? && result.error.AtExecutive? then [] else LaterSteps(result, now)
  }

  // ------------------------------------------------------------------
  // The agent on the workflow state
  // ------------------------------------------------------------------

  /** The final report and processed data a run leaves behind: a run that
      produced its reports stores them with their metadata, a stopped run
      leaves both as they were. */
  predicate Stored(result: Result<Reports, Stop>, src: ReportSource, trend: TrendAnalysis,
                   ai: Dict<string, Value>, now: Timestamp,
                   report0: Option<FinalReport>, data0: Dict<string, Processed>,
                   report: Option<FinalReport>, data: Dict<string, Processed>)
  {
    if result.Ok? then
      && report == Some(FinalReportOf(src, trend, ai, result.value, now))
      && data == StoredData(data0, result.value, ReportMetadataOf(src, trend, now))
    else report == report0 && data == data0
  }

  /** The assembly: the final report, the stored reports and their
      metadata, between the last two steps. */
  method StoreReports(st: WorkflowState, src: ReportSource, trend: TrendAnalysis, ai: Dict<string, Value>,
                      reports: Reports, now: Timestamp)
    modifies st`progressUpdates, st`currentStep, st`completionPercentage, st`finalReport, st`processedData
    ensures st.finalReport == Some(FinalReportOf(src, trend, ai, reports, now))
    ensures st.processedData == StoredData(old(st.processedData), reports, ReportMetadataOf(src, trend, now))
    ensures st.progressUpdates == old(st.progressUpdates) + AssemblySteps(true, now)
    ensures st.currentStep == ReportKey
  {
    st.UpdateProgress(ReportKey, 90.0, Str(AssemblingReport), now);
    st.finalReport := Some(FinalReportOf(src, trend, ai, reports, now));
    st.processedData := Put(st.processedData, AllReportsKey, AllReportsEntry(reports));
    st.processedData := Put(st.processedData, ReportMetadataKey,
                            ReportMetadataEntry(ReportMetadataOf(src, trend, now)));
    st.UpdateProgress(ReportKey, 100.0, Str(ReportsCompleted), now);
  }

  /** The steps from the dashboard on: progress 80, then the assembly steps
      of a run that finishes. */
  function DashboardSteps(finished: bool, now: Timestamp): (r: seq<ProgressEntry>)
    ensures |r| == if finished then 3 else 1
    ensures StepsOnly(r)
  {
    [StepEvent(now, ReportKey, 80.0, Str(PreparingDashboard))] + AssemblySteps(finished, now)
  }

  lemma Regroup(entries: seq<ProgressEntry>, a: seq<ProgressEntry>, b: seq<ProgressEntry>)
    ensures entries + a + b == entries + (a + b)
  {
  }

  /** The two steps before the action plan: progress 45 and the
      technical report, then progress 65. */
  function EarlySteps(now: Timestamp): (r: seq<ProgressEntry>)
    ensures |r| == 2 && StepsOnly(r)
  {
    [StepEvent(now, ReportKey, 45.0, Str(GeneratingTechnical)),
     StepEvent(now, ReportKey, 65.0, Str(CompilingActions))]
  }

  /** Progress 45, the technical report, then progress 65. */
  method TechnicalSteps(st: WorkflowState, issueCount: nat, trend: TrendAnalysis, reply: Reply, now: Timestamp)
    returns (technical: Value)
    modifies st`progressUpdates, st`currentStep, st`completionPercentage
    ensures technical == TechnicalReport(issueCount, trend, reply)
    ensures st.progressUpdates == old(st.progressUpdates) + EarlySteps(now)
    ensures st.currentStep == ReportKey
  {
    st.UpdateProgress(ReportKey, 45.0, Str(GeneratingTechnical), now);
    technical := TechnicalReport(issueCount, trend, reply);
    st.UpdateProgress(ReportKey, 65.0, Str(CompilingActions), now);
  }

  /** From the technical analysis on: the action plan, the dashboard, and
      the assembly once both are built. */
  method ComposeReports(st: WorkflowState, src: ReportSource, trend: TrendAnalysis, ai: Dict<string, Value>,
                        rs: ReportReplies, executive: Value, now: Timestamp)
    returns (result: Result<Reports, Stop>)
    requires ActionShapes(ai)
    modifies st`progressUpdates, st`currentStep, st`completionPercentage, st`finalReport, st`processedData
    ensures result == ReportsAfter(src, trend, ai, rs, executive, now)
    ensures Stored(result, src, trend, ai, now, old(st.finalReport), old(st.processedData), st.finalReport, st.processedData)
    ensures st.progressUpdates == old(st.progressUpdates) + LaterSteps(result, now)
    ensures st.currentStep == ReportKey
  {
    var technical := TechnicalSteps(st, |src.issues|, trend, rs.technical, now);
    result := PlanAndAssemble(st, src, trend, ai, rs, executive, technical, now);
    Regroup(old(st.progressUpdates), EarlySteps(now),
            if result.Err? && result.error.AtActions? then [] else DashboardSteps(result.Ok?, now));
  }

  /** The action plan, then the dashboard and the assembly; or the error
      that stops either. */
  method PlanAndAssemble(st: WorkflowState, src: ReportSource, trend: TrendAnalysis, ai: Dict<string, Value>,
                         rs: ReportReplies, executive: Value, technical: Value, now: Timestamp)
    returns (result: Result<Reports, Stop>)
    requires ActionShapes(ai)
    requires technical == TechnicalReport(|src.issues|, trend, rs.technical)
    modifies st`progressUpdates, st`currentStep, st`completionPercentage, st`finalReport, st`processedData
    ensures result == ReportsAfter(src, trend, ai, rs, executive, now)
    ensures Stored(result, src, trend, ai, now, old(st.finalReport), old(st.processedData), st.finalReport, st.processedData)
    ensures st.progressUpdates == old(st.progressUpdates)
                                  + if result.Err? && result.error.AtActions? then [] else DashboardSteps(result.Ok?, now)
    ensures old(st.currentStep) == ReportKey ==> st.currentStep == ReportKey
  {
    var plan := BuildActionPlan(src.recs, ai, rs.actionable);
    if plan.Err? {
      result := Err(AtActions(plan.error));
      return;
    }
    result := AssembleReports(st, src, trend, ai, executive, technical, plan.value, now);
  }

  /** The dashboard, and the assembly once it is built. */
  method AssembleReports(st: WorkflowState, src: ReportSource, trend: TrendAnalysis, ai: Dict<string, Value>,
                         executive: Value, technical: Value, plan: ActionPlan, now: Timestamp)
    returns (result: Result<Reports, Stop>)
    modifies st`progressUpdates, st`currentStep, st`completionPercentage, st`finalReport, st`processedData
    ensures result == Assembled(src, trend, ai, executive, technical, plan, now)
    ensures Stored(result, src, trend, ai, now, old(st.finalReport), old(st.processedData), st.finalReport, st.processedData)
    ensures st.progressUpdates == old(st.progressUpdates) + DashboardSteps(result.Ok?, now)
    ensures st.currentStep == ReportKey
  {
    st.UpdateProgress(ReportKey, 80.0, Str(PreparingDashboard), now);
    var dashboard := BuildDashboard(src.issues, trend, ai, now);
    if dashboard.Err? {
      return Err(AtDashboard(dashboard.error));
    }
    result := Ok(Reports(executive, technical, plan, dashboard.value));
    StoreReports(st, src, trend, ai, result.value, now);
    Regroup(old(st.progressUpdates), [StepEvent(now, ReportKey, 80.0, Str(PreparingDashboard))], AssemblySteps(true, now));
  }

  /** The reports after the agent's first step: the executive summary, then
      the rest. */
  method ReportsBody(st: WorkflowState, src: ReportSource, trend: TrendAnalysis, ai: Dict<string, Value>,
                     rs: ReportReplies, fixed: bool, now: Timestamp)
    returns (result: Result<Reports, Stop>)
    requires ActionShapes(ai)
    modifies st`progressUpdates, st`currentStep, st`completionPercentage, st`finalReport, st`processedData
    ensures result == ReportsOf(src, trend, ai, rs, fixed, now)
    ensures Stored(result, src, trend, ai, now, old(st.finalReport), old(st.processedData), st.finalReport, st.processedData)
    ensures st.progressUpdates == old(st.progressUpdates) + ReportSteps(result, now)
    ensures st.currentStep == ReportKey
  {
    st.UpdateProgress(ReportKey, 25.0, Str(CreatingExecutive), now);
    var executive := ExecutiveSummary(src, trend, ai, rs.executive, fixed);
    if executive.Err? {
      return Err(AtExecutive(executive.error));
    }
    result := ComposeReports(st, src, trend, ai, rs, executive.value, now);
    Regroup(old(st.progressUpdates), [StepEvent(now, ReportKey, 25.0, Str(CreatingExecutive))], LaterSteps(result, now));
  }

  /** The final status update, with the output or the prefixed error. */
  method FinishReports(st: WorkflowState, stop: Stop, now: Timestamp)
    modifies st`agentStatuses, st`updatedAt, st`agentOutputs, st`agentErrors, st`progressUpdates
    ensures st.agentStatuses == Put(old(st.agentStatuses), ReportAgentId, StopStatus(stop))
    ensures st.agentErrors == PutIf(old(st.agentErrors), ReportAgentId, StopError(stop))
    ensures st.agentOutputs == PutIf(old(st.agentOutputs), ReportAgentId, StopOutput(stop))
    ensures st.progressUpdates == old(st.progressUpdates) + [StatusEvent(now, ReportAgentId, StopStatus(stop))]
  {
    if stop.Done? {
      st.UpdateAgentStatus(ReportAgentId, Completed, Some(ReportOutput(stop.count)), None, now);
    } else {
      st.UpdateAgentStatus(ReportAgentId, Failed, None, Some(ReportFailedPrefix + stop.error), now);
    }
  }

  // ------------------------------------------------------------------
  // Properties of a whole run
  // ------------------------------------------------------------------

  /** Both category reads the report makes before its first reply. */
  predicate Readable(ai: Dict<string, Value>)
  {
    GetOr(ai, HealthKey, Object([])).Object? && GetOr(ai, RisksKey, Object([])).Object?
  }

  /** Where a run can finish: a completed report needs readable categories,
      at least one issue and readable recommended actions; with the
      corrected summary and count these conditions are also enough. */
  lemma {:induction false} ReportCompletes(src: ReportSource, trend: TrendAnalysis, ai: Dict<string, Value>,
                                           rs: ReportReplies, fixed: bool, now: Timestamp)
    requires ActionShapes(ai) && JsonReply(rs.actionable)
    ensures StopOf(src, trend, ai, rs, fixed, now).Done? ==>
              Readable(ai) && src.issues != [] && StrategicActions(ai).Ok? && RiskActions(ai).Ok?
    ensures fixed ==>
              (StopOf(src, trend, ai, rs, fixed, now).Done? <==>
                 Readable(ai) && src.issues != [] && StrategicActions(ai).Ok? && RiskActions(ai).Ok?)
  {
    var executive := ExecutiveSummary(src, trend, ai, rs.executive, fixed);
    if executive.Ok? {
      var plan := ActionStep(src.recs, ai, rs.actionable);
      if plan.Ok? {
        var technical := TechnicalReport(|src.issues|, trend, rs.technical);
        var dashboard := DashboardStep(src.issues, trend, ai, now);
        assert ReportsOf(src, trend, ai, rs, fixed, now)
               == Assembled(src, trend, ai, executive.value, technical, plan.value, now);
      }
    }
  }

  /** As written: with no issues and readable categories, the executive
      summary's open-issue percentage divides by zero before any reply is
      read, so every such run fails at the summary. */
  lemma UnguardedDivision(src: ReportSource, trend: TrendAnalysis, ai: Dict<string, Value>,
                          rs: ReportReplies, now: Timestamp)
    requires ActionShapes(ai) && JsonReply(rs.actionable)
    requires src.issues == [] && Readable(ai)
    ensures StopOf(src, trend, ai, rs, false, now) == AtExecutive(DivisionByZero)
    ensures StopError(StopOf(src, trend, ai, rs, false, now)) == Some(ReportFailedPrefix + DivisionByZero)
  {
  }

  /** Corrected: the guarded percentage lets the summary be written for an
      empty repository, and such a run goes on to the action plan; it stops
      at the dashboard, whose date grouping finds no column. */
  lemma GuardedDivision(src: ReportSource, trend: TrendAnalysis, ai: Dict<string, Value>,
                        rs: ReportReplies, now: Timestamp)
    requires ActionShapes(ai) && JsonReply(rs.actionable)
    requires src.issues == [] && Readable(ai) && StrategicActions(ai).Ok? && RiskActions(ai).Ok?
    ensures ExecutiveSummary(src, trend, ai, rs.executive, true).Ok?
    ensures StopOf(src, trend, ai, rs, true, now) == AtDashboard(DateKeyError)
  {
    var executive := ExecutiveSummary(src, trend, ai, rs.executive, true);
    var plan := ActionStep(src.recs, ai, rs.actionable);
    assert ReportsOf(src, trend, ai, rs, true, now)
           == Assembled(src, trend, ai, executive.value, TechnicalReport(0, trend, rs.technical), plan.value, now);
  }

  /** As written: the output counts a plan key the agent never writes, so
      a finished run whose plan reply raised reports no action items,
      although it collected one per recommendation. */
  lemma UncountedItems(src: ReportSource, trend: TrendAnalysis, ai: Dict<string, Value>,
                       rs: ReportReplies, now: Timestamp)
    requires ActionShapes(ai) && rs.actionable.Raised?
    requires ReportsOf(src, trend, ai, rs, false, now).Ok?
    ensures StopOf(src, trend, ai, rs, false, now) == Done(0)
    ensures |src.recs| <= |ReportsOf(src, trend, ai, rs, false, now).value.actionable.allActionItems.value|
  {
    var executive := ExecutiveSummary(src, trend, ai, rs.executive, false);
    var plan := ActionStep(src.recs, ai, rs.actionable);
    assert ReportsOf(src, trend, ai, rs, false, now).value.actionable == plan.value;
    PlanFallbackShape(plan.value.allActionItems.value, rs.actionable.message);
  }

  /** Corrected: a finished run reports the number of action items it
      collected, one per recommendation and at most five from the insights. */
  lemma CountedItems(src: ReportSource, trend: TrendAnalysis, ai: Dict<string, Value>,
                     rs: ReportReplies, now: Timestamp)
    requires ActionShapes(ai) && JsonReply(rs.actionable)
    requires ReportsOf(src, trend, ai, rs, true, now).Ok?
    ensures StopOf(src, trend, ai, rs, true, now) == Done(|ActionItemsFor(src.recs, ai).value|)
    ensures |src.recs| <= StopOf(src, trend, ai, rs, true, now).count <= |src.recs| + 5
  {
    var executive := ExecutiveSummary(src, trend, ai, rs.executive, true);
    var plan := ActionStep(src.recs, ai, rs.actionable);
    assert ReportsOf(src, trend, ai, rs, true, now).value.actionable == plan.value;
  }

  /** The report's reads of the insight agent's dictionary find its
      categories. */
  lemma CategoryReads(c: Categories)
    ensures GetOr(CategoryDict(c), HealthKey, Object([])) == c.health
    ensures GetOr(CategoryDict(c), StrategicKey, Object([])) == c.strategic
    ensures GetOr(CategoryDict(c), RisksKey, Object([])) == c.risks
  {
    var d := CategoryDict(c);
    assert HealthKey[0] == 'h' && MaintenanceKey[0] == 'm' && CommunityKey[0] == 'c';
    assert StrategicKey[0] == 's' && RisksKey[0] == 'r';
    assert d[1..][1..][1..] == [(StrategicKey, c.strategic), (RisksKey, c.risks)];
    assert Get(d, StrategicKey) == Get(d[1..][1..][1..], StrategicKey);
    assert Get(d, RisksKey) == Get(d[1..][1..][1..][1..], RisksKey);
  }

  /** The insight agent's categories are what the report reads: with JSON
      replies for the strategic and risk analyses, the recommended actions
      of both can be sliced. */
  lemma InsightCategoriesShaped(src: InsightSource, rs: Replies, now: Timestamp)
    requires src.issues != []
    requires JsonReply(rs.strategic) && JsonReply(rs.risks)
    ensures ActionShapes(CategoryDict(CategoriesFor(src, rs, now)))
  {
    var c := CategoriesFor(src, rs, now);
    StrategicCategoryShape(rs.strategic, src.memory.strategicInsights, RecommendedActionsKey);
    RiskCategoryShape(rs.risks, src.issues, src.trend);
    CategoryReads(c);
  }

  /** A decoded risk analysis, or the fallback, can be sliced for its
      recommended actions. */
  lemma RiskCategoryShape(reply: Reply, issues: seq<Issue>, trend: TrendAnalysis)
    ensures JsonReply(reply) ==> ListedShape(RiskCategory(reply, issues, trend), RecommendedActionsKey)
  {
    match reply
    case Decoded(v) => if IsJson(v) { JsonListedShape(v, RecommendedActionsKey); }
    case Raised(e) => RiskFallbackShape(RiskFactors(issues, trend), e);
  }

  /** The insight agent's risk fallback: every field is a string or a list
      of strings, and its recommended actions are the three stock ones. */
  lemma RiskFallbackShape(factors: seq<RiskFactor>, e: string)
    ensures ListedShape(RiskFallback(factors, e), RecommendedActionsKey)
    ensures Get(RiskFallback(factors, e).fields, RecommendedActionsKey) == Some(StockActions())
  {
    StockActionsShape(Str(RiskLevel(|factors|)), StrList(RiskFactorNames(TopRisks(factors))),
                      StrList([ImproveAutomation, EnhanceCommunityEngagement, BetterDocumentation]), e);
  }

  function StockActions(): Value
  {
    StrList([RegularMonitoring, ProcessImprovementsWords, CommunityOutreach])
  }

  lemma StockActionsShape(level: Value, top: Value, opportunities: Value, e: string)
    requires level.Str? && top.List? && opportunities.List?
    ensures var v := Object([(OverallRiskKey, level), (TopRisksKey, top), (OpportunitiesKey, opportunities),
                             (RecommendedActionsKey, StockActions()), (ErrorKey, Str(e))]);
            && ListedShape(v, RecommendedActionsKey)
            && Get(v.fields, RecommendedActionsKey) == Some(StockActions())
  {
    var d := [(OverallRiskKey, level), (TopRisksKey, top), (OpportunitiesKey, opportunities),
              (RecommendedActionsKey, StockActions()), (ErrorKey, Str(e))];
    assert OverallRiskKey[0] == 'o' && TopRisksKey[0] == 't' && OpportunitiesKey[0] == 'o';
    assert RecommendedActionsKey[0] == 'r';
    assert Get(d, RecommendedActionsKey) == Get(d[1..][1..][1..], RecommendedActionsKey);
  }

  /** When the risk analysis fell back, the report takes the first two of
      its three recommended actions, as high-priority items. */
  lemma RiskFallbackActions(c: Categories, factors: seq<RiskFactor>, e: string)
    requires c.risks == RiskFallback(factors, e) && ListedShape(c.strategic, RecommendedActionsKey)
    ensures ActionShapes(CategoryDict(c))
    ensures RiskActions(CategoryDict(c)) == Ok([Str(RegularMonitoring), Str(ProcessImprovementsWords)])
  {
    RiskFallbackShape(factors, e);
    StockRiskActions(c);
  }

  lemma StockRiskActions(c: Categories)
    requires c.risks.Object? && c.risks.fields != []
    requires Get(c.risks.fields, RecommendedActionsKey) == Some(StockActions())
    requires ListedShape(c.strategic, RecommendedActionsKey) && ListedShape(c.risks, RecommendedActionsKey)
    ensures ActionShapes(CategoryDict(c))
    ensures RiskActions(CategoryDict(c)) == Ok([Str(RegularMonitoring), Str(ProcessImprovementsWords)])
  {
    CategoryReads(c);
    assert StockActions().items[..2] == [Str(RegularMonitoring), Str(ProcessImprovementsWords)];
  }

  /** The status entries of a started report: running, then completed or
      failed, whatever step it stopped at, and no other agent's status. */
  lemma ReportsLifecycle(entries: seq<ProgressEntry>, result: Result<Reports, Stop>, final: AgentStatus,
                         now: Timestamp)
    ensures forall a :: StatusTrace(entries + [StatusEvent(now, ReportAgentId, Running)]
                                    + [StepEvent(now, ReportKey, 10.0, Str(GeneratingReports))]
                                    + ReportSteps(result, now) + [StatusEvent(now, ReportAgentId, final)], a)
                        == StatusTrace(entries, a) + (if a == ReportAgentId then [Running, final] else [])
  {
    var first := StepEvent(now, ReportKey, 10.0, Str(GeneratingReports));
    RegroupSteps2(entries, StatusEvent(now, ReportAgentId, Running), [first], ReportSteps(result, now),
                  StatusEvent(now, ReportAgentId, final));
    assert StepsOnly([first] + ReportSteps(result, now));
    forall a {
      LifecycleTrace(entries, ReportAgentId, [first] + ReportSteps(result, now), final, now, a);
    }
  }

  /** The report agent's first two entries: running, then progress 10. */
  method StartReports(st: WorkflowState, now: Timestamp)
    modifies st`agentStatuses, st`updatedAt, st`agentOutputs, st`agentErrors, st`progressUpdates,
             st`currentStep, st`completionPercentage
    ensures st.agentStatuses == Put(old(st.agentStatuses), ReportAgentId, Running)
    ensures st.agentOutputs == old(st.agentOutputs) && st.agentErrors == old(st.agentErrors)
    ensures st.progressUpdates == old(st.progressUpdates) + [StatusEvent(now, ReportAgentId, Running)]
              + [StepEvent(now, ReportKey, 10.0, Str(GeneratingReports))]
  {
    st.UpdateAgentStatus(ReportAgentId, Running, None, None, now);
    st.UpdateProgress(ReportKey, 10.0, Str(GeneratingReports), now);
  }

  /** The steps of a started report, and where it stopped: the output's
      action item count is taken once the reports are stored. */
  method ReportsAndStop(st: WorkflowState, src: ReportSource, trend: TrendAnalysis, ai: Dict<string, Value>,
                        rs: ReportReplies, fixed: bool, now: Timestamp)
    returns (stop: Stop)
    requires ActionShapes(ai) && JsonReply(rs.actionable)
    modifies st`progressUpdates, st`currentStep, st`completionPercentage, st`finalReport, st`processedData
    ensures stop == StopOf(src, trend, ai, rs, fixed, now)
    ensures Stored(ReportsOf(src, trend, ai, rs, fixed, now), src, trend, ai, now,
                   old(st.finalReport), old(st.processedData), st.finalReport, st.processedData)
    ensures st.progressUpdates == old(st.progressUpdates) + ReportSteps(ReportsOf(src, trend, ai, rs, fixed, now), now)
  {
    var result := ReportsBody(st, src, trend, ai, rs, fixed, now);
    if result.Ok? {
      stop := Counted(result.value, fixed);
    } else {
      stop := result.error;
    }
  }

  /** The report agent once its inputs are present: it runs, records its
      steps up to where it stops, stores what it assembled, and ends
      completed with its output or failed with the prefixed error. */
  method RunReports(st: WorkflowState, src: ReportSource, trend: TrendAnalysis, ai: Dict<string, Value>,
                    rs: ReportReplies, fixed: bool, now: Timestamp)
    returns (stop: Stop)
    requires ActionShapes(ai) && JsonReply(rs.actionable)
    modifies st`agentStatuses, st`updatedAt, st`agentOutputs, st`agentErrors, st`progressUpdates,
             st`currentStep, st`completionPercentage, st`finalReport, st`processedData
    ensures stop == StopOf(src, trend, ai, rs, fixed, now)
    ensures st.agentStatuses == Put(old(st.agentStatuses), ReportAgentId, StopStatus(stop))
    ensures st.agentErrors == PutIf(old(st.agentErrors), ReportAgentId, StopError(stop))
    ensures st.agentOutputs == PutIf(old(st.agentOutputs), ReportAgentId, StopOutput(stop))
    ensures Stored(ReportsOf(src, trend, ai, rs, fixed, now), src, trend, ai, now,
                   old(st.finalReport), old(st.processedData), st.finalReport, st.processedData)
    ensures st.progressUpdates == old(st.progressUpdates) + [StatusEvent(now, ReportAgentId, Running)]
              + [StepEvent(now, ReportKey, 10.0, Str(GeneratingReports))]
              + ReportSteps(ReportsOf(src, trend, ai, rs, fixed, now), now)
              + [StatusEvent(now, ReportAgentId, StopStatus(stop))]
  {
    StartReports(st, now);
    assert st.finalReport == old(st.finalReport) && st.processedData == old(st.processedData);
    stop := ReportsAndStop(st, src, trend, ai, rs, fixed, now);
    ghost var report1, data1 := st.finalReport, st.processedData;
    FinishReports(st, stop, now);
    assert st.finalReport == report1 && st.processedData == data1;
    PutTwice(old(st.agentStatuses), ReportAgentId, Running, StopStatus(stop));
  }

  /** The report agent without its inputs: running, progress 10, then
      failed with the missing-data error; nothing is stored. */
  method RefuseReports(st: WorkflowState, now: Timestamp)
    modifies st`agentStatuses, st`updatedAt, st`agentOutputs, st`agentErrors, st`progressUpdates,
             st`currentStep, st`completionPercentage
    ensures st.agentStatuses == Put(old(st.agentStatuses), ReportAgentId, Failed)
    ensures st.agentErrors == Put(old(st.agentErrors), ReportAgentId, MissingReportData)
    ensures st.agentOutputs == old(st.agentOutputs)
    ensures forall a :: StatusTrace(st.progressUpdates, a)
                        == StatusTrace(old(st.progressUpdates), a) + (if a == ReportAgentId then [Running, Failed] else [])
  {
    FailAtFirstAwait(st, ReportAgentId, ReportKey, GeneratingReports, MissingReportData, now);
    forall a {
      LifecycleTrace(old(st.progressUpdates), ReportAgentId,
                     [StepEvent(now, ReportKey, 10.0, Str(GeneratingReports))], Failed, now, a);
    }
  }

  /** The report agent on the state's own data, once the trend analysis and
      the insights are present. */
  method ReportsOnState(st: WorkflowState, rs: ReportReplies, fixed: bool, now: Timestamp)
    requires st.trendAnalysis.Some? && st.insights != []
    requires ActionShapes(AiInsightsOf(st.processedData)) && JsonReply(rs.actionable)
    modifies st`agentStatuses, st`updatedAt, st`agentOutputs, st`agentErrors, st`progressUpdates,
             st`currentStep, st`completionPercentage, st`finalReport, st`processedData
    ensures var src := old(ReportSource(st.processedData, st.repositoryUrl, st.analysisPeriodDays,
                                        st.rawIssues, st.sessionId, st.trendAnalysis, st.recommendations,
                                        st.insights));
            var ai := AiInsightsOf(old(st.processedData));
            var stop := StopOf(src, src.trend.value, ai, rs, fixed, now);
            && st.agentStatuses == Put(old(st.agentStatuses), ReportAgentId, StopStatus(stop))
            && st.agentErrors == PutIf(old(st.agentErrors), ReportAgentId, StopError(stop))
            && st.agentOutputs == PutIf(old(st.agentOutputs), ReportAgentId, StopOutput(stop))
            && Stored(ReportsOf(src, src.trend.value, ai, rs, fixed, now), src, src.trend.value, ai, now,
                      old(st.finalReport), old(st.processedData), st.finalReport, st.processedData)
            && forall a :: StatusTrace(st.progressUpdates, a)
                           == StatusTrace(old(st.progressUpdates), a)
                              + (if a == ReportAgentId then [Running, StopStatus(stop)] else [])
  {
    var ai := AiInsightsOf(st.processedData);
    var src := ReportSource(st.processedData, st.repositoryUrl, st.analysisPeriodDays, st.rawIssues,
                            st.sessionId, st.trendAnalysis, st.recommendations, st.insights);
    var stop := RunReports(st, src, src.trend.value, ai, rs, fixed, now);
    ReportsLifecycle(old(st.progressUpdates), ReportsOf(src, src.trend.value, ai, rs, fixed, now),
                     StopStatus(stop), now);
  }

  /** The report agent: without a trend analysis or any insights it fails
      with the missing-data error and stores nothing; otherwise it runs on
      the state's data as `RunReports` describes. */
  method ExecuteReports(st: WorkflowState, rs: ReportReplies, fixed: bool, now: Timestamp)
    requires ActionShapes(AiInsightsOf(st.processedData)) && JsonReply(rs.actionable)
    modifies st`agentStatuses, st`updatedAt, st`agentOutputs, st`agentErrors, st`progressUpdates,
             st`currentStep, st`completionPercentage, st`finalReport, st`processedData
    ensures old(st.trendAnalysis).None? || old(st.insights) == [] ==>
              && st.agentStatuses == Put(old(st.agentStatuses), ReportAgentId, Failed)
              && st.agentErrors == Put(old(st.agentErrors), ReportAgentId, MissingReportData)
              && st.agentOutputs == old(st.agentOutputs)
              && st.finalReport == old(st.finalReport) && st.processedData == old(st.processedData)
              && forall a :: StatusTrace(st.progressUpdates, a)
                             == StatusTrace(old(st.progressUpdates), a)
                                + (if a == ReportAgentId then [Running, Failed] else [])
    ensures old(st.trendAnalysis).Some? && old(st.insights) != [] ==>
              var src := old(ReportSource(st.processedData, st.repositoryUrl, st.analysisPeriodDays,
                                          st.rawIssues, st.sessionId, st.trendAnalysis, st.recommendations,
                                          st.insights));
              var ai := AiInsightsOf(old(st.processedData));
              var stop := StopOf(src, src.trend.value, ai, rs, fixed, now);
              && st.agentStatuses == Put(old(st.agentStatuses), ReportAgentId, StopStatus(stop))
              && st.agentErrors == PutIf(old(st.agentErrors), ReportAgentId, StopError(stop))
              && st.agentOutputs == PutIf(old(st.agentOutputs), ReportAgentId, StopOutput(stop))
              && Stored(ReportsOf(src, src.trend.value, ai, rs, fixed, now), src, src.trend.value, ai, now,
                        old(st.finalReport), old(st.processedData), st.finalReport, st.processedData)
              && forall a :: StatusTrace(st.progressUpdates, a)
                             == StatusTrace(old(st.progressUpdates), a)
                                + (if a == ReportAgentId then [Running, StopStatus(stop)] else [])
  {
    if st.trendAnalysis.None? || st.insights == [] {
      RefuseReports(st, now);
    } else {
      ReportsOnState(st, rs, fixed, now);
    }
  }
}
