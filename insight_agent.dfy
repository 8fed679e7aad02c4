/** The insight generation agent. It asks the language model for five
    categories of findings (repository health, maintenance, community,
    strategy, risk); a call or a decoding that raises falls back to a
    rule-based assessment. The categories are stored under `ai_insights`,
    turned into structured insights and recommendations, and summarised in
    the agent's memory. Each reply of the language model is a parameter: the
    decoded JSON document, or the message of the exception raised. */
module InsightAgent {
  import opened Base
  import opened Json
  import opened State
  import opened Routing
  import opened IssueMetrics
  import opened MockAgents

  /** What one call to the language model yields. */
  datatype Reply = Decoded(value: Value) | Raised(message: string)

  /** The replies to the five prompts, in the order they are asked. */
  datatype Replies = Replies(health: Reply, maintenance: Reply, community: Reply,
                             strategic: Reply, risks: Reply)

  predicate JsonReply(r: Reply)
  {
    r.Decoded? ==> IsJson(r.value)
  }

  /** Decoding JSON yields no formatted strings and no fixed documents. */
  predicate JsonReplies(rs: Replies)
  {
    JsonReply(rs.health) && JsonReply(rs.maintenance) && JsonReply(rs.community)
    && JsonReply(rs.strategic) && JsonReply(rs.risks)
  }

  // Texts and keys of the agent.
  const ErrorKey := "error"
  const UnknownWord := "unknown"
  const ModerateWord := "moderate"
  const HistoricalContextKey := "historical_context"
  const RiskMitigationKey := "risk_mitigation"
  const AddressOldOpenIssues := "Address old open issues"
  const ImplementBetterTesting := "Implement better testing"
  const SecurityUpdates := "Security updates"
  const AddContributorGuidelines := "Add contributor guidelines"
  const AddressBacklog := "Address backlog"
  const ImproveIssueTriage := "Improve issue triage"
  const RoadmapAdvice := "Consider feature request backlog in planning"
  const VelocityAdvice := "Monitor issue velocity trends"
  const ImplementBetterLabeling := "Implement better labeling"
  const AutomateCommonResponses := "Automate common responses"
  const RegularBacklogReview := "Regular backlog review"
  const CommunityEngagementWords := "Community engagement"
  const ImproveAutomation := "Improve automation"
  const EnhanceCommunityEngagement := "Enhance community engagement"
  const BetterDocumentation := "Better documentation"
  const RegularMonitoring := "Regular monitoring"
  const ProcessImprovementsWords := "Process improvements"
  const CommunityOutreach := "Community outreach"
  const VulnerabilityWord := "vulnerability"
  const MissingInsightData := "Missing required data for insight generation"
  const InsightFailedPrefix := "Insight generation failed: "
  const GeneratingStrategic := "Generating strategic recommendations..."
  const HealthInsightText := "Repository health score: {}/10. {}"
  const MaintenanceInsightText := "Maintenance load assessed as {}. Technical debt score: {}"
  const RiskInsightText := "Overall risk level: {}. Key risks identified in repository management."
  const StrategicRationale := "Based on strategic analysis of issue trends and patterns"
  const RepositoryField := "repository"
  const TimestampField := "timestamp"
  const InsightsSummaryField := "insights_summary"
  const MaintenanceLoadField := "maintenance_load"
  const CommunityHealthField := "community_health"

  // ------------------------------------------------------------------
  // Rule-based fallbacks
  // ------------------------------------------------------------------

  /** `min(10, n / 10)`: the quotient as a float below 10, otherwise the
      integer 10 (the first of two equal minima). */
  function TenthCapped(n: nat): (r: Value)
    ensures n < 100 <==> r.Real?
    ensures r.Real? ==> r.r == n as real / 10.0 && 0.0 <= r.r < 10.0
    ensures r.Int? ==> r.i == 10
  {
    if n as real / 10.0 < 10.0 then Real(n as real / 10.0) else Int(10)
  }

  /** The fallback health score: seven, less two for a mostly open backlog,
      one for a rising trend and one for fewer than one comment per issue,
      and never below one. */
  function FallbackHealthScore(openRatio: real, increasing: bool, avgComments: real): (r: int)
    ensures 3 <= r <= 7
    ensures r == 7 <==> openRatio <= 0.8 && !increasing && avgComments >= 1.0
    ensures openRatio > 0.8 ==> r <= 5
    ensures r == 3 <==> openRatio > 0.8 && increasing && avgComments < 1.0
  {
    var score := 7 - (if openRatio > 0.8 then 2 else 0) - (if increasing then 1 else 0)
                   - (if avgComments < 1.0 then 1 else 0);
    if score > 1 then score else 1
  }

  /** The word of the fallback summary: the score is at least three, so the
      floor of one never changes it and the raw score and the reported one
      give the same word. */
  function HealthWord(score: int): string
  {
    if score < 5 then Concerning else if score < 7 then ModerateWord else GoodWord
  }

  /** The rule-based health assessment, with the message of the exception
      that replaced the model's answer. */
  function HealthFallback(issues: seq<Issue>, trend: TrendAnalysis, error: string): (r: Value)
    ensures r.Object? && r.fields != []
  {
    var openRatio := OpenRatio(issues);
    var score := FallbackHealthScore(openRatio, trend.trendDirection == Increasing, AvgComments(issues));
    Object([(HealthScoreKey, Int(score)),
            (PositiveIndicatorsKey, if |issues| > 10 then StrList([ActiveIssueTracking]) else List([])),
            (ConcernsKey, if openRatio > 0.7 then StrList([HighOpenIssueRatioText]) else List([])),
            (SummaryKey, Text(HealthSummaryTemplate, [Str(HealthWord(score))])),
            (ErrorKey, Str(error))])
  }

  /** The keywords that make an issue a maintenance issue. */
  const MaintenanceKeywords: seq<string> :=
    ["bug", "fix", "error", "crash", "broken", "maintenance", "update", "security"]

  /** The text searched for keywords: the title and the space-joined labels,
      lower-cased. */
  function IssueText(i: Issue): string
  {
    Lower(i.title + " " + Join(i.labels, " "))
  }

  predicate IsMaintenance(i: Issue)
  {
    exists k :: k in MaintenanceKeywords && Contains(IssueText(i), k)
  }

  function MaintenanceCount(issues: seq<Issue>): (r: nat)
    ensures r <= |issues|
  {
    CountIf(issues, IsMaintenance)
  }

  /** Open issues created more than 90 days ago. */
  function OldOpenCount(issues: seq<Issue>, now: Timestamp): (r: nat)
    ensures r <= OpenCount(issues)
  {
    CountIfMonotone(issues, i => IsOpen(i) && Age(i, now) > 90, IsOpen);
    CountIf(issues, i => IsOpen(i) && Age(i, now) > 90)
  }

  /** The fallback maintenance load from the share of maintenance issues. */
  function MaintenanceLoad(ratio: real): (r: string)
    ensures r == High <==> ratio > 0.6
    ensures r == Medium <==> 0.3 < ratio <= 0.6
    ensures r == Low <==> ratio <= 0.3
  {
    if ratio > 0.6 then High else if ratio > 0.3 then Medium else Low
  }

  function MaintenanceFallback(issues: seq<Issue>, now: Timestamp, error: string): (r: Value)
    ensures r.Object? && r.fields != []
  {
    Object([(LoadAssessmentKey, Str(MaintenanceLoad(Ratio(MaintenanceCount(issues), |issues|)))),
            (DebtScoreKey, TenthCapped(OldOpenCount(issues, now))),
            (RecommendationsKey, StrList([AddressOldOpenIssues, ImplementBetterTesting])),
            (PriorityAreasKey, StrList([BugFixes, SecurityUpdates])),
            (ErrorKey, Str(error))])
  }

  /** The rule-based community assessment. The engagement level divides by
      the number of issues, so the source only reaches it with issues. */
  function CommunityFallback(issues: seq<Issue>, error: string): (r: Value)
    requires issues != []
    ensures r.Object? && r.fields != []
  {
    var authors := UniqueAuthors(issues);
    Object([(HealthScoreKey, TenthCapped(authors)),
            (EngagementLevelKey, Str(Engagement(TotalComments(issues) as real / |issues| as real))),
            (DiversityAssessmentKey,
             Str(if authors as real > |issues| as real * 0.5 then GoodWord else NeedsImprovement)),
            (GrowthOpportunitiesKey, StrList([ImproveDocumentation, AddContributorGuidelines])),
            (ErrorKey, Str(error))])
  }

  const FallbackPriorities: seq<string> := [AddressBacklog, ImproveIssueTriage]

  function StrategicFallback(error: string): (r: Value)
    ensures r.Object? && r.fields != []
  {
    Object([(PrioritiesKey, StrList(FallbackPriorities)),
            (RoadmapImpactKey, Str(RoadmapAdvice)),
            (ScalingAdviceKey, Str(VelocityAdvice)),
            (ProcessImprovementsKey, StrList([ImplementBetterLabeling, AutomateCommonResponses])),
            (RiskMitigationKey, StrList([RegularBacklogReview, CommunityEngagementWords])),
            (ErrorKey, Str(error))])
  }

  /** Issues with a label that mentions security or a vulnerability. */
  function SecurityCount(issues: seq<Issue>): nat
  {
    CountIf(issues, i => LabelMentions(i, SecurityWord) || LabelMentions(i, VulnerabilityWord))
  }

  /** The position of a factor in the order the assessment checks them. */
  function FactorRank(f: RiskFactor): nat
  {
    match f
    case HighOpenIssueRatio => 0
    case RapidIssueGrowth => 1
    case LowCommunityEngagement => 2
    case SecurityConcerns => 3
    case IncreasingIssueTrend => 4
  }

  /** The risk factors found, in the order they are checked. */
  function RiskFactors(issues: seq<Issue>, trend: TrendAnalysis): (r: seq<RiskFactor>)
    ensures HighOpenIssueRatio in r <==> OpenCount(issues) as real > |issues| as real * 0.7
    ensures RapidIssueGrowth in r <==> trend.trendDirection == Increasing && trend.trendSlope > 1.0
    ensures LowCommunityEngagement in r <==> AvgComments(issues) < 1.0
    ensures SecurityConcerns in r <==> SecurityCount(issues) > 0
    ensures IncreasingIssueTrend !in r
    ensures forall i, j :: 0 <= i < j < |r| ==> FactorRank(r[i]) < FactorRank(r[j])
  {
    (if OpenCount(issues) as real > |issues| as real * 0.7 then [HighOpenIssueRatio] else [])
    + (if trend.trendDirection == Increasing && trend.trendSlope > 1.0 then [RapidIssueGrowth] else [])
    + (if AvgComments(issues) < 1.0 then [LowCommunityEngagement] else [])
    + (if SecurityCount(issues) > 0 then [SecurityConcerns] else [])
  }

  /** `factors[:3]`. */
  function TopRisks(factors: seq<RiskFactor>): (r: seq<RiskFactor>)
    ensures |r| <= 3 && r <= factors
    ensures |factors| <= 3 ==> r == factors
  {
    if |factors| <= 3 then factors else factors[..3]
  }

  function RiskFallback(factors: seq<RiskFactor>, error: string): (r: Value)
    ensures r.Object? && r.fields != []
  {
    Object([(OverallRiskKey, Str(RiskLevel(|factors|))),
            (TopRisksKey, StrList(RiskFactorNames(TopRisks(factors)))),
            (OpportunitiesKey, StrList([ImproveAutomation, EnhanceCommunityEngagement, BetterDocumentation])),
            (RecommendedActionsKey, StrList([RegularMonitoring, ProcessImprovementsWords, CommunityOutreach])),
            (ErrorKey, Str(error))])
  }

  // ------------------------------------------------------------------
  // The five categories
  // ------------------------------------------------------------------

  /** A record of the memory as the dictionary it is stored as (the
      timestamp is the clock reading, not its ISO rendering). */
  function RecordValue(r: StrategicRecord): Value
  {
    Object([(RepositoryField, Str(r.repository)), (TimestampField, Int(r.timestamp)),
            (InsightsSummaryField, Object([(HealthScoreKey, r.healthScore),
                                           (MaintenanceLoadField, r.maintenanceLoad),
                                           (RiskLevelKey, r.riskLevel),
                                           (CommunityHealthField, r.communityHealth)]))])
  }

  function RecordValues(rs: seq<StrategicRecord>): (r: seq<Value>)
    ensures |r| == |rs|
    ensures forall i :: 0 <= i < |rs| ==> r[i] == RecordValue(rs[i])
  {
    if rs == [] then [] else [RecordValue(rs[0])] + RecordValues(rs[1..])
  }

  /** `value["historical_context"] = ...` on a value that is not a
      dictionary: the message of the `TypeError`. */
  function NoItemAssignment(v: Value): string
  {
    if v.List? then ListIndexError
    else "'" + TypeName(v) + "' object does not support item assignment"
  }

  /** The strategic category: the decoded reply, with the last three
      remembered analyses attached when there are any. Attaching them to a
      reply that is not a dictionary raises inside the same `try`, so the
      fallback answers instead. */
  function StrategicCategory(reply: Reply, history: seq<StrategicRecord>): (r: Value)
  {
    match reply
    case Raised(e) => StrategicFallback(e)
    case Decoded(v) =>
      if history == [] then v
      else if v.Object? then Object(Put(v.fields, HistoricalContextKey, List(RecordValues(KeepLast(history, 3)))))
      else StrategicFallback(NoItemAssignment(v))
  }

  /** Each category is the decoded reply, or its fallback built from the
      message of what raised. */
  function HealthCategory(reply: Reply, issues: seq<Issue>, trend: TrendAnalysis): Value
  {
    match reply
    case Decoded(v) => v
    case Raised(e) => HealthFallback(issues, trend, e)
  }

  function MaintenanceCategory(reply: Reply, issues: seq<Issue>, now: Timestamp): Value
  {
    match reply
    case Decoded(v) => v
    case Raised(e) => MaintenanceFallback(issues, now, e)
  }

  function CommunityCategory(reply: Reply, issues: seq<Issue>): Value
    requires issues != []
  {
    match reply
    case Decoded(v) => v
    case Raised(e) => CommunityFallback(issues, e)
  }

  function RiskCategory(reply: Reply, issues: seq<Issue>, trend: TrendAnalysis): Value
  {
    match reply
    case Decoded(v) => v
    case Raised(e) => RiskFallback(RiskFactors(issues, trend), e)
  }

  datatype Categories = Categories(health: Value, maintenance: Value, community: Value,
                                   strategic: Value, risks: Value)

  /** The `insights` dictionary, in the order its keys are assigned. */
  function CategoryDict(c: Categories): Dict<string, Value>
  {
    [(HealthKey, c.health), (MaintenanceKey, c.maintenance), (CommunityKey, c.community),
     (StrategicKey, c.strategic), (RisksKey, c.risks)]
  }

  /** What the agent reads when it passes its guard: the issues, the trend,
      the repository and its own memory (after get-or-create). */
  datatype InsightSource = InsightSource(issues: seq<Issue>, trend: TrendAnalysis,
                                         repositoryUrl: string, memory: AgentMemory)

  /** The five categories for the replies `rs`. */
  function CategoriesFor(src: InsightSource, rs: Replies, now: Timestamp): (c: Categories)
    requires src.issues != []
    ensures JsonReply(rs.strategic) ==> StrategicShape(c.strategic)
  {
    StrategicCategoryShape(rs.strategic, src.memory.strategicInsights, PrioritiesKey);
    Categories(
      HealthCategory(rs.health, src.issues, src.trend),
      MaintenanceCategory(rs.maintenance, src.issues, now),
      CommunityCategory(rs.community, src.issues),
      StrategicCategory(rs.strategic, src.memory.strategicInsights),
      RiskCategory(rs.risks, src.issues, src.trend))
  }

  // ------------------------------------------------------------------
  // Structured insights and recommendations
  // ------------------------------------------------------------------

  /** The health insight's text when the category is non-empty; reading a
      category that is not a dictionary raises. */
  function HealthContent(health: Value): (r: Result<Option<Value>, string>)
  {
    if !Truthy(health) then Ok(None)
    else match DictGet(health, HealthScoreKey, Str(UnknownWord))
      case Err(e) => Err(e)
      case Ok(score) => Ok(Some(Text(HealthInsightText, [score, FieldOr(health, SummaryKey, Str(""))])))
  }

  function MaintenanceContent(maintenance: Value): (r: Result<Option<Value>, string>)
  {
    if !Truthy(maintenance) then Ok(None)
    else match DictGet(maintenance, LoadAssessmentKey, Str(UnknownWord))
      case Err(e) => Err(e)
      case Ok(load) =>
        Ok(Some(Text(MaintenanceInsightText, [load, FieldOr(maintenance, DebtScoreKey, Str(UnknownWord))])))
  }

  function RiskContent(risks: Value): (r: Result<Option<Value>, string>)
  {
    if !Truthy(risks) then Ok(None)
    else match DictGet(risks, OverallRiskKey, Str(UnknownWord))
      case Err(e) => Err(e)
      case Ok(level) => Ok(Some(Text(RiskInsightText, [level])))
  }

  /** The category has the shape of decoded JSON where the recommendation
      step looks: the value itself, its items, and its priorities. */
  predicate StrategicShape(v: Value)
  {
    ListedShape(v, PrioritiesKey)
  }

  /** `strategic and "priorities" in strategic`, then
      `strategic["priorities"][:3]`: the priorities to recommend, or the
      message of the `TypeError` raised on the way. */
  function PriorityItems(strategic: Value): (r: Result<seq<Value>, string>)
    requires StrategicShape(strategic)
    ensures r.Ok? ==> |r.value| <= 3
  {
    ItemsUnder(strategic, PrioritiesKey, 3)
  }

  function PriorityRecommendation(p: Value, now: Timestamp): RecommendationRecord
  {
    RecommendationRecord(InsightAgentId, p, High, StrategicRationale, now)
  }

  /** One high-priority recommendation per priority, in order. */
  function PriorityRecommendations(ps: seq<Value>, now: Timestamp): (r: seq<RecommendationRecord>)
    ensures |r| == |ps|
    ensures forall i :: 0 <= i < |ps| ==> r[i] == PriorityRecommendation(ps[i], now)
  {
    if ps == [] then []
    else PriorityRecommendations(ps[..|ps| - 1], now) + [PriorityRecommendation(ps[|ps| - 1], now)]
  }

  function InsightOf(kind: string, content: Option<Value>, confidence: real, now: Timestamp)
    : (r: seq<InsightRecord>)
    ensures |r| <= 1
  {
    if content.Some? then [InsightRecord(InsightAgentId, kind, content.value, confidence, now)] else []
  }

  /** What the structured step adds before it finishes or raises. */
  datatype Additions = Additions(insights: seq<InsightRecord>, recommendations: seq<RecommendationRecord>,
                                 error: Option<string>)

  /** The health and maintenance insights: what is added before the first
      step that raises, and its message. */
  function HeadAdditions(c: Categories, now: Timestamp): (a: Additions)
    ensures a.recommendations == []
  {
    match HealthContent(c.health)
    case Err(e) => Additions([], [], Some(e))
    case Ok(h) =>
      var hs := InsightOf(RepositoryHealthKind, h, 0.8, now);
      match MaintenanceContent(c.maintenance)
      case Err(e) => Additions(hs, [], Some(e))
      case Ok(m) => Additions(hs + InsightOf(MaintenanceLoadKind, m, 0.7, now), [], None)
  }

  /** The strategic recommendations and the risk insight. */
  function TailAdditions(c: Categories, now: Timestamp): (a: Additions)
    requires StrategicShape(c.strategic)
  {
    match PriorityItems(c.strategic)
    case Err(e) => Additions([], [], Some(e))
    case Ok(ps) =>
      var rs := PriorityRecommendations(ps, now);
      match RiskContent(c.risks)
      case Err(e) => Additions([], rs, Some(e))
      case Ok(r) => Additions(InsightOf(RiskAssessmentKind, r, 0.9, now), rs, None)
  }

  /** The health, maintenance and risk insights and the strategic
      recommendations, in the order they are added; the first step that
      raises ends the step with what was added so far. */
  function StructuredAdditions(c: Categories, now: Timestamp): (a: Additions)
    requires StrategicShape(c.strategic)
  {
    var head := HeadAdditions(c, now);
    if head.error.Some? then head
    else
      var tail := TailAdditions(c, now);
      Additions(head.insights + tail.insights, tail.recommendations, tail.error)
  }

  /** A category is read safely when it is empty or a dictionary. */
  predicate Readable(v: Value)
  {
    !Truthy(v) || v.Object?
  }

  /** The kinds of the insights added, in order. */
  function Kinds(xs: seq<InsightRecord>): (r: seq<string>)
  {
    seq(|xs|, i requires 0 <= i < |xs| => xs[i].kind)
  }

  /** The kind of insight a category yields when it is non-empty. */
  function KindIf(present: bool, kind: string): seq<string>
  {
    if present then [kind] else []
  }

  lemma HeadAdditionsFacts(c: Categories, now: Timestamp)
    ensures var a := HeadAdditions(c, now);
            && (forall x <- a.insights :: x.agentId == InsightAgentId)
            && (a.error.None? <==> Readable(c.health) && Readable(c.maintenance))
            && (a.error.None? ==> Kinds(a.insights) == KindIf(Truthy(c.health), RepositoryHealthKind)
                                                   + KindIf(Truthy(c.maintenance), MaintenanceLoadKind))
            && |a.insights| <= 2
  {
  }

  lemma TailAdditionsFacts(c: Categories, now: Timestamp)
    requires StrategicShape(c.strategic)
    ensures var a := TailAdditions(c, now);
            && (forall x <- a.insights :: x.agentId == InsightAgentId)
            && (forall x <- a.recommendations :: x.agentId == InsightAgentId && x.priority == High
                                                 && x.rationale == StrategicRationale)
            && |a.recommendations| <= 3
            && (a.error.None? <==> PriorityItems(c.strategic).Ok? && Readable(c.risks))
            && (a.error.None? ==> Kinds(a.insights) == KindIf(Truthy(c.risks), RiskAssessmentKind))
  {
  }

  /** The structured step adds, all in the agent's name, at most three
      recommendations, all high priority, and when it finishes exactly one
      insight per non-empty health, maintenance and risk category, in that
      order. It finishes exactly when those three categories are empty or
      dictionaries and the strategic one yields its priorities. */
  lemma StructuredAdditionsFacts(c: Categories, now: Timestamp)
    requires StrategicShape(c.strategic)
    ensures var a := StructuredAdditions(c, now);
            && (forall x <- a.insights :: x.agentId == InsightAgentId)
            && (forall x <- a.recommendations :: x.agentId == InsightAgentId && x.priority == High
                                                 && x.rationale == StrategicRationale)
            && |a.recommendations| <= 3
            && (a.error.None? <==> Readable(c.health) && Readable(c.maintenance) && Readable(c.risks)
                                   && PriorityItems(c.strategic).Ok?)
            && (a.error.None? ==> Kinds(a.insights) == KindIf(Truthy(c.health), RepositoryHealthKind)
                                                   + KindIf(Truthy(c.maintenance), MaintenanceLoadKind)
                                                   + KindIf(Truthy(c.risks), RiskAssessmentKind))
  {
    HeadAdditionsFacts(c, now);
    var head := HeadAdditions(c, now);
    if head.error.None? {
      TailAdditionsFacts(c, now);
      var tail := TailAdditions(c, now);
      KindsAppend(head.insights, tail.insights);
    }
  }

  lemma KindsAppend(xs: seq<InsightRecord>, ys: seq<InsightRecord>)
    ensures Kinds(xs + ys) == Kinds(xs) + Kinds(ys)
  {
  }

  /** `add_insight` for the health and maintenance categories. */
  method AddHeadInsights(st: WorkflowState, c: Categories, now: Timestamp) returns (error: Option<string>)
    modifies st`insights
    ensures st.insights == old(st.insights) + HeadAdditions(c, now).insights
    ensures error == HeadAdditions(c, now).error
  {
    var h := HealthContent(c.health);
    if h.Err? {
      return Some(h.error);
    }
    if h.value.Some? {
      st.AddInsight(InsightAgentId, RepositoryHealthKind, h.value.value, 0.8, now);
    }
    var m := MaintenanceContent(c.maintenance);
    if m.Err? {
      return Some(m.error);
    }
    if m.value.Some? {
      st.AddInsight(InsightAgentId, MaintenanceLoadKind, m.value.value, 0.7, now);
    }
    error := None;
  }

  /** `add_recommendation` for each priority, then `add_insight` for the
      risk category. */
  method AddTailInsights(st: WorkflowState, c: Categories, now: Timestamp) returns (error: Option<string>)
    requires StrategicShape(c.strategic)
    modifies st`insights, st`recommendations
    ensures st.insights == old(st.insights) + TailAdditions(c, now).insights
    ensures st.recommendations == old(st.recommendations) + TailAdditions(c, now).recommendations
    ensures error == TailAdditions(c, now).error
  {
    var ps := PriorityItems(c.strategic);
    if ps.Err? {
      return Some(ps.error);
    }
    AddPriorities(st, ps.value, now);
    var r := RiskContent(c.risks);
    if r.Err? {
      return Some(r.error);
    }
    if r.value.Some? {
      st.AddInsight(InsightAgentId, RiskAssessmentKind, r.value.value, 0.9, now);
    }
    error := None;
  }

  /** `_add_structured_insights_to_state`: stops at the first step that
      raises and returns its message. */
  method AddStructuredInsights(st: WorkflowState, c: Categories, now: Timestamp) returns (error: Option<string>)
    requires StrategicShape(c.strategic)
    modifies st`insights, st`recommendations
    ensures st.insights == old(st.insights) + StructuredAdditions(c, now).insights
    ensures st.recommendations == old(st.recommendations) + StructuredAdditions(c, now).recommendations
    ensures error == StructuredAdditions(c, now).error
  {
    error := AddHeadInsights(st, c, now);
    if error.None? {
      error := AddTailInsights(st, c, now);
    }
  }

  /** `for priority in priorities: add_recommendation(..., priority="high")`. */
  method AddPriorities(st: WorkflowState, ps: seq<Value>, now: Timestamp)
    modifies st`recommendations
    ensures st.recommendations == old(st.recommendations) + PriorityRecommendations(ps, now)
  {
    for k := 0 to |ps|
      invariant st.recommendations == old(st.recommendations) + PriorityRecommendations(ps[..k], now)
    {
      st.AddRecommendation(InsightAgentId, ps[k], High, StrategicRationale, now);
      assert ps[..k + 1][..k] == ps[..k];
    }
    assert ps[..|ps|] == ps;
  }

  // ------------------------------------------------------------------
  // Memory
  // ------------------------------------------------------------------

  /** The summary remembered for this analysis: one field of each category,
      read in the order the dictionary literal is written; the first
      category that is not a dictionary raises. */
  function MemorySummary(c: Categories, repositoryUrl: string, now: Timestamp)
    : (r: Result<StrategicRecord, string>)
    ensures r.Ok? <==> c.health.Object? && c.maintenance.Object? && c.risks.Object? && c.community.Object?
    ensures r.Ok? ==> r.value.repository == repositoryUrl && r.value.timestamp == now
  {
    match DictGet(c.health, HealthScoreKey, Null)
    case Err(e) => Err(e)
    case Ok(health) =>
      match DictGet(c.maintenance, LoadAssessmentKey, Null)
      case Err(e) => Err(e)
      case Ok(load) =>
        match DictGet(c.risks, OverallRiskKey, Null)
        case Err(e) => Err(e)
        case Ok(risk) =>
          match DictGet(c.community, HealthScoreKey, Null)
          case Err(e) => Err(e)
          case Ok(community) => Ok(StrategicRecord(repositoryUrl, now, health, load, risk, community))
  }

  const StrategicHistoryCap: nat := 20

  /** The memory after an analysis: the summary appended to the strategic
      history, capped to the newest 20, one more insight run counted. */
  function Remembered(m: AgentMemory, summary: StrategicRecord, now: Timestamp): AgentMemory
  {
    m.(strategicInsights := KeepLast(m.strategicInsights + [summary], StrategicHistoryCap),
       performanceMetrics := Put(m.performanceMetrics, InsightsGeneratedKey,
                                 GetOr(m.performanceMetrics, InsightsGeneratedKey, 0) + 1),
       lastUpdated := now)
  }

  /** The history keeps at most 20 entries and ends with the new summary,
      after the newest 19 earlier ones; the counter rises by exactly one and
      every other counter, the conversations and the workflow patterns stay. */
  lemma RememberedFacts(m: AgentMemory, summary: StrategicRecord, now: Timestamp)
    ensures var r := Remembered(m, summary, now);
            && |r.strategicInsights| <= StrategicHistoryCap
            && r.strategicInsights[|r.strategicInsights| - 1] == summary
            && r.strategicInsights[..|r.strategicInsights| - 1] == KeepLast(m.strategicInsights, StrategicHistoryCap - 1)
            && GetOr(r.performanceMetrics, InsightsGeneratedKey, 0)
               == GetOr(m.performanceMetrics, InsightsGeneratedKey, 0) + 1
            && (forall k :: k != InsightsGeneratedKey ==> Get(r.performanceMetrics, k) == Get(m.performanceMetrics, k))
            && r.agentId == m.agentId && r.conversations == m.conversations
            && r.workflowPatterns == m.workflowPatterns && r.lastUpdated == now
  {
    var r := Remembered(m, summary, now);
    var count := GetOr(m.performanceMetrics, InsightsGeneratedKey, 0) + 1;
    assert r.strategicInsights == KeepLast(m.strategicInsights + [summary], StrategicHistoryCap);
    assert r.performanceMetrics == Put(m.performanceMetrics, InsightsGeneratedKey, count);
    CappedAppend(m.strategicInsights, summary, StrategicHistoryCap);
    PutGet(m.performanceMetrics, InsightsGeneratedKey, count, InsightsGeneratedKey);
    forall k | k != InsightsGeneratedKey
      ensures Get(r.performanceMetrics, k) == Get(m.performanceMetrics, k)
    {
      PutGet(m.performanceMetrics, InsightsGeneratedKey, count, k);
    }
  }

  /** The agent's memory as `get_agent_memory` returns it. */
  function InsightMemory(memories: Dict<string, AgentMemory>, now: Timestamp): AgentMemory
  {
    Get(MemoriesWith(memories, InsightAgentId, now), InsightAgentId).value
  }

  /** A decoded reply keeps its shape when the remembered analyses are
      attached: they go under a key of their own. */
  lemma StrategicCategoryShape(reply: Reply, history: seq<StrategicRecord>, key: string)
    requires key != HistoricalContextKey
    ensures JsonReply(reply) ==> ListedShape(StrategicCategory(reply, history), key)
  {
    if JsonReply(reply) {
      match reply
      case Raised(e) =>
        FallbackShape(e, key);
      case Decoded(v) =>
        if history == [] {
          JsonListedShape(v, key);
        } else if v.Object? {
          var context := List(RecordValues(KeepLast(history, 3)));
          forall p | p in Put(v.fields, HistoricalContextKey, context) && p.0 == key
            ensures !p.1.Text? && !p.1.Doc?
          {
            PutPairs(v.fields, HistoricalContextKey, context, p);
            assert p.0 != HistoricalContextKey;
            assert p in v.fields;
            assert IsJson(p.1);
          }
        } else {
          FallbackShape(NoItemAssignment(v), key);
        }
    }
  }

  lemma FallbackShape(e: string, key: string)
    ensures ListedShape(StrategicFallback(e), key)
  {
  }

  /** With earlier analyses remembered, a dictionary reply keeps every key
      and gains the newest three of them, oldest first, as its historical
      context; without any, the reply is kept as decoded. */
  lemma StrategicHistoryAttached(v: Value, history: seq<StrategicRecord>)
    requires v.Object?
    ensures history == [] ==> StrategicCategory(Decoded(v), history) == v
    ensures history != [] ==>
              var r := StrategicCategory(Decoded(v), history);
              && r.Object?
              && Get(r.fields, HistoricalContextKey) == Some(List(RecordValues(KeepLast(history, 3))))
              && (forall k :: k != HistoricalContextKey ==> Get(r.fields, k) == Get(v.fields, k))
              && |KeepLast(history, 3)| == (if |history| < 3 then |history| else 3)
              && KeepLast(history, 3)[|KeepLast(history, 3)| - 1] == history[|history| - 1]
  {
    if history != [] {
      PutSpec(v.fields, HistoricalContextKey, List(RecordValues(KeepLast(history, 3))));
    }
  }

  // ------------------------------------------------------------------
  // Maintenance keywords
  // ------------------------------------------------------------------

  lemma LowerAppend(a: string, b: string)
    ensures Lower(a + b) == Lower(a) + Lower(b)
  {
    assert forall i :: 0 <= i < |a + b| ==> Lower(a + b)[i] == (Lower(a) + Lower(b))[i];
  }

  lemma {:induction false} ContainsExtendRight(s: string, t: string, w: string)
    requires Contains(s, w)
    ensures Contains(s + t, w)
  {
    if StartsWith(s, w) {
      assert (s + t)[..|w|] == s[..|w|];
    } else {
      ContainsExtendRight(s[1..], t, w);
      assert (s + t)[1..] == s[1..] + t;
    }
  }

  lemma {:induction false} ContainsExtendLeft(t: string, s: string, w: string)
    requires Contains(s, w)
    ensures Contains(t + s, w)
  {
    if t != [] {
      ContainsExtendLeft(t[1..], s, w);
      assert (t + s)[1..] == t[1..] + s;
    } else {
      assert t + s == s;
    }
  }

  /** Each item of a joined list stands between two pieces of the result. */
  lemma {:induction false} JoinSplit(xs: seq<string>, sep: string, j: nat) returns (before: string, after: string)
    requires j < |xs|
    ensures Join(xs, sep) == before + xs[j] + after
  {
    if |xs| == 1 {
      before, after := "", "";
    } else if j == 0 {
      before, after := "", sep + Join(xs[1..], sep);
    } else {
      var b, a := JoinSplit(xs[1..], sep, j - 1);
      before, after := xs[0] + sep + b, a;
    }
  }

  /** A word found in a lower-cased piece is found in the lower-cased whole. */
  lemma ContainsInside(a: string, m: string, b: string, w: string)
    requires Contains(Lower(m), w)
    ensures Contains(Lower(a + m + b), w)
  {
    assert a + m + b == a + (m + b);
    LowerAppend(a, m + b);
    LowerAppend(m, b);
    ContainsExtendRight(Lower(m), Lower(b), w);
    ContainsExtendLeft(Lower(a), Lower(m) + Lower(b), w);
  }

  /** A keyword in the lower-cased title makes the issue a maintenance
      issue. */
  lemma MaintenanceByTitle(i: Issue, k: string)
    requires k in MaintenanceKeywords && Contains(Lower(i.title), k)
    ensures IsMaintenance(i)
  {
    ContainsInside("", i.title, " " + Join(i.labels, " "), k);
    assert "" + i.title + (" " + Join(i.labels, " ")) == i.title + " " + Join(i.labels, " ");
    assert Contains(IssueText(i), k);
  }

  /** So does a keyword in one lower-cased label. */
  lemma MaintenanceByLabel(i: Issue, k: string, j: nat)
    requires k in MaintenanceKeywords && j < |i.labels| && Contains(Lower(i.labels[j]), k)
    ensures IsMaintenance(i)
  {
    var before, after := JoinSplit(i.labels, " ", j);
    ContainsInside(i.title + " " + before, i.labels[j], after, k);
    assert i.title + " " + before + i.labels[j] + after == i.title + " " + Join(i.labels, " ");
    assert Contains(IssueText(i), k);
  }

  /** The share of maintenance issues is above 0.3 once more than 30% of
      the issues are maintenance issues. */
  lemma LoadAtLeastMedium(m: nat, n: nat)
    requires n > 0 && m as real > n as real * 0.3
    ensures MaintenanceLoad(Ratio(m, n)) != Low
  {
    assert Ratio(m, n) == m as real / n as real;
    assert m as real / n as real > 0.3;
  }

  /** Issues labelled as bugs are maintenance issues, so the fallback's load
      is at least medium once more than 30% of the issues are. */
  lemma BugLabelsRaiseLoad(issues: seq<Issue>)
    ensures CountIf(issues, i => LabelMentions(i, BugWord)) <= MaintenanceCount(issues)
    ensures issues != [] && CountIf(issues, i => LabelMentions(i, BugWord)) as real > |issues| as real * 0.3 ==>
              MaintenanceLoad(Ratio(MaintenanceCount(issues), |issues|)) != Low
  {
    forall i | LabelMentions(i, BugWord)
      ensures IsMaintenance(i)
    {
      var l :| l in i.labels && Contains(Lower(l), BugWord);
      var j :| 0 <= j < |i.labels| && i.labels[j] == l;
      MaintenanceByLabel(i, BugWord, j);
    }
    CountIfMonotone(issues, i => LabelMentions(i, BugWord), IsMaintenance);
    if issues != [] && CountIf(issues, i => LabelMentions(i, BugWord)) as real > |issues| as real * 0.3 {
      LoadAtLeastMedium(MaintenanceCount(issues), |issues|);
    }
  }

  // ------------------------------------------------------------------
  // Risk assessment
  // ------------------------------------------------------------------

  /** The fallback risk assessment: the level follows the number of factors
      found, and the top risks are the first three of them, by name. */
  lemma RiskFallbackFacts(issues: seq<Issue>, trend: TrendAnalysis, error: string)
    ensures var factors := RiskFactors(issues, trend);
            var r := RiskFallback(factors, error);
            && |factors| <= 4
            && Get(r.fields, OverallRiskKey) == Some(Str(RiskLevel(|factors|)))
            && Get(r.fields, TopRisksKey) == Some(StrList(RiskFactorNames(TopRisks(factors))))
            && |TopRisks(factors)| <= 3
            && (RiskLevel(|factors|) == High ==> |TopRisks(factors)| == 3)
  {
    var factors := RiskFactors(issues, trend);
    RanksBound(factors);
  }

  /** Factors in strictly increasing check order are at most four. */
  lemma {:induction false} RanksBound(fs: seq<RiskFactor>)
    requires forall i, j :: 0 <= i < j < |fs| ==> FactorRank(fs[i]) < FactorRank(fs[j])
    requires IncreasingIssueTrend !in fs
    ensures |fs| <= 4
    ensures fs != [] ==> FactorRank(fs[0]) + |fs| <= 4
  {
    if fs != [] {
      RanksBound(fs[1..]);
      if |fs| > 1 {
        assert FactorRank(fs[0]) < FactorRank(fs[1]);
      }
      assert fs[0] != IncreasingIssueTrend;
    }
  }

  // ------------------------------------------------------------------
  // The agent run
  // ------------------------------------------------------------------

  /** The progress steps between the guard and the storing of the
      categories. */
  function GenerationSteps(now: Timestamp): (r: seq<ProgressEntry>)
    ensures StepsOnly(r)
  {
    [StepEvent(now, InsightKey, 25.0, Str(AnalyzingHealth)),
     StepEvent(now, InsightKey, 40.0, Str(IdentifyingMaintenance)),
     StepEvent(now, InsightKey, 55.0, Str(AnalyzingCommunity)),
     StepEvent(now, InsightKey, 70.0, Str(GeneratingStrategic)),
     StepEvent(now, InsightKey, 85.0, Str(AssessingRisks))]
  }

  /** The final step, logged only when nothing raised. */
  function DoneStep(finished: bool, now: Timestamp): (r: seq<ProgressEntry>)
    ensures StepsOnly(r)
  {
    if finished then [StepEvent(now, InsightKey, 100.0, Str(InsightsGenerated))] else []
  }

  /** What raises after the categories are stored: the structured step,
      then the memory summary. */
  function InsightFailure(c: Categories, repositoryUrl: string, now: Timestamp): (r: Option<string>)
    requires StrategicShape(c.strategic)
    ensures r.None? <==> StructuredAdditions(c, now).error.None? && MemorySummary(c, repositoryUrl, now).Ok?
  {
    var a := StructuredAdditions(c, now);
    if a.error.Some? then a.error
    else match MemorySummary(c, repositoryUrl, now)
      case Err(e) => Some(e)
      case Ok(_) => None
  }

  /** The output of a completed run: five categories, their names, and the
      overall risk as the risk category states it. */
  function InsightOutput(risks: Value): Value
  {
    Object([(InsightsGeneratedKey, Int(5)),
            (CategoriesAnalyzedKey, StrList([HealthKey, MaintenanceKey, CommunityKey, StrategicKey, RisksKey])),
            (RiskLevelKey, FieldOr(risks, OverallRiskKey, Str(UnknownWord)))])
  }

  /** Progress 25 to 85 while the categories are produced, then
      `processed_data["ai_insights"] = insights`. */
  method StoreCategories(st: WorkflowState, c: Categories, now: Timestamp)
    modifies st`currentStep, st`completionPercentage, st`progressUpdates, st`processedData
    ensures st.processedData == Put(old(st.processedData), AiInsightsKey, AiInsightsEntry(CategoryDict(c)))
    ensures st.progressUpdates == old(st.progressUpdates) + GenerationSteps(now)
    ensures st.currentStep == InsightKey
  {
    st.UpdateProgress(InsightKey, 25.0, Str(AnalyzingHealth), now);
    st.UpdateProgress(InsightKey, 40.0, Str(IdentifyingMaintenance), now);
    st.UpdateProgress(InsightKey, 55.0, Str(AnalyzingCommunity), now);
    st.UpdateProgress(InsightKey, 70.0, Str(GeneratingStrategic), now);
    st.UpdateProgress(InsightKey, 85.0, Str(AssessingRisks), now);
    st.processedData := Put(st.processedData, AiInsightsKey, AiInsightsEntry(CategoryDict(c)));
  }

  /** The status a run past its guard ends with. */
  function FinalStatus(failure: Option<string>): AgentStatus
  {
    if failure.None? then Completed else Failed
  }

  /** The error recorded when something raised. */
  function ErrorsAfter(errors: Dict<string, string>, failure: Option<string>): Dict<string, string>
  {
    if failure.None? then errors else Put(errors, InsightAgentId, InsightFailedPrefix + failure.value)
  }

  /** The output recorded when nothing raised. */
  function OutputsAfter(outputs: Dict<string, Value>, c: Categories, failure: Option<string>): Dict<string, Value>
  {
    if failure.None? then Put(outputs, InsightAgentId, InsightOutput(c.risks)) else outputs
  }

  /** The memories after a run: the fetched memory, updated in place when
      nothing raised. */
  function MemoriesAfter(memories: Dict<string, AgentMemory>, memory: AgentMemory, c: Categories,
                         repositoryUrl: string, failure: Option<string>, now: Timestamp)
    : Dict<string, AgentMemory>
  {
    var summary := MemorySummary(c, repositoryUrl, now);
    if failure.None? && summary.Ok? then Put(memories, InsightAgentId, Remembered(memory, summary.value, now))
    else memories
  }

  /** `_update_agent_memory`: the memory returned by get-or-create is
      updated in place, so the stored memory becomes the updated one. */
  method RememberInsights(st: WorkflowState, memory: AgentMemory, c: Categories, repositoryUrl: string,
                          now: Timestamp) returns (error: Option<string>)
    modifies st`agentMemories
    ensures error.None? <==> MemorySummary(c, repositoryUrl, now).Ok?
    ensures error.Some? ==> error.value == MemorySummary(c, repositoryUrl, now).error
    ensures st.agentMemories == MemoriesAfter(old(st.agentMemories), memory, c, repositoryUrl, error, now)
  {
    var summary := MemorySummary(c, repositoryUrl, now);
    if summary.Err? {
      return Some(summary.error);
    }
    st.agentMemories := Put(st.agentMemories, InsightAgentId, Remembered(memory, summary.value, now));
    error := None;
  }

  /** Everything between the guard and the final status: the categories
      stored, the structured additions, the memory, the last step. */
  method GenerateInsights(st: WorkflowState, c: Categories, memory: AgentMemory, repositoryUrl: string,
                          now: Timestamp) returns (failure: Option<string>)
    requires StrategicShape(c.strategic)
    modifies st`currentStep, st`completionPercentage, st`progressUpdates, st`processedData,
             st`insights, st`recommendations, st`agentMemories
    ensures failure == InsightFailure(c, repositoryUrl, now)
    ensures st.processedData == Put(old(st.processedData), AiInsightsKey, AiInsightsEntry(CategoryDict(c)))
    ensures st.insights == old(st.insights) + StructuredAdditions(c, now).insights
    ensures st.recommendations == old(st.recommendations) + StructuredAdditions(c, now).recommendations
    ensures st.agentMemories == MemoriesAfter(old(st.agentMemories), memory, c, repositoryUrl, failure, now)
    ensures st.progressUpdates == old(st.progressUpdates) + GenerationSteps(now) + DoneStep(failure.None?, now)
  {
    StoreCategories(st, c, now);
    failure := AddStructuredInsights(st, c, now);
    if failure.None? {
      failure := RememberAndReport(st, memory, c, repositoryUrl, now);
    }
  }

  /** The memory update, then the last step when it did not raise. */
  method RememberAndReport(st: WorkflowState, memory: AgentMemory, c: Categories, repositoryUrl: string,
                           now: Timestamp) returns (error: Option<string>)
    modifies st`currentStep, st`completionPercentage, st`progressUpdates, st`agentMemories
    ensures error == (match MemorySummary(c, repositoryUrl, now) case Err(e) => Some(e) case Ok(_) => None)
    ensures st.agentMemories == MemoriesAfter(old(st.agentMemories), memory, c, repositoryUrl, error, now)
    ensures st.progressUpdates == old(st.progressUpdates) + DoneStep(error.None?, now)
  {
    error := RememberInsights(st, memory, c, repositoryUrl, now);
    if error.None? {
      st.UpdateProgress(InsightKey, 100.0, Str(InsightsGenerated), now);
    }
  }

  /** The log of a run: running, its steps, its final status. */
  lemma InsightLifecycle(entries: seq<ProgressEntry>, steps: seq<ProgressEntry>, done: seq<ProgressEntry>,
                         final: AgentStatus, now: Timestamp)
    requires StepsOnly(steps) && StepsOnly(done)
    ensures StatusTrace(entries + [StatusEvent(now, InsightAgentId, Running)]
                        + [StepEvent(now, InsightKey, 10.0, Str(GeneratingInsights))] + steps + done
                        + [StatusEvent(now, InsightAgentId, final)], InsightAgentId)
            == StatusTrace(entries, InsightAgentId) + [Running, final]
  {
    var first := StepEvent(now, InsightKey, 10.0, Str(GeneratingInsights));
    RegroupSteps(entries, StatusEvent(now, InsightAgentId, Running), [first], steps, done,
                 StatusEvent(now, InsightAgentId, final));
    assert StepsOnly([first] + steps + done);
    LifecycleTrace(entries, InsightAgentId, [first] + steps + done, final, now, InsightAgentId);
  }

  /** The agent once past its guard: its memory fetched (get-or-create),
      the categories generated, then completed with the output or failed
      with the message of what raised. */
  method RunInsights(st: WorkflowState, rs: Replies, now: Timestamp)
    requires st.rawIssues != [] && st.trendAnalysis.Some? && JsonReply(rs.strategic)
    modifies st`agentStatuses, st`updatedAt, st`agentOutputs, st`agentErrors, st`progressUpdates,
             st`currentStep, st`completionPercentage, st`processedData, st`insights,
             st`recommendations, st`agentMemories
    ensures var src := old(InsightSource(st.rawIssues, st.trendAnalysis.value, st.repositoryUrl,
                                         InsightMemory(st.agentMemories, now)));
            var c := CategoriesFor(src, rs, now);
            var failure := InsightFailure(c, src.repositoryUrl, now);
            && st.agentStatuses == Put(old(st.agentStatuses), InsightAgentId, FinalStatus(failure))
            && st.agentErrors == ErrorsAfter(old(st.agentErrors), failure)
            && st.agentOutputs == OutputsAfter(old(st.agentOutputs), c, failure)
            && st.processedData == Put(old(st.processedData), AiInsightsKey, AiInsightsEntry(CategoryDict(c)))
            && st.insights == old(st.insights) + StructuredAdditions(c, now).insights
            && st.recommendations == old(st.recommendations) + StructuredAdditions(c, now).recommendations
            && st.agentMemories == MemoriesAfter(MemoriesWith(old(st.agentMemories), InsightAgentId, now),
                                                 src.memory, c, src.repositoryUrl, failure, now)
            && StatusTrace(st.progressUpdates, InsightAgentId)
               == StatusTrace(old(st.progressUpdates), InsightAgentId) + [Running, FinalStatus(failure)]
  {
    ghost var src0 := InsightSource(st.rawIssues, st.trendAnalysis.value, st.repositoryUrl,
                                    InsightMemory(st.agentMemories, now));
    var memory := StartInsights(st, now);
    var src := InsightSource(st.rawIssues, st.trendAnalysis.value, st.repositoryUrl, memory);
    assert src == src0;
    assert st.processedData == old(st.processedData) && st.insights == old(st.insights);
    assert st.recommendations == old(st.recommendations);
    var c := CategoriesFor(src, rs, now);
    var failure := ConcludeInsights(st, c, memory, st.repositoryUrl, now);
    PutTwice(old(st.agentStatuses), InsightAgentId, Running, FinalStatus(failure));
    InsightLifecycle(old(st.progressUpdates), GenerationSteps(now), DoneStep(failure.None?, now),
                     FinalStatus(failure), now);
  }

  /** The run once its categories are known: generation, then the final
      status. */
  method ConcludeInsights(st: WorkflowState, c: Categories, memory: AgentMemory, repositoryUrl: string,
                          now: Timestamp) returns (failure: Option<string>)
    requires StrategicShape(c.strategic)
    modifies st`agentStatuses, st`updatedAt, st`agentOutputs, st`agentErrors, st`progressUpdates,
             st`currentStep, st`completionPercentage, st`processedData, st`insights,
             st`recommendations, st`agentMemories
    ensures failure == InsightFailure(c, repositoryUrl, now)
    ensures st.agentStatuses == Put(old(st.agentStatuses), InsightAgentId, FinalStatus(failure))
    ensures st.agentErrors == ErrorsAfter(old(st.agentErrors), failure)
    ensures st.agentOutputs == OutputsAfter(old(st.agentOutputs), c, failure)
    ensures st.processedData == Put(old(st.processedData), AiInsightsKey, AiInsightsEntry(CategoryDict(c)))
    ensures st.insights == old(st.insights) + StructuredAdditions(c, now).insights
    ensures st.recommendations == old(st.recommendations) + StructuredAdditions(c, now).recommendations
    ensures st.agentMemories == MemoriesAfter(old(st.agentMemories), memory, c, repositoryUrl, failure, now)
    ensures st.progressUpdates == old(st.progressUpdates) + GenerationSteps(now) + DoneStep(failure.None?, now)
                                  + [StatusEvent(now, InsightAgentId, FinalStatus(failure))]
  {
    failure := GenerateInsights(st, c, memory, repositoryUrl, now);
    FinishInsights(st, c, failure, now);
  }

  /** The start of a run: running, the first step, and the agent's memory
      fetched or created. */
  method StartInsights(st: WorkflowState, now: Timestamp) returns (memory: AgentMemory)
    modifies st`agentStatuses, st`updatedAt, st`agentOutputs, st`agentErrors, st`progressUpdates,
             st`currentStep, st`completionPercentage, st`agentMemories
    ensures memory == InsightMemory(old(st.agentMemories), now)
    ensures st.agentMemories == MemoriesWith(old(st.agentMemories), InsightAgentId, now)
    ensures st.agentStatuses == Put(old(st.agentStatuses), InsightAgentId, Running)
    ensures st.agentErrors == old(st.agentErrors) && st.agentOutputs == old(st.agentOutputs)
    ensures st.progressUpdates == old(st.progressUpdates) + [StatusEvent(now, InsightAgentId, Running)]
                                  + [StepEvent(now, InsightKey, 10.0, Str(GeneratingInsights))]
  {
    st.UpdateAgentStatus(InsightAgentId, Running, None, None, now);
    st.UpdateProgress(InsightKey, 10.0, Str(GeneratingInsights), now);
    memory := st.GetAgentMemory(InsightAgentId, now);
  }

  /** The final status update, with the output or the prefixed error. */
  method FinishInsights(st: WorkflowState, c: Categories, failure: Option<string>, now: Timestamp)
    modifies st`agentStatuses, st`updatedAt, st`agentOutputs, st`agentErrors, st`progressUpdates
    ensures st.agentStatuses == Put(old(st.agentStatuses), InsightAgentId, FinalStatus(failure))
    ensures st.agentErrors == ErrorsAfter(old(st.agentErrors), failure)
    ensures st.agentOutputs == OutputsAfter(old(st.agentOutputs), c, failure)
    ensures st.progressUpdates == old(st.progressUpdates) + [StatusEvent(now, InsightAgentId, FinalStatus(failure))]
  {
    if failure.Some? {
      st.UpdateAgentStatus(InsightAgentId, Failed, None, Some(InsightFailedPrefix + failure.value), now);
    } else {
      st.UpdateAgentStatus(InsightAgentId, Completed, Some(InsightOutput(c.risks)), None, now);
    }
  }

  /** The insight agent: without issues or a trend analysis it fails with a
      fixed message and changes nothing else; otherwise it runs. */
  method ExecuteInsights(st: WorkflowState, rs: Replies, now: Timestamp)
    requires JsonReply(rs.strategic)
    modifies st`agentStatuses, st`updatedAt, st`agentOutputs, st`agentErrors, st`progressUpdates,
             st`currentStep, st`completionPercentage, st`processedData, st`insights,
             st`recommendations, st`agentMemories
    ensures old(st.rawIssues) == [] || old(st.trendAnalysis).None? ==>
              && st.agentStatuses == Put(old(st.agentStatuses), InsightAgentId, Failed)
              && st.agentErrors == Put(old(st.agentErrors), InsightAgentId, MissingInsightData)
              && st.agentOutputs == old(st.agentOutputs) && st.processedData == old(st.processedData)
              && st.insights == old(st.insights) && st.recommendations == old(st.recommendations)
              && st.agentMemories == old(st.agentMemories)
              && st.progressUpdates == old(st.progressUpdates) + [StatusEvent(now, InsightAgentId, Running)]
                                       + [StepEvent(now, InsightKey, 10.0, Str(GeneratingInsights))]
                                       + [StatusEvent(now, InsightAgentId, Failed)]
    ensures old(st.rawIssues) != [] && old(st.trendAnalysis).Some? ==>
              var src := old(InsightSource(st.rawIssues, st.trendAnalysis.value, st.repositoryUrl,
                                           InsightMemory(st.agentMemories, now)));
              var c := CategoriesFor(src, rs, now);
              var failure := InsightFailure(c, src.repositoryUrl, now);
              && st.agentStatuses == Put(old(st.agentStatuses), InsightAgentId, FinalStatus(failure))
              && st.agentErrors == ErrorsAfter(old(st.agentErrors), failure)
              && st.agentOutputs == OutputsAfter(old(st.agentOutputs), c, failure)
              && st.processedData == Put(old(st.processedData), AiInsightsKey, AiInsightsEntry(CategoryDict(c)))
              && st.insights == old(st.insights) + StructuredAdditions(c, now).insights
              && st.recommendations == old(st.recommendations) + StructuredAdditions(c, now).recommendations
              && st.agentMemories == MemoriesAfter(MemoriesWith(old(st.agentMemories), InsightAgentId, now),
                                                   src.memory, c, src.repositoryUrl, failure, now)
              && StatusTrace(st.progressUpdates, InsightAgentId)
                 == StatusTrace(old(st.progressUpdates), InsightAgentId) + [Running, FinalStatus(failure)]
  {
    if st.rawIssues == [] || st.trendAnalysis.None? {
      st.UpdateAgentStatus(InsightAgentId, Running, None, None, now);
      st.UpdateProgress(InsightKey, 10.0, Str(GeneratingInsights), now);
      st.UpdateAgentStatus(InsightAgentId, Failed, None, Some(MissingInsightData), now);
      PutTwice(old(st.agentStatuses), InsightAgentId, Running, Failed);
    } else {
      RunInsights(st, rs, now);
    }
  }

  /** The fallback strategy yields its two priorities. */
  lemma FallbackPriorityItems(e: string)
    ensures PriorityItems(StrategicFallback(e)) == Ok([Str(AddressBacklog), Str(ImproveIssueTriage)])
  {
    var v := StrategicFallback(e);
    assert Get(v.fields, PrioritiesKey) == Some(StrList(FallbackPriorities));
    var items := StrList(FallbackPriorities).items;
    assert items == [Str(AddressBacklog), Str(ImproveIssueTriage)] by {
      assert items[0] == Str(AddressBacklog) && items[1] == Str(ImproveIssueTriage);
    }
  }

  /** Non-empty dictionaries as health, maintenance and risk categories and
      the fallback strategy: the structured step finishes, with one insight
      for each of the three, and recommends the two fallback priorities. */
  predicate FallbackLike(c: Categories)
  {
    && c.health.Object? && c.health.fields != []
    && c.maintenance.Object? && c.maintenance.fields != []
    && c.risks.Object? && c.risks.fields != []
    && StrategicShape(c.strategic)
    && PriorityItems(c.strategic) == Ok([Str(AddressBacklog), Str(ImproveIssueTriage)])
  }

  lemma FallbackFinishes(c: Categories, now: Timestamp)
    requires FallbackLike(c)
    ensures StructuredAdditions(c, now).error.None?
  {
    StructuredAdditionsFacts(c, now);
  }

  lemma FallbackKinds(c: Categories, now: Timestamp)
    requires FallbackLike(c)
    ensures Kinds(StructuredAdditions(c, now).insights)
            == [RepositoryHealthKind, MaintenanceLoadKind, RiskAssessmentKind]
  {
    var head, tail := HeadAdditions(c, now), TailAdditions(c, now);
    assert HealthContent(c.health).Ok? && HealthContent(c.health).value.Some?;
    assert MaintenanceContent(c.maintenance).Ok? && MaintenanceContent(c.maintenance).value.Some?;
    assert RiskContent(c.risks).Ok? && RiskContent(c.risks).value.Some?;
    assert |head.insights| == 2 && head.error.None?;
    assert head.insights[0].kind == RepositoryHealthKind && head.insights[1].kind == MaintenanceLoadKind;
    assert |tail.insights| == 1 && tail.insights[0].kind == RiskAssessmentKind;
    var xs := StructuredAdditions(c, now).insights;
    assert xs == head.insights + tail.insights;
    KindsOfThree(xs, RepositoryHealthKind, MaintenanceLoadKind, RiskAssessmentKind);
  }

  lemma KindsOfThree(xs: seq<InsightRecord>, a: string, b: string, c: string)
    requires |xs| == 3 && xs[0].kind == a && xs[1].kind == b && xs[2].kind == c
    ensures Kinds(xs) == [a, b, c]
  {
  }

  lemma FallbackRecommendations(c: Categories, now: Timestamp)
    requires FallbackLike(c)
    ensures StructuredAdditions(c, now).recommendations
            == PriorityRecommendations([Str(AddressBacklog), Str(ImproveIssueTriage)], now)
  {
  }

  /** ... and with a dictionary as community category nothing raises. */
  lemma FallbackRun(c: Categories, repositoryUrl: string, now: Timestamp)
    requires FallbackLike(c) && c.community.Object?
    ensures var a := StructuredAdditions(c, now);
            && InsightFailure(c, repositoryUrl, now).None?
            && Kinds(a.insights) == [RepositoryHealthKind, MaintenanceLoadKind, RiskAssessmentKind]
            && |a.recommendations| == 2
            && a.recommendations[0].recommendation == Str(AddressBacklog)
            && a.recommendations[1].recommendation == Str(ImproveIssueTriage)
  {
    FallbackFinishes(c, now);
    FallbackKinds(c, now);
    FallbackRecommendations(c, now);
  }

  /** The output reports the overall risk the risk category states. */
  lemma OutputRiskLevel(risks: Value)
    ensures Get(InsightOutput(risks).fields, RiskLevelKey) == Some(FieldOr(risks, OverallRiskKey, Str(UnknownWord)))
  {
  }

  /** The fallback categories are all non-empty dictionaries, and the
      strategic one yields its two priorities. */
  lemma FallbacksAreLike(src: InsightSource, rs: Replies, now: Timestamp)
    requires src.issues != []
    requires rs.health.Raised? && rs.maintenance.Raised? && rs.community.Raised?
    requires rs.strategic.Raised? && rs.risks.Raised?
    ensures var c := Categories(HealthFallback(src.issues, src.trend, rs.health.message),
                                MaintenanceFallback(src.issues, now, rs.maintenance.message),
                                CommunityFallback(src.issues, rs.community.message),
                                StrategicFallback(rs.strategic.message),
                                RiskFallback(RiskFactors(src.issues, src.trend), rs.risks.message));
            FallbackLike(c) && c.community.Object?
  {
    FallbackShape(rs.strategic.message, PrioritiesKey);
    FallbackPriorityItems(rs.strategic.message);
  }

  /** The fallback risk assessment states the level the factors give. */
  lemma FallbackRiskLevel(issues: seq<Issue>, trend: TrendAnalysis, error: string)
    ensures var factors := RiskFactors(issues, trend);
            FieldOr(RiskFallback(factors, error), OverallRiskKey, Str(UnknownWord)) == Str(RiskLevel(|factors|))
  {
    RiskFallbackFacts(issues, trend, error);
  }

  lemma CategoriesOnRaise(src: InsightSource, rs: Replies, now: Timestamp)
    requires src.issues != []
    requires rs.health.Raised? && rs.maintenance.Raised? && rs.community.Raised?
    requires rs.strategic.Raised? && rs.risks.Raised?
    ensures CategoriesFor(src, rs, now)
            == Categories(HealthFallback(src.issues, src.trend, rs.health.message),
                          MaintenanceFallback(src.issues, now, rs.maintenance.message),
                          CommunityFallback(src.issues, rs.community.message),
                          StrategicFallback(rs.strategic.message),
                          RiskFallback(RiskFactors(src.issues, src.trend), rs.risks.message))
  {
  }

  /** When every model call raises, the agent still completes: one insight
      each for health, maintenance and risk, the two fallback priorities as
      recommendations, and the risk level the counted factors give. */
  lemma AllFallbacks(src: InsightSource, rs: Replies, now: Timestamp)
    requires src.issues != []
    requires rs.health.Raised? && rs.maintenance.Raised? && rs.community.Raised?
    requires rs.strategic.Raised? && rs.risks.Raised?
    ensures var c := CategoriesFor(src, rs, now);
            var a := StructuredAdditions(c, now);
            && InsightFailure(c, src.repositoryUrl, now).None?
            && Kinds(a.insights) == [RepositoryHealthKind, MaintenanceLoadKind, RiskAssessmentKind]
            && |a.recommendations| == 2
            && a.recommendations[0].recommendation == Str(AddressBacklog)
            && a.recommendations[1].recommendation == Str(ImproveIssueTriage)
            && Get(InsightOutput(c.risks).fields, RiskLevelKey)
               == Some(Str(RiskLevel(|RiskFactors(src.issues, src.trend)|)))
  {
    var c := CategoriesFor(src, rs, now);
    CategoriesOnRaise(src, rs, now);
    FallbacksAreLike(src, rs, now);
    FallbackRun(c, src.repositoryUrl, now);
    FallbackRiskLevel(src.issues, src.trend, rs.risks.message);
    OutputRiskLevel(c.risks);
  }
}
