/** The orchestrator's fixed stage graph and the pure rules around it: the
    routers that pick an outgoing edge, the sentinel the quality gate leaves in
    the routing trail, and the scores and suggestions of the reflection. */
module Routing {
  import opened Base
  import opened State

  /** The orchestrator's stage names, which are also the keys of its agent
      table, in table order. */
  const RetrievalKey: string := "data_retrieval"
  const AnalysisKey: string := "analysis"
  const InsightKey: string := "insight_generation"
  const ReportKey: string := "report_generation"
  const AgentKeys: seq<string> := [RetrievalKey, AnalysisKey, InsightKey, ReportKey]

  /** `len(self.agents)`. */
  const AgentCount: nat := 4

  /** The identifiers the agents write their own status under. */
  const RetrievalAgentId: string := "data_retrieval_agent"
  const AnalysisAgentId: string := "analysis_agent"
  const InsightAgentId: string := "insight_agent"
  const ReportAgentId: string := "report_agent"

  /** The sentinels the quality gate appends to the routing trail. */
  const GateFailed: string := "quality_gate_failed"
  const InsufficientData: string := "insufficient_data"
  const ProceedToAnalysis: string := "proceed_to_analysis"
  const QualityUnknown: string := "quality_unknown"

  /** `statuses.get(a) or statuses.get(b)`. Every status is a non-empty
      string and therefore truthy, so `b` is consulted only when `a` is
      absent. */
  function EitherStatus(statuses: Dict<string, AgentStatus>, a: string, b: string): Option<AgentStatus>
  {
    if Get(statuses, a).Some? then Get(statuses, a) else Get(statuses, b)
  }

  /** The status both the retrieval router and the quality gate read. */
  function RetrievalStatus(statuses: Dict<string, AgentStatus>): Option<AgentStatus>
  {
    EitherStatus(statuses, RetrievalKey, RetrievalAgentId)
  }

  /** The labels the routers return; each stage maps some of them to a
      target. */
  datatype Label =
    | QualityGateLabel | AnalysisLabel | InsightLabel | ReportLabel
    | ReflectionLabel | EndLabel | ErrorLabel

  const AllLabels: seq<Label> :=
    [QualityGateLabel, AnalysisLabel, InsightLabel, ReportLabel, ReflectionLabel, EndLabel, ErrorLabel]

  /** Advances to the quality gate exactly when the retrieval is COMPLETED:
      under the stage key, or under the agent's own id when the stage key is
      absent. */
  function RouteAfterDataRetrieval(statuses: Dict<string, AgentStatus>): (r: Label)
    ensures r == QualityGateLabel || r == ErrorLabel
    ensures r == QualityGateLabel <==>
              (Get(statuses, RetrievalKey) == Some(Completed)
               || (Get(statuses, RetrievalKey).None? && Get(statuses, RetrievalAgentId) == Some(Completed)))
  {
    if RetrievalStatus(statuses) == Some(Completed) then QualityGateLabel else ErrorLabel
  }

  /** The sentinel the quality gate appends, given the retrieval status and
      the assessed data quality. */
  function QualitySentinel(retrieval: Option<AgentStatus>, quality: Option<AnalysisQuality>): (r: string)
    ensures r in [GateFailed, InsufficientData, ProceedToAnalysis, QualityUnknown]
    ensures r == GateFailed <==> retrieval != Some(Completed)
    ensures r == InsufficientData <==> retrieval == Some(Completed) && quality == Some(Insufficient)
    ensures r == QualityUnknown <==> retrieval == Some(Completed) && quality.None?
  {
    if retrieval != Some(Completed) then GateFailed
    else match quality
      case Some(Insufficient) => InsufficientData
      case Some(_) => ProceedToAnalysis
      case None => QualityUnknown
  }

  /** Decides by membership anywhere in the trail, with a fixed precedence:
      a failed gate, then insufficient data, then proceed. */
  function RouteAfterQualityGate(trail: seq<string>): (r: Label)
    ensures r in [AnalysisLabel, InsightLabel, ErrorLabel]
    ensures GateFailed in trail ==> r == ErrorLabel
    ensures r == InsightLabel <==> GateFailed !in trail && InsufficientData in trail
    ensures r == AnalysisLabel <==>
              GateFailed !in trail && InsufficientData !in trail && ProceedToAnalysis in trail
  {
    if GateFailed in trail then ErrorLabel
    else if InsufficientData in trail then InsightLabel
    else if ProceedToAnalysis in trail then AnalysisLabel
    else ErrorLabel
  }

  /** The route a gate decision leads to. */
  function GateRoute(retrieval: Option<AgentStatus>, quality: Option<AnalysisQuality>): Label
  {
    if retrieval != Some(Completed) then ErrorLabel
    else match quality
      case Some(Insufficient) => InsightLabel
      case Some(_) => AnalysisLabel
      case None => ErrorLabel
  }

  /** On a trail that holds no sentinel yet, the router follows the one
      sentinel the gate has just appended. */
  lemma GateSentinelDecides(trail: seq<string>, retrieval: Option<AgentStatus>,
                            quality: Option<AnalysisQuality>)
    requires GateFailed !in trail && InsufficientData !in trail && ProceedToAnalysis !in trail
    ensures RouteAfterQualityGate(trail + [QualitySentinel(retrieval, quality)])
            == GateRoute(retrieval, quality)
  {
    var s := QualitySentinel(retrieval, quality);
    assert forall x :: x in trail + [s] <==> x in trail || x == s;
  }

  /** Membership, not the latest decision, wins: an old failed gate keeps
      routing to the error handler whatever is appended later. */
  lemma EarlierFailureWins(trail: seq<string>, later: seq<string>)
    requires GateFailed in trail
    ensures RouteAfterQualityGate(trail + later) == ErrorLabel
  {
    assert GateFailed in trail + later;
  }

  /** Advances only when the literal stage key "analysis" is COMPLETED. */
  function RouteAfterAnalysis(statuses: Dict<string, AgentStatus>): (r: Label)
    ensures r == InsightLabel || r == ErrorLabel
    ensures r == InsightLabel <==> Get(statuses, AnalysisKey) == Some(Completed)
  {
    if Get(statuses, AnalysisKey) == Some(Completed) then InsightLabel else ErrorLabel
  }

  /** Advances only when the literal stage key "insight_generation" is
      COMPLETED. */
  function RouteAfterInsights(statuses: Dict<string, AgentStatus>): (r: Label)
    ensures r == ReportLabel || r == ErrorLabel
    ensures r == ReportLabel <==> Get(statuses, InsightKey) == Some(Completed)
  {
    if Get(statuses, InsightKey) == Some(Completed) then ReportLabel else ErrorLabel
  }

  /** The report stage always goes on to the reflection. */
  function RouteAfterReports(): (r: Label)
    ensures r == ReflectionLabel
  {
    ReflectionLabel
  }

  /** The analysis and insight routers as evidently intended: like the
      retrieval router, they also accept the status the agent writes under
      its own id. */
  function RouteAfterAnalysisFixed(statuses: Dict<string, AgentStatus>): (r: Label)
    ensures r == InsightLabel || r == ErrorLabel
    ensures r == InsightLabel <==>
              (Get(statuses, AnalysisKey) == Some(Completed)
               || (Get(statuses, AnalysisKey).None? && Get(statuses, AnalysisAgentId) == Some(Completed)))
  {
    if EitherStatus(statuses, AnalysisKey, AnalysisAgentId) == Some(Completed) then InsightLabel else ErrorLabel
  }

  function RouteAfterInsightsFixed(statuses: Dict<string, AgentStatus>): (r: Label)
    ensures r == ReportLabel || r == ErrorLabel
    ensures r == ReportLabel <==>
              (Get(statuses, InsightKey) == Some(Completed)
               || (Get(statuses, InsightKey).None? && Get(statuses, InsightAgentId) == Some(Completed)))
  {
    if EitherStatus(statuses, InsightKey, InsightAgentId) == Some(Completed) then ReportLabel else ErrorLabel
  }

  /** A successful analysis agent, recorded under its own id, is routed to
      the error handler by the router as written, and on to the insights by
      the corrected one. */
  lemma AnalysisSuccessIgnored(statuses: Dict<string, AgentStatus>)
    requires Get(statuses, AnalysisKey).None?
    requires Get(statuses, AnalysisAgentId) == Some(Completed)
    ensures RouteAfterAnalysis(statuses) == ErrorLabel
    ensures RouteAfterAnalysisFixed(statuses) == InsightLabel
  {
  }

  /** The same for the insight agent. */
  lemma InsightSuccessIgnored(statuses: Dict<string, AgentStatus>)
    requires Get(statuses, InsightKey).None?
    requires Get(statuses, InsightAgentId) == Some(Completed)
    ensures RouteAfterInsights(statuses) == ErrorLabel
    ensures RouteAfterInsightsFixed(statuses) == ReportLabel
  {
  }

  /** The nodes of the graph. */
  datatype Stage =
    | RetrievalNode | QualityGateNode | AnalysisNode | InsightNode | ReportNode
    | ErrorNode | ReflectionNode

  /** Where an edge leads: another node, or the end of the run. */
  datatype Target = Goto(stage: Stage) | Finish

  /** The edge maps given to the graph: the target of `lbl` out of `s`,
      if `s` maps that label. The error handler and the reflection have a
      single unconditional edge to the end. */
  function Edge(s: Stage, lbl: Label): Option<Target>
  {
    match s
    case RetrievalNode =>
      if lbl == QualityGateLabel then Some(Goto(QualityGateNode))
      else if lbl == ErrorLabel then Some(Goto(ErrorNode)) else None
    case QualityGateNode =>
      if lbl == AnalysisLabel then Some(Goto(AnalysisNode))
      else if lbl == InsightLabel then Some(Goto(InsightNode))
      else if lbl == ErrorLabel then Some(Goto(ErrorNode)) else None
    case AnalysisNode =>
      if lbl == InsightLabel then Some(Goto(InsightNode))
      else if lbl == ErrorLabel then Some(Goto(ErrorNode)) else None
    case InsightNode =>
      if lbl == ReportLabel then Some(Goto(ReportNode))
      else if lbl == ErrorLabel then Some(Goto(ErrorNode)) else None
    case ReportNode =>
      if lbl == ReflectionLabel then Some(Goto(ReflectionNode))
      else if lbl == EndLabel then Some(Finish) else None
    case ErrorNode => Some(Finish)
    case ReflectionNode => Some(Finish)
  }

  /** The routing decision taken when `s` finishes, with the as-written or
      the corrected routers. */
  function Route(s: Stage, statuses: Dict<string, AgentStatus>, trail: seq<string>, fixed: bool): Label
  {
    match s
    case RetrievalNode => RouteAfterDataRetrieval(statuses)
    case QualityGateNode => RouteAfterQualityGate(trail)
    case AnalysisNode => if fixed then RouteAfterAnalysisFixed(statuses) else RouteAfterAnalysis(statuses)
    case InsightNode => if fixed then RouteAfterInsightsFixed(statuses) else RouteAfterInsights(statuses)
    case ReportNode => RouteAfterReports()
    case ErrorNode => EndLabel
    case ReflectionNode => EndLabel
  }

  /** Every label a router returns is one its stage maps, so a run never
      meets an unmapped label. */
  function Next(s: Stage, statuses: Dict<string, AgentStatus>, trail: seq<string>, fixed: bool): (t: Target)
    ensures Edge(s, Route(s, statuses, trail, fixed)) == Some(t)
  {
    Edge(s, Route(s, statuses, trail, fixed)).value
  }

  /** The position of a stage along the graph's topological order. */
  function Rank(s: Stage): nat
  {
    match s
    case RetrievalNode => 0
    case QualityGateNode => 1
    case AnalysisNode => 2
    case InsightNode => 3
    case ReportNode => 4
    case ErrorNode => 5
    case ReflectionNode => 5
  }

  /** The stages one edge away from `s`. */
  function Succs(s: Stage): set<Stage>
  {
    set l <- AllLabels | Edge(s, l).Some? && Edge(s, l).value.Goto? :: Edge(s, l).value.stage
  }

  /** Every edge climbs in rank, and only the two terminal stages have no
      successor. */
  lemma EdgesClimb(s: Stage, t: Stage)
    ensures t in Succs(s) ==> Rank(s) < Rank(t)
    ensures Succs(s) == {} <==> s == ErrorNode || s == ReflectionNode
  {
    match s
    case RetrievalNode => LabelLeadsTo(s, QualityGateLabel);
    case QualityGateNode => LabelLeadsTo(s, ErrorLabel);
    case AnalysisNode => LabelLeadsTo(s, ErrorLabel);
    case InsightNode => LabelLeadsTo(s, ErrorLabel);
    case ReportNode => LabelLeadsTo(s, ReflectionLabel);
    case ErrorNode =>
    case ReflectionNode =>
  }

  /** A mapped label that leads to a stage puts that stage among the
      successors. */
  lemma LabelLeadsTo(s: Stage, l: Label)
    requires Edge(s, l).Some? && Edge(s, l).value.Goto?
    ensures Edge(s, l).value.stage in Succs(s)
  {
    assert l in AllLabels by {
      match l
      case QualityGateLabel => assert AllLabels[0] == l;
      case AnalysisLabel => assert AllLabels[1] == l;
      case InsightLabel => assert AllLabels[2] == l;
      case ReportLabel => assert AllLabels[3] == l;
      case ReflectionLabel => assert AllLabels[4] == l;
      case EndLabel => assert false;
      case ErrorLabel => assert AllLabels[6] == l;
    }
  }

  /** A path through the graph from the entry stage. */
  ghost predicate IsPath(p: seq<Stage>)
  {
    && |p| > 0
    && p[0] == RetrievalNode
    && forall i :: 0 < i < |p| ==> p[i] in Succs(p[i - 1])
  }

  /** Ranks strictly increase along a path, so the i-th stage has rank at
      least i. */
  lemma {:induction false} PathRanksIncrease(p: seq<Stage>)
    requires IsPath(p)
    ensures forall i, j :: 0 <= i < j < |p| ==> Rank(p[i]) < Rank(p[j])
    ensures forall i :: 0 <= i < |p| ==> i <= Rank(p[i])
  {
    if |p| > 1 {
      var q := p[..|p| - 1];
      assert IsPath(q) by {
        forall i | 0 < i < |q|
          ensures q[i] in Succs(q[i - 1])
        {
          assert q[i] == p[i] && q[i - 1] == p[i - 1];
        }
      }
      PathRanksIncrease(q);
      EdgesClimb(p[|p| - 2], p[|p| - 1]);
      forall i, j | 0 <= i < j < |p|
        ensures Rank(p[i]) < Rank(p[j])
      {
        if j < |p| - 1 {
          assert p[i] == q[i] && p[j] == q[j];
        } else if i < |p| - 2 {
          assert p[i] == q[i] && p[|p| - 2] == q[|q| - 1];
        }
      }
    }
  }

  /** Every path is acyclic, visits each stage at most once and has at most
      six stages; one that cannot be extended ends at the error handler or
      the reflection. */
  lemma PathsAreAcyclic(p: seq<Stage>)
    requires IsPath(p)
    ensures forall i, j :: 0 <= i < j < |p| ==> p[i] != p[j]
    ensures |p| <= 6
    ensures Succs(p[|p| - 1]) == {} ==> p[|p| - 1] == ErrorNode || p[|p| - 1] == ReflectionNode
  {
    PathRanksIncrease(p);
    EdgesClimb(p[|p| - 1], p[|p| - 1]);
  }

  /** `x / cap if x < cap else 1.0`: a ratio that saturates at `cap`. */
  function Saturating(x: nat, cap: nat): (r: real)
    requires cap > 0
    ensures 0.0 <= r <= 1.0
    ensures r == 1.0 <==> x >= cap
    ensures x < cap ==> r * cap as real == x as real
  {
    if x < cap then x as real / cap as real else 1.0
  }

  /** A saturating ratio never decreases as its count grows. */
  lemma SaturatingMonotone(x: nat, y: nat, cap: nat)
    requires cap > 0 && x <= y
    ensures Saturating(x, cap) <= Saturating(y, cap)
  {
    if y < cap {
      QuotientMonotone(x as real, y as real, cap as real);
    }
  }

  lemma QuotientMonotone(a: real, b: real, c: real)
    requires a <= b && c > 0.0
    ensures a / c <= b / c
  {
  }

  /** The three quality metrics of the reflection. */
  function DataCoverage(issues: nat): real { Saturating(issues, 100) }
  function InsightQuality(insights: nat): real { Saturating(insights, 10) }
  function RecommendationQuality(recommendations: nat): real { Saturating(recommendations, 5) }

  /** `completed / len(agents) * 0.4 + 0.2 * (coverage + insight + recommendation)`.
      The score is never negative, and is at most 1 whenever no more than
      `len(agents)` statuses are COMPLETED. */
  function WorkflowScore(completed: nat, issues: nat, insights: nat, recommendations: nat): (r: real)
    ensures r >= 0.0
    ensures completed <= AgentCount ==> r <= 1.0
    ensures completed == AgentCount && issues >= 100 && insights >= 10 && recommendations >= 5 ==> r == 1.0
  {
    completed as real / AgentCount as real * 0.4
      + DataCoverage(issues) * 0.2 + InsightQuality(insights) * 0.2
      + RecommendationQuality(recommendations) * 0.2
  }

  /** The improvement suggestions: one per threshold that is met, in a
      fixed order, and last the one naming the failed agents. */
  function ImprovementSuggestions(score: real, issues: nat, quality: Option<AnalysisQuality>,
                                  insights: nat, failed: seq<string>): (r: seq<Suggestion>)
    ensures |r| <= 5
    ensures ImproveErrorHandling in r <==> score < 0.5
    ensures ExtendPeriod in r <==> issues < 50
    ensures EnrichData in r <==> quality == Some(Poor) || quality == Some(Insufficient)
    ensures EnhanceInsights in r <==> insights < 5
    ensures DebugAgents(failed) in r <==> failed != []
    ensures forall i :: 0 <= i < |r| - 1 ==> !r[i].DebugAgents?
  {
    (if score < 0.5 then [ImproveErrorHandling] else [])
      + (if issues < 50 then [ExtendPeriod] else [])
      + (if quality == Some(Poor) || quality == Some(Insufficient) then [EnrichData] else [])
      + (if insights < 5 then [EnhanceInsights] else [])
      + (if failed != [] then [DebugAgents(failed)] else [])
  }
}
