# GitHub issue trend analyzer — a verified model of its workflow core

The analyzer takes a GitHub repository and runs its issues through a fixed
pipeline of agents: data retrieval, a quality gate, trend analysis, insight
generation and report generation, followed by a reflection, or by an error
handler when a stage fails. Every stage reads and updates one shared
`WorkflowState`. This project models, in Dafny:

- the shared state (`state.dfy`, module `State`): its records and enums, and
  the `WorkflowState` class with its in-place mutators (`update_agent_status`,
  `add_insight`, `add_recommendation`, `update_progress`,
  `get_agent_memory`), plus `update_state` over a snapshot of the state;
- the orchestrator (`routing.dfy`, `orchestrator.dfy`): the stage graph, the
  routers, the quality gate and its sentinels, the node wrappers, the error
  handler with its fallback report, the reflection with its score and
  suggestions, the memory update, the mock time series, the driver that
  runs the demonstration agents along the graph, and the catastrophic
  fallback;
- the demonstration agents (`mock_agents.dfy`, `mock_report.dfy`): retrieval,
  analysis, insight and report, with their progress steps, stored outputs
  and failure paths;
- the insight agent (`insight_agent.dfy`) and the report agent
  (`report_agent.dfy`), with the language model's replies as parameters;
- the GitHub issues tool (`github_tools.dfy`): the repository reference
  parser and the retrieval loop, with the GitHub client as a parameter.

Shared building blocks live in `base.dfy` (`Base`: options, results,
insertion-ordered dictionaries, capped histories, string helpers),
`json.dfy` (`Json`: the loosely typed payloads), `counting.dfy` (`Counting`:
`d.get(k, 0) + 1` tallies and a stable top-N) and `issues.dfy`
(`IssueMetrics`: counts and ratios over issue lists).

Python dictionaries are modelled as sequences of key/value pairs in
insertion order. An assignment `d[k] = v` replaces the pair of an existing
key in place and appends a new key last, so it never creates a repeated key
(`Base.PutKeepsDistinct`). A new `WorkflowState` starts with no agent
statuses, and the members that write them (`UpdateAgentStatus`, the
retrieval, analysis and insight nodes, `Orchestrator.RunStage` for every
stage, `Orchestrator.RunWorkflow`) keep them free of repeated keys. That is the precondition of the facts about the fallback
report and the reflection. Floats are exact reals. The
clock is a `now` parameter. Language-model replies and random draws are
parameters too. Exceptions become `Result`/`Option` values, or a `raised`
parameter for the demonstration agents, which raise at their first
suspension point.

## Model

| member | source | states |
|---|---|---|
| Base.Get | src/core/state.py:161 | `d.get(k)` finds a value exactly when `k` is a key, and the value found is paired with `k` in the dictionary |
| Base.PutGet | src/core/state.py:111 | after `d[k] = v`, `k` maps to `v`, every other key keeps its value, and a new key is appended last |
| Base.PutSpec | src/core/state.py:111 | `PutGet` for all other keys at once |
| Base.PutKeepsDistinct | src/core/state.py:111 | assigning a key never creates a duplicate key |
| Base.PutPairs | src/core/state.py:111 | after an assignment, every pair is an old pair or the assigned one |
| Base.PutTwice | src/core/state.py:111 | a second assignment to the same key overrides the first |
| Base.PutIfKeepsDistinct | src/core/state.py:114-118 | the optional output/error assignment keeps keys distinct |
| Base.GetExact | src/core/state.py:161 | with distinct keys, a pair is present exactly when looking its key up yields its value |
| Base.GetExtended | src/agents/report_agent.py:307-326 | extending a dictionary literal with more keys keeps the lookups of the keys it already held |
| Base.KeysWhere | src/core/orchestrator.py:403-406 | the filtered key list is no longer than the dictionary, and every key in it maps to the wanted value |
| Base.KeysWhereExact | src/core/orchestrator.py:403-406 | with distinct keys, the filtered list holds exactly the keys mapped to the value, each once |
| Base.CappedAppend | src/core/orchestrator.py:553-563 | appending and then keeping the last `n` entries yields at most `n` entries; the new entry is last, after the previous history capped to `n - 1` |
| Base.Lower | src/agents/insight_agent.py:164 | lower-casing keeps the length |
| Json.DictGet | src/agents/insight_agent.py:404 | `v.get(key, default)` succeeds exactly on dictionaries; it yields the stored value when the key is present and the default otherwise |
| Json.JsonListedShape | src/agents/report_agent.py:253-254 | on decoded JSON, `key in v` and the slice under `key` never fail on the value's shape |
| Json.ItemsUnder | src/agents/insight_agent.py:420-421 | `v and key in v` followed by `v[key][:n]` yields at most `n` items |
| State.Clamp | src/core/state.py:151 | the stored completion lies in [0, 100], equals the percentage inside that range, and is 0 below it and 100 above it |
| State.CivilDay | src/demo/mock_agents.py:553 | the calendar date of a clock reading has a month in 1..12 and a day in 1..31 |
| State.RiskLevel | src/demo/mock_agents.py:321-326 | the overall risk is "high" exactly for more than two factors, "medium" for one or two, and "low" for none |
| State.ProjectRecommendations | src/demo/mock_agents.py:617-625 | the final report's recommendations are one entry per state recommendation, in order, with the producing agent as the category |
| State.ProjectInsights | src/demo/mock_agents.py:626-634 | the final report's insights are one entry per state insight, in order, with the producing agent as the source |
| State.ProjectInsightsAppend | src/demo/mock_agents.py:626-634 | the projection of a grown insight list extends the earlier projection |
| State.ProjectRecommendationsAppend | src/demo/mock_agents.py:617-625 | the projection of a grown recommendation list extends the earlier projection |
| State.RiskFactorNames | src/agents/insight_agent.py:334-353 | the factor names are one per factor, in order |
| State.WorkflowState.constructor | src/core/state.py:67-107 | a new state holds the given session, time, repository, period and closed-issue choice, with every collection empty, no trend, no quality, no report, step "initializing" and completion 0; the status dictionary starts without repeated keys |
| State.WorkflowState.UpdateAgentStatus | src/core/state.py:109-126 | the agent's status is assigned; its output and error are assigned only when given; `updated_at` becomes now; exactly one status entry is appended to the progress log; a status dictionary without repeated keys keeps none |
| State.WorkflowState.AddInsight | src/core/state.py:128-136 | exactly one insight record with the given fields and time is appended, and nothing else changes |
| State.WorkflowState.AddRecommendation | src/core/state.py:138-146 | exactly one recommendation record with the given fields and time is appended, and nothing else changes |
| State.WorkflowState.UpdateProgress | src/core/state.py:148-157 | the step is assigned; the completion becomes the clamped percentage; the log gets one step entry with the unclamped percentage |
| State.WorkflowState.GetAgentMemory | src/core/state.py:159-163 | get-or-create: an existing memory is returned unchanged, a missing one is inserted empty and returned, and other agents' memories stay as they were |
| State.MemoriesWith | src/core/state.py:159-163 | after get-or-create the agent has a memory, other keys are untouched, and an existing memory leaves the dictionary unchanged |
| State.MemoriesWithIdempotent | src/core/state.py:159-163 | a second get-or-create, at any time, changes nothing |
| State.StatusTraceAppend | src/core/state.py:121-126 | one appended log entry adds its status to its own agent's trace and to no other agent's |
| State.StatusTraceAppendAll | src/core/state.py:121-126 | `StatusTraceAppend` for every agent at once |
| State.StepsKeepTrace | src/core/state.py:152-157 | progress steps leave every agent's status trace as it was |
| State.LifecycleTrace | src/core/state.py:109-157 | an agent run adds exactly "running, then its final status" to its own trace and nothing to any other agent's |
| State.LastFor | src/core/state.py:169-171 | the last pair naming an attribute is one of the pairs and names it; when there is none, no pair names it |
| State.ReadAfterOwnUpdate | src/core/state.py:170-171 | `setattr` sets the attribute it names |
| State.ReadAfterOtherUpdate | src/core/state.py:170-171 | `setattr` leaves every other attribute unchanged |
| State.ReadAfterOtherEarlyUpdate | src/core/state.py:170-171 | the same, for the first ten fields |
| State.ReadAfterOtherLateUpdate | src/core/state.py:170-171 | the same, for the remaining fields |
| State.ReadAfterAll | src/core/state.py:169-171 | after the loop each attribute holds the value of the last pair naming it, or its old value when no pair names it |
| State.UpdateState | src/core/state.py:167-173 | `update_state` stamps `updated_at` with now; every other attribute takes the last value given for it, or keeps its old value |
| State.KnownUpdates | src/core/state.py:170 | the filtered pairs are all known attribute names |
| State.UnknownKeysIgnored | src/core/state.py:170 | keys that name no attribute have no effect |
| State.UpdateStateSkipsClamp | src/core/state.py:167-173 | a completion written through `update_state` is stored as given, bypassing `update_progress`'s clamp |
| Counting.BumpGet | src/demo/mock_agents.py:556 | `d[k] = d.get(k, 0) + 1` adds one to `k`'s count and leaves the others |
| Counting.TotalPut | src/demo/mock_agents.py:556 | assigning a count changes the total by its difference from the replaced count |
| Counting.TalliedTotal | src/demo/mock_agents.py:549-557 | tallying adds one to the total per key tallied |
| Counting.TalliedCounts | src/demo/mock_agents.py:549-568 | each key's tally is its initial count plus its number of occurrences |
| Counting.TalliedDistinct | src/agents/insight_agent.py:221-223 | tallying never creates a duplicate key |
| Counting.InsertBy | src/agents/report_agent.py:346 | the insertion step of the sort adds exactly the inserted pair to the list |
| Counting.InsertBySorted | src/agents/report_agent.py:346 | inserting into a list in ascending score order keeps it in that order |
| Counting.SortBy | src/agents/report_agent.py:346 | sorting pairs by a score is a permutation of its input |
| Counting.SortBySorted | src/agents/report_agent.py:346 | the sorted pairs are in ascending score order, as `groupby` orders its keys |
| Counting.InsertByStable | src/demo/mock_agents.py:570 | the insertion step keeps the relative order of the pairs that share a score |
| Counting.SortByStable | src/demo/mock_agents.py:570 | the sort is stable: for every score, the pairs with that score keep their input order |
| Counting.InsertByTotal | src/agents/report_agent.py:346 | the insertion step adds the inserted count to the total |
| Counting.SortByTotal | src/agents/report_agent.py:346 | sorting keeps the total of the counts |
| Counting.InsertByGet | src/agents/report_agent.py:346 | inserting a pair with a new key adds that key's count and leaves the other keys' lookups as they were |
| Counting.SortByGet | src/agents/report_agent.py:346 | sorting a dictionary's pairs keeps what every key maps to |
| Counting.SortedTally | src/agents/report_agent.py:346 | a tally sorted by a score is in ascending score order and its counts add up to the number of keys tallied |
| Counting.SortedTallyGet | src/agents/report_agent.py:346 | in a tally sorted by a score, each key's count is its number of occurrences |
| Counting.SortDesc | src/agents/report_agent.py:357 | sorting by descending count is a permutation of its input |
| Counting.SortDescSorted | src/demo/mock_agents.py:570 | the pairs sorted by descending count have non-increasing counts |
| Counting.SortDescStable | src/demo/mock_agents.py:570 | pairs with equal counts keep their input order, as `sorted(..., reverse=True)` does |
| Counting.TopN | src/demo/mock_agents.py:570 | `[:n]` keeps `min(n, len)` of the pairs, all taken from the input |
| Counting.TopNPartition | src/demo/mock_agents.py:570 | the kept pairs plus the dropped pairs are exactly the input pairs |
| Counting.TopNIsTop | src/demo/mock_agents.py:570 | the kept pairs are in descending order, and none has a smaller count than any dropped pair |
| IssueMetrics.CountIf | src/demo/mock_agents.py:258 | a filtered count never exceeds the number of issues |
| IssueMetrics.CountIfComplement | src/demo/mock_agents.py:113-114 | the counts of a property and of its negation add up to the number of issues |
| IssueMetrics.CountIfMonotone | src/agents/insight_agent.py:163-166 | a stronger property never counts more issues |
| IssueMetrics.RecentOlderSplit | src/demo/mock_agents.py:113-114 | every issue is either recent (at most 30 days old) or older, so the two counts add up to the total |
| IssueMetrics.OpenRatio | src/demo/mock_agents.py:258 | the open ratio lies in [0, 1] |
| IssueMetrics.DaysOf | src/demo/mock_agents.py:552-556 | one day per issue |
| IssueMetrics.MonthsOf | src/demo/mock_agents.py:553-557 | one month per issue |
| IssueMetrics.StatesOf | src/demo/mock_agents.py:560-562 | one state per issue |
| Routing.RouteAfterDataRetrieval | src/core/orchestrator.py:470-483 | routes to the quality gate exactly when the retrieval is COMPLETED under the stage key, or under the agent's own id when the stage key is absent; otherwise to the error handler |
| Routing.QualitySentinel | src/core/orchestrator.py:174-200 | the gate appends "quality_gate_failed" exactly when retrieval did not complete, "insufficient_data" exactly for insufficient quality, and "quality_unknown" exactly when no quality was assessed |
| Routing.RouteAfterQualityGate | src/core/orchestrator.py:485-494 | a failed gate anywhere in the trail routes to the error handler; otherwise insufficient data routes to insights, and "proceed" to analysis |
| Routing.GateSentinelDecides | src/core/orchestrator.py:485-494 | on a trail with no earlier sentinel, the router follows the sentinel the gate has just appended |
| Routing.EarlierFailureWins | src/core/orchestrator.py:485-494 | once a failed gate is in the trail, later entries never change the route away from the error handler |
| Routing.RouteAfterAnalysis | src/core/orchestrator.py:496-502 | moves on to insights exactly when the literal key "analysis" is COMPLETED (as written) |
| Routing.RouteAfterInsights | src/core/orchestrator.py:504-510 | moves on to reports exactly when the literal key "insight_generation" is COMPLETED (as written) |
| Routing.RouteAfterReports | src/core/orchestrator.py:512-514 | the report stage always goes on to the reflection |
| Routing.RouteAfterAnalysisFixed | src/core/orchestrator.py:496-502 | corrected router: also accepts the status the analysis agent writes under its own id |
| Routing.RouteAfterInsightsFixed | src/core/orchestrator.py:504-510 | corrected router: also accepts the status the insight agent writes under its own id |
| Routing.AnalysisSuccessIgnored | src/core/orchestrator.py:496-502 | a successful analysis agent is sent to the error handler by the router as written, and on to insights by the corrected one |
| Routing.InsightSuccessIgnored | src/core/orchestrator.py:504-510 | the same for the insight agent |
| Routing.Next | src/core/orchestrator.py:87-135 | every label a router returns is mapped by its stage's edge table |
| Routing.EdgesClimb | src/core/orchestrator.py:87-135 | every edge climbs in rank, and only the error handler and the reflection have no successor |
| Routing.LabelLeadsTo | src/core/orchestrator.py:87-135 | a mapped label that leads to a stage makes that stage a successor |
| Routing.PathRanksIncrease | src/core/orchestrator.py:84-135 | ranks strictly increase along every path from the entry stage |
| Routing.PathsAreAcyclic | src/core/orchestrator.py:84-135 | every path visits each stage at most once and has at most six stages; one that cannot be extended ends at the error handler or the reflection |
| Routing.Saturating | src/core/orchestrator.py:409-411 | the ratio lies in [0, 1], equals 1 exactly at or above the cap, and is `x / cap` below it |
| Routing.SaturatingMonotone | src/core/orchestrator.py:409-411 | a larger count never lowers the ratio |
| Routing.QuotientMonotone | src/core/orchestrator.py:413-418 | dividing by a positive number preserves order |
| Routing.WorkflowScore | src/core/orchestrator.py:413-418 | the score is non-negative; it is at most 1 when at most four agents completed, and exactly 1 when all four completed and every metric is saturated |
| Routing.ImprovementSuggestions | src/core/orchestrator.py:516-537 | at most five suggestions, each present exactly when its threshold holds (score < 0.5, fewer than 50 issues, poor or insufficient quality, fewer than 5 insights, failed agents); the failed-agent suggestion comes last |
| MockAgents.FailAtFirstAwait | src/demo/mock_agents.py:80-81 | a demonstration agent that raises at its first suspension point is logged running, then at step 10, then failed with the exception's text, and stores no output |
| MockAgents.QualityForCount | src/demo/mock_agents.py:53-60 | the data quality is excellent for at least 100 issues, good for 50 to 99, poor for 20 to 49, and insufficient below 20 |
| MockAgents.QualityMonotone | src/demo/mock_agents.py:53-60 | more issues never give a worse quality |
| MockAgents.RetrievalSteps | src/demo/mock_agents.py:35-50 | the middle of the retrieval logs only progress steps |
| MockAgents.StoreRetrieved | src/demo/mock_agents.py:33-71 | the metadata is stored under "repository_metadata", the issues become the raw issues with their quality, one success insight is appended, and the three middle steps are logged |
| MockAgents.SucceedRetrieval | src/demo/mock_agents.py:22-78 | a successful retrieval ends COMPLETED with its output, the stored issues, metadata, quality and insight, completion 100, and the log running, 10, the middle steps, 100, completed |
| MockAgents.ExecuteRetrieval | src/demo/mock_agents.py:22-83 | with no exception the agent completes with everything stored; with one it fails with the exception's text and leaves the issues, quality, metadata and insights untouched; either way its status trace grows by exactly running and then its final status |
| MockAgents.TrendSlope | src/demo/mock_agents.py:116-119 | the slope never exceeds the recent daily rate; it is non-negative when there are no older issues, and negative when there are older issues but no recent ones |
| MockAgents.TrendDirection | src/demo/mock_agents.py:121-127 | the trend is increasing exactly above 0.1, decreasing exactly below -0.1, and stable in between |
| MockAgents.OnlyRecentNeverDecreasing | src/demo/mock_agents.py:113-127 | a repository whose issues are all recent is never reported as decreasing |
| MockAgents.TrendSlopeMonotone | src/demo/mock_agents.py:116-119 | more recent issues, or fewer older ones, never lower the slope |
| MockAgents.DivMonotone | src/demo/mock_agents.py:116-119 | dividing by a positive number preserves order |
| MockAgents.AnalysisConfidence | src/demo/mock_agents.py:191 | the confidence is 0.8 above 50 issues, 0.6 above 20, and 0.4 otherwise |
| MockAgents.RandRangeError | src/demo/mock_agents.py:154 | `randint` on an empty range raises the "empty range" message |
| MockAgents.MockTrendAnalysis | src/demo/mock_agents.py:193-203 | the stored trend's direction is one of the three values and is increasing exactly when the slope exceeds 0.1; its confidence is 0.4, 0.6 or 0.8; it keeps the drawn anomalies |
| MockAgents.AnalysisInsights | src/demo/mock_agents.py:206-220 | the analysis records a trend insight with the trend's confidence, plus a second insight exactly when the trend is increasing, all from the analysis agent |
| MockAgents.AnomalyDrawFailure | src/demo/mock_agents.py:150-154 | drawing anomaly dates fails exactly when there are anomalies and the period is shorter than one day |
| MockAgents.AnalysisTrail | src/demo/mock_agents.py:106-222 | the analysis logs only progress steps between its status changes |
| MockAgents.StoreTrend | src/demo/mock_agents.py:166-222 | the forecast step stores the trend and its insights and logs steps 90 and 100 |
| MockAgents.AnalyzeTrends | src/demo/mock_agents.py:106-222 | past the first suspension point, the analysis fails exactly as `AnomalyDrawFailure` says, leaving trend and insights untouched at 70%; otherwise it stores the mock trend and its insights at 100% |
| MockAgents.RunAnalysis | src/demo/mock_agents.py:92-233 | given issues, the analysis completes with the trend, insights and output stored, or fails on the anomaly draw with nothing stored; the log shows running, the steps, and the final status |
| MockAgents.AnalysisFailure | src/demo/mock_agents.py:99-101 | no issues means "No issues data available"; the analysis succeeds exactly when there are issues, no exception and a drawable anomaly range |
| MockAgents.ExecuteAnalysis | src/demo/mock_agents.py:92-233 | the agent completes exactly when `AnalysisFailure` is none, storing the trend, its insights and its output; otherwise it fails with that error and stores nothing; its status trace grows by running and then its final status |
| MockAgents.MentionCount | src/demo/mock_agents.py:266 | the count of issues whose labels mention a word never exceeds the number of issues |
| MockAgents.Ratio | src/demo/mock_agents.py:258 | the ratio is 0 for no issues, `part / total` otherwise, and never negative |
| MockAgents.MockHealthScore | src/demo/mock_agents.py:256-269 | the health score lies in 3..10; it is 10 exactly when no penalty applies, at most 7 for a mostly open backlog, at most 8 for a rising trend or many critical issues, and below 5 exactly when all three penalties apply |
| MockAgents.LoadAssessment | src/demo/mock_agents.py:279-284 | the maintenance load is high above a 0.5 bug share, medium above 0.3, and low otherwise |
| MockAgents.Engagement | src/demo/mock_agents.py:294-302 | engagement is high above 3 comments on average, medium above 1, and low otherwise |
| MockAgents.MockCommunityHealth | src/demo/mock_agents.py:294-302 | the community health lies in 8..10, 5..8 or 2..5 according to the engagement level, whatever the draw |
| MockAgents.MockRiskFactors | src/demo/mock_agents.py:309-319 | each risk factor is named exactly when its condition holds; rapid growth is never named; there are at most four factors |
| MockAgents.MockFigures | src/demo/mock_agents.py:250-326 | the measured figures count all issues; the risk level follows the number of factors; the load follows the bug share; health and community scores stay in their ranges |
| MockAgents.HighRiskLowersHealth | src/demo/mock_agents.py:256-326 | a high overall risk implies that the health score has lost points (at most 8) |
| MockAgents.DebtScore | src/demo/mock_agents.py:347 | `min(10, old_open / 5)` is the integer 10 from 50 old open issues up, and the exact quotient below that |
| MockAgents.AiInsightsOf | src/demo/mock_agents.py:465 | with no stored "ai_insights" entry, the report reads an empty dictionary |
| MockAgents.MockInsightRecords | src/demo/mock_agents.py:398-424 | the mock records four insights from the insight agent, with confidences between 0.7 and 0.9 |
| MockAgents.MockRecommendation | src/demo/mock_agents.py:427-433 | one recommendation per priority, from the insight agent, with high priority exactly when the overall risk is high, and medium otherwise |
| MockAgents.MockRecommendations | src/demo/mock_agents.py:427-433 | three recommendations, one per strategic priority in order |
| MockAgents.AddMockRecommendations | src/demo/mock_agents.py:427-433 | the three recommendations are appended in order |
| MockAgents.InsightMidSteps | src/demo/mock_agents.py:254-307 | the middle of the insight run logs only progress steps |
| MockAgents.InsightSteps | src/demo/mock_agents.py:245-435 | a successful insight run logs only progress steps between its status changes |
| MockAgents.StoreMockInsights | src/demo/mock_agents.py:254-433 | the figures are stored under "ai_insights", the four insights and three recommendations are appended, and the middle steps are logged |
| MockAgents.SucceedInsight | src/demo/mock_agents.py:242-440 | a successful insight run ends COMPLETED with its output, the stored categories, insights and recommendations, completion 100, and the full log |
| MockAgents.ExecuteInsight | src/demo/mock_agents.py:242-445 | with no exception the agent stores the figures measured from the issues and the trend, with their insights, recommendations and output; with one it fails and stores nothing; its status trace grows by running and then its final status |
| MockReport.TalliedSnoc | src/demo/mock_agents.py:551-557 | one more loop iteration bumps one more key |
| MockReport.TallyDates | src/demo/mock_agents.py:551-557 | the daily and monthly loops compute the tallies of the issues' days and months |
| MockReport.TallyStates | src/demo/mock_agents.py:560-562 | the state loop computes the tally of the issues' states, starting from open 0 and closed 0 |
| MockReport.TallyLabels | src/demo/mock_agents.py:565-568 | the nested label loop computes the tally of every label of every issue |
| MockReport.OpenStates | src/demo/mock_agents.py:575 | the "open" entry of the state tally is the number of open issues |
| MockReport.RepositoryName | src/demo/mock_agents.py:472 | without stored metadata the summary names the repository URL |
| MockReport.CategoryGet | src/demo/mock_agents.py:476 | reading a key of an insight category succeeds exactly when the category is missing or is a dictionary; a missing category yields the default |
| MockReport.ExecutiveReads | src/demo/mock_agents.py:476-477 | the executive summary's reads succeed exactly when the health and community categories are missing or are dictionaries |
| MockReport.DashboardReads | src/demo/mock_agents.py:577-578 | the dashboard's reads succeed exactly when the health and risks categories are missing or are dictionaries |
| MockReport.MockDashboardCounts | src/demo/mock_agents.py:549-595 | the dashboard totals the issues; its open count is the number of open issues; its daily, monthly and per-state counts each add up to the number of issues; its top labels are at most ten label counts in descending order |
| MockReport.BuildMockDashboard | src/demo/mock_agents.py:549-595 | the counting loops build exactly the dashboard the reads and tallies define |
| MockReport.MockFinalReport | src/demo/mock_agents.py:602-635 | the final report has no reflection yet; it counts all issues in demonstration mode; its confidence is the trend's, or 0.7 without a trend; it projects every recommendation and insight in order |
| MockReport.ReportStopOf | src/demo/mock_agents.py:476-578 | the report finishes only when both the executive and the dashboard reads succeed |
| MockReport.ReportFailureCases | src/demo/mock_agents.py:454-655 | the demonstration report fails exactly when the health, community or risks category it reads is present and is not a dictionary |
| MockReport.ReportMidSteps | src/demo/mock_agents.py:491-546 | the middle of the report logs only progress steps |
| MockReport.AssemblySteps | src/demo/mock_agents.py:600-645 | the assembly logs only progress steps |
| MockReport.ReportTrail | src/demo/mock_agents.py:469-645 | the report logs one, four or six steps, depending on where it stops |
| MockReport.MockReports | src/demo/mock_agents.py:602-643 | the final report names the URL, counts all issues, holds the insight categories as stored, projects every recommendation and insight, and quotes exactly the four reports that are stored |
| MockReport.StoreReport | src/demo/mock_agents.py:600-645 | the assembly sets the final report, stores the four reports under "all_reports", and logs 90 and 100 |
| MockReport.ReportMidProgress | src/demo/mock_agents.py:491-546 | the technical, action and dashboard steps leave the completion at 80 |
| MockReport.ComposeReport | src/demo/mock_agents.py:491-643 | a failed dashboard read leaves the report and the processed data untouched at 80%; otherwise the dashboard, final report and stored reports are set and the completion reaches 100 |
| MockReport.ReportBody | src/demo/mock_agents.py:462-643 | the report fails exactly as `ReportFailure` says and then stores nothing; otherwise it stores the final report and the four reports |
| MockReport.RegroupTrail | src/demo/mock_agents.py:469-645 | regrouping the steps of the log does not change it |
| MockReport.ReportLifecycle | src/demo/mock_agents.py:454-655 | a started report adds exactly running, then completed or failed, to its own status trace and nothing to any other agent's |
| MockReport.RunReport | src/demo/mock_agents.py:454-655 | once started, the report completes with its summary output and its stored reports, or fails with the error and stores nothing; the log shows running, the steps up to the stop, and the final status |
| MockReport.StartReport | src/demo/mock_agents.py:456-457 | the report agent is marked running and step 10 is logged |
| MockReport.FinishReport | src/demo/mock_agents.py:645-653 | the final status is completed with the output (four reports, eight sections, three actions), or failed with the error |
| MockReport.ExecuteReport | src/demo/mock_agents.py:454-655 | the demonstration report agent completes exactly when no exception is raised and the categories it reads are dictionaries, storing the final report and the four reports; otherwise it fails and stores nothing; its status trace grows by running and then its final status |
| InsightAgent.TenthCapped | src/agents/insight_agent.py:261 | `min(10, n / 10)` is the exact quotient, below 10, for fewer than 100, and the integer 10 from 100 up |
| InsightAgent.FallbackHealthScore | src/agents/insight_agent.py:140-149 | the fallback health score lies in 3..7; it is 7 exactly when no penalty applies, at most 5 for a backlog more than 80% open, and 3 exactly when all three penalties apply |
| InsightAgent.HealthFallback | src/agents/insight_agent.py:148-154 | the rule-based health assessment is a non-empty dictionary |
| InsightAgent.MaintenanceCount | src/agents/insight_agent.py:162-166 | the maintenance issues are at most all issues |
| InsightAgent.OldOpenCount | src/agents/insight_agent.py:171 | the open issues older than 90 days are at most the open issues |
| InsightAgent.MaintenanceLoad | src/agents/insight_agent.py:205 | the fallback load is high above a 0.6 maintenance share, medium above 0.3, and low otherwise |
| InsightAgent.MaintenanceFallback | src/agents/insight_agent.py:204-210 | the rule-based maintenance assessment is a non-empty dictionary |
| InsightAgent.CommunityFallback | src/agents/insight_agent.py:260-266 | the rule-based community assessment is a non-empty dictionary |
| InsightAgent.StrategicFallback | src/agents/insight_agent.py:321-328 | the rule-based strategy is a non-empty dictionary |
| InsightAgent.RiskFactors | src/agents/insight_agent.py:334-353 | each factor is found exactly when its condition holds (more than 70% open, an increasing trend with slope above 1, under one comment per issue, security labels); the increasing-trend factor is never named; the factors come in check order |
| InsightAgent.TopRisks | src/agents/insight_agent.py:389 | `factors[:3]` is a prefix of at most three factors, and all of them when there are at most three |
| InsightAgent.RiskFallback | src/agents/insight_agent.py:383-393 | the rule-based risk assessment is a non-empty dictionary |
| InsightAgent.RiskFallbackFacts | src/agents/insight_agent.py:383-393 | the fallback's overall risk is the level for the number of factors found; its top risks are the first three factor names; a high level always lists three |
| InsightAgent.FallbackRiskLevel | src/agents/insight_agent.py:385 | the fallback risk assessment states the level the factors give |
| InsightAgent.RanksBound | src/agents/insight_agent.py:334-353 | at most four factors can be found |
| InsightAgent.RecordValues | src/agents/insight_agent.py:446-455 | every remembered analysis becomes one dictionary, in order |
| InsightAgent.CategoriesFor | src/agents/insight_agent.py:52-72 | the five categories are the decoded replies or their fallbacks; a decoded strategic reply keeps a shape whose priorities can be read |
| InsightAgent.StrategicCategoryShape | src/agents/insight_agent.py:315-316 | attaching the history keeps a decoded reply readable under every other key |
| InsightAgent.FallbackShape | src/agents/insight_agent.py:321-328 | the fallback strategy is readable under every key |
| InsightAgent.StrategicHistoryAttached | src/agents/insight_agent.py:315-316 | with earlier analyses remembered, a dictionary reply keeps every key and gains the newest three analyses (oldest first, ending with the latest) as its historical context; without any, it is kept as decoded |
| InsightAgent.PriorityItems | src/agents/insight_agent.py:420-422 | at most three priorities are recommended |
| InsightAgent.PriorityRecommendations | src/agents/insight_agent.py:422-428 | one recommendation per priority, in order |
| InsightAgent.InsightOf | src/agents/insight_agent.py:399-406 | a category yields at most one insight |
| InsightAgent.HeadAdditions | src/agents/insight_agent.py:399-417 | the health and maintenance steps add no recommendation |
| InsightAgent.HeadAdditionsFacts | src/agents/insight_agent.py:399-417 | the health and maintenance steps finish exactly when both categories can be read; they then add one insight per non-empty category, in order, all from the insight agent |
| InsightAgent.TailAdditionsFacts | src/agents/insight_agent.py:420-439 | the strategic and risk steps add at most three high-priority recommendations with the strategic rationale; they finish exactly when the priorities and the risk category can be read, adding one risk insight when that category is non-empty |
| InsightAgent.StructuredAdditionsFacts | src/agents/insight_agent.py:395-439 | the structured step adds at most three high-priority recommendations and, when it finishes, exactly one insight per non-empty health, maintenance and risk category, in that order; it finishes exactly when those categories can be read and the strategy yields its priorities |
| InsightAgent.KindsAppend | src/agents/insight_agent.py:395-439 | the kinds of two insight lists concatenate |
| InsightAgent.AddHeadInsights | src/agents/insight_agent.py:399-417 | appends exactly the health and maintenance additions, and returns their error |
| InsightAgent.AddTailInsights | src/agents/insight_agent.py:420-439 | appends exactly the strategic and risk additions, and returns their error |
| InsightAgent.AddStructuredInsights | src/agents/insight_agent.py:395-439 | appends exactly the structured additions in order, stopping at the first step that raises, and returns its message |
| InsightAgent.AddPriorities | src/agents/insight_agent.py:422-428 | appends one high-priority recommendation per priority, in order |
| InsightAgent.MemorySummary | src/agents/insight_agent.py:446-455 | the summary is built exactly when the health, maintenance, risk and community categories are dictionaries; it names the repository and the time |
| InsightAgent.RememberedFacts | src/agents/insight_agent.py:441-462 | the history keeps at most 20 entries and ends with the new summary, after the newest 19 earlier ones; "insights_generated" rises by exactly one; every other counter, the conversations and the workflow patterns are kept |
| InsightAgent.LowerAppend | src/agents/insight_agent.py:164 | lower-casing distributes over concatenation |
| InsightAgent.ContainsExtendRight | src/agents/insight_agent.py:165 | a substring of `s` is a substring of `s + t` |
| InsightAgent.ContainsExtendLeft | src/agents/insight_agent.py:165 | a substring of `s` is a substring of `t + s` |
| InsightAgent.JoinSplit | src/agents/insight_agent.py:164 | every joined label stands between two pieces of the joined text |
| InsightAgent.ContainsInside | src/agents/insight_agent.py:164-165 | a word found in a lower-cased piece is found in the lower-cased whole |
| InsightAgent.MaintenanceByTitle | src/agents/insight_agent.py:164-165 | a keyword in the lower-cased title makes the issue a maintenance issue |
| InsightAgent.MaintenanceByLabel | src/agents/insight_agent.py:164-165 | so does a keyword in one lower-cased label |
| InsightAgent.LoadAtLeastMedium | src/agents/insight_agent.py:205 | a maintenance share above 30% gives a load of at least medium |
| InsightAgent.BugLabelsRaiseLoad | src/agents/insight_agent.py:162-205 | issues labelled as bugs are maintenance issues, so when more than 30% of the issues are, the fallback load is at least medium |
| InsightAgent.GenerationSteps | src/agents/insight_agent.py:55-71 | the generation logs only progress steps |
| InsightAgent.DoneStep | src/agents/insight_agent.py:83 | the final step is a progress step |
| InsightAgent.InsightFailure | src/agents/insight_agent.py:75-92 | nothing raises after the categories are stored exactly when the structured step finishes and the memory summary can be built |
| InsightAgent.StoreCategories | src/agents/insight_agent.py:55-75 | the five categories are stored under "ai_insights", and the generation steps are logged |
| InsightAgent.RememberInsights | src/agents/insight_agent.py:81 | the memory update fails exactly when the summary cannot be built; otherwise the stored memory becomes the updated one |
| InsightAgent.GenerateInsights | src/agents/insight_agent.py:55-83 | everything between the guard and the final status: the categories are stored, the structured additions appended, the memory updated when nothing raised, and the last step logged |
| InsightAgent.RememberAndReport | src/agents/insight_agent.py:81-83 | the memory update, then the last step when it did not raise |
| InsightAgent.InsightLifecycle | src/agents/insight_agent.py:36-92 | a run adds exactly running and then its final status to the agent's trace |
| InsightAgent.RunInsights | src/agents/insight_agent.py:36-92 | past the guard, the agent stores the categories for the replies, appends the structured additions, updates its memory, and ends COMPLETED with the output or FAILED with the prefixed message of what raised |
| InsightAgent.ConcludeInsights | src/agents/insight_agent.py:75-92 | once the categories are known: generation, then the final status |
| InsightAgent.StartInsights | src/agents/insight_agent.py:38-49 | the agent is marked running, step 10 is logged, and its memory is fetched or created |
| InsightAgent.FinishInsights | src/agents/insight_agent.py:84-92 | the final status, with the output or the prefixed error |
| InsightAgent.ExecuteInsights | src/agents/insight_agent.py:36-94 | without issues or a trend analysis the agent fails with a fixed message and changes nothing else; otherwise it behaves as `RunInsights` |
| InsightAgent.FallbackPriorityItems | src/agents/insight_agent.py:321-328 | the fallback strategy yields its two priorities |
| InsightAgent.FallbackFinishes | src/agents/insight_agent.py:395-439 | fallback-like categories never make the structured step raise |
| InsightAgent.FallbackKinds | src/agents/insight_agent.py:395-439 | fallback-like categories yield the health, maintenance and risk insights, in that order |
| InsightAgent.KindsOfThree | src/agents/insight_agent.py:395-439 | the kinds of three insights, in order |
| InsightAgent.FallbackRecommendations | src/agents/insight_agent.py:420-428 | fallback-like categories recommend the two fallback priorities |
| InsightAgent.FallbackRun | src/agents/insight_agent.py:75-83 | with fallback-like categories and a dictionary as the community category, nothing raises after the categories are stored |
| InsightAgent.OutputRiskLevel | src/agents/insight_agent.py:87 | the output reports the overall risk that the risk category states |
| InsightAgent.FallbacksAreLike | src/agents/insight_agent.py:138-393 | the five fallbacks are non-empty dictionaries, and the fallback strategy yields its priorities |
| InsightAgent.CategoriesOnRaise | src/agents/insight_agent.py:52-72 | when every model call raises, the categories are the five fallbacks |
| InsightAgent.AllFallbacks | src/agents/insight_agent.py:36-94 | when every model call raises, the agent still completes with the health, maintenance and risk insights, the two fallback priorities as recommendations, and the risk level that the counted factors give |
| ReportAgent.ExecutiveFallback | src/agents/report_agent.py:146-158 | the fallback summary carries the error and an overview naming the repository and the trend |
| ReportAgent.ExecutiveSummary | src/agents/report_agent.py:95-158 | the summary succeeds exactly when the health and risks categories can be read and there is at least one issue (or the division is guarded); it is then the decoded reply, or the fallback carrying the message of the call that raised |
| ReportAgent.TechnicalFallback | src/agents/report_agent.py:218-230 | the fallback technical report carries the error |
| ReportAgent.TechnicalReport | src/agents/report_agent.py:160-230 | the technical report is always a dictionary: a dictionary reply gains the data summary; a call that raises, or a reply that cannot take the summary, yields the fallback carrying that error |
| ReportAgent.TechnicalKeepsReply | src/agents/report_agent.py:209-214 | the data summary leaves every other field of the reply as it was |
| ReportAgent.ActionItemsFor | src/agents/report_agent.py:240-273 | the action items are built exactly when the strategic and risk actions can be sliced; they are the recommendations' items followed by the strategic and then the risk items, at most five more than the recommendations |
| ReportAgent.Mapped | src/agents/report_agent.py:242-249 | one action item per element, in order |
| ReportAgent.ItemsOf | src/agents/report_agent.py:240-273 | the items are, position by position, one per recommendation, then one medium-priority item per strategic action, then one high-priority item per risk action |
| ReportAgent.CollectActionItems | src/agents/report_agent.py:240-273 | the three append loops compute exactly the action items `ActionItemsFor` defines |
| ReportAgent.AppendItems | src/agents/report_agent.py:254-261 | each loop appends one item per element, in order, after the items already collected |
| ReportAgent.PlanFallback | src/agents/report_agent.py:307-326 | the fallback plan carries the error under "error" and every collected action item under "all_action_items" |
| ReportAgent.PlanFallbackShape | src/agents/report_agent.py:307-326 | the fallback plan has no "action_items" key |
| ReportAgent.ActionPlanOf | src/agents/report_agent.py:296-326 | the plan always carries every action item, and "all_action_items" in the plan maps to exactly those items; a dictionary reply becomes the plan with "all_action_items" assigned into it; a reply that raises, or is not a dictionary so that the item assignment fails, gives the fallback carrying that error's message |
| ReportAgent.PlanAttachShape | src/agents/report_agent.py:303 | assigning "all_action_items" into a reply never breaks the shape the later "action_items" check relies on |
| ReportAgent.PlanKeepsReply | src/agents/report_agent.py:303 | assigning "all_action_items" leaves every other key of the reply as it was, and keeps the key order, adding the key last when the reply did not have it |
| ReportAgent.ActionStep | src/agents/report_agent.py:232-326 | the action step succeeds exactly when the items can be built and the risks category can be read; it then yields the plan for those items |
| ReportAgent.BuildActionPlan | src/agents/report_agent.py:232-326 | the step computes exactly `ActionStep` |
| ReportAgent.DashboardStep | src/agents/report_agent.py:328-388 | the dashboard is built exactly when there are issues and the health and risks categories can be read; with no issues it fails with the `KeyError` on "date" |
| ReportAgent.DashboardCounts | src/agents/report_agent.py:338-361 | the dashboard totals the issues; its open count equals the per-state count of "open"; its daily, monthly and per-state counts each add up to the number of issues; its top labels are at most ten label counts, largest first, none smaller than a label left out |
| ReportAgent.DashboardSeries | src/agents/report_agent.py:346-361 | the daily counts are in ascending date order and the monthly counts in ascending month order, as `groupby` orders its keys; the state counts are in non-increasing order, as `value_counts` orders them; every day, month and state maps to its number of issues |
| ReportAgent.GatherLabels | src/agents/report_agent.py:349-351 | the label loop collects every label of every issue, in order |
| ReportAgent.BuildDashboard | src/agents/report_agent.py:328-388 | the step computes exactly `DashboardStep` |
| ReportAgent.FinalReportOf | src/agents/report_agent.py:390-435 | the final report has no reflection and no demonstration flag; it counts all issues, takes the trend's confidence, and projects every recommendation and insight |
| ReportAgent.Length | src/agents/report_agent.py:86 | `len` succeeds exactly on lists, strings and dictionaries |
| ReportAgent.ActionItemsCount | src/agents/report_agent.py:86 | as written, a plan without an "action_items" key counts 0 and a non-dictionary plan raises; corrected, the count is the number of action items collected |
| ReportAgent.ReportsAfter | src/agents/report_agent.py:51-80 | after the summary, only the action step or the dashboard can stop the run |
| ReportAgent.Assembled | src/agents/report_agent.py:59-80 | only the dashboard can stop the assembly, and the stored plan is the one built |
| ReportAgent.ReportsOf | src/agents/report_agent.py:47-80 | the reports stop before they are stored, or are all built |
| ReportAgent.Counted | src/agents/report_agent.py:83-87 | counting the output either finishes or raises |
| ReportAgent.StopOf | src/agents/report_agent.py:47-91 | the run gets as far as the output exactly when all four reports are built |
| ReportAgent.LaterSteps | src/agents/report_agent.py:51-82 | the later part of the run logs only progress steps |
| ReportAgent.ReportSteps | src/agents/report_agent.py:47-82 | a started report logs one, three, four or six progress steps, depending on where it stops |
| ReportAgent.StoreReports | src/agents/report_agent.py:63-82 | the assembly sets the final report and stores the reports and then their metadata, logging steps 90 and 100 |
| ReportAgent.DashboardSteps | src/agents/report_agent.py:59-82 | from the dashboard on, one step, or three when the run finishes |
| ReportAgent.Regroup | src/agents/report_agent.py:47-82 | regrouping the log does not change it |
| ReportAgent.EarlySteps | src/agents/report_agent.py:51-55 | the two steps before the action plan are progress steps |
| ReportAgent.TechnicalSteps | src/agents/report_agent.py:51-55 | logs progress 45 and 65 around the technical report |
| ReportAgent.ComposeReports | src/agents/report_agent.py:51-80 | from the technical report on, the method computes exactly `ReportsAfter`, stores what was assembled, and logs the later steps |
| ReportAgent.PlanAndAssemble | src/agents/report_agent.py:55-80 | the action plan, then the dashboard and the assembly, or the error that stops either |
| ReportAgent.AssembleReports | src/agents/report_agent.py:59-80 | the dashboard, then the assembly once it is built |
| ReportAgent.ReportsBody | src/agents/report_agent.py:47-80 | after the first step, the method computes exactly `ReportsOf`, stores what was assembled, and logs the steps up to the stop |
| ReportAgent.FinishReports | src/agents/report_agent.py:83-91 | the final status, with the output or the prefixed error |
| ReportAgent.ReportCompletes | src/agents/report_agent.py:31-93 | a completed report needs readable categories, at least one issue and readable recommended actions; with the corrected summary and count these conditions are also enough |
| ReportAgent.UnguardedDivision | src/agents/report_agent.py:120 | as written, with no issues and readable categories, every run fails at the summary with "Report generation failed: division by zero" |
| ReportAgent.GuardedDivision | src/agents/report_agent.py:120 | corrected, the summary is written for an empty repository, and the run stops at the dashboard instead |
| ReportAgent.UncountedItems | src/agents/report_agent.py:86 | as written, a finished run whose plan reply raised reports 0 action items, although it collected at least one per recommendation |
| ReportAgent.CountedItems | src/agents/report_agent.py:86 | corrected, a finished run reports the number of action items it collected: at least one per recommendation and at most five more |
| ReportAgent.CategoryReads | src/agents/report_agent.py:109-110 | the report's reads of the insight dictionary find the insight agent's categories |
| ReportAgent.InsightCategoriesShaped | src/agents/report_agent.py:252-266 | with decoded strategic and risk replies, the insight agent's categories let the report slice both lists of recommended actions |
| ReportAgent.RiskCategoryShape | src/agents/report_agent.py:264-266 | a decoded risk analysis, or its fallback, can be sliced for its recommended actions |
| ReportAgent.RiskFallbackShape | src/agents/report_agent.py:264-266 | the insight agent's risk fallback lists the three stock actions |
| ReportAgent.StockActionsShape | src/agents/report_agent.py:264-266 | a risk dictionary holding the stock actions can be sliced for them |
| ReportAgent.RiskFallbackActions | src/agents/report_agent.py:264-273 | after a risk fallback, the report takes the first two stock actions as high-priority items |
| ReportAgent.StockRiskActions | src/agents/report_agent.py:264-273 | the same for any non-empty risk dictionary holding the stock actions |
| ReportAgent.ReportsLifecycle | src/agents/report_agent.py:31-91 | a started report adds exactly running and then its final status to its own trace, wherever it stopped, and nothing to any other agent's |
| ReportAgent.StartReports | src/agents/report_agent.py:33-34 | running, then progress 10 |
| ReportAgent.ReportsAndStop | src/agents/report_agent.py:47-87 | the steps of a started report, and where it stopped |
| ReportAgent.RunReports | src/agents/report_agent.py:31-93 | with its inputs present, the agent runs, logs its steps up to where it stops, stores what it assembled, and ends completed with its output or failed with the prefixed error |
| ReportAgent.RefuseReports | src/agents/report_agent.py:38-41 | without its inputs, the agent fails with the missing-data error and stores nothing |
| ReportAgent.ReportsOnState | src/agents/report_agent.py:31-93 | `RunReports` on the state's own data |
| ReportAgent.ExecuteReports | src/agents/report_agent.py:31-93 | without a trend analysis or any insights the agent fails with the missing-data error and stores nothing; otherwise it behaves as `RunReports` |
| GitHubTools.RStrip | src/tools/github_tools.py:69 | `rstrip` leaves a prefix that does not end with the stripped character, and removes only copies of it |
| GitHubTools.RemoveAll | src/tools/github_tools.py:69 | removing a pattern never lengthens the string |
| GitHubTools.ParseRepositoryUrl | src/tools/github_tools.py:66-75 | a reference is accepted exactly when it starts with one of the two GitHub URL prefixes, or contains a slash and does not start with "http"; an accepted path never ends with a slash; a rejected one raises the error naming the input |
| GitHubTools.UrlForms | src/tools/github_tools.py:66-75 | the https URL, the http URL and the bare path of the same repository parse to the same path |
| GitHubTools.Converted | src/tools/github_tools.py:162-163 | one structured issue per kept issue, in order |
| GitHubTools.Kept | src/tools/github_tools.py:149-164 | filtering never yields more issues than were listed |
| GitHubTools.KeptExactly | src/tools/github_tools.py:153-159 | an issue is kept exactly when it is listed, is not a pull request and was created in the window |
| GitHubTools.Capped | src/tools/github_tools.py:137-151 | the cap takes a prefix of the list, of length the cap or the whole list, and nothing for a cap that is not positive |
| GitHubTools.StatesFor | src/tools/github_tools.py:134 | the open state is always queried first; the closed state is queried only when closed issues are included |
| GitHubTools.Retrieve | src/tools/github_tools.py:116-210 | a reference that does not parse gives the unsuccessful result with the `ValueError` naming it |
| GitHubTools.GatheredClosedForm | src/tools/github_tools.py:136-168 | when every listing arrives, the retrieval takes the first `max_issues` of all kept issues, state by state: nothing eligible is skipped before the cap |
| GitHubTools.GatheredEligible | src/tools/github_tools.py:136-168 | whatever the listings, every gathered issue was listed for a queried state, is not a pull request and was created in the window, and no more than the cap are gathered |
| GitHubTools.RetrievalFacts | src/tools/github_tools.py:116-202 | a successful retrieval holds at most `max_issues` issues, each converted from a listed issue that is not a pull request and was created on or after the window's start; the retrieved and processed counts equal the list's length; the window starts `days_back` days before the clock reading |
| GitHubTools.OpenOnly | src/tools/github_tools.py:134 | without closed issues, the closed listing cannot affect the result |
| GitHubTools.ScanListing | src/tools/github_tools.py:149-164 | the inner loop appends exactly the converted first kept issues up to what is left of the cap, and counts them |
| GitHubTools.GatherIssues | src/tools/github_tools.py:134-168 | the outer loop succeeds exactly when the recursive definition does, gathering the same issues, or fails with the same client error |
| GitHubTools.Run | src/tools/github_tools.py:116-210 | the loops compute exactly the outcome `Retrieve` defines |
| Orchestrator.OwnIdKeepsStatuses | src/core/orchestrator.py:228-238 | whatever status an agent writes under its own id, the routers' stage keys stay as they were and no repeated key appears |
| Orchestrator.OwnIdKeepsStageKeys | src/core/orchestrator.py:496-510 | an agent that writes its status under its own id leaves the "analysis" and "insight_generation" keys the routers read untouched, and adds no repeated key |
| Orchestrator.EnterStage | src/core/orchestrator.py:141-142 | a node logs the workflow step at its percentage and then appends its name to the trail |
| Orchestrator.DoRetrieval | src/core/orchestrator.py:139-161 | the retrieval node appends its name, sets the retrieval agent's status (completed exactly when no exception was raised), stores the issues and quality on success and keeps them on failure, and leaves the routers' keys alone; a status dictionary without repeated keys keeps none |
| Orchestrator.DoAnalysis | src/core/orchestrator.py:204-214 | the analysis node appends its name and the agent ends completed exactly when the analysis has no failure, without writing the key its router reads; a status dictionary without repeated keys keeps none |
| Orchestrator.DoInsights | src/core/orchestrator.py:216-226 | the insight node appends its name and the agent ends completed exactly when no exception was raised, without writing the key its router reads; a status dictionary without repeated keys keeps none |
| Orchestrator.DoReports | src/core/orchestrator.py:228-238 | the report node appends its name and the agent ends completed exactly when neither an exception nor the report's own failure occurs |
| Orchestrator.GateLog | src/core/orchestrator.py:184-189 | the gate logs its assessment exactly when the retrieval completed |
| Orchestrator.DoQualityGate | src/core/orchestrator.py:163-202 | the gate logs its step, then its assessment after a completed retrieval, and appends exactly one sentinel chosen from the retrieval status and data quality |
| Orchestrator.DailyCountsBounded | src/core/orchestrator.py:457-466 | the mock series has 90 days, each between two below and three above the average day, and never negative |
| Orchestrator.MockTimeSeries | src/core/orchestrator.py:448-468 | the loop computes the 90 daily counts, newest first |
| Orchestrator.FallbackReportFacts | src/core/orchestrator.py:240-395 | the fallback report lists exactly the failed agents, each once, with their messages under exactly those keys; its open and closed counts add up to the issues; it is a fallback completion with confidence 0.75; non-empty insights and recommendations are kept, empty ones replaced by one placeholder |
| Orchestrator.MessagesFacts | src/core/orchestrator.py:251-252 | the message dictionary has the failed agents as keys, in order, each mapped to its recorded error |
| Orchestrator.HandleErrors | src/core/orchestrator.py:240-395 | the error handler appends its name, logs step 90, replaces the final report with the fallback report, and ends in error recovery at 100% |
| Orchestrator.ReflectionFacts | src/core/orchestrator.py:402-434 | the successful and failed agents are exactly the completed and failed keys; each quality metric lies in [0, 1] and is 1 exactly at 100 issues, 10 insights and 5 recommendations; the score is non-negative and at most 1 while at most four agents completed; the debugging suggestion appears exactly when an agent failed |
| Orchestrator.TeachAgents | src/core/orchestrator.py:539-564 | the loop teaches every agent key of the orchestrator in turn |
| Orchestrator.TaughtCounts | src/core/orchestrator.py:546-550 | the lesson bumps the successes of a completed agent and the failures of any other by one, and no other metric |
| Orchestrator.TaughtPatterns | src/core/orchestrator.py:553-563 | the lesson's pattern ends a history of at most 50 patterns; conversations and strategic insights are untouched |
| Orchestrator.TeachOneGet | src/core/orchestrator.py:542-564 | teaching one key changes that key's memory alone |
| Orchestrator.TeachAllEach | src/core/orchestrator.py:542-564 | teaching distinct keys teaches each exactly once, from its memory as it was or a new one, and leaves every other memory alone |
| Orchestrator.ReflectionTeaches | src/core/orchestrator.py:539-564 | every agent key's memory exists afterwards, with exactly one counter bumped (a missing status counting as a failure) and at most 50 patterns |
| Orchestrator.AttachReflection | src/core/orchestrator.py:437-438 | the reflection is attached to an existing report, and no report is created |
| Orchestrator.Learn | src/core/orchestrator.py:436-441 | the reflection is attached when a report exists and is taught to every agent's memory, with the run's repository, quality and score |
| Orchestrator.ReflectionProgress | src/core/orchestrator.py:399-444 | the reflection node appends its name, logs steps 95 and 100, and ends at the completed step |
| Orchestrator.Reflect | src/core/orchestrator.py:397-446 | the reflection is taken on a trail that already ends with the node's own name; it is attached to a report that exists and taught to every memory; the node ends completed at 100% |
| Orchestrator.RunStage | src/core/orchestrator.py:139-446 | each stage appends its own name, or the gate its sentinel, and leaves the routers' stage keys alone; a status dictionary without repeated keys keeps none |
| Orchestrator.FinishOnlyAtTerminals | src/core/orchestrator.py:84-135 | only the error handler and the reflection lead to the end; the report stage always leads to the reflection |
| Orchestrator.StepOnGraph | src/core/orchestrator.py:84-135 | every step follows an edge of the graph and climbs in rank; while the stage keys are not completed, the routers as written never lead to the reports or the reflection |
| Orchestrator.TrailStep | src/core/orchestrator.py:142 | one more stage's decision keeps the trail's prefix and the recorded names of the earlier stages |
| Orchestrator.RunWorkflow | src/core/orchestrator.py:581-614 | the run visits a path of the graph ending at the error handler or the reflection, with each stage's decision on the trail; with the routers as written and the stage keys not completed, it always ends at the error handler and never reaches the reports; a status dictionary without repeated keys keeps none |
| Orchestrator.RecordCatastrophe | src/core/orchestrator.py:616-626 | a failure of the run marks the orchestrator failed with its error and replaces the report with the failure report |

## Left out

- Rate limiting, the HTTP session's retry policy and the sleeps (`src/tools/github_tools.py:52-64`, `97-114` and the waits in `_run`) are not modelled, because they only delay calls. The rate-limit figures in the tool's result are left out with them.
- The tool's constructor (`src/tools/github_tools.py:43-50`) reads the token from the environment and builds the client. It is not modelled, because the client is a parameter.
- `_arun` (`src/tools/github_tools.py:212-224`) only runs `_run` on a thread pool, so it is not modelled apart from `GitHubTools.Run`.
- The reactions count of `_convert_issue_to_structured` comes from a call into the client. It is a field of the listed issue.
- The repository metadata dictionary is the client's reply, taken as it is.
- The clock is a `now` parameter. Each agent run takes one reading for all its `datetime.now()` calls, and `Orchestrator.RunWorkflow` passes one reading to every stage of the run. Elapsed times are differences of readings.
- Random draws, the demonstration data generator and the language model are parameters. A model reply is either decoded JSON or the message of the exception its call raised.
- Prompts and fixed prose (executive summary text, action plan text, recovery prose) are `Doc` values. They are not rendered strings.
- `Base.Lower` lowers ASCII letters only, because Python's Unicode lowercasing is not modelled.
- Floats are exact reals: rounding (`round(x, 2)`) and float error are not modelled.
- The mock time series keys its counts by position, newest first, and not by formatted dates.
- `Orchestrator.RunWorkflow` walks the stage graph itself. The LangGraph runtime (`astream`, the `MemorySaver` checkpoints and the conversion of streamed dictionaries back into a state) is not modelled.
- `get_agent_status` (`src/core/orchestrator.py:628-639`) only returns a fixed placeholder and is not modelled.
- The driver runs the demonstration agents. The live retrieval and analysis agents are not part of this model.
- The `except` branches of the agent nodes (`src/core/orchestrator.py:158-161`, `212-214`, `224-226`, `236-238`) are not modelled, because every agent catches its own exceptions and they cannot be reached. The `print` calls are output only.
- The `if trend_analysis else` branches of the report agent are not modelled, because the agent's guard has already required a trend analysis.
- `State.UpdateState`, `State.UnknownKeysIgnored`: a key that names a method or another attribute that is not a field (`add_insight`, `model_dump`) passes the `hasattr` test, and the model's `setattr` then raises `ValueError`. The model treats such a key like an unknown one and ignores it.
- `GitHubTools.Retrieve`: a `days_back` of more than 999999999 days makes `timedelta` raise `OverflowError`, and a window that starts before year 1 makes the subtraction raise it. The model computes the start of the window without those bounds, so these runs succeed in the model instead of giving the unsuccessful result.
- `GitHubTools.Retrieve`: the client's issue listing is read lazily, page by page. The model takes one listing result per state. It stands for the issues as far as the loop reads them, so an error on a page past the cap, which the source never reaches, is not modelled.
- `ReportAgent.DashboardStep`: `value_counts` orders the state counts by descending count, and the order of equal counts is not fixed. The model keeps equal counts in the order the states first occur (`Counting.SortDescStable`).
- `ReportAgent.DashboardStep`: the daily and monthly keys are the `%Y-%m-%d` and `%Y-%m` texts, whose text order is calendar order for four-digit years. The model orders days and months by their numeric calendar order.
- `State.UpdateState`: `update_state` is modelled on a value of the state, not in place on the class, because an in-place version that updates every field could not be verified within the resource limit. The model does not capture that the update mutates the object its caller holds.
- `InsightAgent.CommunityFallback` requires at least one issue, because the rule-based engagement divides by the number of issues. The agent's own guard means it is never reached without issues.
- `InsightAgent.RunInsights`, `InsightAgent.ExecuteInsights` require the strategic reply, when decoded, to have the shape decoded JSON has. The model's `Value` type can also hold unrendered templates, which a reply never contains.
- `ReportAgent.RunReports`, `ReportAgent.ReportsOnState`, `ReportAgent.ExecuteReports` require the stored strategic and risk categories to have the shape of decoded JSON, and the action-plan reply to be JSON. `ReportAgent.InsightCategoriesShaped` proves that the insight agent's categories meet this requirement.
- Four behaviours of the code are modelled as written:
  - the quality gate appends only its sentinel to the trail, not its own name (`src/core/orchestrator.py:163-202`);
  - `update_progress` does not change `updated_at` (`src/core/state.py:148-157`);
  - the reflection is attached only when a final report exists (`src/core/orchestrator.py:437-438`);
  - the gate's assessment entry is appended to the progress log directly, so the current step and completion stay at the gate's 15% (`src/core/orchestrator.py:184`).
- Exception messages are the texts Python 3.12 produces: `division by zero`, the quoted key of a `KeyError`, and the `TypeError` and `AttributeError` texts for a subscript, a slice, an item assignment or a `get` on a value of the wrong type.

## Findings

| source | as written | input that shows it | evidently intended | confidence | as-written member | corrected member |
|---|---|---|---|---|---|---|
| src/core/orchestrator.py:496-510 | the routers after the analysis and insight nodes read the statuses under "analysis" and "insight_generation", but the agents record theirs under "analysis_agent" and "insight_agent" | a state where the analysis agent completed: its status is under "analysis_agent" only, and the router sends the run to the error handler | a successful analysis leads to insight generation, and successful insights lead to the reports | not executed | Routing.AnalysisSuccessIgnored | Routing.RouteAfterAnalysisFixed |
| src/agents/report_agent.py:120 | the executive prompt divides the open issues by the total outside the conditional that guards it | a run with no raw issues and readable categories: it fails with "Report generation failed: division by zero" | the prompt states an open share of 0 for an empty repository | not executed | ReportAgent.UnguardedDivision | ReportAgent.GuardedDivision |
| src/agents/report_agent.py:86 | `action_items_count` reads the plan's "action_items" key, but the agent stores its collected items under "all_action_items", and the fallback plan has no "action_items" key | a finished run whose action-plan call raised: it reports 0 action items although it collected one per recommendation | the count of the action items the agent collected | not executed | ReportAgent.UncountedItems | ReportAgent.CountedItems |
