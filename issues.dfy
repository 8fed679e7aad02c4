/** Measurements over a list of issues that several agents take: counts of
    the issues with a property, ages, comment averages and label tests. */
module IssueMetrics {
  import opened Base
  import opened State

  /** `len([i for i in issues if p(i)])`. */
  function CountIf(issues: seq<Issue>, p: Issue -> bool): (r: nat)
    ensures r <= |issues|
  {
    if issues == [] then 0
    else CountIf(issues[..|issues| - 1], p) + (if p(issues[|issues| - 1]) then 1 else 0)
  }

  /** Every issue satisfies exactly one of a property and its negation, so
      the two counts add up to the number of issues. */
  lemma {:induction false} CountIfComplement(issues: seq<Issue>, p: Issue -> bool, q: Issue -> bool)
    requires forall i :: q(i) == !p(i)
    ensures CountIf(issues, p) + CountIf(issues, q) == |issues|
  {
    if issues != [] {
      CountIfComplement(issues[..|issues| - 1], p, q);
    }
  }

  /** A stronger property never counts more issues. */
  lemma {:induction false} CountIfMonotone(issues: seq<Issue>, p: Issue -> bool, q: Issue -> bool)
    requires forall i :: p(i) ==> q(i)
    ensures CountIf(issues, p) <= CountIf(issues, q)
  {
    if issues != [] {
      CountIfMonotone(issues[..|issues| - 1], p, q);
    }
  }

  predicate IsOpen(i: Issue)
  {
    i.state == "open"
  }

  /** `len([i for i in issues if i.state == "open"])`. */
  function OpenCount(issues: seq<Issue>): nat
  {
    CountIf(issues, IsOpen)
  }

  /** `(now - i.created_at).days`. */
  function Age(i: Issue, now: Timestamp): int
  {
    DaysBetween(now, i.createdAt)
  }

  /** Issues created at most 30 days ago. */
  function RecentCount(issues: seq<Issue>, now: Timestamp): nat
  {
    CountIf(issues, i => Age(i, now) <= 30)
  }

  /** Issues created more than 30 days ago. */
  function OlderCount(issues: seq<Issue>, now: Timestamp): nat
  {
    CountIf(issues, i => Age(i, now) > 30)
  }

  /** Every issue is recent or older, never both. */
  lemma RecentOlderSplit(issues: seq<Issue>, now: Timestamp)
    ensures RecentCount(issues, now) + OlderCount(issues, now) == |issues|
  {
    CountIfComplement(issues, i => Age(i, now) <= 30, i => Age(i, now) > 30);
  }

  /** `sum(i.comments_count for i in issues)`. */
  function TotalComments(issues: seq<Issue>): int
  {
    if issues == [] then 0
    else TotalComments(issues[..|issues| - 1]) + issues[|issues| - 1].commentsCount
  }

  /** `sum(...) / len(issues) if issues else 0`. */
  function AvgComments(issues: seq<Issue>): real
  {
    if issues == [] then 0.0 else TotalComments(issues) as real / |issues| as real
  }

  /** `open / total if total > 0 else 0`. */
  function OpenRatio(issues: seq<Issue>): (r: real)
    ensures 0.0 <= r <= 1.0
  {
    if |issues| > 0 then OpenCount(issues) as real / |issues| as real else 0.0
  }

  /** `any(word in label.lower() for label in i.labels)`. */
  predicate LabelMentions(i: Issue, word: string)
  {
    exists l <- i.labels :: Contains(Lower(l), word)
  }

  /** `len(set(i.author for i in issues))`. */
  function UniqueAuthors(issues: seq<Issue>): nat
  {
    |set i <- issues :: i.author|
  }

  /** The day, month, state and labels of the issues, in order (the labels
      of each issue one after the other). */
  function DaysOf(issues: seq<Issue>): (r: seq<Day>)
    ensures |r| == |issues|
  {
    if issues == [] then [] else DaysOf(issues[..|issues| - 1]) + [CivilDay(issues[|issues| - 1].createdAt)]
  }

  function MonthsOf(issues: seq<Issue>): (r: seq<Month>)
    ensures |r| == |issues|
  {
    if issues == [] then [] else MonthsOf(issues[..|issues| - 1]) + [CivilMonth(issues[|issues| - 1].createdAt)]
  }

  function StatesOf(issues: seq<Issue>): (r: seq<string>)
    ensures |r| == |issues|
  {
    if issues == [] then [] else StatesOf(issues[..|issues| - 1]) + [issues[|issues| - 1].state]
  }

  function LabelsOf(issues: seq<Issue>): seq<string>
  {
    if issues == [] then [] else LabelsOf(issues[..|issues| - 1]) + issues[|issues| - 1].labels
  }
}
