/** The GitHub issues tool: parsing a repository reference into its
    `owner/repo` path, and retrieving the issues of a time window, pull
    requests left out, up to a cap. The GitHub client is a parameter. */
module GitHubTools {
  import opened Base
  import opened Json
  import opened State

  // ------------------------------------------------------------------
  // Repository references
  // ------------------------------------------------------------------

  const HttpsPrefix := "https://github.com/"
  const HttpPrefix := "http://github.com/"
  const HttpWord := "http"
  const InvalidUrl := "Invalid repository URL format: "
  const ValueErrorName := "ValueError"

  /** `s.rstrip(c)`: the longest prefix of `s` that does not end with `c`
      and leaves only copies of `c` behind. */
  function RStrip(s: string, c: char): (r: string)
    ensures r <= s
    ensures r == [] || r[|r| - 1] != c
    ensures forall i :: |r| <= i < |s| ==> s[i] == c
  {
    if s != [] && s[|s| - 1] == c then RStrip(s[..|s| - 1], c) else s
  }

  /** `s.replace(pattern, "")`: every occurrence of `pattern`, scanning
      left to right without overlaps, is removed. */
  function RemoveAll(s: string, pattern: string): (r: string)
    requires pattern != []
    ensures |r| <= |s|
    decreases |s|
  {
    if |s| < |pattern| then s
    else if s[..|pattern|] == pattern then RemoveAll(s[|pattern|..], pattern)
    else [s[0]] + RemoveAll(s[1..], pattern)
  }

  /** No two neighbouring slashes. */
  predicate SingleSlashes(s: string)
  {
    forall i :: 0 <= i < |s| - 1 ==> !(s[i] == '/' && s[i + 1] == '/')
  }

  /** A pattern with a double slash never occurs in a string without one,
      so removing it leaves the string as it is. */
  lemma {:induction false} RemoveAbsent(s: string, pattern: string, j: nat)
    requires j + 1 < |pattern| && pattern[j] == '/' && pattern[j + 1] == '/'
    requires SingleSlashes(s)
    ensures RemoveAll(s, pattern) == s
    decreases |s|
  {
    if |s| >= |pattern| {
      assert s[..|pattern|][j] == s[j] && s[..|pattern|][j + 1] == s[j + 1];
      assert s[..|pattern|] != pattern;
      assert SingleSlashes(s[1..]) by {
        forall i | 0 <= i < |s[1..]| - 1
          ensures !(s[1..][i] == '/' && s[1..][i + 1] == '/')
        {
          assert s[1..][i] == s[i + 1] && s[1..][i + 1] == s[i + 2];
        }
      }
      RemoveAbsent(s[1..], pattern, j);
      assert [s[0]] + s[1..] == s;
    }
  }

  /** `_parse_repository_url`: a `https://github.com/` or
      `http://github.com/` URL loses every copy of its prefix, any other
      reference with a slash that does not start with `http` is taken as
      the path; trailing slashes are stripped. Anything else is a
      `ValueError` naming the input. */
  function ParseRepositoryUrl(url: string): (r: Result<string, string>)
    ensures r.Ok? <==> StartsWith(url, HttpsPrefix) || StartsWith(url, HttpPrefix)
                       || ('/' in url && !StartsWith(url, HttpWord))
    ensures r.Ok? ==> r.value == [] || r.value[|r.value| - 1] != '/'
    ensures r.Err? ==> r.error == InvalidUrl + url
  {
    if StartsWith(url, HttpsPrefix) then Ok(RStrip(RemoveAll(url, HttpsPrefix), '/'))
    else if StartsWith(url, HttpPrefix) then Ok(RStrip(RemoveAll(url, HttpPrefix), '/'))
    else if '/' in url && !StartsWith(url, HttpWord) then Ok(RStrip(url, '/'))
    else Err(InvalidUrl + url)
  }

  /** The three accepted spellings of a path without doubled slashes name
      the same repository: the full URLs lose their prefix, every form
      loses its trailing slashes. */
  lemma UrlForms(path: string)
    requires SingleSlashes(path) && '/' in path && !StartsWith(path, HttpWord)
    ensures ParseRepositoryUrl(HttpsPrefix + path) == Ok(RStrip(path, '/'))
    ensures ParseRepositoryUrl(HttpPrefix + path) == Ok(RStrip(path, '/'))
    ensures ParseRepositoryUrl(path) == Ok(RStrip(path, '/'))
  {
    var https, http := HttpsPrefix + path, HttpPrefix + path;
    assert https[..|HttpsPrefix|] == HttpsPrefix && https[|HttpsPrefix|..] == path;
    assert http[..|HttpPrefix|] == HttpPrefix && http[|HttpPrefix|..] == path;
    assert !StartsWith(http, HttpsPrefix) by { assert http[4] != HttpsPrefix[4]; }
    RemoveAbsent(path, HttpsPrefix, 6);
    RemoveAbsent(path, HttpPrefix, 5);
  }

  // ------------------------------------------------------------------
  // Retrieval
  // ------------------------------------------------------------------

  const UnknownAuthor := "unknown"

  /** An issue as the client lists it: the user may be missing, the body
      may be empty, and pull requests are listed among the issues. */
  datatype Listed = Listed(
    id: int, number: int, title: string, body: Option<string>, state: string,
    createdAt: Timestamp, updatedAt: Timestamp, closedAt: Option<Timestamp>,
    labels: seq<string>, assignees: seq<string>, user: Option<string>,
    comments: int, reactions: int, pullRequest: bool)

  /** A failure raised by the client: the exception's type name and text. */
  datatype ApiError = ApiError(typeName: string, message: string)

  /** The client: the repository's metadata for a path, and the listing of
      one state's issues updated in the window. */
  datatype Client = Client(repo: string -> Result<Value, ApiError>,
                           issues: string -> Result<seq<Listed>, ApiError>)

  /** The tool's result: `success: True` with the metadata, the converted
      issues, the window and the processing figures, or `success: False`
      with the exception's text and type name. */
  datatype Retrieval =
    | Retrieved(repository: Value, issues: seq<Issue>, totalRetrieved: nat, start: Timestamp,
                end: Timestamp, days: int, processed: int, maxRequested: int, states: seq<string>)
    | RetrievalFailed(error: string, errorType: string)

  /** `_convert_issue_to_structured`. */
  function Structured(x: Listed): Issue
  {
    Issue(x.id, x.number, x.title, Some(if x.body.Some? then x.body.value else ""), x.state,
          x.createdAt, x.updatedAt, x.closedAt, x.labels, x.assignees,
          if x.user.Some? then x.user.value else UnknownAuthor, x.comments, x.reactions)
  }

  /** The structured form of each listed issue, in order. */
  function Converted(xs: seq<Listed>): (r: seq<Issue>)
    ensures |r| == |xs| && forall i :: 0 <= i < |xs| ==> r[i] == Structured(xs[i])
  {
    seq(|xs|, i requires 0 <= i < |xs| => Structured(xs[i]))
  }

  /** An issue is kept when it is not a pull request and was created in
      the window. */
  predicate Eligible(x: Listed, start: Timestamp)
  {
    !x.pullRequest && x.createdAt >= start
  }

  /** The listed issues that are kept, in listing order. */
  function Kept(xs: seq<Listed>, start: Timestamp): (r: seq<Listed>)
    ensures |r| <= |xs|
  {
    if xs == [] then []
    else Kept(xs[..|xs| - 1], start) + (if Eligible(xs[|xs| - 1], start) then [xs[|xs| - 1]] else [])
  }

  lemma {:induction false} KeptAppend(a: seq<Listed>, b: seq<Listed>, start: Timestamp)
    ensures Kept(a + b, start) == Kept(a, start) + Kept(b, start)
    decreases |b|
  {
    if b == [] {
      assert a + b == a;
    } else {
      assert (a + b)[..|a + b| - 1] == a + b[..|b| - 1];
      KeptAppend(a, b[..|b| - 1], start);
    }
  }

  /** Every eligible issue is kept, and nothing else: an issue appears in
      `Kept` exactly when it is listed and eligible. */
  lemma {:induction false} KeptExactly(xs: seq<Listed>, start: Timestamp, x: Listed)
    ensures x in Kept(xs, start) <==> x in xs && Eligible(x, start)
  {
    if xs != [] {
      KeptExactly(xs[..|xs| - 1], start, x);
      assert xs == xs[..|xs| - 1] + [xs[|xs| - 1]];
    }
  }

  /** The first `n` elements, or none when `n` is not positive. */
  function Capped<T>(xs: seq<T>, n: int): (r: seq<T>)
    ensures |r| == if n <= 0 then 0 else if |xs| <= n then |xs| else n
    ensures r <= xs
  {
    if n <= 0 then [] else if |xs| <= n then xs else xs[..n]
  }

  /** The states queried: closed issues only when asked for. */
  function StatesFor(includeClosed: bool): (r: seq<string>)
    ensures |r| == (if includeClosed then 2 else 1) && r[0] == OpenState
    ensures includeClosed ==> r[1] == ClosedState
  {
    if includeClosed then [OpenState, ClosedState] else [OpenState]
  }

  /** The issues gathered from the remaining `states`, after `acc`: each
      state is listed only while the cap is not reached, and contributes
      its kept issues up to what is left of the cap. */
  function Gathered(client: Client, states: seq<string>, start: Timestamp, maxIssues: int, acc: seq<Listed>)
    : (r: Result<seq<Listed>, ApiError>)
    decreases |states|
  {
    if states == [] || |acc| >= maxIssues then Ok(acc)
    else match client.issues(states[0])
      case Err(e) => Err(e)
      case Ok(xs) => Gathered(client, states[1..], start, maxIssues,
                              acc + Capped(Kept(xs, start), maxIssues - |acc|))
  }

  /** `_run`: the outcome for a reference, window, state choice and cap,
      at clock reading `now`. */
  function Retrieve(client: Client, url: string, daysBack: int, includeClosed: bool, maxIssues: int,
                    now: Timestamp): (r: Retrieval)
    ensures ParseRepositoryUrl(url).Err? ==> r == RetrievalFailed(InvalidUrl + url, ValueErrorName)
  {
    match ParseRepositoryUrl(url)
    case Err(e) => RetrievalFailed(e, ValueErrorName)
    case Ok(path) =>
      match client.repo(path)
      case Err(e) => RetrievalFailed(e.message, e.typeName)
      case Ok(meta) =>
        var start := now - daysBack * SecondsPerDay;
        var states := StatesFor(includeClosed);
        match Gathered(client, states, start, maxIssues, [])
        case Err(e) => RetrievalFailed(e.message, e.typeName)
        case Ok(kept) =>
          var issues := Converted(kept);
          Retrieved(meta, issues, |issues|, start, now, daysBack, |issues|, maxIssues, states)
  }

  /** The kept issues of every listed state, in the order the states are
      queried. */
  function KeptAll(client: Client, states: seq<string>, start: Timestamp): seq<Listed>
    requires forall st <- states :: client.issues(st).Ok?
  {
    if states == [] then []
    else Kept(client.issues(states[0]).value, start) + KeptAll(client, states[1..], start)
  }

  /** Capping a concatenation takes from the first part, then what is left
      of the cap from the second. */
  lemma CappedJoin<T>(a: seq<T>, b: seq<T>, n: int)
    requires n > 0
    ensures Capped(a, n) + Capped(b, n - |Capped(a, n)|) == Capped(a + b, n)
  {
    if |a| > n {
      assert (a + b)[..n] == a[..n];
    } else if |a| + |b| <= n {
    } else {
      assert (a + b)[..n] == a + b[..n - |a|];
    }
  }

  /** `CappedJoin` behind an accumulated prefix. */
  lemma AccumulatedJoin<T>(acc: seq<T>, a: seq<T>, b: seq<T>, n: int)
    requires n > 0
    ensures acc + Capped(a, n) + Capped(b, n - |Capped(a, n)|) == acc + Capped(a + b, n)
  {
    CappedJoin(a, b, n);
    assert acc + Capped(a, n) + Capped(b, n - |Capped(a, n)|)
           == acc + (Capped(a, n) + Capped(b, n - |Capped(a, n)|));
  }

  /** When every listing arrives, the gathered issues are the first `cap`
      of all kept issues: nothing eligible is skipped before the cap. */
  lemma {:induction false} GatheredClosedForm(client: Client, states: seq<string>, start: Timestamp,
                                              maxIssues: int, acc: seq<Listed>)
    requires forall st <- states :: client.issues(st).Ok?
    ensures Gathered(client, states, start, maxIssues, acc)
            == Ok(acc + Capped(KeptAll(client, states, start), maxIssues - |acc|))
    decreases |states|
  {
    if states == [] || |acc| >= maxIssues {
      assert Capped(KeptAll(client, states, start), maxIssues - |acc|) == [];
      assert acc + [] == acc;
    } else {
      var first := Kept(client.issues(states[0]).value, start);
      var n := maxIssues - |acc|;
      GatheredClosedForm(client, states[1..], start, maxIssues, acc + Capped(first, n));
      var rest := KeptAll(client, states[1..], start);
      AccumulatedJoin(acc, first, rest, n);
      assert KeptAll(client, states, start) == first + rest;
      assert maxIssues - |acc + Capped(first, n)| == n - |Capped(first, n)|;
    }
  }

  /** Whatever the listings, every gathered issue is a listed issue of a
      queried state that is not a pull request and was created in the
      window, and no more than the cap are gathered. */
  lemma {:induction false} GatheredEligible(client: Client, states: seq<string>, start: Timestamp,
                                            maxIssues: int, acc: seq<Listed>)
    requires |acc| <= maxIssues || acc == []
    requires forall x <- acc :: Eligible(x, start)
    requires Gathered(client, states, start, maxIssues, acc).Ok?
    ensures var r := Gathered(client, states, start, maxIssues, acc).value;
            && |r| <= (if maxIssues > 0 then maxIssues else 0)
            && forall x <- r :: Eligible(x, start)
                                && (x in acc || exists st <- states :: client.issues(st).Ok? && x in client.issues(st).value)
    decreases |states|
  {
    if states == [] || |acc| >= maxIssues {
    } else {
      var xs := client.issues(states[0]).value;
      var next := acc + Capped(Kept(xs, start), maxIssues - |acc|);
      forall x | x in Capped(Kept(xs, start), maxIssues - |acc|)
        ensures Eligible(x, start) && x in xs
      {
        KeptExactly(xs, start, x);
      }
      GatheredEligible(client, states[1..], start, maxIssues, next);
      var r := Gathered(client, states, start, maxIssues, acc).value;
      forall x | x in r
        ensures x in acc || exists st <- states :: client.issues(st).Ok? && x in client.issues(st).value
      {
        if x !in next {
          var st :| st in states[1..] && client.issues(st).Ok? && x in client.issues(st).value;
          assert st in states;
        } else if x !in acc {
          assert states[0] in states;
        }
      }
    }
  }

  /** What a successful retrieval promises: at most `max_issues` issues,
      each converted from a listed issue of a queried state that is not a
      pull request and was created on or after the window's start; the
      counts agree with the list; closed issues are queried only when
      asked for. */
  lemma RetrievalFacts(client: Client, url: string, daysBack: int, includeClosed: bool, maxIssues: int,
                       now: Timestamp)
    ensures var r := Retrieve(client, url, daysBack, includeClosed, maxIssues, now);
            r.Retrieved? ==>
              && r.totalRetrieved == r.processed == |r.issues| <= (if maxIssues > 0 then maxIssues else 0)
              && r.start == now - daysBack * SecondsPerDay && r.states == StatesFor(includeClosed)
              && (forall i :: 0 <= i < |r.issues| ==> r.issues[i].createdAt >= r.start)
              && exists kept: seq<Listed> ::
                   && r.issues == Converted(kept)
                   && forall x <- kept :: !x.pullRequest
                                          && exists st <- r.states :: client.issues(st).Ok? && x in client.issues(st).value
  {
    match ParseRepositoryUrl(url)
    case Err(_) =>
    case Ok(path) =>
      match client.repo(path)
      case Err(_) =>
      case Ok(meta) =>
        var start := now - daysBack * SecondsPerDay;
        var states := StatesFor(includeClosed);
        match Gathered(client, states, start, maxIssues, [])
        case Err(_) =>
        case Ok(kept) =>
          GatheredEligible(client, states, start, maxIssues, []);
          var issues := Converted(kept);
          assert Retrieve(client, url, daysBack, includeClosed, maxIssues, now)
                 == Retrieved(meta, issues, |issues|, start, now, daysBack, |issues|, maxIssues, states);
          forall i | 0 <= i < |issues|
            ensures issues[i].createdAt >= start
          {
            assert kept[i] in kept && issues[i] == Structured(kept[i]);
          }
  }

  /** Without closed issues only the open listing is consulted: two clients
      that agree on the repository and on the open issues give the same
      result. */
  lemma OpenOnly(c1: Client, c2: Client, url: string, daysBack: int, maxIssues: int, now: Timestamp)
    requires forall p :: c1.repo(p) == c2.repo(p)
    requires c1.issues(OpenState) == c2.issues(OpenState)
    ensures Retrieve(c1, url, daysBack, false, maxIssues, now) == Retrieve(c2, url, daysBack, false, maxIssues, now)
  {
    var start := now - daysBack * SecondsPerDay;
    var states := StatesFor(false);
    assert states[1..] == [];
    assert Gathered(c1, states, start, maxIssues, []) == Gathered(c2, states, start, maxIssues, []);
  }

  lemma KeptSnoc(xs: seq<Listed>, j: nat, start: Timestamp)
    requires j < |xs|
    ensures Kept(xs[..j + 1], start) == Kept(xs[..j], start) + (if Eligible(xs[j], start) then [xs[j]] else [])
  {
    assert xs[..j + 1][..j] == xs[..j];
  }

  lemma ConvertedSnoc(xs: seq<Listed>, x: Listed)
    ensures Converted(xs + [x]) == Converted(xs) + [Structured(x)]
  {
  }

  /** Where the scan of a listing stops, what it took is the capped list of
      kept issues: it stopped at the cap, or it read the whole listing. */
  lemma ScanEnd(xs: seq<Listed>, j: nat, start: Timestamp, n: int)
    requires j <= |xs| && |Kept(xs[..j], start)| <= n
    requires j == |xs| || |Kept(xs[..j], start)| == n
    ensures Capped(Kept(xs, start), n) == Kept(xs[..j], start)
  {
    assert xs[..j] + xs[j..] == xs;
    KeptAppend(xs[..j], xs[j..], start);
    if j == |xs| {
      assert xs[..j] == xs;
    }
  }

  /** The inner loop of `_run` over one state's listing: pull requests and
      issues created before the window are skipped, and issues are taken
      until `processed` reaches the cap. */
  method ScanListing(xs: seq<Listed>, start: Timestamp, maxIssues: int, issues: seq<Issue>, processed: int)
    returns (issues': seq<Issue>, processed': int)
    requires processed < maxIssues
    ensures var taken := Capped(Kept(xs, start), maxIssues - processed);
            issues' == issues + Converted(taken) && processed' == processed + |taken|
  {
    issues', processed' := issues, processed;
    var j := 0;
    while j < |xs|
      invariant 0 <= j <= |xs|
      invariant processed' - processed == |Kept(xs[..j], start)| <= maxIssues - processed
      invariant issues' == issues + Converted(Kept(xs[..j], start))
    {
      if processed' >= maxIssues {
        break;
      }
      KeptSnoc(xs, j, start);
      if xs[j].pullRequest {
        j := j + 1;
        continue;
      }
      if xs[j].createdAt < start {
        j := j + 1;
        continue;
      }
      ConvertedSnoc(Kept(xs[..j], start), xs[j]);
      issues' := issues' + [Structured(xs[j])];
      processed' := processed' + 1;
      j := j + 1;
    }
    ScanEnd(xs, j, start, maxIssues - processed);
  }

  /** The outer loop of `_run`: each state in turn, while the cap is not
      reached; a listing that raises ends the retrieval. */
  method GatherIssues(client: Client, states: seq<string>, start: Timestamp, maxIssues: int)
    returns (r: Result<seq<Issue>, ApiError>, processed: int)
    ensures r.Ok? <==> Gathered(client, states, start, maxIssues, []).Ok?
    ensures r.Ok? ==> var kept := Gathered(client, states, start, maxIssues, []).value;
                      r.value == Converted(kept) && processed == |kept|
    ensures r.Err? ==> r.error == Gathered(client, states, start, maxIssues, []).error
  {
    var issues: seq<Issue> := [];
    processed := 0;
    ghost var kept: seq<Listed> := [];
    var k := 0;
    while k < |states|
      invariant 0 <= k <= |states| && processed == |kept| && issues == Converted(kept)
      invariant Gathered(client, states, start, maxIssues, []) == Gathered(client, states[k..], start, maxIssues, kept)
    {
      if processed >= maxIssues {
        break;
      }
      var listing := client.issues(states[k]);
      if listing.Err? {
        return Err(listing.error), processed;
      }
      issues, processed := ScanListing(listing.value, start, maxIssues, issues, processed);
      kept := kept + Capped(Kept(listing.value, start), maxIssues - |kept|);
      assert states[k..][1..] == states[k + 1..];
      k := k + 1;
    }
    return Ok(issues), processed;
  }

  /** `_run`, step by step: parse the reference, look the repository up,
      then gather the issues. Any failure becomes the unsuccessful result. */
  method Run(client: Client, url: string, daysBack: int, includeClosed: bool, maxIssues: int, now: Timestamp)
    returns (r: Retrieval)
    ensures r == Retrieve(client, url, daysBack, includeClosed, maxIssues, now)
  {
    var path := ParseRepositoryUrl(url);
    if path.Err? {
      return RetrievalFailed(path.error, ValueErrorName);
    }
    var repo := client.repo(path.value);
    if repo.Err? {
      return RetrievalFailed(repo.error.message, repo.error.typeName);
    }
    var start := now - daysBack * SecondsPerDay;
    var states := StatesFor(includeClosed);
    var issues, processed := GatherIssues(client, states, start, maxIssues);
    if issues.Err? {
      return RetrievalFailed(issues.error.message, issues.error.typeName);
    }
    return Retrieved(repo.value, issues.value, |issues.value|, start, now, daysBack, processed, maxIssues, states);
  }
}
