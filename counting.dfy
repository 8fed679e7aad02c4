/** Counting by key, as the report code does it with `d[k] = d.get(k, 0) + 1`,
    and picking the largest counts with a stable sort. */
module Counting {
  import opened Base

  /** Occurrences of `x` in `xs`. */
  function Count<T(==)>(xs: seq<T>, x: T): nat
  {
    if xs == [] then 0
    else Count(xs[..|xs| - 1], x) + (if xs[|xs| - 1] == x then 1 else 0)
  }

  /** `d[k] = d.get(k, 0) + 1`. */
  function Bump<K(==)>(d: Dict<K, int>, k: K): Dict<K, int>
  {
    Put<K, int>(d, k, GetOr<K, int>(d, k, 0) + 1)
  }

  /** The counts after bumping each key of `keys` in turn, starting from
      `init`. */
  function Tallied<K(==)>(init: Dict<K, int>, keys: seq<K>): Dict<K, int>
  {
    if keys == [] then init
    else Bump(Tallied(init, keys[..|keys| - 1]), keys[|keys| - 1])
  }

  /** The sum of the counts. */
  function Total<K>(d: Dict<K, int>): int
  {
    if d == [] then 0 else d[0].1 + Total(d[1..])
  }

  /** Assigning a count changes the total by the difference with the count
      it replaces (zero for a new key). */
  lemma {:induction false} TotalPut<K>(d: Dict<K, int>, k: K, v: int)
    ensures Total(Put(d, k, v)) + GetOr<K, int>(d, k, 0) == Total(d) + v
  {
    if d != [] && d[0].0 != k {
      TotalPut(d[1..], k, v);
      assert Put(d, k, v)[1..] == Put(d[1..], k, v);
    } else if d != [] {
      assert Put(d, k, v)[1..] == d[1..];
    }
  }

  /** Every bump adds one to the total. */
  lemma {:induction false} TalliedTotal<K>(init: Dict<K, int>, keys: seq<K>)
    ensures Total(Tallied(init, keys)) == Total(init) + |keys|
  {
    if keys != [] {
      var before := Tallied(init, keys[..|keys| - 1]);
      TalliedTotal(init, keys[..|keys| - 1]);
      TotalPut(before, keys[|keys| - 1], GetOr<K, int>(before, keys[|keys| - 1], 0) + 1);
    }
  }

  /** A bump adds one to its own key's count and leaves the others. */
  lemma BumpGet<K>(d: Dict<K, int>, key: K, k: K)
    ensures GetOr<K, int>(Bump(d, key), k, 0) == GetOr<K, int>(d, k, 0) + (if key == k then 1 else 0)
  {
    PutGet(d, key, GetOr<K, int>(d, key, 0) + 1, k);
  }

  /** Each key's count is its initial count plus its occurrences. */
  lemma {:induction false} TalliedCounts<K>(init: Dict<K, int>, keys: seq<K>, k: K)
    ensures GetOr<K, int>(Tallied(init, keys), k, 0) == GetOr<K, int>(init, k, 0) + Count(keys, k)
  {
    if keys != [] {
      var before := Tallied(init, keys[..|keys| - 1]);
      var last := keys[|keys| - 1];
      TalliedCounts(init, keys[..|keys| - 1], k);
      BumpGet(before, last, k);
      assert Count(keys, k) == Count(keys[..|keys| - 1], k) + (if last == k then 1 else 0);
    }
  }

  /** Tallying never introduces a duplicate key. */
  lemma {:induction false} TalliedDistinct<K>(init: Dict<K, int>, keys: seq<K>)
    requires DistinctKeys(init)
    ensures DistinctKeys(Tallied(init, keys))
  {
    if keys != [] {
      var before := Tallied(init, keys[..|keys| - 1]);
      TalliedDistinct(init, keys[..|keys| - 1]);
      PutKeepsDistinct(before, keys[|keys| - 1], GetOr<K, int>(before, keys[|keys| - 1], 0) + 1);
    }
  }

  /** Scores never decrease from one position to the next. */
  predicate Ascending<K>(s: seq<(K, int)>, score: ((K, int)) -> int)
  {
    forall i, j :: 0 <= i < j < |s| ==> score(s[i]) <= score(s[j])
  }

  /** Places `p` before the first pair whose score is not smaller, so it
      comes ahead of the pairs with an equal score. */
  function InsertBy<K>(p: (K, int), s: seq<(K, int)>, score: ((K, int)) -> int): (r: seq<(K, int)>)
    ensures multiset(r) == multiset(s) + multiset{p}
    ensures |r| == |s| + 1
  {
    if s == [] || score(p) <= score(s[0]) then [p] + s
    else
      var rest := InsertBy(p, s[1..], score);
      assert s == [s[0]] + s[1..];
      [s[0]] + rest
  }

  lemma {:induction false} InsertBySorted<K>(p: (K, int), s: seq<(K, int)>, score: ((K, int)) -> int)
    requires Ascending(s, score)
    ensures Ascending(InsertBy(p, s, score), score)
    ensures InsertBy(p, s, score)[0] == p || (s != [] && InsertBy(p, s, score)[0] == s[0])
  {
    if s != [] && score(p) > score(s[0]) {
      InsertBySorted(p, s[1..], score);
      var rest := InsertBy(p, s[1..], score);
      forall j | 0 < j < |rest| + 1
        ensures score(s[0]) <= score(([s[0]] + rest)[j])
      {
        assert ([s[0]] + rest)[j] == rest[j - 1];
        InsertByMember(p, s[1..], score, j - 1);
      }
    }
  }

  /** Every pair of an insertion is the inserted pair or a pair of the list. */
  lemma InsertByMember<K>(p: (K, int), s: seq<(K, int)>, score: ((K, int)) -> int, i: nat)
    requires i < |InsertBy(p, s, score)|
    ensures InsertBy(p, s, score)[i] == p || InsertBy(p, s, score)[i] in s
  {
    var x := InsertBy(p, s, score)[i];
    assert x in multiset(InsertBy(p, s, score));
  }

  /** A stable insertion sort by ascending score: pairs with equal scores
      keep their original order. */
  function SortBy<K>(pairs: seq<(K, int)>, score: ((K, int)) -> int): (r: seq<(K, int)>)
    ensures multiset(r) == multiset(pairs)
    ensures |r| == |pairs|
  {
    if pairs == [] then []
    else
      assert pairs == [pairs[0]] + pairs[1..];
      InsertBy(pairs[0], SortBy(pairs[1..], score), score)
  }

  lemma {:induction false} SortBySorted<K>(pairs: seq<(K, int)>, score: ((K, int)) -> int)
    ensures Ascending(SortBy(pairs, score), score)
  {
    if pairs != [] {
      SortBySorted(pairs[1..], score);
      InsertBySorted(pairs[0], SortBy(pairs[1..], score), score);
    }
  }

  /** The pairs of `s` with score `v`, in order. */
  function WithScore<K>(s: seq<(K, int)>, score: ((K, int)) -> int, v: int): seq<(K, int)>
  {
    if s == [] then []
    else if score(s[0]) == v then [s[0]] + WithScore(s[1..], score, v)
    else WithScore(s[1..], score, v)
  }

  /** Filtering a list with a pair in front looks at the pair, then at the
      rest. */
  lemma WithScoreCons<K>(q: (K, int), t: seq<(K, int)>, score: ((K, int)) -> int, v: int)
    ensures WithScore([q] + t, score, v)
            == if score(q) == v then [q] + WithScore(t, score, v) else WithScore(t, score, v)
  {
    assert ([q] + t)[0] == q && ([q] + t)[1..] == t;
  }

  /** Inserting `p` puts it ahead of every pair with its score. */
  lemma {:induction false} InsertByStable<K>(p: (K, int), s: seq<(K, int)>, score: ((K, int)) -> int, v: int)
    ensures WithScore(InsertBy(p, s, score), score, v)
            == if score(p) == v then [p] + WithScore(s, score, v) else WithScore(s, score, v)
  {
    if s == [] || score(p) <= score(s[0]) {
      WithScoreCons(p, s, score, v);
    } else {
      var rest := InsertBy(p, s[1..], score);
      InsertByStable(p, s[1..], score, v);
      WithScoreCons(s[0], rest, score, v);
    }
  }

  /** The sort is stable: for every score, the pairs with that score come
      out in the order they went in. */
  lemma {:induction false} SortByStable<K>(pairs: seq<(K, int)>, score: ((K, int)) -> int, v: int)
    ensures WithScore(SortBy(pairs, score), score, v) == WithScore(pairs, score, v)
  {
    if pairs != [] {
      SortByStable(pairs[1..], score, v);
      InsertByStable(pairs[0], SortBy(pairs[1..], score), score, v);
    }
  }

  /** Inserting a pair adds its count to the total. */
  lemma {:induction false} InsertByTotal<K>(p: (K, int), s: seq<(K, int)>, score: ((K, int)) -> int)
    ensures Total(InsertBy(p, s, score)) == p.1 + Total(s)
  {
    var r := InsertBy(p, s, score);
    if s == [] || score(p) <= score(s[0]) {
      assert r[1..] == s;
    } else {
      InsertByTotal(p, s[1..], score);
      assert r[1..] == InsertBy(p, s[1..], score);
    }
  }

  /** Sorting keeps the total. */
  lemma {:induction false} SortByTotal<K>(pairs: seq<(K, int)>, score: ((K, int)) -> int)
    ensures Total(SortBy(pairs, score)) == Total(pairs)
  {
    if pairs != [] {
      SortByTotal(pairs[1..], score);
      InsertByTotal(pairs[0], SortBy(pairs[1..], score), score);
    }
  }

  /** Inserting a pair with a new key adds that key and keeps every other
      lookup. */
  lemma {:induction false} InsertByGet<K>(p: (K, int), s: seq<(K, int)>, score: ((K, int)) -> int, k: K)
    requires p.0 !in Keys(s)
    ensures Get(InsertBy(p, s, score), k) == if k == p.0 then Some(p.1) else Get(s, k)
  {
    var r := InsertBy(p, s, score);
    if s == [] || score(p) <= score(s[0]) {
      assert r[1..] == s;
    } else {
      assert Keys(s) == [s[0].0] + Keys(s[1..]);
      InsertByGet(p, s[1..], score, k);
      assert r[1..] == InsertBy(p, s[1..], score);
    }
  }

  /** Without duplicate keys, sorting keeps every lookup. */
  lemma {:induction false} SortByGet<K>(pairs: seq<(K, int)>, score: ((K, int)) -> int)
    requires DistinctKeys(pairs)
    ensures forall k :: Get(SortBy(pairs, score), k) == Get(pairs, k)
  {
    if pairs != [] {
      var rest := SortBy(pairs[1..], score);
      SortByGet(pairs[1..], score);
      assert Get(rest, pairs[0].0) == Get(pairs[1..], pairs[0].0);
      forall k
        ensures Get(SortBy(pairs, score), k) == Get(pairs, k)
      {
        InsertByGet(pairs[0], rest, score, k);
      }
    }
  }

  /** Sorting a tally keeps its order of scores and its total. */
  lemma SortedTally<K>(keys: seq<K>, score: ((K, int)) -> int)
    ensures var r := SortBy(Tallied([], keys), score);
            Ascending(r, score) && Total(r) == |keys|
  {
    SortBySorted(Tallied([], keys), score);
    TalliedTotal([], keys);
    SortByTotal(Tallied([], keys), score);
  }

  /** Sorting a tally keeps each key's count: its occurrences. */
  lemma SortedTallyGet<K>(keys: seq<K>, score: ((K, int)) -> int, k: K)
    ensures GetOr(SortBy(Tallied([], keys), score), k, 0) == Count(keys, k)
  {
    TalliedDistinct([], keys);
    SortByGet(Tallied([], keys), score);
    TalliedCounts([], keys, k);
  }

  /** A pair's score for a sort by descending count. */
  function ByCountDesc<K>(p: (K, int)): int
  {
    -p.1
  }

  /** Counts never increase from one position to the next. */
  predicate NonIncreasing<K>(s: seq<(K, int)>)
  {
    forall i, j :: 0 <= i < j < |s| ==> s[i].1 >= s[j].1
  }

  /** `sorted(pairs, key=count, reverse=True)`: pairs with equal counts keep
      their original order, as Python's sort is stable. */
  function SortDesc<K>(pairs: seq<(K, int)>): (r: seq<(K, int)>)
    ensures multiset(r) == multiset(pairs)
    ensures |r| == |pairs|
  {
    SortBy(pairs, ByCountDesc)
  }

  lemma SortDescSorted<K>(pairs: seq<(K, int)>)
    ensures NonIncreasing(SortDesc(pairs))
  {
    SortBySorted(pairs, ByCountDesc);
    var r := SortDesc(pairs);
    forall i, j | 0 <= i < j < |r|
      ensures r[i].1 >= r[j].1
    {
      assert ByCountDesc(r[i]) <= ByCountDesc(r[j]);
    }
  }

  /** Pairs with equal counts come out in the order they went in: of two
      labels counted equally, the one counted first ranks first. */
  lemma SortDescStable<K>(pairs: seq<(K, int)>, c: int)
    ensures WithScore(SortDesc(pairs), ByCountDesc, -c) == WithScore(pairs, ByCountDesc, -c)
  {
    SortByStable(pairs, ByCountDesc, -c);
  }

  /** `dict(sorted(d.items(), key=count, reverse=True)[:n])`. */
  function TopN<K>(d: Dict<K, int>, n: nat): (r: Dict<K, int>)
    ensures |r| == if |d| < n then |d| else n
    ensures multiset(r) <= multiset(d)
  {
    var sorted := SortDesc(d);
    if |sorted| <= n then sorted
    else
      assert sorted == sorted[..n] + sorted[n..];
      sorted[..n]
  }

  /** The pairs `TopN` leaves out. */
  function Dropped<K>(d: Dict<K, int>, n: nat): seq<(K, int)>
  {
    var sorted := SortDesc(d);
    if |sorted| <= n then [] else sorted[n..]
  }

  /** The kept pairs together with the dropped ones are exactly the input
      pairs. */
  lemma TopNPartition<K>(d: Dict<K, int>, n: nat)
    ensures multiset(TopN(d, n)) + multiset(Dropped(d, n)) == multiset(d)
  {
    var sorted := SortDesc(d);
    if |sorted| > n {
      MultisetSplit(sorted, n);
    }
  }

  /** Cutting a list in two splits its multiset. */
  lemma MultisetSplit<T>(s: seq<T>, n: nat)
    requires n <= |s|
    ensures multiset(s[..n]) + multiset(s[n..]) == multiset(s)
  {
    assert s == s[..n] + s[n..];
  }

  /** The kept pairs are in non-increasing count order, and none of them has
      a smaller count than a dropped pair. */
  lemma TopNIsTop<K>(d: Dict<K, int>, n: nat)
    ensures NonIncreasing(TopN(d, n))
    ensures forall i, j :: 0 <= i < |TopN(d, n)| && 0 <= j < |Dropped(d, n)| ==>
              TopN(d, n)[i].1 >= Dropped(d, n)[j].1
  {
    var sorted := SortDesc(d);
    SortDescSorted(d);
    if |sorted| > n {
      forall i, j | 0 <= i < n && 0 <= j < |sorted| - n
        ensures sorted[..n][i].1 >= sorted[n..][j].1
      {
        assert sorted[..n][i] == sorted[i] && sorted[n..][j] == sorted[n + j];
      }
    }
  }
}
