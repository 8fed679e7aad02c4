/** Building blocks shared by every module: optional values and results,
    insertion-ordered dictionaries, capped histories and a few string
    operations of the host language. */
module Base {

  datatype Option<+T> = None | Some(value: T)

  datatype Result<+T, +E> = Ok(value: T) | Err(error: E)

  /** A dictionary in insertion order, as the host language's `dict`: a
      sequence of key/value pairs. Assigning to a present key keeps its
      position; assigning to a new key appends it, so a dictionary built by
      assignments holds no key twice (`DistinctKeys`). */
  type Dict<K, V> = seq<(K, V)>

  function Keys<K, V>(d: seq<(K, V)>): seq<K>
  {
    if d == [] then [] else [d[0].0] + Keys(d[1..])
  }

  /** No key occurs twice. */
  ghost predicate DistinctKeys<K, V>(d: seq<(K, V)>)
  {
    d == [] || (d[0].0 !in Keys(d[1..]) && DistinctKeys(d[1..]))
  }

  /** `d.get(k)`: the value of the first pair with key `k`. */
  function Get<K(==), V>(d: Dict<K, V>, k: K): (r: Option<V>)
    ensures r.Some? <==> k in Keys(d)
    ensures r.Some? ==> (k, r.value) in d
  {
    if d == [] then None
    else if d[0].0 == k then Some(d[0].1)
    else Get(d[1..], k)
  }

  /** `d.get(k, default)`. */
  function GetOr<K(==), V>(d: Dict<K, V>, k: K, default: V): V
  {
    match Get(d, k)
    case Some(v) => v
    case None => default
  }

  /** `d[k] = v`: only the entry for `k` changes, a new key goes last. */
  function Put<K(==), V>(d: Dict<K, V>, k: K, v: V): Dict<K, V>
  {
    if d == [] then [(k, v)]
    else if d[0].0 == k then [(k, v)] + d[1..]
    else [d[0]] + Put(d[1..], k, v)
  }

  /** After `d[k] = v`, `k` maps to `v`, every other key keeps its value,
      and the key order is unchanged except that a new key comes last. */
  lemma {:induction false} PutGet<K, V>(d: Dict<K, V>, k: K, v: V, j: K)
    ensures Get(Put(d, k, v), k) == Some(v)
    ensures j != k ==> Get(Put(d, k, v), j) == Get(d, j)
    ensures Keys(Put(d, k, v)) == if k in Keys(d) then Keys(d) else Keys(d) + [k]
  {
    var r := Put(d, k, v);
    if d == [] {
      assert r[1..] == [];
    } else if d[0].0 == k {
      assert r[1..] == d[1..];
    } else {
      assert r[1..] == Put(d[1..], k, v);
      PutGet(d[1..], k, v, j);
      assert Keys(r) == [d[0].0] + Keys(Put(d[1..], k, v));
      assert Keys(d) == [d[0].0] + Keys(d[1..]);
    }
  }

  lemma {:induction false} KeysShape<K, V>(d: seq<(K, V)>)
    ensures |Keys(d)| == |d|
    ensures forall i :: 0 <= i < |d| ==> Keys(d)[i] == d[i].0
  {
    if d != [] {
      KeysShape(d[1..]);
    }
  }

  /** Every pair's key is among the keys. */
  lemma {:induction false} PairKeyInKeys<K, V>(d: seq<(K, V)>, k: K, v: V)
    requires (k, v) in d
    ensures k in Keys(d)
  {
    if d[0] != (k, v) {
      PairKeyInKeys(d[1..], k, v);
    }
  }

  /** Distinct keys, stated position by position. */
  lemma {:induction false} DistinctKeysAt<K, V>(d: Dict<K, V>)
    requires DistinctKeys(d)
    ensures forall i, j :: 0 <= i < j < |d| ==> d[i].0 != d[j].0
  {
    if d != [] {
      DistinctKeysAt(d[1..]);
      KeysShape(d[1..]);
      forall j | 1 <= j < |d|
        ensures d[0].0 != d[j].0
      {
        assert Keys(d[1..])[j - 1] == d[j].0;
      }
    }
  }

  /** Appending pairs does not change what a present key finds. */
  lemma {:induction false} GetExtended<K, V>(d: Dict<K, V>, e: Dict<K, V>, k: K)
    requires Get(d, k).Some?
    ensures Get(d + e, k) == Get(d, k)
  {
    if d[0].0 != k {
      assert (d + e)[1..] == d[1..] + e;
      GetExtended(d[1..], e, k);
    }
  }

  /** A key no pair carries is absent, and a pair appended with it is
      found: the last entry of a dictionary literal with distinct keys. */
  lemma {:induction false} GetAppended<K, V>(d: Dict<K, V>, k: K, v: V)
    requires forall p <- d :: p.0 != k
    ensures Get(d, k).None?
    ensures Get(d + [(k, v)], k) == Some(v)
  {
    if d != [] {
      assert (d + [(k, v)])[1..] == d[1..] + [(k, v)];
      GetAppended(d[1..], k, v);
    }
  }

  /** Appending two new keys: each is then found with its value. */
  lemma AppendTwoGet<K, V>(d: Dict<K, V>, k1: K, v1: V, k2: K, v2: V)
    requires forall p <- d :: p.0 != k1 && p.0 != k2
    requires k1 != k2
    ensures Get(d + [(k1, v1)] + [(k2, v2)], k1) == Some(v1)
    ensures Get(d + [(k1, v1)] + [(k2, v2)], k2) == Some(v2)
  {
    GetAppended(d, k1, v1);
    GetExtended(d + [(k1, v1)], [(k2, v2)], k1);
    GetAppended(d + [(k1, v1)], k2, v2);
  }

  /** `PutGet` for every other key at once. */
  lemma PutSpec<K, V>(d: Dict<K, V>, k: K, v: V)
    ensures Get(Put(d, k, v), k) == Some(v)
    ensures forall j :: j != k ==> Get(Put(d, k, v), j) == Get(d, j)
    ensures Keys(Put(d, k, v)) == if k in Keys(d) then Keys(d) else Keys(d) + [k]
  {
    PutGet(d, k, v, k);
    forall j | j != k
      ensures Get(Put(d, k, v), j) == Get(d, j)
    {
      PutGet(d, k, v, j);
    }
  }

  /** Assigning a key never introduces a duplicate key. */
  lemma {:induction false} PutKeepsDistinct<K, V>(d: Dict<K, V>, k: K, v: V)
    requires DistinctKeys(d)
    ensures DistinctKeys(Put(d, k, v))
  {
    if d != [] && d[0].0 != k {
      PutKeepsDistinct(d[1..], k, v);
      PutGet(d[1..], k, v, k);
      assert Put(d, k, v)[1..] == Put(d[1..], k, v);
    }
  }

  /** Every pair after `d[k] = v` is an old pair or the new one. */
  lemma {:induction false} PutPairs<K, V>(d: Dict<K, V>, k: K, v: V, p: (K, V))
    requires p in Put(d, k, v)
    ensures p in d || p == (k, v)
  {
    if d != [] && d[0].0 != k && p != d[0] {
      assert p in Put(d[1..], k, v);
      PutPairs(d[1..], k, v, p);
    } else if d != [] && d[0].0 == k && p != (k, v) {
      assert p in d[1..];
    }
  }

  /** A second assignment to the same key overrides the first. */
  lemma {:induction false} PutTwice<K, V>(d: Dict<K, V>, k: K, a: V, b: V)
    ensures Put(Put(d, k, a), k, b) == Put(d, k, b)
  {
    if d != [] && d[0].0 != k {
      PutTwice(d[1..], k, a, b);
      assert Put(d, k, a)[1..] == Put(d[1..], k, a);
    }
  }

  /** `if v is not None: d[k] = v`. */
  function PutIf<K(==), V>(d: Dict<K, V>, k: K, v: Option<V>): Dict<K, V>
  {
    if v.Some? then Put(d, k, v.value) else d
  }

  lemma PutIfKeepsDistinct<K, V>(d: Dict<K, V>, k: K, v: Option<V>)
    requires DistinctKeys(d)
    ensures DistinctKeys(PutIf(d, k, v))
  {
    if v.Some? {
      PutKeepsDistinct(d, k, v.value);
    }
  }

  /** Without duplicate keys, a pair is present exactly when looking its key
      up yields its value. */
  lemma {:induction false} GetExact<K, V>(d: Dict<K, V>, k: K, v: V)
    requires DistinctKeys(d)
    ensures Get(d, k) == Some(v) <==> (k, v) in d
  {
    if d != [] {
      if d[0].0 != k {
        GetExact(d[1..], k, v);
      } else if (k, v) in d[1..] {
        PairKeyInKeys(d[1..], k, v);
      }
    }
  }

  /** The keys whose value is `v`, in insertion order:
      `[k for k, x in d.items() if x == v]`. */
  function KeysWhere<K, V(==)>(d: Dict<K, V>, v: V): (ks: seq<K>)
    ensures |ks| <= |d|
    ensures forall k :: k in ks ==> (k, v) in d
  {
    if d == [] then []
    else (if d[0].1 == v then [d[0].0] else []) + KeysWhere(d[1..], v)
  }

  /** Without duplicate keys, the filtered key list holds exactly the keys
      mapped to `v`, each once. */
  lemma {:induction false} KeysWhereExact<K, V>(d: Dict<K, V>, v: V)
    requires DistinctKeys(d)
    ensures forall k :: k in KeysWhere(d, v) <==> Get(d, k) == Some(v)
    ensures forall i, j :: 0 <= i < j < |KeysWhere(d, v)| ==> KeysWhere(d, v)[i] != KeysWhere(d, v)[j]
  {
    if d != [] {
      KeysWhereExact(d[1..], v);
      forall k
        ensures k in KeysWhere(d, v) <==> Get(d, k) == Some(v)
      {
        GetExact(d, k, v);
        GetExact(d[1..], k, v);
      }
      var rest := KeysWhere(d[1..], v);
      if d[0].1 == v {
        assert KeysWhere(d, v) == [d[0].0] + rest;
        forall j | 0 <= j < |rest|
          ensures rest[j] != d[0].0
        {
          assert (rest[j], v) in d[1..];
          PairKeyInKeys(d[1..], rest[j], v);
        }
      }
    }
  }

  /** `xs[-n:]` for a positive `n`: the newest `n` items, all of them when
      there are fewer. */
  function KeepLast<T>(xs: seq<T>, n: nat): (r: seq<T>)
    requires n > 0
  {
    if |xs| <= n then xs else xs[|xs| - n..]
  }

  /** Appending to a history and then capping it keeps at most `n` entries,
      ends with the new entry, and what precedes it is the previous history
      capped to `n - 1`. */
  lemma CappedAppend<T>(xs: seq<T>, x: T, n: nat)
    requires n > 0
    ensures |KeepLast(xs + [x], n)| <= n
    ensures |KeepLast(xs + [x], n)| == if |xs| < n then |xs| + 1 else n
    ensures KeepLast(xs + [x], n)[|KeepLast(xs + [x], n)| - 1] == x
    ensures n > 1 ==> KeepLast(xs + [x], n)[..|KeepLast(xs + [x], n)| - 1] == KeepLast(xs, n - 1)
    ensures n == 1 ==> KeepLast(xs + [x], n) == [x]
  {
    var r := KeepLast(xs + [x], n);
    if |xs| + 1 > n {
      assert r == xs[|xs| + 1 - n..] + [x];
    }
  }

  /** `sep.join(xs)`. */
  function Join(xs: seq<string>, sep: string): string
  {
    if xs == [] then ""
    else if |xs| == 1 then xs[0]
    else xs[0] + sep + Join(xs[1..], sep)
  }

  /** `str(n)` for an integer: its decimal digits, with a leading minus sign
      when negative. */
  function IntToString(i: int): (r: string)
    ensures |r| > 0
  {
    if i < 0 then "-" + NatToString(-i) else NatToString(i)
  }

  function NatToString(n: nat): (r: string)
    ensures |r| > 0
    ensures forall c <- r :: '0' <= c <= '9'
  {
    if n < 10 then [('0' as int + n) as char]
    else NatToString(n / 10) + [('0' as int + n % 10) as char]
  }

  predicate StartsWith(s: string, prefix: string)
  {
    |prefix| <= |s| && s[..|prefix|] == prefix
  }

  /** `sub in s` for strings. */
  predicate Contains(s: string, sub: string)
  {
    StartsWith(s, sub) || (|s| > 0 && Contains(s[1..], sub))
  }

  /** `s.lower()` restricted to the ASCII letters. */
  function Lower(s: string): (r: string)
    ensures |r| == |s|
  {
    seq(|s|, i requires 0 <= i < |s| =>
      if 'A' <= s[i] <= 'Z' then (s[i] as int + 32) as char else s[i])
  }
}
