/** Sums over sequences and over the values of a map. */
module Sums {

  function Sum(s: seq<int>): (total: int)
    ensures (forall i | 0 <= i < |s| :: s[i] >= 0) ==> total >= 0
  {
    if |s| == 0 then 0 else Sum(s[..|s| - 1]) + s[|s| - 1]
  }

  lemma {:induction false} SumAppend(a: seq<int>, b: seq<int>)
    ensures Sum(a + b) == Sum(a) + Sum(b)
  {
    if |b| == 0 {
      assert a + b == a;
    } else {
      assert (a + b)[..|a + b| - 1] == a + b[..|b| - 1];
      SumAppend(a, b[..|b| - 1]);
    }
  }

  lemma SumUpdate(s: seq<int>, i: nat, v: int)
    requires i < |s|
    ensures Sum(s[i := v]) == Sum(s) - s[i] + v
  {
    assert s == s[..i] + [s[i]] + s[i + 1..];
    assert s[i := v] == s[..i] + [v] + s[i + 1..];
    SumAppend(s[..i] + [s[i]], s[i + 1..]);
    SumAppend(s[..i] + [v], s[i + 1..]);
    SumAppend(s[..i], [s[i]]);
    SumAppend(s[..i], [v]);
  }

  /** The sum of a map's values, whatever order they are visited in. */
  ghost function MapSum<K>(m: map<K, int>): int
    decreases |m|
  {
    if m == map[] then 0 else
      var k :| k in m;
      assert (m - {k}).Keys == m.Keys - {k};
      m[k] + MapSum(m - {k})
  }

  lemma {:induction false} MapSumRemove<K>(m: map<K, int>, k: K)
    requires k in m
    ensures MapSum(m) == m[k] + MapSum(m - {k})
    decreases |m|
  {
    var j :| j in m && MapSum(m) == m[j] + MapSum(m - {j});
    if j != k {
      assert (m - {j}).Keys == m.Keys - {j};
      assert (m - {k}).Keys == m.Keys - {k};
      MapSumRemove(m - {j}, k);
      MapSumRemove(m - {k}, j);
      assert m - {j} - {k} == m - {k} - {j};
    }
  }

  function Minus(n: int): int { -n }

  function Get<K>(m: map<K, int>, k: K): int {
    if k in m then m[k] else 0
  }

  lemma MapSumUpdate<K>(m: map<K, int>, k: K, v: int)
    ensures MapSum(m[k := v]) == MapSum(m) - Get(m, k) + v
  {
    var n := m[k := v];
    MapSumRemove(n, k);
    if k in m {
      MapSumRemove(m, k);
      assert n - {k} == m - {k};
    } else {
      assert n - {k} == m;
    }
  }

  /** Two ways of splitting the same values have the same sum. */
  lemma {:induction false} MapSumBalance<K>(a: map<K, int>, b: map<K, int>, c: map<K, int>, d: map<K, int>,
                                            e: map<K, int>)
    requires a.Keys == b.Keys == c.Keys == d.Keys == e.Keys
    requires forall k | k in a :: a[k] + b[k] == c[k] + d[k] + e[k]
    ensures MapSum(a) + MapSum(b) == MapSum(c) + MapSum(d) + MapSum(e)
    decreases |a|
  {
    if a != map[] {
      var k :| k in a;
      assert (a - {k}).Keys == a.Keys - {k};
      MapSumRemove(a, k);
      MapSumRemove(b, k);
      MapSumRemove(c, k);
      MapSumRemove(d, k);
      MapSumRemove(e, k);
      MapSumBalance(a - {k}, b - {k}, c - {k}, d - {k}, e - {k});
    }
  }

  lemma MulMono(a: int, b: int, c: nat)
    requires a <= b
    ensures a * c <= b * c
    ensures a * c == c * a && b * c == c * b
  {
    assert (b - a) * c >= 0;
  }

  predicate Distinct<T(==)>(s: seq<T>) {
    forall i, j | 0 <= i < j < |s| :: s[i] != s[j]
  }

  /** The values of a map at the given keys. */
  function At<K>(m: map<K, int>, keys: seq<K>): (r: seq<int>)
    ensures |r| == |keys|
  {
    seq(|keys|, i requires 0 <= i < |keys| => Get(m, keys[i]))
  }

  /** Visiting every key that matters once gives the sum of the map. */
  lemma {:induction false} MapSumOver<K>(m: map<K, int>, keys: seq<K>)
    requires Distinct(keys)
    requires forall k | k in m :: k in keys || m[k] == 0
    ensures MapSum(m) == Sum(At(m, keys))
    decreases |keys|
  {
    if |keys| == 0 {
      MapSumZero(m);
    } else {
      var n := |keys| - 1;
      var k := keys[n];
      var rest := m[k := 0];
      MapSumUpdate(m, k, 0);
      assert forall j | j in rest :: j in keys[..n] || rest[j] == 0;
      MapSumOver(rest, keys[..n]);
      assert At(rest, keys[..n]) == At(m, keys)[..n];
    }
  }

  lemma {:induction false} MapSumZero<K>(m: map<K, int>)
    requires forall k | k in m :: m[k] == 0
    ensures MapSum(m) == 0
    decreases |m|
  {
    if m != map[] {
      var k :| k in m;
      assert (m - {k}).Keys == m.Keys - {k};
      MapSumRemove(m, k);
      MapSumZero(m - {k});
    }
  }

  /** Entries that are zero do not matter. */
  lemma {:induction false} MapSumExtend<K>(a: map<K, int>, b: map<K, int>)
    requires b.Keys <= a.Keys && forall k | k in a :: a[k] == Get(b, k)
    ensures MapSum(a) == MapSum(b)
    decreases |a|
  {
    if a == map[] {
      assert b == map[];
    } else {
      var k :| k in a;
      assert (a - {k}).Keys == a.Keys - {k};
      MapSumRemove(a, k);
      if k in b { MapSumRemove(b, k); } else { assert b - {k} == b; }
      MapSumExtend(a - {k}, b - {k});
    }
  }

  /** A sum of smaller values is smaller, and equal only if all of them are. */
  lemma {:induction false} MapSumCompare<K>(a: map<K, int>, b: map<K, int>)
    requires a.Keys == b.Keys && forall k | k in a :: a[k] <= b[k]
    ensures MapSum(a) <= MapSum(b)
    ensures MapSum(a) == MapSum(b) <==> a == b
    decreases |a|
  {
    if a == map[] {
      assert b == map[];
    } else {
      var k :| k in a;
      assert (a - {k}).Keys == a.Keys - {k};
      MapSumRemove(a, k);
      MapSumRemove(b, k);
      MapSumCompare(a - {k}, b - {k});
      if a - {k} == b - {k} && a[k] == b[k] {
        assert a == (a - {k})[k := a[k]] && b == (b - {k})[k := b[k]];
      }
    }
  }
}
