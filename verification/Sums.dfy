/** Sums over finite maps: what the caches of the connection manager cache. */
module Sums {
  ghost function Total<K>(m: map<K, int>): int
    decreases |m|
  {
    if m == map[] then 0
    else
      var k :| k in m;
      m[k] + Total(m - {k})
  }

  /** The order of the summation does not matter: any key may be taken out first. */
  lemma {:induction false} TotalSplit<K>(m: map<K, int>, k: K)
    requires k in m
    ensures Total(m) == m[k] + Total(m - {k})
    decreases |m|
  {
    var c :| c in m && Total(m) == m[c] + Total(m - {c});
    if c != k {
      TotalSplit(m - {c}, k);
      TotalSplit(m - {k}, c);
      assert m - {c} - {k} == m - {k} - {c};
    }
  }

  /** The value under a key, zero when there is none. */
  function At<K(==)>(m: map<K, int>, k: K): int {
    if k in m then m[k] else 0
  }

  lemma TotalStore<K>(m: map<K, int>, k: K, v: int)
    ensures Total(m[k := v]) == Total(m) - At(m, k) + v
  {
    TotalSplit(m[k := v], k);
    assert m[k := v] - {k} == m - {k};
    if k in m {
      TotalSplit(m, k);
    } else {
      assert m - {k} == m;
    }
  }

  lemma TotalDrop<K>(m: map<K, int>, k: K)
    ensures Total(m - {k}) == Total(m) - At(m, k)
  {
    if k in m {
      TotalSplit(m, k);
    } else {
      assert m - {k} == m;
    }
  }

  /** A sum is the sum over any part of the keys and the sum over the others. */
  lemma {:induction false} TotalApart<K>(m: map<K, int>, part: set<K>)
    requires part <= m.Keys
    ensures Total(m) == Total(m - part) + Total(m - (m.Keys - part))
    decreases |part|
  {
    if part == {} {
      assert m - part == m;
      assert m - (m.Keys - part) == map[];
    } else {
      var k :| k in part;
      var fewer := part - {k};
      TotalApart(m, fewer);
      TotalSplit(m - fewer, k);
      assert m - fewer - {k} == m - part;
      var taken := m - (m.Keys - part);
      TotalSplit(taken, k);
      assert taken - {k} == m - (m.Keys - fewer);
    }
  }

  /** Sums of non-negative numbers are non-negative. */
  lemma {:induction false} TotalNonNegative<K>(m: map<K, int>)
    requires forall k :: k in m ==> 0 <= m[k]
    ensures 0 <= Total(m)
    decreases |m|
  {
    if m != map[] {
      var k :| k in m;
      TotalSplit(m, k);
      TotalNonNegative(m - {k});
    }
  }
}
