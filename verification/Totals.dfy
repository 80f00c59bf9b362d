/** Sums over the values of a map. */
module Totals {
  ghost function Total<K(!new)>(m: map<K, int>): int
    decreases |m|
  {
    if m == map[] then 0
    else
      var k :| k in m;
      m[k] + Total(m - {k})
  }

  /** Any key may be taken out first. */
  lemma {:induction false} TotalRemove<K(!new)>(m: map<K, int>, k: K)
    requires k in m
    ensures Total(m) == m[k] + Total(m - {k})
    decreases |m|
  {
    var j :| j in m && Total(m) == m[j] + Total(m - {j});
    if j != k {
      var both := m - {j} - {k};
      TotalRemove(m - {j}, k);
      TotalRemove(m - {k}, j);
      assert m - {k} - {j} == both;
    }
  }

  lemma TotalUpdate<K(!new)>(m: map<K, int>, k: K, v: int)
    requires k in m
    ensures Total(m[k := v]) == Total(m) - m[k] + v
  {
    TotalRemove(m, k);
    TotalRemove(m[k := v], k);
    assert m[k := v] - {k} == m - {k};
  }

  lemma TotalInsert<K(!new)>(m: map<K, int>, k: K, v: int)
    requires k !in m
    ensures Total(m[k := v]) == Total(m) + v
  {
    TotalRemove(m[k := v], k);
    assert m[k := v] - {k} == m;
  }

  lemma {:induction false} TotalZero<K(!new)>(m: map<K, int>)
    requires forall k :: k in m ==> m[k] == 0
    ensures Total(m) == 0
    decreases |m|
  {
    if m != map[] {
      var k :| k in m;
      TotalRemove(m, k);
      TotalZero(m - {k});
    }
  }

  lemma {:induction false} TotalNonNegative<K(!new)>(m: map<K, int>)
    requires forall k :: k in m ==> m[k] >= 0
    ensures Total(m) >= 0
    decreases |m|
  {
    if m != map[] {
      var k :| k in m;
      TotalRemove(m, k);
      TotalNonNegative(m - {k});
    }
  }

  /** A map that nowhere exceeds another on the same keys has no larger total. */
  lemma {:induction false} TotalMonotone<K(!new)>(m: map<K, int>, n: map<K, int>)
    requires m.Keys == n.Keys && forall k :: k in m ==> m[k] <= n[k]
    ensures Total(m) <= Total(n)
    decreases |m|
  {
    if m == map[] {
      assert n == map[];
    } else {
      var k :| k in m;
      TotalRemove(m, k);
      TotalRemove(n, k);
      TotalMonotone(m - {k}, n - {k});
    }
  }

  /** Maps that agree when absent keys read zero have one total. */
  lemma {:induction false} TotalAgree<K(!new)>(m: map<K, int>, n: map<K, int>)
    requires forall k :: (if k in m then m[k] else 0) == if k in n then n[k] else 0
    ensures Total(m) == Total(n)
    decreases |m|
  {
    if m == map[] {
      TotalZero(n);
    } else {
      var k :| k in m;
      TotalRemove(m, k);
      if k in n {
        TotalRemove(n, k);
      }
      TotalAgree(m - {k}, n - {k});
      assert k !in n ==> n - {k} == n;
    }
  }

  ghost function TotalReal<K(!new)>(m: map<K, real>): real
    decreases |m|
  {
    if m == map[] then 0.0
    else
      var k :| k in m;
      m[k] + TotalReal(m - {k})
  }

  lemma {:induction false} TotalRealRemove<K(!new)>(m: map<K, real>, k: K)
    requires k in m
    ensures TotalReal(m) == m[k] + TotalReal(m - {k})
    decreases |m|
  {
    var j :| j in m && TotalReal(m) == m[j] + TotalReal(m - {j});
    if j != k {
      var both := m - {j} - {k};
      TotalRealRemove(m - {j}, k);
      TotalRealRemove(m - {k}, j);
      assert m - {k} - {j} == both;
    }
  }

  lemma TotalRealUpdate<K(!new)>(m: map<K, real>, k: K, v: real)
    requires k in m
    ensures TotalReal(m[k := v]) == TotalReal(m) - m[k] + v
  {
    TotalRealRemove(m, k);
    TotalRealRemove(m[k := v], k);
    assert m[k := v] - {k} == m - {k};
  }
}
