/** Sums over the values of a finite map, and how one update or a pointwise bound moves them. */
module MapTotals {

  ghost function Total<K>(m: map<K, nat>): nat
    decreases |m.Keys|
  {
    if m == map[] then 0 else
    var k :| k in m;
    RemovalShrinks(m, k);
    m[k] + Total(m - {k})
  }

  lemma RemovalShrinks<K>(m: map<K, nat>, k: K)
    requires k in m
    ensures |(m - {k}).Keys| < |m.Keys|
  {
    assert (m - {k}).Keys == m.Keys - {k};
  }

  /** The order in which a sum visits the keys does not matter. */
  lemma {:induction false} TotalSplit<K>(m: map<K, nat>, k: K)
    requires k in m
    ensures Total(m) == m[k] + Total(m - {k})
    decreases |m.Keys|
  {
    var j :| j in m && Total(m) == m[j] + Total(m - {j});
    if j != k {
      RemovalShrinks(m, j);
      RemovalShrinks(m, k);
      TotalSplit(m - {j}, k);
      TotalSplit(m - {k}, j);
      assert m - {j} - {k} == m - {k} - {j};
    }
  }

  lemma TotalUpdate<K>(m: map<K, nat>, k: K, v: nat)
    ensures Total(m[k := v]) == v + Total(m - {k})
    ensures k in m ==> Total(m[k := v]) + m[k] == Total(m) + v
    ensures k !in m ==> Total(m[k := v]) == Total(m) + v
  {
    TotalSplit(m[k := v], k);
    assert m[k := v] - {k} == m - {k};
    if k in m {
      TotalSplit(m, k);
    } else {
      assert m - {k} == m;
    }
  }

  /** A map that is pointwise at most `a` plus `b` sums to at most their sums together. */
  lemma {:induction false} TotalBound<K>(m: map<K, nat>, a: map<K, nat>, b: map<K, nat>)
    requires m.Keys <= a.Keys
    requires forall k :: k in m ==> m[k] <= a[k] + (if k in b then b[k] else 0)
    ensures Total(m) <= Total(a) + Total(b)
    decreases |m.Keys|
  {
    if m != map[] {
      var k :| k in m;
      RemovalShrinks(m, k);
      TotalSplit(m, k);
      TotalSplit(a, k);
      if k in b {
        TotalSplit(b, k);
      } else {
        assert b - {k} == b;
      }
      TotalBound(m - {k}, a - {k}, b - {k});
    }
  }

  lemma TotalMonotone<K>(m: map<K, nat>, a: map<K, nat>)
    requires m.Keys <= a.Keys
    requires forall k :: k in m ==> m[k] <= a[k]
    ensures Total(m) <= Total(a)
  {
    TotalBound(m, a, map[]);
  }

  /** A pointwise drop that is at least `d` at one key drops the sum by at least `d`. */
  lemma TotalDrop<K>(m: map<K, nat>, a: map<K, nat>, k: K, d: nat)
    requires m.Keys == a.Keys && k in m && m[k] + d <= a[k]
    requires forall j :: j in m ==> m[j] <= a[j]
    ensures Total(m) + d <= Total(a)
  {
    TotalSplit(m, k);
    TotalSplit(a, k);
    TotalMonotone(m - {k}, a - {k});
  }

  /** Multiplication as repeated addition, so that sums of costs stay linear for the verifier. */
  function Times(n: nat, k: nat): (r: nat) {
    if n == 0 then 0 else Times(n - 1, k) + k
  }

  lemma {:induction false} TimesIsProduct(n: nat, k: nat)
    ensures Times(n, k) == n * k
  {
    if n > 0 {
      TimesIsProduct(n - 1, k);
    }
  }

  lemma {:induction false} TimesMonotone(m: nat, n: nat, k: nat)
    requires m <= n
    ensures Times(m, k) <= Times(n, k)
    decreases n
  {
    if m < n {
      TimesMonotone(m, n - 1, k);
    }
  }

  /** A map whose values are all at most `bound` sums to at most `bound` per key. */
  lemma {:induction false} TotalUniform<K>(m: map<K, nat>, bound: nat)
    requires forall k :: k in m ==> m[k] <= bound
    ensures Total(m) <= Times(|m.Keys|, bound)
    decreases |m.Keys|
  {
    if m != map[] {
      var k :| k in m;
      var rest := m - {k};
      assert rest.Keys == m.Keys - {k};
      TotalSplit(m, k);
      TotalUniform(rest, bound);
      assert |m.Keys| == |rest.Keys| + 1;
    }
  }
}
