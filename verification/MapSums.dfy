/** Sums over the entries of a finite map. The market ledger adds up stakes held by an
    unbounded set of users; every fact it needs about such sums is proved here once. */
module MapSums {

  ghost function Sum<K(!new), V>(m: map<K, V>, f: (K, V) -> int): int
    decreases |m|
  {
    if m == map[] then 0
    else
      var k :| k in m;
      f(k, m[k]) + Sum(m - {k}, f)
  }

  /** What one key contributes to a sum. */
  ghost function At<K(!new), V>(m: map<K, V>, f: (K, V) -> int, k: K): int {
    if k in m then f(k, m[k]) else 0
  }

  /** The sum does not depend on the order in which keys are taken out. */
  lemma {:induction false} SumPick<K(!new), V>(m: map<K, V>, f: (K, V) -> int, k: K)
    requires k in m
    ensures Sum(m, f) == f(k, m[k]) + Sum(m - {k}, f)
    decreases |m|
  {
    var k0 :| k0 in m && Sum(m, f) == f(k0, m[k0]) + Sum(m - {k0}, f);
    if k != k0 {
      SumPick(m - {k0}, f, k);
      SumPick(m - {k}, f, k0);
      assert (m - {k0}) - {k} == (m - {k}) - {k0};
    }
  }

  lemma {:induction false} SumCongruent<K(!new), V, W>(m: map<K, V>, m': map<K, W>, f: (K, V) -> int, g: (K, W) -> int)
    requires m.Keys == m'.Keys
    requires forall k :: k in m ==> f(k, m[k]) == g(k, m'[k])
    ensures Sum(m, f) == Sum(m', g)
    decreases |m|
  {
    if m == map[] {
      assert m' == map[];
    } else {
      var k :| k in m;
      assert k in m'.Keys;
      SumPick(m, f, k);
      SumPick(m', g, k);
      SumCongruent(m - {k}, m' - {k}, f, g);
    }
  }

  /** Two sums that differ at most at one key differ by what that key contributes. */
  lemma SumDiffersAt<K(!new), V, W>(m: map<K, V>, m': map<K, W>, f: (K, V) -> int, g: (K, W) -> int, k: K)
    requires m.Keys - {k} == m'.Keys - {k}
    requires forall j :: j in m && j != k ==> j in m'.Keys - {k} && f(j, m[j]) == g(j, m'[j])
    ensures Sum(m', g) - At(m', g, k) == Sum(m, f) - At(m, f, k)
  {
    SumWithout(m, f, k);
    SumWithout(m', g, k);
    assert (m - {k}).Keys == (m' - {k}).Keys;
    SumCongruent(m - {k}, m' - {k}, f, g);
  }

  lemma SumWithout<K(!new), V>(m: map<K, V>, f: (K, V) -> int, k: K)
    ensures Sum(m, f) == At(m, f, k) + Sum(m - {k}, f)
  {
    if k in m {
      SumPick(m, f, k);
    } else {
      assert m - {k} == m;
    }
  }

  /** Summation is linear: a pointwise identity f * a + g == h * b carries over to the sums. */
  lemma {:induction false} SumLinear<K(!new), V>(m: map<K, V>, f: (K, V) -> int, g: (K, V) -> int, h: (K, V) -> int, a: int, b: int)
    requires forall k :: k in m ==> f(k, m[k]) * a + g(k, m[k]) == h(k, m[k]) * b
    ensures Sum(m, f) * a + Sum(m, g) == Sum(m, h) * b
    decreases |m|
  {
    if m != map[] {
      var k :| k in m;
      SumPick(m, f, k);
      SumPick(m, g, k);
      SumPick(m, h, k);
      SumLinear(m - {k}, f, g, h, a, b);
      Distribute(f(k, m[k]), Sum(m - {k}, f), a);
      Distribute(h(k, m[k]), Sum(m - {k}, h), b);
    }
  }

  lemma Distribute(x: int, y: int, a: int)
    ensures (x + y) * a == x * a + y * a
  {
  }

  lemma {:induction false} SumMonotone<K(!new), V>(m: map<K, V>, f: (K, V) -> int, g: (K, V) -> int)
    requires forall k :: k in m ==> f(k, m[k]) <= g(k, m[k])
    ensures Sum(m, f) <= Sum(m, g)
    decreases |m|
  {
    if m != map[] {
      var k :| k in m;
      SumPick(m, f, k);
      SumPick(m, g, k);
      SumMonotone(m - {k}, f, g);
    }
  }

  lemma {:induction false} SumZero<K(!new), V>(m: map<K, V>, f: (K, V) -> int)
    requires forall k :: k in m ==> f(k, m[k]) == 0
    ensures Sum(m, f) == 0
    decreases |m|
  {
    if m != map[] {
      var k :| k in m;
      SumPick(m, f, k);
      SumZero(m - {k}, f);
    }
  }

  /** One nonnegative entry is at most the whole sum. */
  lemma SumBoundsEntry<K(!new), V>(m: map<K, V>, f: (K, V) -> int, k: K)
    requires forall j :: j in m ==> 0 <= f(j, m[j])
    ensures 0 <= At(m, f, k) <= Sum(m, f)
  {
    SumWithout(m, f, k);
    SumZero(m - {k}, (j: K, v: V) => 0);
    SumMonotone(m - {k}, (j: K, v: V) => 0, f);
  }

  /** Writing one entry changes a sum by what the entry contributes. */
  lemma SumUpdate<K(!new), V>(m: map<K, V>, f: (K, V) -> int, k: K, v: V)
    ensures Sum(m[k := v], f) == Sum(m, f) - At(m, f, k) + f(k, v)
  {
    SumDiffersAt(m, m[k := v], f, f, k);
  }

  lemma SumNonNegative<K(!new), V>(m: map<K, V>, f: (K, V) -> int)
    requires forall k :: k in m ==> 0 <= f(k, m[k])
    ensures 0 <= Sum(m, f)
  {
    SumMonotone(m, (k: K, v: V) => 0, f);
    SumZero(m, (k: K, v: V) => 0);
  }
}
