/** Sums of the values of a finite map. */
module MapSums {

  ghost function Pick<K, V>(m: map<K, V>): (k: K)
    requires m != map[]
    ensures k in m
  {
    assert m.Keys != {};
    var k :| k in m.Keys;
    k
  }

  ghost function Sum<K>(m: map<K, int>): int
    decreases |m|
  {
    if m == map[] then 0
    else
      var k := Pick(m);
      m[k] + Sum(m - {k})
  }

  /** The sum does not depend on the order in which keys are picked. */
  lemma {:induction false} SumRemove<K>(m: map<K, int>, k: K)
    requires k in m
    ensures Sum(m) == m[k] + Sum(m - {k})
    decreases |m|
  {
    var p := Pick(m);
    if k != p {
      SumRemove(m - {p}, k);
      SumRemove(m - {k}, p);
      assert m - {p} - {k} == m - {k} - {p};
    }
  }

  lemma SumSet<K>(m: map<K, int>, k: K, v: int)
    ensures Sum(m[k := v]) == Sum(m) - (if k in m then m[k] else 0) + v
  {
    SumRemove(m[k := v], k);
    assert m[k := v] - {k} == m - {k};
    if k in m {
      SumRemove(m, k);
    } else {
      assert m - {k} == m;
    }
  }

  predicate Linear(m: int, x: int, a: int, y: int, b: int, z: int) {
    m == x - a * y - b * z
  }

  lemma LinearAdds(m: int, ms: int, x: int, xs: int, a: int, y: int, ys: int, b: int, z: int, zs: int)
    requires Linear(m, x, a, y, b, z) && Linear(ms, xs, a, ys, b, zs)
    ensures Linear(m + ms, x + xs, a, y + ys, b, z + zs)
  {
    Distribute(a, y, ys);
    Distribute(b, z, zs);
  }

  lemma {:induction false} SumLinear<K>(m: map<K, int>, x: map<K, int>, a: int, y: map<K, int>, b: int, z: map<K, int>)
    requires m.Keys == x.Keys == y.Keys == z.Keys
    requires forall k | k in m :: Linear(m[k], x[k], a, y[k], b, z[k])
    ensures Linear(Sum(m), Sum(x), a, Sum(y), b, Sum(z))
    decreases |m|
  {
    hide Linear;
    if m == map[] {
      SumLinearEmpty(m, x, a, y, b, z);
    } else {
      var k := Pick(m);
      SumLinear(m - {k}, x - {k}, a, y - {k}, b, z - {k});
      SumRemove(x, k);
      SumRemove(y, k);
      SumRemove(z, k);
      LinearAdds(m[k], Sum(m - {k}), x[k], Sum(x - {k}), a, y[k], Sum(y - {k}), b, z[k], Sum(z - {k}));
    }
  }

  lemma SumLinearEmpty<K>(m: map<K, int>, x: map<K, int>, a: int, y: map<K, int>, b: int, z: map<K, int>)
    requires m == map[] && x.Keys == y.Keys == z.Keys == {}
    ensures Linear(Sum(m), Sum(x), a, Sum(y), b, Sum(z))
  {
    assert x == map[] && y == map[] && z == map[];
  }

  lemma {:induction false} SumNonNegative<K>(m: map<K, int>)
    requires forall k | k in m :: m[k] >= 0
    ensures Sum(m) >= 0
    decreases |m|
  {
    if m != map[] {
      SumNonNegative(m - {Pick(m)});
    }
  }

  lemma Distribute(a: int, x: int, y: int)
    ensures a * (x + y) == a * x + a * y
  {
  }
}
