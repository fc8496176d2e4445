/** Sums over the rows of a keyed table. */
module MapSums {

  ghost function Pick<K, V>(m: map<K, V>): (k: K)
    requires m.Keys != {}
    ensures k in m
  {
    var k :| k in m.Keys;
    k
  }

  ghost function MapSum<K, V>(m: map<K, V>, f: V -> int): int
    decreases |m|
  {
    if m.Keys == {} then 0 else
      var k := Pick(m);
      f(m[k]) + MapSum(m - {k}, f)
  }

  /** Any row can be taken out first. */
  lemma {:induction false} MapSumRemove<K, V>(m: map<K, V>, k: K, f: V -> int)
    requires k in m
    ensures MapSum(m, f) == f(m[k]) + MapSum(m - {k}, f)
    decreases |m|
  {
    var j := Pick(m);
    if j != k {
      MapSumRemove(m - {j}, k, f);
      MapSumRemove(m - {k}, j, f);
      assert m - {j} - {k} == m - {k} - {j};
    }
  }

  /** Writing a row, new or not, replaces its old contribution. */
  lemma MapSumWrite<K, V>(m: map<K, V>, k: K, v: V, f: V -> int)
    ensures MapSum(m[k := v], f) == MapSum(m, f) - (if k in m then f(m[k]) else 0) + f(v)
  {
    MapSumRemove(m[k := v], k, f);
    if k in m {
      MapSumRemove(m, k, f);
      assert m[k := v] - {k} == m - {k};
    } else {
      assert m[k := v] - {k} == m;
    }
  }

  lemma {:induction false} MapSumNonNegative<K, V>(m: map<K, V>, f: V -> int)
    requires forall k :: k in m ==> 0 <= f(m[k])
    ensures 0 <= MapSum(m, f)
    decreases |m|
  {
    if m.Keys != {} {
      MapSumNonNegative(m - {Pick(m)}, f);
    }
  }

  lemma MapSumAtLeast<K, V>(m: map<K, V>, k: K, f: V -> int)
    requires k in m && forall j :: j in m ==> 0 <= f(m[j])
    ensures f(m[k]) <= MapSum(m, f)
  {
    MapSumRemove(m, k, f);
    MapSumNonNegative(m - {k}, f);
  }

  lemma {:induction false} MapSumMonotone<K, V, W>(a: map<K, V>, b: map<K, W>, f: V -> int, g: W -> int)
    requires a.Keys == b.Keys && forall k :: k in a ==> f(a[k]) <= g(b[k])
    ensures MapSum(a, f) <= MapSum(b, g)
    decreases |a|
  {
    if a.Keys != {} {
      var k := Pick(a);
      MapSumMonotone(a - {k}, b - {k}, f, g);
      MapSumRemove(b, k, g);
    }
  }

  lemma MapSumEqual<K, V, W>(a: map<K, V>, b: map<K, W>, f: V -> int, g: W -> int)
    requires a.Keys == b.Keys && forall k :: k in a ==> f(a[k]) == g(b[k])
    ensures MapSum(a, f) == MapSum(b, g)
  {
    MapSumMonotone(a, b, f, g);
    MapSumMonotone(b, a, g, f);
  }

  lemma {:induction false} MapSumAllZero<K, V>(m: map<K, V>, f: V -> int)
    requires forall k :: k in m ==> f(m[k]) == 0
    ensures MapSum(m, f) == 0
    decreases |m|
  {
    if m.Keys != {} {
      MapSumAllZero(m - {Pick(m)}, f);
    }
  }

  lemma MapSumZero<K, V>(m: map<K, V>, f: V -> int)
    requires MapSum(m, f) == 0 && forall k :: k in m ==> 0 <= f(m[k])
    ensures forall k :: k in m ==> f(m[k]) == 0
  {
    forall k | k in m ensures f(m[k]) == 0 {
      MapSumAtLeast(m, k, f);
    }
  }

  lemma {:induction false} MapSumOfSums<K, V>(m: map<K, V>, f: V -> int, g: V -> int, h: V -> int)
    requires forall k :: k in m ==> h(m[k]) == f(m[k]) + g(m[k])
    ensures MapSum(m, h) == MapSum(m, f) + MapSum(m, g)
    decreases |m|
  {
    if m.Keys != {} {
      MapSumOfSums(m - {Pick(m)}, f, g, h);
    }
  }
}
