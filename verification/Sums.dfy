/** Sums over finite maps: the meaning of a loop over a dictionary's values. */
module Sums {

  ghost function MapSum<K>(m: map<K, real>): real
    decreases |m|
  {
    if m == map[] then 0.0
    else
      var k :| k in m;
      m[k] + MapSum(m - {k})
  }

  lemma {:induction false} MapSumRemove<K>(m: map<K, real>, k: K)
    requires k in m
    ensures MapSum(m) == m[k] + MapSum(m - {k})
    decreases |m|
  {
    var j :| j in m && MapSum(m) == m[j] + MapSum(m - {j});
    if j != k {
      MapSumRemove(m - {j}, k);
      MapSumRemove(m - {k}, j);
      assert m - {j} - {k} == m - {k} - {j};
    }
  }

  lemma MapSumUpdate<K>(m: map<K, real>, k: K, v: real)
    ensures MapSum(m[k := v]) == MapSum(m - {k}) + v
  {
    MapSumRemove(m[k := v], k);
    assert m[k := v] - {k} == m - {k};
  }

  lemma MapSumInsert<K>(m: map<K, real>, k: K, v: real)
    requires k !in m
    ensures MapSum(m[k := v]) == MapSum(m) + v
  {
    MapSumUpdate(m, k, v);
    assert m - {k} == m;
  }

  /** What a key adds to a sum: its value, or nothing when it is absent. */
  function At<K>(m: map<K, real>, k: K): real
  {
    if k in m then m[k] else 0.0
  }

  /** Two maps that agree away from one key have sums that differ by that key alone. */
  lemma MapSumAway<K>(m: map<K, real>, n: map<K, real>, k: K)
    requires m - {k} == n - {k}
    ensures MapSum(n) - MapSum(m) == At(n, k) - At(m, k)
  {
    if k in m { MapSumRemove(m, k); } else { assert m - {k} == m; }
    if k in n { MapSumRemove(n, k); } else { assert n - {k} == n; }
  }

  lemma AddToMapSum<K>(m: map<K, real>, k: K, x: real)
    ensures MapSum(m[k := At(m, k) + x]) == MapSum(m) + x
  {
    assert m[k := At(m, k) + x] - {k} == m - {k};
    MapSumAway(m, m[k := At(m, k) + x], k);
  }
}
