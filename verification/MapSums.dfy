/** Sums over the entries of a map, independent of the order in which they are visited. */
module MapSums {

  ghost function Sum<V(!new)>(m: map<string, V>, cost: (string, V) -> nat): nat
    decreases |m|
  {
    if m == map[] then 0
    else
      var k :| k in m;
      cost(k, m[k]) + Sum(m - {k}, cost)
  }

  lemma {:induction false} Remove<V(!new)>(m: map<string, V>, k: string, cost: (string, V) -> nat)
    requires k in m
    ensures Sum(m, cost) == cost(k, m[k]) + Sum(m - {k}, cost)
    decreases |m|
  {
    var first :| first in m && Sum(m, cost) == cost(first, m[first]) + Sum(m - {first}, cost);
    if first != k {
      Remove(m - {first}, k, cost);
      Remove(m - {k}, first, cost);
      assert m - {first} - {k} == m - {k} - {first};
    }
  }

  /** Writing one entry changes the sum by exactly the difference of that entry's cost. */
  lemma Update<V(!new)>(m: map<string, V>, k: string, v: V, cost: (string, V) -> nat)
    ensures Sum(m[k := v], cost) + (if k in m then cost(k, m[k]) else 0) == Sum(m, cost) + cost(k, v)
  {
    Remove(m[k := v], k, cost);
    if k in m {
      Remove(m, k, cost);
      assert m[k := v] - {k} == m - {k};
    } else {
      assert m[k := v] - {k} == m;
    }
  }
}
