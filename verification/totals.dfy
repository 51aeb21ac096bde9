/** Sums of the values of a map, and the map a counting loop builds. */
module Totals {

  ghost function Sum<K>(m: map<K, nat>): nat
    decreases |m|
  {
    if m == map[] then 0
    else
      SomeKey(m);
      var k :| k in m;
      m[k] + Sum(m - {k})
  }

  lemma SomeKey<K>(m: map<K, nat>)
    requires m != map[]
    ensures exists k :: k in m
  {
    assert m.Keys != {};
  }

  // Any key can be taken out first.
  lemma {:induction false} SumWithout<K>(m: map<K, nat>, k: K)
    requires k in m
    ensures Sum(m) == m[k] + Sum(m - {k})
    decreases |m|
  {
    SomeKey(m);
    var j :| j in m && Sum(m) == m[j] + Sum(m - {j});
    if j != k {
      SumWithout(m - {j}, k);
      SumWithout(m - {k}, j);
      assert m - {j} - {k} == m - {k} - {j};
    }
  }

  lemma SumUpdate<K>(m: map<K, nat>, k: K, v: nat)
    ensures Sum(m[k := v]) == Sum(m) - (if k in m then m[k] else 0) + v
  {
    SumWithout(m[k := v], k);
    if k in m {
      SumWithout(m, k);
      assert m[k := v] - {k} == m - {k};
    } else {
      assert m[k := v] - {k} == m;
    }
  }

  function Get<K(==)>(m: map<K, nat>, k: K): nat {
    if k in m then m[k] else 0
  }

  function Add<K(==)>(m: map<K, nat>, k: K, n: nat): map<K, nat> {
    m[k := Get(m, k) + n]
  }

  lemma SumAdd<K>(m: map<K, nat>, k: K, n: nat)
    ensures Sum(Add(m, k, n)) == Sum(m) + n
  {
    SumUpdate(m, k, Get(m, k) + n);
  }
}
