/** Sums over finite maps. */
module Sums {

  ghost function Sum<K>(m: map<K, nat>): nat
    decreases m.Keys
  {
    if m == map[] then 0
    else
      var k :| k in m;
      assert (m - {k}).Keys < m.Keys;
      m[k] + Sum(m - {k})
  }

  /** The sum does not depend on the order. */
  lemma {:induction false} SumRemove<K>(m: map<K, nat>, k: K)
    requires k in m
    ensures Sum(m) == m[k] + Sum(m - {k})
    decreases m.Keys
  {
    var c :| c in m && Sum(m) == m[c] + Sum(m - {c});
    if c != k {
      SumRemove(m - {c}, k);
      SumRemove(m - {k}, c);
      assert m - {c} - {k} == m - {k} - {c};
    }
  }

  lemma {:induction false} SumMonotone<K>(m: map<K, nat>, m': map<K, nat>)
    requires m'.Keys == m.Keys && forall k :: k in m ==> m'[k] <= m[k]
    ensures Sum(m') <= Sum(m)
    decreases m.Keys
  {
    if m != map[] {
      var c :| c in m;
      SumRemove(m, c);
      SumRemove(m', c);
      SumMonotone(m - {c}, m' - {c});
    } else {
      assert m' == map[];
    }
  }

  function At<K(==)>(m: map<K, nat>, k: K): nat {
    if k in m then m[k] else 0
  }

  lemma SumWithout<K>(m: map<K, nat>, k: K)
    ensures Sum(m) == At(m, k) + Sum(m - {k})
  {
    if k in m {
      SumRemove(m, k);
    } else {
      assert m - {k} == m;
    }
  }

  /** When no other entry grows, the sum changes by at most what entry `k` changes. */
  lemma SumChange<K>(m: map<K, nat>, m': map<K, nat>, k: K)
    requires forall x :: x != k ==> (x in m' <==> x in m)
    requires forall x :: x != k && x in m ==> m'[x] <= m[x]
    ensures Sum(m') + At(m, k) <= Sum(m) + At(m', k)
  {
    SumWithout(m, k);
    SumWithout(m', k);
    SumMonotone(m - {k}, m' - {k});
  }
}
