/** Sums of the values of a finite map, in exact arithmetic, independent of iteration order. */
module Sums {

  /** The sum of `m[k]` over the keys `ks`. */
  ghost function SumOver<K>(m: map<K, real>, ks: set<K>): real
    requires ks <= m.Keys
    decreases ks
  {
    if ks == {} then 0.0 else var k :| k in ks; m[k] + SumOver(m, ks - {k})
  }

  /** The sum of all values of `m`. */
  ghost function Total<K>(m: map<K, real>): real {
    SumOver(m, m.Keys)
  }

  /** Any key may be taken out first: the sum does not depend on the order of the keys. */
  lemma {:induction false} SumOverRemove<K>(m: map<K, real>, ks: set<K>, k: K)
    requires ks <= m.Keys && k in ks
    ensures SumOver(m, ks) == m[k] + SumOver(m, ks - {k})
    decreases ks
  {
    var j :| j in ks && SumOver(m, ks) == m[j] + SumOver(m, ks - {j});
    if j != k {
      SumOverRemove(m, ks - {j}, k);
      SumOverRemove(m, ks - {k}, j);
      assert ks - {j} - {k} == ks - {k} - {j};
    }
  }

  /** Two maps that agree on `ks` have the same sum over `ks`. */
  lemma {:induction false} SumOverAgree<K>(m1: map<K, real>, m2: map<K, real>, ks: set<K>)
    requires ks <= m1.Keys && ks <= m2.Keys
    requires forall k :: k in ks ==> m1[k] == m2[k]
    ensures SumOver(m1, ks) == SumOver(m2, ks)
    decreases ks
  {
    if ks != {} {
      var k :| k in ks && SumOver(m1, ks) == m1[k] + SumOver(m1, ks - {k});
      SumOverRemove(m2, ks, k);
      SumOverAgree(m1, m2, ks - {k});
    }
  }

  /** Overwriting one entry changes the total by the difference. */
  lemma TotalUpdate<K>(m: map<K, real>, k: K, x: real)
    ensures Total(m[k := x]) == Total(m) - (if k in m then m[k] else 0.0) + x
  {
    var m' := m[k := x];
    SumOverRemove(m', m'.Keys, k);
    assert m'.Keys - {k} == m.Keys - {k};
    SumOverAgree(m', m, m.Keys - {k});
    if k in m {
      SumOverRemove(m, m.Keys, k);
    } else {
      assert m.Keys - {k} == m.Keys;
    }
  }

  /** Dropping one key lowers the total by its value. */
  lemma TotalRemove<K>(m: map<K, real>, k: K)
    ensures Total(m - {k}) == Total(m) - (if k in m then m[k] else 0.0)
  {
    var m' := m - {k};
    assert m'.Keys == m.Keys - {k};
    SumOverAgree(m', m, m.Keys - {k});
    if k in m {
      SumOverRemove(m, m.Keys, k);
    } else {
      assert m.Keys - {k} == m.Keys;
    }
  }
}
