/** Sums of integer-valued tables.

    The shop keeps its rows in maps keyed by primary key, and both of its
    bookkeeping quantities (an order's total, the units of a product held in
    carts) are sums of one integer per row.  This module defines such a sum
    over a map and the few facts about it that the rest of the model needs:
    removing, overwriting and deleting one entry. */
module Ledger {

  /** Some element of a non-empty set; always the same one for the same set. */
  ghost function Pick<K>(s: set<K>): (k: K)
    requires s != {}
    ensures k in s
  {
    var k :| k in s; k
  }

  /** The sum of the values of m at the keys in s. */
  ghost function SumOver<K>(m: map<K, int>, s: set<K>): int
    requires s <= m.Keys
    decreases s
  {
    if s == {} then 0 else var k := Pick(s); m[k] + SumOver(m, s - {k})
  }

  /** The sum of all the values of m. */
  ghost function Sum<K>(m: map<K, int>): int
  {
    SumOver(m, m.Keys)
  }

  /** The sum does not depend on the order in which keys are picked: any key
      of s can be taken out first. */
  lemma {:induction false} SumOverRemove<K>(m: map<K, int>, s: set<K>, k: K)
    requires s <= m.Keys && k in s
    ensures SumOver(m, s) == m[k] + SumOver(m, s - {k})
    decreases s
  {
    var j := Pick(s);
    if j != k {
      SumOverRemove(m, s - {j}, k);
      SumOverRemove(m, s - {k}, j);
      assert s - {j} - {k} == s - {k} - {j};
    }
  }

  /** Two maps that agree on s have the same sum over s. */
  lemma {:induction false} SumOverAgree<K>(m1: map<K, int>, m2: map<K, int>, s: set<K>)
    requires s <= m1.Keys && s <= m2.Keys
    requires forall k :: k in s ==> m1[k] == m2[k]
    ensures SumOver(m1, s) == SumOver(m2, s)
    decreases s
  {
    if s != {} {
      SumOverAgree(m1, m2, s - {Pick(s)});
    }
  }

  /** A sum of zeros is zero. */
  lemma {:induction false} SumOverZero<K>(m: map<K, int>, s: set<K>)
    requires s <= m.Keys
    requires forall k :: k in s ==> m[k] == 0
    ensures SumOver(m, s) == 0
    decreases s
  {
    if s != {} {
      SumOverZero(m, s - {Pick(s)});
    }
  }

  /** A map whose values are all zero sums to zero. */
  lemma SumZero<K>(m: map<K, int>)
    requires forall k :: k in m ==> m[k] == 0
    ensures Sum(m) == 0
  {
    SumOverZero(m, m.Keys);
  }

  /** Overwriting (or inserting) one entry moves the sum by the difference. */
  lemma SumUpdate<K>(m: map<K, int>, k: K, v: int)
    ensures Sum(m[k := v]) == Sum(m) - (if k in m then m[k] else 0) + v
  {
    var m' := m[k := v];
    SumOverRemove(m', m'.Keys, k);
    assert m'.Keys - {k} == m.Keys - {k};
    SumOverAgree(m', m, m.Keys - {k});
    if k in m {
      SumOverRemove(m, m.Keys, k);
    } else {
      assert m.Keys - {k} == m.Keys;
    }
  }

  /** Deleting one entry takes its value out of the sum. */
  lemma SumDelete<K>(m: map<K, int>, k: K)
    ensures Sum(m - {k}) == Sum(m) - (if k in m then m[k] else 0)
  {
    if k in m {
      SumOverRemove(m, m.Keys, k);
      assert (m - {k}).Keys == m.Keys - {k};
      SumOverAgree(m - {k}, m, m.Keys - {k});
    } else {
      assert m - {k} == m;
    }
  }
}
