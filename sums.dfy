/** Sums over finite maps, used to state the aggregate invariants of the
    ledger (per-period totals, the global token info). */
module Sums {

  /** Some element of a non-empty set. */
  ghost function Pick<K>(s: set<K>): (k: K)
    requires s != {}
    ensures k in s
  {
    var k :| k in s; k
  }

  /** The sum of all values of a finite map. */
  ghost function MapSum<K>(m: map<K, nat>): nat
    decreases |m|
  {
    if m == map[] then 0
    else
      var k := Pick(m.Keys);
      m[k] + MapSum(m - {k})
  }

  lemma RemoveTwo<K>(m: map<K, nat>, j: K, k: K)
    requires j in m && k in m && j != k
    ensures k in m - {j} && j in m - {k}
    ensures (m - {j})[k] == m[k] && (m - {k})[j] == m[j]
    ensures (m - {j}) - {k} == (m - {k}) - {j}
  {
  }

  /** Any key can be taken out first: the sum does not depend on the order. */
  lemma {:induction false} MapSumRemove<K>(m: map<K, nat>, k: K)
    requires k in m
    ensures MapSum(m) == m[k] + MapSum(m - {k})
    decreases |m|
  {
    var j := Pick(m.Keys);
    if j != k {
      RemoveTwo(m, j, k);
      MapSumRemove(m - {j}, k);
      MapSumRemove(m - {k}, j);
    }
  }

  /** Overwriting (or adding) one entry changes the sum by the difference. */
  lemma MapSumUpdate<K>(m: map<K, nat>, k: K, v: nat)
    ensures MapSum(m[k := v]) + (if k in m then m[k] else 0) == MapSum(m) + v
  {
    var m' := m[k := v];
    MapSumRemove(m', k);
    if k in m {
      MapSumRemove(m, k);
      assert m' - {k} == m - {k};
    } else {
      assert m' - {k} == m;
    }
  }

  /** A single value never exceeds the sum. */
  lemma MapSumAtLeastOne<K>(m: map<K, nat>, k: K)
    requires k in m
    ensures m[k] <= MapSum(m)
  {
    MapSumRemove(m, k);
  }

  /** Pointwise smaller values give a smaller sum. */
  lemma {:induction false} MapSumMono<K>(m1: map<K, nat>, m2: map<K, nat>)
    requires m1.Keys == m2.Keys
    requires forall k :: k in m1 ==> m1[k] <= m2[k]
    ensures MapSum(m1) <= MapSum(m2)
    decreases |m1|
  {
    if m1 != map[] {
      var k := Pick(m1.Keys);
      MapSumRemove(m1, k);
      MapSumRemove(m2, k);
      assert (m1 - {k}).Keys == (m2 - {k}).Keys;
      MapSumMono(m1 - {k}, m2 - {k});
    }
  }
}
