/** Sums over the values of a counter dict, as `sum(d.values())` computes in
    agents/prod_metrics/generate_metrics.py. */
module MapSums {

  /** The count stored under `k`, 0 when absent (a `defaultdict(int)` read). */
  function Get<K>(m: map<K, nat>, k: K): nat {
    if k in m then m[k] else 0
  }

  /** Some key of a non-empty map. */
  ghost function AnyKey<K>(m: map<K, nat>): (k: K)
    requires |m| > 0
    ensures k in m
  {
    var k :| k in m; k
  }

  /** The sum of all values. */
  ghost function SumValues<K>(m: map<K, nat>): nat
    decreases |m|
  {
    if |m| == 0 then 0
    else
      var k := AnyKey(m);
      m[k] + SumValues(m - {k})
  }

  /** The sum does not depend on which key is taken out first. */
  lemma {:induction false} SumValuesRemove<K>(m: map<K, nat>, k: K)
    requires k in m
    ensures SumValues(m) == m[k] + SumValues(m - {k})
    decreases |m|
  {
    var k0 := AnyKey(m);
    if k0 != k {
      SumValuesRemove(m - {k0}, k);
      SumValuesRemove(m - {k}, k0);
      assert (m - {k0}) - {k} == (m - {k}) - {k0};
    }
  }

  /** Storing `v` under `k` changes the sum by the difference. */
  lemma SumValuesUpdate<K>(m: map<K, nat>, k: K, v: nat)
    ensures SumValues(m[k := v]) + Get(m, k) == SumValues(m) + v
  {
    SumValuesRemove(m[k := v], k);
    RemoveUpdated(m, k, v);
    if k in m {
      SumValuesRemove(m, k);
    } else {
      RemoveAbsent(m, k);
    }
  }

  /** Taking out a key that is not there changes nothing. */
  lemma RemoveAbsent<K>(m: map<K, nat>, k: K)
    requires k !in m
    ensures m - {k} == m
  {
  }

  /** Taking `k` out again undoes storing under `k`. */
  lemma RemoveUpdated<K>(m: map<K, nat>, k: K, v: nat)
    ensures m[k := v] - {k} == m - {k}
  {
  }

  /** When every value is positive the sum is at least the number of keys. */
  lemma {:induction false} SumValuesAtLeastSize<K>(m: map<K, nat>)
    requires forall k :: k in m ==> m[k] >= 1
    ensures SumValues(m) >= |m|
    decreases |m|
  {
    if |m| > 0 {
      var k :| k in m;
      SumValuesRemove(m, k);
      SumValuesAtLeastSize(m - {k});
    }
  }

  /** `sum(m.values())`, one key at a time. */
  method SumOf<K>(m: map<K, nat>) returns (s: nat)
    ensures s == SumValues(m)
  {
    s := 0;
    var rest := m;
    while rest != map[]
      invariant s + SumValues(rest) == SumValues(m)
      decreases |rest|
    {
      var k :| k in rest;
      SumValuesRemove(rest, k);
      s := s + rest[k];
      rest := rest - {k};
    }
  }
}
