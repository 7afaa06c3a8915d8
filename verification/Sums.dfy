/** Sums over the values of a map and over a sequence, for termination measures. */
module Sums {

  ghost function MapSum<K, V>(m: map<K, V>, f: V -> nat): nat
    decreases |m|
  {
    if m == map[] then 0
    else
      var k :| k in m;
      f(m[k]) + MapSum(m - {k}, f)
  }

  lemma {:induction false} MapSumRemove<K, V>(m: map<K, V>, f: V -> nat, k: K)
    requires k in m
    ensures MapSum(m, f) == f(m[k]) + MapSum(m - {k}, f)
    decreases |m|
  {
    var l :| l in m && MapSum(m, f) == f(m[l]) + MapSum(m - {l}, f);
    if l != k {
      MapSumRemove(m - {l}, f, k);
      MapSumRemove(m - {k}, f, l);
      assert m - {l} - {k} == m - {k} - {l};
    }
  }

  /** Changing or adding one entry. */
  lemma MapSumUpdate<K, V>(m: map<K, V>, f: V -> nat, k: K, v: V)
    ensures MapSum(m[k := v], f) + (if k in m then f(m[k]) else 0) == MapSum(m, f) + f(v)
  {
    MapSumRemove(m[k := v], f, k);
    assert m[k := v] - {k} == m - {k};
    if k in m { MapSumRemove(m, f, k); } else { assert m - {k} == m; }
  }

  ghost function SeqSum<T>(ts: seq<T>, f: T -> nat): nat {
    if ts == [] then 0 else f(ts[0]) + SeqSum(ts[1..], f)
  }

  lemma {:induction false} SeqSumAppend<T>(ts: seq<T>, f: T -> nat, t: T)
    ensures SeqSum(ts + [t], f) == SeqSum(ts, f) + f(t)
  {
    if ts == [] {
      assert [t][1..] == [] && ts + [t] == [t];
    } else {
      assert (ts + [t])[1..] == ts[1..] + [t];
      SeqSumAppend(ts[1..], f, t);
    }
  }
}
