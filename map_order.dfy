/**
 * Go leaves the order of a `range` over a map unspecified.  Where the
 * order shows in a result, the model takes it as an input: a sequence
 * listing every key of the map exactly once.
 */
module MapOrder {

  /** `order` lists every key of `m` exactly once. */
  ghost predicate Enumerates<V>(order: seq<string>, m: map<string, V>)
  {
    (forall i, j :: 0 <= i < j < |order| ==> order[i] != order[j])
    && (forall k :: k in order <==> k in m)
  }

  /** A duplicate-free listing of a map's keys is as long as the map. */
  lemma EnumeratesSize<V>(order: seq<string>, m: map<string, V>)
    requires Enumerates(order, m)
    ensures |order| == |m|
  {
    DistinctCount(order, |order|);
    assert (set i | 0 <= i < |order| :: order[i]) == m.Keys;
  }

  /** The first `n` elements of a duplicate-free sequence are `n` distinct values. */
  lemma {:induction false} DistinctCount(order: seq<string>, n: nat)
    requires n <= |order|
    requires forall i, j :: 0 <= i < j < |order| ==> order[i] != order[j]
    ensures |set i | 0 <= i < n :: order[i]| == n
  {
    if n > 0 {
      DistinctCount(order, n - 1);
      assert (set i | 0 <= i < n :: order[i]) == (set i | 0 <= i < n - 1 :: order[i]) + {order[n - 1]};
      assert order[n - 1] !in (set i | 0 <= i < n - 1 :: order[i]);
    }
  }
}
