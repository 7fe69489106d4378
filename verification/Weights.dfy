/** Sums over finite maps, whatever the order in which their keys are visited. */
module Weights {

  /** The sum of all weights. */
  ghost function Total<K>(weights: map<K, int>): int {
    if weights == map[] then 0
    else
      var k :| k in weights;
      weights[k] + Total(weights - {k})
  }

  /** Any key may be taken first. */
  lemma {:induction false} TotalTakes<K>(weights: map<K, int>, k: K)
    requires k in weights
    ensures Total(weights) == weights[k] + Total(weights - {k})
    decreases |weights|
  {
    var j :| j in weights && Total(weights) == weights[j] + Total(weights - {j});
    if j != k {
      assert |weights - {j}| < |weights| by { Fewer(weights, j); }
      assert |weights - {k}| < |weights| by { Fewer(weights, k); }
      TotalTakes(weights - {j}, k);
      TotalTakes(weights - {k}, j);
      assert weights - {j} - {k} == weights - {k} - {j};
    }
  }

  lemma Fewer<K>(weights: map<K, int>, k: K)
    requires k in weights
    ensures |weights - {k}| < |weights|
  {
    assert (weights - {k}).Keys == weights.Keys - {k};
    assert |weights.Keys - {k}| == |weights.Keys| - 1;
    assert |weights| == |weights.Keys| && |weights - {k}| == |(weights - {k}).Keys|;
  }

  /** One more key adds its weight. */
  lemma TotalGrows<K>(weights: map<K, int>, k: K, weight: int)
    requires k !in weights
    ensures Total(weights[k := weight]) == Total(weights) + weight
    ensures |weights[k := weight]| == |weights| + 1
  {
    var more := weights[k := weight];
    TotalTakes(more, k);
    assert more - {k} == weights;
    assert more.Keys == weights.Keys + {k};
    assert |more| == |more.Keys| && |weights| == |weights.Keys|;
  }
}
