/**
 Sums of natural-number weights over a finite map, the shape of
 `SELECT sum(column) FROM table WHERE ...`.
 */
module FiniteSums {

  ghost function Total<K>(weights: map<K, nat>): nat
    decreases |weights|
  {
    if weights == map[] then 0
    else
      var k :| k in weights;
      assert |weights - {k}| < |weights| by { CardinalityOfRemoval(weights, k); }
      weights[k] + Total(weights - {k})
  }

  lemma CardinalityOfRemoval<K, V>(m: map<K, V>, k: K)
    requires k in m
    ensures |m - {k}| == |m| - 1
  {
    assert (m - {k}).Keys == m.Keys - {k};
    assert |(m - {k}).Keys| == |m - {k}| && |m.Keys| == |m|;
  }

  /** Any key may be taken out first. */
  lemma {:induction false} TotalPeel<K>(weights: map<K, nat>, k: K)
    requires k in weights
    ensures Total(weights) == weights[k] + Total(weights - {k})
    decreases |weights|
  {
    var p :| p in weights && Total(weights) == weights[p] + Total(weights - {p});
    if p != k {
      CardinalityOfRemoval(weights, p);
      CardinalityOfRemoval(weights, k);
      TotalPeel(weights - {p}, k);
      TotalPeel(weights - {k}, p);
      assert weights - {p} - {k} == weights - {k} - {p};
    }
  }

  /** The effect of one UPDATE or INSERT on a sum. */
  lemma TotalUpdate<K>(weights: map<K, nat>, k: K, n: nat)
    ensures Total(weights[k := n]) == Total(weights) + n - (if k in weights then weights[k] else 0)
  {
    var updated := weights[k := n];
    TotalPeel(updated, k);
    if k in weights {
      TotalPeel(weights, k);
      assert updated - {k} == weights - {k};
    } else {
      assert updated - {k} == weights;
    }
  }

  /** A sum splits over a selection of the keys and its complement. */
  lemma {:induction false} TotalSplit<K>(weights: map<K, nat>, selected: set<K>)
    ensures Total(weights) == Total(weights - selected) + Total(map k | k in weights && k in selected :: weights[k])
    decreases |weights|
  {
    var chosen := map k | k in weights && k in selected :: weights[k];
    if weights == map[] {
      assert weights - selected == map[] && chosen == map[];
    } else {
      var k :| k in weights;
      CardinalityOfRemoval(weights, k);
      TotalPeel(weights, k);
      TotalSplit(weights - {k}, selected);
      var restChosen := map x | x in weights - {k} && x in selected :: (weights - {k})[x];
      if k in selected {
        TotalPeel(chosen, k);
        assert chosen - {k} == restChosen;
        assert weights - {k} - selected == weights - selected;
      } else {
        TotalPeel(weights - selected, k);
        assert chosen == restChosen;
        assert weights - selected - {k} == weights - {k} - selected;
      }
    }
  }

  lemma {:induction false} TotalOfZeros<K>(weights: map<K, nat>)
    requires forall k :: k in weights ==> weights[k] == 0
    ensures Total(weights) == 0
    decreases |weights|
  {
    if weights != map[] {
      var k :| k in weights;
      CardinalityOfRemoval(weights, k);
      TotalPeel(weights, k);
      TotalOfZeros(weights - {k});
    }
  }

  /** A single row never weighs more than the sum. */
  lemma TotalBoundsRow<K>(weights: map<K, nat>, k: K)
    requires k in weights
    ensures weights[k] <= Total(weights)
  {
    TotalPeel(weights, k);
  }
}
