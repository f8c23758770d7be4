/** Exponentially weighted averages: the recurrence and its closed form. */
module Averages {

  function Blend(alpha: real, x: real, prior: real): real {
    alpha * x + (1.0 - alpha) * prior
  }

  /** Starts at `first` and blends in the values one by one. */
  function Average(alpha: real, first: real, ys: seq<real>): real {
    if ys == [] then first else Blend(alpha, ys[|ys| - 1], Average(alpha, first, ys[..|ys| - 1]))
  }

  function Pow(b: real, n: nat): real {
    if n == 0 then 1.0 else b * Pow(b, n - 1)
  }

  /** Weight of the i-th of n values. */
  function Weight(alpha: real, n: nat, i: nat): real
    requires i < n
  {
    alpha * Pow(1.0 - alpha, n - 1 - i)
  }

  /** Sum of the first i values, each times its weight. */
  function WeightedSum(alpha: real, ys: seq<real>, i: nat): real
    requires i <= |ys|
  {
    if i == 0 then 0.0 else WeightedSum(alpha, ys, i - 1) + Weight(alpha, |ys|, i - 1) * ys[i - 1]
  }

  /** The closed form: `first` times (1 - alpha)^n plus the weighted sum of the n values. */
  function Weighted(alpha: real, first: real, ys: seq<real>): real {
    Pow(1.0 - alpha, |ys|) * first + WeightedSum(alpha, ys, |ys|)
  }

  lemma WeightDecays(alpha: real, n: nat, i: nat, y: real)
    requires i < n
    ensures Weight(alpha, n + 1, i) * y == (1.0 - alpha) * (Weight(alpha, n, i) * y)
  {
    var q, p := 1.0 - alpha, Pow(1.0 - alpha, n - 1 - i);
    assert Pow(q, n - i) == q * p;
    Reassociate(alpha, q, p, y);
  }

  lemma Reassociate(a: real, q: real, p: real, y: real)
    ensures (a * (q * p)) * y == q * ((a * p) * y)
  {
  }

  lemma SumOfMultiples(q: real, a: real, b: real)
    ensures q * a + q * b == q * (a + b)
  {
  }

  lemma {:induction false} OlderTermsDecay(alpha: real, ys: seq<real>, y: real, i: nat)
    requires i <= |ys|
    ensures WeightedSum(alpha, ys + [y], i) == (1.0 - alpha) * WeightedSum(alpha, ys, i)
  {
    hide Weight, Pow;
    if i > 0 {
      OlderTermsDecay(alpha, ys, y, i - 1);
      WeightDecays(alpha, |ys|, i - 1, ys[i - 1]);
      assert (ys + [y])[i - 1] == ys[i - 1];
      SumOfMultiples(1.0 - alpha, WeightedSum(alpha, ys, i - 1), Weight(alpha, |ys|, i - 1) * ys[i - 1]);
    }
  }

  lemma BlendOfSum(alpha: real, y: real, p: real, f: real, w: real)
    ensures Blend(alpha, y, p * f + w) == ((1.0 - alpha) * p) * f + ((1.0 - alpha) * w + alpha * y)
  {
  }

  lemma WeightedStep(alpha: real, first: real, ys: seq<real>, y: real)
    ensures Weighted(alpha, first, ys + [y]) == Blend(alpha, y, Weighted(alpha, first, ys))
  {
    var n := |ys|;
    OlderTermsDecay(alpha, ys, y, n);
    assert Weight(alpha, n + 1, n) == alpha * 1.0;
    assert Pow(1.0 - alpha, n + 1) == (1.0 - alpha) * Pow(1.0 - alpha, n);
    assert WeightedSum(alpha, ys + [y], n + 1) == WeightedSum(alpha, ys + [y], n) + Weight(alpha, n + 1, n) * y;
    BlendOfSum(alpha, y, Pow(1.0 - alpha, n), first, WeightedSum(alpha, ys, n));
  }

  /** The recurrence computes the closed form, for every first value and every sequence. */
  lemma {:induction false} AverageIsWeighted(alpha: real, first: real, ys: seq<real>)
    ensures Average(alpha, first, ys) == Weighted(alpha, first, ys)
  {
    hide Blend, WeightedSum;
    if ys == [] {
      WeightedOfNothing(alpha, first);
    } else {
      var n := |ys| - 1;
      AverageIsWeighted(alpha, first, ys[..n]);
      WeightedStep(alpha, first, ys[..n], ys[n]);
      assert ys[..n] + [ys[n]] == ys;
    }
  }

  lemma WeightedOfNothing(alpha: real, first: real)
    ensures Weighted(alpha, first, []) == first
  {
  }

  /** A constant stream keeps its value: the weights add up to 1. */
  lemma {:induction false} WeightsSumToOne(alpha: real, ys: seq<real>, y: real)
    requires forall i :: 0 <= i < |ys| ==> ys[i] == y
    ensures Weighted(alpha, y, ys) == y
  {
    if ys != [] {
      var n := |ys| - 1;
      WeightsSumToOne(alpha, ys[..n], y);
      WeightedStep(alpha, y, ys[..n], y);
      assert ys[..n] + [y] == ys;
      assert Blend(alpha, y, y) == y;
    }
  }
}
