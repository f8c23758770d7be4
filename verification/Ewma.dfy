/** The statistical flood detector (monitoring/anomaly.py), over the reals. The variance is kept
    instead of its square root, so `|d| > t * max(sigma, floor)` is stated on squares. */
module Ewma {
  import opened Averages
  import opened Prelude

  datatype Config = Config(alpha: real, threshold: real, warmup: nat)

  const DEFAULT := Config(0.1, 3.0, 10)

  datatype Detector = Detector(mean: Option<real>, variance: real, count: nat)

  const FRESH := Detector(None, 0.0, 0)

  /** `ZeroDivision` stands for the exception raised when both the deviation and its floor vanish. */
  datatype Outcome = Normal | Anomaly | ZeroDivision

  function Abs(x: real): real {
    if x < 0.0 then -x else x
  }

  function Square(x: real): real {
    x * x
  }

  /** 1% of the prior mean plus 1. */
  function Floor(mean: real): real {
    mean * 0.01 + 1.0
  }

  /** Is `|d| / max(sigma, floor)` above the threshold, for the square `variance` of sigma? */
  predicate Exceeds(threshold: real, d: real, variance: real, floor: real) {
    threshold < 0.0 || (Square(threshold) * variance < Square(d) && threshold * floor < Abs(d))
  }

  /** The state after a sample. */
  function Feed(c: Config, s: Detector, x: real): Detector {
    match s.mean
    case None => Detector(Some(x), 0.0, s.count + 1)
    case Some(m) =>
      Detector(Some(Blend(c.alpha, x, m)), Blend(c.alpha, Square(x - m), s.variance), s.count + 1)
  }

  /** The verdict on a sample, from the mean and variance held before it arrived. */
  function Score(c: Config, s: Detector, x: real): Outcome {
    if s.mean.None? || s.count + 1 < c.warmup then Normal
    else if s.variance == 0.0 && Floor(s.mean.value) <= 0.0 then ZeroDivision
    else if Exceeds(c.threshold, x - s.mean.value, s.variance, Floor(s.mean.value)) then Anomaly
    else Normal
  }

  function FeedAll(c: Config, s: Detector, xs: seq<real>): (r: Detector)
    ensures r.count == s.count + |xs|
    ensures (s.mean.Some? || xs != []) ==> r.mean.Some?
  {
    if xs == [] then s else Feed(c, FeedAll(c, s, xs[..|xs| - 1]), xs[|xs| - 1])
  }

  /** Which of the samples raise an alarm. */
  function Verdicts(c: Config, s: Detector, xs: seq<real>): (os: seq<bool>)
    ensures |os| == |xs|
  {
    if xs == [] then []
    else
      var n := |xs| - 1;
      Verdicts(c, s, xs[..n]) + [Score(c, FeedAll(c, s, xs[..n]), xs[n]).Anomaly?]
  }

  function Count(os: seq<bool>): nat {
    if os == [] then 0 else Count(os[..|os| - 1]) + if os[|os| - 1] then 1 else 0
  }

  function Alarms(c: Config, s: Detector, xs: seq<real>): nat {
    Count(Verdicts(c, s, xs))
  }

  // ---------------------------------------------------------------- the band

  predicate AllIn(xs: seq<real>, lo: real, hi: real) {
    forall i :: 0 <= i < |xs| ==> lo <= xs[i] <= hi
  }

  predicate InBand(s: Detector, lo: real, hi: real) {
    && (s.mean.Some? ==> lo <= s.mean.value <= hi)
    && 0.0 <= s.variance <= Square(hi - lo)
  }

  lemma MulNonneg(a: real, b: real)
    requires 0.0 <= a && 0.0 <= b
    ensures 0.0 <= a * b
  {
  }

  lemma MulMono(a: real, x: real, y: real)
    requires 0.0 <= a && x <= y
    ensures a * x <= a * y
  {
    MulNonneg(a, y - x);
    assert a * (y - x) == a * y - a * x;
  }

  lemma BlendWithin(alpha: real, x: real, y: real, lo: real, hi: real)
    requires 0.0 <= alpha <= 1.0 && lo <= x <= hi && lo <= y <= hi
    ensures lo <= Blend(alpha, x, y) <= hi
  {
    MulNonneg(alpha, x - lo);
    MulNonneg(1.0 - alpha, y - lo);
    assert Blend(alpha, x, y) - lo == alpha * (x - lo) + (1.0 - alpha) * (y - lo);
    MulNonneg(alpha, hi - x);
    MulNonneg(1.0 - alpha, hi - y);
    assert hi - Blend(alpha, x, y) == alpha * (hi - x) + (1.0 - alpha) * (hi - y);
  }

  lemma SquareWithin(d: real, w: real)
    requires -w <= d <= w
    ensures 0.0 <= Square(d) <= Square(w)
  {
    if d >= 0.0 {
      assert d * d <= d * w <= w * w;
    } else {
      assert (-d) * (-d) <= (-d) * w <= w * w;
    }
  }

  /** One sample: the mean stays between the bounds and the variance below the squared width.
      A sample is an alarm for sure when it is far outside, and no alarm when the band is narrow. */
  lemma FeedInBand(c: Config, s: Detector, x: real, lo: real, hi: real)
    requires 0.0 <= c.alpha <= 1.0 && InBand(s, lo, hi) && lo <= x <= hi
    ensures InBand(Feed(c, s, x), lo, hi)
    ensures Feed(c, s, x).mean.Some?
  {
    if s.mean.Some? {
      var m := s.mean.value;
      BlendWithin(c.alpha, x, m, lo, hi);
      SquareWithin(x - m, hi - lo);
      BlendWithin(c.alpha, Square(x - m), s.variance, 0.0, Square(hi - lo));
    } else {
      SquareWithin(0.0, hi - lo);
    }
  }

  lemma {:induction false} StreamInBand(c: Config, s: Detector, xs: seq<real>, lo: real, hi: real)
    requires 0.0 <= c.alpha <= 1.0 && InBand(s, lo, hi) && AllIn(xs, lo, hi)
    ensures InBand(FeedAll(c, s, xs), lo, hi)
  {
    if xs != [] {
      var n := |xs| - 1;
      StreamInBand(c, s, xs[..n], lo, hi);
      FeedInBand(c, FeedAll(c, s, xs[..n]), xs[n], lo, hi);
    }
  }

  lemma FreshInBand(lo: real, hi: real)
    requires lo <= hi
    ensures InBand(FRESH, lo, hi)
  {
    SquareWithin(0.0, hi - lo);
  }

  lemma NarrowSampleIsNormal(c: Config, s: Detector, x: real, lo: real, hi: real)
    requires 0.0 <= c.threshold && 0.0 <= lo && InBand(s, lo, hi) && lo <= x <= hi
    requires hi - lo <= c.threshold * Floor(lo)
    ensures Score(c, s, x) == Normal
  {
    if s.mean.Some? {
      MulMono(c.threshold, Floor(lo), Floor(s.mean.value));
      assert Abs(x - s.mean.value) <= c.threshold * Floor(s.mean.value);
    }
  }

  /** A stream of non-negative samples that vary by at most `threshold * (1 + lo/100)` never
      raises an alarm. */
  lemma {:induction false} NarrowStreamNoAlarm(c: Config, xs: seq<real>, lo: real, hi: real)
    requires 0.0 <= c.alpha <= 1.0 && 0.0 <= c.threshold && 0.0 <= lo && AllIn(xs, lo, hi)
    requires hi - lo <= c.threshold * Floor(lo)
    ensures Alarms(c, FRESH, xs) == 0
  {
    if xs != [] {
      var n := |xs| - 1;
      NarrowStreamNoAlarm(c, xs[..n], lo, hi);
      assert lo <= xs[n] <= hi;
      FreshInBand(lo, hi);
      StreamInBand(c, FRESH, xs[..n], lo, hi);
      NarrowSampleIsNormal(c, FeedAll(c, FRESH, xs[..n]), xs[n], lo, hi);
    }
  }

  lemma MulPositive(a: real, b: real)
    requires 0.0 < a && 0.0 < b
    ensures 0.0 < a * b
  {
  }

  lemma SquareLess(b: real, d: real)
    requires 0.0 <= b < d
    ensures b * b < d * d
  {
    MulNonneg(b, d - b);
    assert d * d - b * b == (d - b) * (d - b) + 2.0 * (b * (d - b));
    MulPositive(d - b, d - b);
  }

  lemma SquareOfProduct(t: real, w: real)
    ensures (t * w) * (t * w) == (t * t) * (w * w)
  {
  }

  lemma FarDeviationExceeds(t: real, d: real, variance: real, w: real)
    requires 0.0 < t && 0.0 <= w && d > t * w && variance <= Square(w)
    ensures Square(t) * variance < Square(d)
  {
    MulNonneg(t, w);
    SquareLess(t * w, d);
    MulNonneg(t, t);
    MulMono(t * t, variance, w * w);
    SquareOfProduct(t, w);
  }

  /** The deviation d, of either sign, is larger than the threshold times width and floor. */
  lemma FarSampleExceeds(t: real, m: real, variance: real, d: real, w: real, hi: real)
    requires 0.0 < t && 0.0 <= m <= hi && 0.0 <= w && variance <= Square(w)
    requires Abs(d) > t * w && Abs(d) > t * Floor(hi)
    ensures Floor(m) > 0.0 && Exceeds(t, d, variance, Floor(m))
  {
    FarDeviationExceeds(t, Abs(d), variance, w);
    MulMono(t, Floor(m), Floor(hi));
  }

  /** After warm-up, a sample above the band by more than the threshold times the larger of the
      band's width and `1 + hi/100` is always an alarm. */
  lemma FarSampleAlarms(c: Config, xs: seq<real>, x: real, lo: real, hi: real)
    requires 0.0 <= c.alpha <= 1.0 && 0.0 < c.threshold && 0.0 <= lo
    requires xs != [] && AllIn(xs, lo, hi) && c.warmup <= |xs| + 1
    requires x > hi + c.threshold * (hi - lo) && x > hi + c.threshold * (1.0 + hi / 100.0)
    ensures Score(c, FeedAll(c, FRESH, xs), x) == Anomaly
  {
    OutsideAlarms(c, xs, x, lo, hi);
  }

  /** Likewise for a sample that far below the band. */
  lemma FarBelowAlarms(c: Config, xs: seq<real>, x: real, lo: real, hi: real)
    requires 0.0 <= c.alpha <= 1.0 && 0.0 < c.threshold && 0.0 <= lo
    requires xs != [] && AllIn(xs, lo, hi) && c.warmup <= |xs| + 1
    requires x < lo - c.threshold * (hi - lo) && x < lo - c.threshold * (1.0 + hi / 100.0)
    ensures Score(c, FeedAll(c, FRESH, xs), x) == Anomaly
  {
    OutsideAlarms(c, xs, x, lo, hi);
  }

  lemma OutsideAlarms(c: Config, xs: seq<real>, x: real, lo: real, hi: real)
    requires 0.0 <= c.alpha <= 1.0 && 0.0 < c.threshold && 0.0 <= lo
    requires xs != [] && AllIn(xs, lo, hi) && c.warmup <= |xs| + 1
    requires (x > hi + c.threshold * (hi - lo) && x > hi + c.threshold * Floor(hi))
          || (x < lo - c.threshold * (hi - lo) && x < lo - c.threshold * Floor(hi))
    ensures Score(c, FeedAll(c, FRESH, xs), x) == Anomaly
  {
    hide Square, Exceeds, Feed, Floor, AllIn;
    FirstInBand(xs, lo, hi);
    FreshInBand(lo, hi);
    StreamInBand(c, FRESH, xs, lo, hi);
    var s := FeedAll(c, FRESH, xs);
    MulNonneg(c.threshold, hi - lo);
    OutsideIsFar(s.mean.value, x, lo, hi, c.threshold * (hi - lo), c.threshold * Floor(hi));
    FarSampleExceeds(c.threshold, s.mean.value, s.variance, x - s.mean.value, hi - lo, hi);
  }

  lemma FirstInBand(xs: seq<real>, lo: real, hi: real)
    requires xs != [] && AllIn(xs, lo, hi)
    ensures lo <= hi
  {
    assert lo <= xs[0] <= hi;
  }

  lemma OutsideIsFar(m: real, x: real, lo: real, hi: real, a: real, b: real)
    requires lo <= m <= hi && ((x > hi + a && x > hi + b) || (x < lo - a && x < lo - b))
    requires a >= 0.0
    ensures Abs(x - m) > a && Abs(x - m) > b
  {
  }

  // ---------------------------------------------------------------- the z-score

  lemma SquaresCompare(a: real, b: real)
    requires 0.0 <= a && 0.0 <= b
    ensures a * a < b * b <==> a < b
  {
    if a < b {
      SquareLess(a, b);
    } else if b < a {
      SquareLess(b, a);
    }
  }

  lemma QuotientExceeds(a: real, b: real, t: real)
    requires 0.0 < b
    ensures a / b > t <==> a > t * b
  {
    var q := a / b;
    assert q * b == a;
    if q > t {
      MulPositive(q - t, b);
      assert (q - t) * b == q * b - t * b;
    } else {
      MulNonneg(t - q, b);
      assert (t - q) * b == t * b - q * b;
    }
  }

  lemma ExceedsBoth(t: real, d: real, sigma: real, floor: real)
    requires 0.0 <= t && 0.0 <= sigma && 0.0 < Larger(sigma, floor)
    ensures Exceeds(t, d, sigma * sigma, floor) <==> Abs(d) > t * Larger(sigma, floor)
  {
    SquareOfProduct(t, sigma);
    MulNonneg(t, sigma);
    SquaresCompare(t * sigma, Abs(d));
    assert Square(d) == Abs(d) * Abs(d);
    MulMono(t, sigma, Larger(sigma, floor));
    MulMono(t, floor, Larger(sigma, floor));
  }

  function Larger(a: real, b: real): real {
    if a < b then b else a
  }

  /** What the detector decides, for every state, sample and configuration: nothing before the
      warm-up ends; then it divides the distance of the sample from the mean, on either side, by the
      larger of the standard deviation and 1 + mean/100, and raises an alarm exactly when the
      quotient is above the threshold. It fails only when that divisor is zero. */
  lemma ScoreIsZTest(c: Config, s: Detector, x: real, sigma: real)
    requires s.mean.Some? && 0.0 <= sigma && sigma * sigma == s.variance
    ensures var m := s.mean.value;
      var distance, scale := if x < m then m - x else x - m, Larger(sigma, 1.0 + m / 100.0);
      Score(c, s, x) == if s.count + 1 < c.warmup then Normal
                        else if scale == 0.0 then ZeroDivision
                        else if distance / scale > c.threshold then Anomaly
                        else Normal
  {
    hide Exceeds, Square;
    var m := s.mean.value;
    var distance, scale := Abs(x - m), Larger(sigma, Floor(m));
    RootIsZero(sigma, s.variance);
    if s.count + 1 >= c.warmup && scale != 0.0 {
      QuotientExceeds(distance, scale, c.threshold);
      if c.threshold >= 0.0 {
        ExceedsBoth(c.threshold, x - m, sigma, Floor(m));
      } else {
        NegativeThreshold(c.threshold, x - m, s.variance, Floor(m), distance, scale);
      }
    }
  }

  lemma RootIsZero(sigma: real, variance: real)
    requires 0.0 <= sigma && sigma * sigma == variance
    ensures variance == 0.0 <==> sigma == 0.0
  {
    if sigma > 0.0 {
      ProductPositive(sigma, sigma, variance);
    }
  }

  lemma ProductPositive(a: real, b: real, product: real)
    requires 0.0 < a && 0.0 < b && a * b == product
    ensures 0.0 < product
  {
  }

  /** The detector the agents use: a tenth of each sample enters mean and variance, nothing is
      reported before the tenth sample, and the threshold is three. */
  lemma DefaultDetector(s: Detector, x: real, sigma: real)
    requires s.mean.Some? && 0.0 <= sigma && sigma * sigma == s.variance
    ensures var m, s' := s.mean.value, Feed(DEFAULT, s, x);
      var distance, scale := if x < m then m - x else x - m, Larger(sigma, 1.0 + m / 100.0);
      && s'.mean == Some(0.1 * x + 0.9 * m)
      && s'.variance == 0.1 * ((x - m) * (x - m)) + 0.9 * s.variance
      && s'.count == s.count + 1
      && Score(DEFAULT, s, x) == if s.count < 9 then Normal
                                 else if scale == 0.0 then ZeroDivision
                                 else if distance / scale > 3.0 then Anomaly
                                 else Normal
  {
    hide Score, Blend, Square;
    ScoreIsZTest(DEFAULT, s, x, sigma);
    DefaultBlend(x, s.mean.value);
    DefaultBlend(Square(x - s.mean.value), s.variance);
    SquareIsProduct(x - s.mean.value);
  }

  lemma NegativeThreshold(t: real, d: real, variance: real, floor: real, distance: real, scale: real)
    requires t < 0.0 <= distance && 0.0 < scale
    ensures Exceeds(t, d, variance, floor) && distance > t * scale
  {
    MulPositive(-t, scale);
  }

  // ---------------------------------------------------------------- the alarm budget

  lemma LargeSquare(d: real)
    requires Abs(d) > 3.0
    ensures Square(d) > 9.0
  {
    var e := Abs(d);
    assert d * d == e * e;
    MulNonneg(e - 3.0, e - 3.0);
    assert (e - 3.0) * (e - 3.0) == e * e - 6.0 * e + 9.0;
  }

  predicate NonNegative(s: Detector) {
    s.mean.Some? && s.mean.value >= 0.0 && s.variance >= 0.0
  }

  lemma DefaultAlarm(d: real, variance: real, floor: real)
    requires Exceeds(3.0, d, variance, floor) && floor >= 1.0
    ensures Square(d) > 9.0 && Square(d) > 9.0 * variance
  {
    LargeSquare(d);
  }

  lemma SquareIsProduct(d: real)
    ensures Square(d) == d * d
  {
  }

  lemma DefaultBlend(x: real, y: real)
    ensures Blend(0.1, x, y) == 0.1 * x + 0.9 * y
  {
  }

  /** With the default parameters, an alarm multiplies the variance by more than 1.8 and leaves it
      above 0.9; any other sample keeps at least nine tenths of it. */
  lemma VarianceStep(s: Detector, x: real)
    requires NonNegative(s)
    ensures Feed(DEFAULT, s, x).variance >= 0.9 * s.variance
    ensures Score(DEFAULT, s, x).Anomaly? ==>
              Feed(DEFAULT, s, x).variance > 0.9 && Feed(DEFAULT, s, x).variance > 1.8 * s.variance
  {
    var d := x - s.mean.value;
    SquareWithin(d, Abs(d));
    DefaultBlend(Square(d), s.variance);
    if Score(DEFAULT, s, x).Anomaly? {
      DefaultAlarm(d, s.variance, Floor(s.mean.value));
    }
  }

  lemma FeedNonNegative(s: Detector, x: real)
    requires NonNegative(s) && x >= 0.0
    ensures NonNegative(Feed(DEFAULT, s, x))
  {
    VarianceStep(s, x);
  }

  /** Lower bound for the variance after an alarm and then these verdicts. */
  function Growth(os: seq<bool>): real {
    if os == [] then 0.9
    else
      var g := Growth(os[..|os| - 1]);
      if os[|os| - 1] then 1.8 * g else 0.9 * g
  }

  lemma {:induction false} VarianceGrowth(s: Detector, xs: seq<real>, lo: real, hi: real)
    requires NonNegative(s) && s.variance > 0.9 && 0.0 <= lo && AllIn(xs, lo, hi)
    ensures NonNegative(FeedAll(DEFAULT, s, xs))
    ensures FeedAll(DEFAULT, s, xs).variance > Growth(Verdicts(DEFAULT, s, xs))
  {
    if xs != [] {
      var n := |xs| - 1;
      VarianceGrowth(s, xs[..n], lo, hi);
      var r, os := FeedAll(DEFAULT, s, xs[..n]), Verdicts(DEFAULT, s, xs);
      assert lo <= xs[n] && os[..n] == Verdicts(DEFAULT, s, xs[..n]);
      VarianceStep(r, xs[n]);
      FeedNonNegative(r, xs[n]);
    }
  }

  lemma Products(p: real, q: real)
    ensures p * (0.9 * q) == 0.9 * (p * q)
    ensures (2.0 * p) * (0.9 * q) == 1.8 * (p * q)
  {
  }

  lemma {:induction false} GrowthClosedForm(os: seq<bool>)
    ensures Growth(os) == Pow(2.0, Count(os)) * Pow(0.9, |os| + 1)
  {
    if os == [] {
      assert Pow(2.0, 0) == 1.0 && Pow(0.9, 0) == 1.0 && Pow(0.9, 1) == 0.9 * Pow(0.9, 0);
    } else {
      var init := os[..|os| - 1];
      GrowthClosedForm(init);
      Products(Pow(2.0, Count(init)), Pow(0.9, |init| + 1));
    }
  }

  lemma VarianceBetween(s: Detector, rest: seq<real>, lo: real, hi: real)
    requires NonNegative(s) && s.variance > 0.9 && 0.0 <= lo && AllIn(rest, lo, hi) && InBand(s, lo, hi)
    ensures Growth(Verdicts(DEFAULT, s, rest)) < Square(hi - lo)
  {
    VarianceGrowth(s, rest, lo, hi);
    StreamInBand(DEFAULT, s, rest, lo, hi);
  }

  lemma BudgetOf(s: Detector, rest: seq<real>, bound: real)
    requires Growth(Verdicts(DEFAULT, s, rest)) < bound
    ensures Pow(2.0, Alarms(DEFAULT, s, rest)) * Pow(0.9, |rest| + 1) < bound
  {
    hide Pow, Growth;
    GrowthClosedForm(Verdicts(DEFAULT, s, rest));
  }

  lemma AfterAlarm(before: seq<real>, first: real, lo: real, hi: real)
    requires 0.0 <= lo <= first <= hi && AllIn(before, lo, hi)
    requires Score(DEFAULT, FeedAll(DEFAULT, FRESH, before), first).Anomaly?
    ensures var s := Feed(DEFAULT, FeedAll(DEFAULT, FRESH, before), first);
      InBand(s, lo, hi) && NonNegative(s) && s.variance > 0.9
  {
    var s := FeedAll(DEFAULT, FRESH, before);
    FreshInBand(lo, hi);
    StreamInBand(DEFAULT, FRESH, before, lo, hi);
    FeedInBand(DEFAULT, s, first, lo, hi);
    VarianceStep(s, first);
  }

  /** Alarm budget of the default detector. If every sample so far lies in [lo, hi], then in any
      stretch of n samples that begins with an alarm, the number of alarms a satisfies
      2^(a-1) * 0.9^n < (hi - lo)^2: alarms are rare, however the samples are chosen. */
  lemma AlarmBudget(before: seq<real>, first: real, rest: seq<real>, lo: real, hi: real)
    requires 0.0 <= lo <= first <= hi && AllIn(before, lo, hi) && AllIn(rest, lo, hi)
    requires Score(DEFAULT, FeedAll(DEFAULT, FRESH, before), first).Anomaly?
    ensures var s := Feed(DEFAULT, FeedAll(DEFAULT, FRESH, before), first);
      var a, n := 1 + Alarms(DEFAULT, s, rest), 1 + |rest|;
      Pow(2.0, a - 1) * Pow(0.9, n) < Square(hi - lo)
  {
    hide *;
    AfterAlarm(before, first, lo, hi);
    var s := Feed(DEFAULT, FeedAll(DEFAULT, FRESH, before), first);
    VarianceBetween(s, rest, lo, hi);
    BudgetOf(s, rest, Square(hi - lo));
  }

  // ---------------------------------------------------------------- the closed form

  /** Squared deviation of each later sample from the mean held just before it arrived. */
  function Deviations(c: Config, s: Detector, xs: seq<real>): (ds: seq<real>)
    requires s.mean.Some?
    ensures |ds| == |xs|
  {
    if xs == [] then []
    else
      var n := |xs| - 1;
      Deviations(c, s, xs[..n]) + [Square(xs[n] - FeedAll(c, s, xs[..n]).mean.value)]
  }

  lemma {:induction false} DetectorIsAverage(c: Config, first: real, xs: seq<real>)
    ensures var s := Detector(Some(first), 0.0, 1);
      && FeedAll(c, FRESH, [first] + xs) == FeedAll(c, s, xs)
      && FeedAll(c, s, xs).mean == Some(Average(c.alpha, first, xs))
      && FeedAll(c, s, xs).variance == Average(c.alpha, 0.0, Deviations(c, s, xs))
  {
    hide Blend, Square, Pow;
    var all := [first] + xs;
    assert all[..|all| - 1] == if xs == [] then [] else [first] + xs[..|xs| - 1];
    if xs != [] {
      var n := |xs| - 1;
      DetectorIsAverage(c, first, xs[..n]);
      var ds := Deviations(c, Detector(Some(first), 0.0, 1), xs);
      assert ds[..n] == Deviations(c, Detector(Some(first), 0.0, 1), xs[..n]);
    }
  }

  /** After any stream the mean is the weighted sum of the samples, and the variance the sum,
      with the same weights, of the squared deviations from the prior means. */
  lemma ClosedForm(c: Config, first: real, xs: seq<real>)
    ensures var ds := Deviations(c, Detector(Some(first), 0.0, 1), xs);
      && FeedAll(c, FRESH, [first] + xs).mean == Some(Weighted(c.alpha, first, xs))
      && FeedAll(c, FRESH, [first] + xs).variance == Weighted(c.alpha, 0.0, ds)
  {
    hide *;
    DetectorIsAverage(c, first, xs);
    AverageIsWeighted(c.alpha, first, xs);
    AverageIsWeighted(c.alpha, 0.0, Deviations(c, Detector(Some(first), 0.0, 1), xs));
  }

  // ---------------------------------------------------------------- the objects

  class EWMADetector {
    const config: Config
    var mean: Option<real>
    var variance: real
    var count: nat

    ghost function View(): Detector
      reads this
    {
      Detector(mean, variance, count)
    }

    constructor (config: Config)
      ensures this.config == config && View() == FRESH
    {
      this.config := config;
      mean, variance, count := None, 0.0, 0;
    }

    method FeedSample(value: real) returns (outcome: Outcome)
      modifies this
      ensures View() == Feed(config, old(View()), value)
      ensures outcome == Score(config, old(View()), value)
    {
      hide Blend, Square, Floor, Exceeds;
      count := count + 1;
      if mean.None? {
        mean := Some(value);
        variance := 0.0;
        return Normal;
      }
      var prevMean, prevVariance := mean.value, variance;
      mean := Some(Blend(config.alpha, value, prevMean));
      var diff := value - prevMean;
      variance := Blend(config.alpha, Square(diff), prevVariance);
      if count < config.warmup {
        return Normal;
      }
      if prevVariance == 0.0 && Floor(prevMean) <= 0.0 {
        return ZeroDivision;
      }
      if Exceeds(config.threshold, diff, prevVariance, Floor(prevMean)) {
        return Anomaly;
      }
      return Normal;
    }
  }

  /** One detector per metric, created on first use. */
  function Known(ds: map<string, Detector>, metric: string): Detector {
    if metric in ds then ds[metric] else FRESH
  }

  class AnomalyEngine {
    var detectors: map<string, EWMADetector>

    ghost predicate Valid()
      reads this
    {
      && (forall m :: m in detectors ==> detectors[m].config == DEFAULT)
      && (forall m, n :: m in detectors && n in detectors && m != n ==> detectors[m] != detectors[n])
    }

    ghost function Repr(): set<object>
      reads this
    {
      {this} + set m | m in detectors :: detectors[m]
    }

    ghost function View(): map<string, Detector>
      reads this, detectors.Values
    {
      map m | m in detectors :: detectors[m].View()
    }

    constructor ()
      ensures Valid() && View() == map[] && Repr() == {this}
    {
      detectors := map[];
    }

    method DetectorFor(metric: string) returns (d: EWMADetector)
      requires Valid()
      modifies this
      ensures Valid() && fresh(Repr() - old(Repr()))
      ensures metric in detectors && detectors[metric] == d
      ensures View() == old(View())[metric := Known(old(View()), metric)]
    {
      hide Feed, Score;
      if metric !in detectors {
        var created := new EWMADetector(DEFAULT);
        detectors := detectors[metric := created];
      }
      d := detectors[metric];
    }

    method CheckSample(metric: string, value: real) returns (outcome: Outcome)
      requires Valid()
      modifies Repr()
      ensures Valid() && fresh(Repr() - old(Repr()))
      ensures View() == old(View())[metric := Feed(DEFAULT, Known(old(View()), metric), value)]
      ensures outcome == Score(DEFAULT, Known(old(View()), metric), value)
    {
      hide Feed, Score, Known, EWMADetector.View;
      var d := DetectorFor(metric);
      ghost var before := View();
      assert d.View() == before[metric];
      outcome := d.FeedSample(value);
      forall m | m in detectors && m != metric ensures detectors[m].View() == before[m] {
        assert detectors[m] != d;
      }
      assert View() == before[metric := d.View()];
    }
  }
}
