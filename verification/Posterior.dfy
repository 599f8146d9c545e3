/** The Normal-Normal posterior on per-trade ROI (core/eval/posterior.py), in exact
    arithmetic. A square root is whatever non-negative number squares to its argument. */
module Posterior {
  import opened Lists
  import Reals

  const Z := 1.96
  const VAR_FLOOR := 0.000000001

  function Self(): real -> real { (x: real) => x }

  function Mean(xs: seq<real>): real
    requires |xs| > 0
  {
    SumReal(xs, Self()) / |xs| as real
  }

  function SquaredFrom(m: real): real -> real { (x: real) => (x - m) * (x - m) }

  /** The sample variance, with n - 1 in the denominator. */
  function Variance(xs: seq<real>): real
    requires |xs| > 1
  {
    SumReal(xs, SquaredFrom(Mean(xs))) / (|xs| - 1) as real
  }

  function Product(x: real, y: real): (r: real)
    ensures x > 0.0 && y > 0.0 ==> r > 0.0
  {
    x * y
  }

  function Square(x: real): real { Product(x, x) }

  function Sigma2(rois: seq<real>, tau: real): real
    requires |rois| > 0
  {
    if |rois| == 1 then Square(tau)
    else if Variance(rois) < VAR_FLOOR then VAR_FLOOR else Variance(rois)
  }

  datatype Belief = Belief(mean: real, variance: real)

  /** The posterior from a prior and a data precision. */
  function Combine(prior: real, data: real, sampleMean: real): Belief
    requires prior > 0.0 && data > 0.0
  {
    Belief(sampleMean * data / (prior + data), 1.0 / (prior + data))
  }

  function Precision(n: nat, sigma2: real): real
    requires sigma2 > 0.0
  {
    n as real / sigma2
  }

  lemma Sigma2Positive(rois: seq<real>, tau: real)
    requires |rois| > 0 && tau > 0.0
    ensures Sigma2(rois, tau) > 0.0
  {
  }

  lemma QuotientPositive(a: real, b: real)
    requires a > 0.0 && b > 0.0
    ensures a / b > 0.0
  {
    var q := a / b;
    assert q * b == a;
    if q <= 0.0 { Reals.Scale(q, 0.0, b); }
  }

  function PosteriorOf(rois: seq<real>, tau: real): Belief
    requires tau > 0.0
  {
    QuotientPositive(1.0, Square(tau));
    if |rois| == 0 then Belief(0.0, 1.0 / (1.0 / Square(tau)))
    else
      Sigma2Positive(rois, tau);
      QuotientPositive(|rois| as real, Sigma2(rois, tau));
      Combine(1.0 / Square(tau), Precision(|rois|, Sigma2(rois, tau)), Mean(rois))
  }

  datatype Interval = Interval(mean: real, low: real, high: real)

  /** posterior_edge: None when tau is refused, otherwise mean and interval, given the
      posterior standard deviation. */
  function PosteriorEdge(rois: seq<real>, tau: real, sd: real): Option<Interval>
    requires tau > 0.0 ==> sd >= 0.0 && sd * sd == PosteriorOf(rois, tau).variance
  {
    if tau <= 0.0 then None
    else
      var belief := PosteriorOf(rois, tau);
      Some(Interval(belief.mean, belief.mean - Z * sd, belief.mean + Z * sd))
  }

  // ---------------------------------------------------------------- mean, variance and noise

  function Deviation(m: real): real -> real { (x: real) => x - m }

  function Squares(): real -> real { (x: real) => x * x }

  lemma {:induction false} DeviationsFrom(xs: seq<real>, m: real)
    ensures SumReal(xs, Deviation(m)) == SumReal(xs, Self()) - |xs| as real * m
    decreases |xs|
  {
    if |xs| == 0 {
    } else {
      DeviationsFrom(xs[..|xs| - 1], m);
      Reals.Distribute((|xs| - 1) as real, m);
    }
  }

  /** The deviations from the mean balance. */
  lemma MeanBalances(xs: seq<real>)
    requires |xs| > 0
    ensures SumReal(xs, Deviation(Mean(xs))) == 0.0
  {
    DeviationsFrom(xs, Mean(xs));
  }

  lemma {:induction false} SumScales(xs: seq<real>, f: real -> real, k: real, g: real -> real)
    requires forall x :: f(x) == Product(k, g(x))
    ensures SumReal(xs, f) == Product(k, SumReal(xs, g))
    decreases |xs|
  {
    if |xs| == 0 {
    } else {
      SumScales(xs[..|xs| - 1], f, k, g);
      OneMoreTerm(k, SumReal(xs[..|xs| - 1], g), g(xs[|xs| - 1]));
    }
  }

  lemma OneMoreTerm(k: real, d: real, more: real)
    ensures Product(k, d + more) == Product(k, d) + Product(k, more)
  {
  }

  lemma SquareAround(x: real, m: real, c: real, k: real, v: real)
    requires k == 2.0 * (c - m) && v == Square(c - m)
    ensures SquaredFrom(m)(x) == SquaredFrom(c)(x) + Crossed(k, c)(x) + v
  {
    BinomialSquare(x - c, c - m, x - m, k);
  }

  lemma BinomialSquare(a: real, b: real, y: real, k: real)
    requires y == a + b && k == 2.0 * b
    ensures y * y == a * a + k * a + b * b
  {
  }

  function Crossed(k: real, c: real): real -> real { (x: real) => k * (x - c) }

  lemma {:induction false} SquaresAround(xs: seq<real>, m: real, c: real, k: real, v: real)
    requires k == 2.0 * (c - m) && v == Square(c - m)
    ensures SumReal(xs, SquaredFrom(m)) == SumReal(xs, SquaredFrom(c)) + SumReal(xs, Crossed(k, c)) + Product(|xs| as real, v)
    decreases |xs|
  {
    if |xs| == 0 {
    } else {
      SquaresAround(xs[..|xs| - 1], m, c, k, v);
      SquareAround(xs[|xs| - 1], m, c, k, v);
      OneMoreSquare(|xs| - 1, v);
    }
  }

  lemma OneMoreSquare(n: nat, square: real)
    ensures Product((n + 1) as real, square) == Product(n as real, square) + square
  {
    Reals.Distribute(n as real, square);
  }

  lemma CrossedCancels(xs: seq<real>, k: real)
    requires |xs| > 0
    ensures SumReal(xs, Crossed(k, Mean(xs))) == 0.0
  {
    MeanBalances(xs);
    SumScales(xs, Crossed(k, Mean(xs)), k, Deviation(Mean(xs)));
  }

  /** Around the mean the cross terms cancel. */
  lemma SquaresAroundMean(xs: seq<real>, m: real)
    requires |xs| > 0
    ensures SumReal(xs, SquaredFrom(m)) == SumReal(xs, SquaredFrom(Mean(xs))) + Product(|xs| as real, Square(Mean(xs) - m))
  {
    CrossedCancels(xs, 2.0 * (Mean(xs) - m));
    SquaresAround(xs, m, Mean(xs), 2.0 * (Mean(xs) - m), Square(Mean(xs) - m));
  }

  lemma {:induction false} SquaresFromZero(xs: seq<real>)
    ensures SumReal(xs, SquaredFrom(0.0)) == SumReal(xs, Squares())
    decreases |xs|
  {
    if |xs| == 0 {
    } else {
      SquaresFromZero(xs[..|xs| - 1]);
    }
  }

  /** Of two trades or more the noise is the sample variance, by moments: the sum of squares less
      n times the squared mean, over n - 1, but never under a billionth. */
  lemma NoiseIsSampleVariance(rois: seq<real>, tau: real)
    requires |rois| > 1
    ensures var n := |rois| as real;
            var moments := (SumReal(rois, Squares()) - Product(n, Square(Mean(rois)))) / (n - 1.0);
            Sigma2(rois, tau) == if moments < 0.000000001 then 0.000000001 else moments
  {
    SquaresAroundMean(rois, 0.0);
    SquaresFromZero(rois);
    assert Mean(rois) - 0.0 == Mean(rois);
    VarianceIs(rois, SumReal(rois, Squares()) - Product(|rois| as real, Square(Mean(rois))));
  }

  lemma VarianceIs(rois: seq<real>, total: real)
    requires |rois| > 1 && SumReal(rois, SquaredFrom(Mean(rois))) == total
    ensures Variance(rois) == total / (|rois| as real - 1.0)
  {
    assert (|rois| - 1) as real == |rois| as real - 1.0;
  }

  // ---------------------------------------------------------------- the posterior is the best compromise

  /** What a guess costs: its square by the prior's measure and its squared distances from the
      returns by the noise's. */
  function Loss(rois: seq<real>, prior: real, noise: real, guess: real): real {
    Product(prior, Square(guess)) + Product(noise, SumReal(rois, SquaredFrom(guess)))
  }

  /** A guess costs more than the posterior mean by its squared distance over the posterior
      variance: so the mean is the one best guess, and the variance says how fast others worsen. */
  lemma PosteriorIsBest(rois: seq<real>, tau: real, prior: real, noise: real, guess: real)
    requires tau > 0.0 && |rois| > 0
    requires prior > 0.0 && prior * Square(tau) == 1.0 && noise > 0.0 && noise * Sigma2(rois, tau) == 1.0
    ensures var b := PosteriorOf(rois, tau);
            && b.variance > 0.0
            && Product(b.variance, Loss(rois, prior, noise, guess) - Loss(rois, prior, noise, b.mean)) == Square(guess - b.mean)
  {
    PosteriorCombines(rois, tau, prior, noise);
    BestOf(rois, prior, noise, guess);
  }

  lemma BestOf(rois: seq<real>, p: real, q: real, guess: real)
    requires |rois| > 0 && p > 0.0 && |rois| as real * q > 0.0
    ensures var b := Combine(p, |rois| as real * q, Mean(rois));
            Product(b.variance, Loss(rois, p, q, guess) - Loss(rois, p, q, b.mean)) == Square(guess - b.mean)
  {
    Compromise(p, |rois| as real * q, Mean(rois), guess);
    LossGap(rois, p, q, guess, Combine(p, |rois| as real * q, Mean(rois)).mean);
  }

  lemma ReciprocalIs(a: real, x: real)
    requires a > 0.0 && x * a == 1.0
    ensures 1.0 / a == x
  {
  }

  lemma PrecisionIs(n: nat, sigma2: real, noise: real)
    requires n > 0 && sigma2 > 0.0 && noise > 0.0 && noise * sigma2 == 1.0
    ensures Precision(n, sigma2) == n as real * noise > 0.0
  {
    assert n as real * noise * sigma2 == n as real;
  }

  lemma PosteriorCombines(rois: seq<real>, tau: real, prior: real, noise: real)
    requires tau > 0.0 && |rois| > 0
    requires prior > 0.0 && prior * Square(tau) == 1.0 && noise > 0.0 && noise * Sigma2(rois, tau) == 1.0
    ensures |rois| as real * noise > 0.0 && PosteriorOf(rois, tau) == Combine(prior, |rois| as real * noise, Mean(rois))
    ensures PosteriorOf(rois, tau).variance > 0.0
  {
    Sigma2Positive(rois, tau);
    ReciprocalIs(Square(tau), prior);
    PrecisionIs(|rois|, Sigma2(rois, tau), noise);
    QuotientPositive(1.0, prior + |rois| as real * noise);
  }

  /** The squared distances of the returns from their own mean cancel. */
  lemma LossGap(rois: seq<real>, p: real, q: real, guess: real, best: real)
    requires |rois| > 0
    ensures Loss(rois, p, q, guess) - Loss(rois, p, q, best)
         == Weighed(p, |rois| as real * q, Mean(rois), guess) - Weighed(p, |rois| as real * q, Mean(rois), best)
  {
    LossAround(rois, p, q, guess);
    LossAround(rois, p, q, best);
  }

  /** Two squares, weighed. */
  function Weighed(p: real, d: real, m: real, guess: real): real {
    Product(p, Square(guess)) + Product(d, Square(m - guess))
  }

  lemma SplitProduct(k: real, total: real, a: real, n: real, d: real)
    requires total == a + Product(n, d)
    ensures Product(k, total) == Product(k, a) + Product(n * k, d)
  {
    assert k * (a + n * d) == k * a + k * (n * d);
    assert k * (n * d) == n * k * d;
  }

  lemma LossAround(rois: seq<real>, prior: real, noise: real, guess: real)
    requires |rois| > 0
    ensures Loss(rois, prior, noise, guess)
         == Product(prior, Square(guess)) + Product(noise, SumReal(rois, SquaredFrom(Mean(rois))))
            + Product(|rois| as real * noise, Square(Mean(rois) - guess))
  {
    SquaresAroundMean(rois, guess);
    SplitProduct(noise, SumReal(rois, SquaredFrom(guess)), SumReal(rois, SquaredFrom(Mean(rois))),
                 |rois| as real, Square(Mean(rois) - guess));
  }

  /** Two squares weigh against each other like one around the weighted mean. */
  lemma Compromise(p: real, d: real, m: real, guess: real)
    requires p > 0.0 && d > 0.0
    ensures var b := Combine(p, d, m);
            Product(b.variance, Weighed(p, d, m, guess) - Weighed(p, d, m, b.mean)) == Square(guess - b.mean)
  {
    var b := Combine(p, d, m);
    Balanced(p, d, m);
    WeightedSquares(p, d, m, b.mean, guess - b.mean, p * b.mean);
    Cancels(b.variance, p + d, Square(guess - b.mean));
  }

  lemma Cancels(v: real, t: real, gap: real)
    requires t > 0.0 && v == 1.0 / t
    ensures Product(v, Product(t, gap)) == gap
  {
    assert v * t == 1.0;
    assert v * (t * gap) == (v * t) * gap;
  }

  /** The prior pulls as hard as the data. */
  lemma Balanced(p: real, d: real, m: real)
    requires p > 0.0 && d > 0.0
    ensures p * Combine(p, d, m).mean == d * (m - Combine(p, d, m).mean)
  {
    var b := Combine(p, d, m).mean;
    assert b * (p + d) == m * d;
  }

  lemma ShiftedBy(k: real, y: real, e: real, c: real)
    requires k * y == c
    ensures Product(k, Square(y + e)) == Product(k, Square(y)) + 2.0 * Product(c, e) + Product(k, Square(e))
  {
    assert (y + e) * (y + e) == y * y + 2.0 * (y * e) + e * e;
    assert k * (y * e) == c * e;
  }

  lemma ShiftedSquare(k: real, y: real, e: real, z: real, c: real)
    requires k * y == c && z == y + e
    ensures Product(k, Square(z)) == Product(k, Square(y)) + 2.0 * Product(c, e) + Product(k, Square(e))
  {
    ShiftedBy(k, y, e, c);
  }

  lemma WeightedSquares(p: real, d: real, m: real, b: real, e: real, c: real)
    requires p * b == c && d * (m - b) == c
    ensures Weighed(p, d, m, b + e) - Weighed(p, d, m, b) == Product(p + d, Square(e))
  {
    ShiftedSquare(p, b, e, b + e, c);
    ShiftedSquare(d, m - b, -e, m - (b + e), c);
    TogetherOn(p, d, Square(e));
    NegatedSquare(c, e);
  }

  lemma TogetherOn(p: real, d: real, s: real)
    ensures Product(p, s) + Product(d, s) == Product(p + d, s)
  {
  }

  lemma NegatedSquare(c: real, e: real)
    ensures Square(-e) == Square(e) && Product(c, -e) == -Product(c, e)
  {
  }

  // ---------------------------------------------------------------- shrinkage

  lemma ReciprocalAntitone(a: real, b: real)
    requires 0.0 < a < b
    ensures 1.0 / b < 1.0 / a
  {
    var x, y := 1.0 / a, 1.0 / b;
    assert x * a == 1.0 && y * b == 1.0;
    QuotientPositive(1.0, b);
    Reals.ScaleStrict(a, b, y);
    assert y * a < x * a;
    if x <= y { Reals.Scale(x, y, a); }
  }

  /** The posterior mean is the sample mean times a weight strictly between 0 and 1, and the
      posterior is tighter than the prior and than the data alone. */
  lemma CombineShrinks(prior: real, data: real, m: real)
    requires prior > 0.0 && data > 0.0
    ensures var b := Combine(prior, data, m);
            && (m > 0.0 ==> 0.0 < b.mean < m) && (m == 0.0 ==> b.mean == 0.0) && (m < 0.0 ==> m < b.mean < 0.0)
            && 0.0 < b.variance < 1.0 / prior && b.variance < 1.0 / data
  {
    var total := prior + data;
    var w := data / total;
    QuotientPositive(data, total);
    assert w * total == data;
    assert w < 1.0 by { if w >= 1.0 { Reals.Scale(1.0, w, total); } }
    assert m * data / total == m * w;
    if m > 0.0 {
      Reals.ScaleStrict(0.0, w, m);
      Reals.ScaleStrict(w, 1.0, m);
    } else if m < 0.0 {
      Reals.ScaleStrict(0.0, w, -m);
      Reals.ScaleStrict(w, 1.0, -m);
    }
    QuotientPositive(1.0, total);
    ReciprocalAntitone(prior, total);
    ReciprocalAntitone(data, total);
  }

  lemma ReciprocalOfQuotient(a: real, b: real)
    requires a > 0.0 && b > 0.0
    ensures 1.0 / (a / b) == b / a
  {
    assert (a / b) * (b / a) == 1.0 by {
      assert (a / b) * b == a;
      assert b * (1.0 / a) == b / a;
      assert a * (1.0 / a) == 1.0;
    }
    QuotientPositive(a, b);
    assert (a / b) * (1.0 / (a / b)) == 1.0;
  }

  /** For any trades the posterior mean lies between zero and the sample mean, and the
      posterior variance is below the prior's and below the sample's. */
  lemma PosteriorShrinks(rois: seq<real>, tau: real)
    requires tau > 0.0 && |rois| > 0
    ensures var m, b := Mean(rois), PosteriorOf(rois, tau);
            && (m > 0.0 ==> 0.0 < b.mean < m) && (m == 0.0 ==> b.mean == 0.0) && (m < 0.0 ==> m < b.mean < 0.0)
            && 0.0 < b.variance < Square(tau)
            && b.variance < Sigma2(rois, tau) / |rois| as real
  {
    QuotientPositive(1.0, Square(tau));
    Sigma2Positive(rois, tau);
    QuotientPositive(|rois| as real, Sigma2(rois, tau));
    CombineShrinks(1.0 / Square(tau), Precision(|rois|, Sigma2(rois, tau)), Mean(rois));
    ReciprocalOfQuotient(1.0, Square(tau));
    ReciprocalOfQuotient(|rois| as real, Sigma2(rois, tau));
  }

  /** Without trades the posterior is the prior. */
  lemma NoTradesIsThePrior(tau: real)
    requires tau > 0.0
    ensures PosteriorOf([], tau) == Belief(0.0, Square(tau))
  {
    ReciprocalOfQuotient(1.0, Square(tau));
  }

  /** One trade moves the mean exactly halfway and halves the variance. */
  lemma OneTradeHalvesTheMean(roi: real, tau: real)
    requires tau > 0.0
    ensures PosteriorOf([roi], tau) == Belief(roi / 2.0, Square(tau) / 2.0)
  {
    var p := 1.0 / Square(tau);
    QuotientPositive(1.0, Square(tau));
    assert SumReal([roi][..0], Self()) == 0.0;
    assert Mean([roi]) == roi;
    assert Precision(1, Square(tau)) == p;
    HalfWeight(p, roi);
    ReciprocalOfQuotient(1.0, Square(tau));
  }

  lemma HalfWeight(p: real, m: real)
    requires p > 0.0
    ensures Combine(p, p, m) == Belief(m / 2.0, (1.0 / p) / 2.0)
  {
    assert p + p == 2.0 * p;
    assert (m / 2.0) * (2.0 * p) == m * p;
    assert ((1.0 / p) / 2.0) * (2.0 * p) == 1.0;
  }

  lemma MorePrecisionTightens(n: nat, n': nat, sigma2: real, prior: real, m: real, m': real)
    requires 0 < n < n' && sigma2 > 0.0 && prior > 0.0
    ensures Precision(n, sigma2) > 0.0 && Precision(n', sigma2) > 0.0
    ensures Combine(prior, Precision(n', sigma2), m').variance < Combine(prior, Precision(n, sigma2), m).variance
  {
    QuotientPositive(n as real, sigma2);
    QuotientPositive(1.0, sigma2);
    Reals.ScaleStrict(n as real, n' as real, 1.0 / sigma2);
    assert Precision(n, sigma2) == n as real * (1.0 / sigma2);
    assert Precision(n', sigma2) == n' as real * (1.0 / sigma2);
    ReciprocalAntitone(prior + Precision(n, sigma2), prior + Precision(n', sigma2));
  }

  function Spread(i: Interval): real { i.high - i.low }

  /** Of two lists of returns with the same sample variance, the longer one has the smaller
      posterior variance and the narrower interval. */
  lemma MoreTradesTighten(few: seq<real>, many: seq<real>, tau: real, sd: real, sd': real)
    requires tau > 0.0 && 0 < |few| < |many| && Sigma2(few, tau) == Sigma2(many, tau)
    requires sd >= 0.0 && sd * sd == PosteriorOf(few, tau).variance
    requires sd' >= 0.0 && sd' * sd' == PosteriorOf(many, tau).variance
    ensures PosteriorOf(many, tau).variance < PosteriorOf(few, tau).variance
    ensures Spread(PosteriorEdge(many, tau, sd').value) < Spread(PosteriorEdge(few, tau, sd).value)
  {
    QuotientPositive(1.0, Square(tau));
    Sigma2Positive(few, tau);
    MorePrecisionTightens(|few|, |many|, Sigma2(few, tau), 1.0 / Square(tau), Mean(few), Mean(many));
    assert Product(sd', sd') < Product(sd, sd);
    if sd < sd' { LargerFactors(sd, sd'); }
  }

  lemma LargerFactors(a: real, b: real)
    requires 0.0 <= a < b
    ensures Square(a) < Square(b)
  {
    Reals.ScaleStrict(a, b, b);
    assert Product(a, b) < Product(b, b);
    if a > 0.0 { Reals.ScaleStrict(a, b, a); }
    assert Product(a, a) <= Product(b, a) == Product(a, b);
  }

  lemma CompareSquares(m: real, r: real)
    requires r >= 0.0
    ensures m > r <==> m > 0.0 && Square(m) > Square(r)
  {
    if m > r {
      LargerFactors(r, m);
    } else if 0.0 < m < r {
      LargerFactors(m, r);
    }
  }

  lemma SquareOfProduct(a: real, b: real)
    ensures Square(a * b) == Square(a) * Square(b)
  {
  }

  /** The interval lies around the posterior mean, and above zero exactly when the mean is positive
      and its square exceeds 1.96 squared times the variance. */
  lemma EdgeDemonstratedIff(rois: seq<real>, tau: real, sd: real)
    requires tau > 0.0 && sd >= 0.0 && sd * sd == PosteriorOf(rois, tau).variance
    ensures var b := PosteriorOf(rois, tau);
            var i := PosteriorEdge(rois, tau, sd).value;
            && i.mean == b.mean && i.low + i.high == 2.0 * b.mean && i.low <= i.high
            && (i.low > 0.0 <==> b.mean > 0.0 && Square(b.mean) > Square(1.96) * b.variance)
  {
    SquareOfProduct(Z, sd);
    CompareSquares(PosteriorOf(rois, tau).mean, Z * sd);
  }
}
