/** Means over rows, as the feature providers, the bins and the posterior take them. */
module Means {
  import opened Lists
  import Reals

  lemma MeanTimesCount(total: real, count: real)
    requires count > 0.0
    ensures count * (total / count) == total
  {
  }

  lemma MeanOfTwo(total: real, count: real)
    requires count == 2.0
    ensures total / count == total / 2.0
  {
    MeanTimesCount(total, count);
    assert 2.0 * (total / count) == total;
  }

  lemma OneMore(n: nat, v: real)
    ensures (n + 1) as real * v == n as real * v + v
  {
    Reals.Distribute(n as real, v);
  }

  lemma {:induction false} SumWithin<T>(xs: seq<T>, f: T -> real, low: real, high: real)
    requires forall x :: x in xs ==> low <= f(x) <= high
    ensures |xs| as real * low <= SumReal(xs, f) <= |xs| as real * high
    decreases |xs|
  {
    if |xs| == 0 {
    } else {
      var front, last := xs[..|xs| - 1], xs[|xs| - 1];
      assert last in xs;
      SumWithin(front, f, low, high);
      assert SumReal(xs, f) == SumReal(front, f) + f(last);
      OneMore(|front|, low);
      OneMore(|front|, high);
    }
  }

  lemma QuotientWithin(total: real, count: real, low: real, high: real)
    requires count > 0.0 && count * low <= total <= count * high
    ensures low <= total / count <= high
  {
    MeanTimesCount(total, count);
    if total / count < low { Reals.ScaleStrict(total / count, low, count); }
    if total / count > high { Reals.ScaleStrict(high, total / count, count); }
  }

  /** A mean lies within any bounds of its rows. */
  lemma MeanWithin<T>(xs: seq<T>, f: T -> real, low: real, high: real)
    requires |xs| > 0 && forall x :: x in xs ==> low <= f(x) <= high
    ensures low <= SumReal(xs, f) / |xs| as real <= high
  {
    SumWithin(xs, f, low, high);
    QuotientWithin(SumReal(xs, f), |xs| as real, low, high);
  }
}
