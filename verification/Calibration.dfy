/** Calibration bins over resolved trades (core/eval/metrics.py), in exact arithmetic. */
module Calibration {
  import opened Lists
  import opened Rounding
  import opened Eval
  import Reals
  import Means

  datatype Bin = Bin(lower: real, upper: real, predictedMean: real, observedFreq: real, count: nat)

  function Width(n: int): real
    requires n > 0
  {
    1.0 / n as real
  }

  /** The bucket a probability falls into; 1.0 belongs to the last one. */
  function BinIndex(n: int, prob: real): int
    requires n > 0
  {
    var idx := Down(prob / Width(n));
    if idx >= n then n - 1 else if idx < 0 then 0 else idx
  }

  function IndexOf(n: int): Trade -> int
    requires n > 0
  {
    (t: Trade) => BinIndex(n, t.probYes)
  }

  function At(index: Trade -> int, k: int): Trade -> bool { (t: Trade) => index(t) == k }

  function Below(index: Trade -> int, k: int): Trade -> bool { (t: Trade) => index(t) < k }

  function Prob(): Trade -> real { (t: Trade) => t.probYes }

  function Observed(): Trade -> real { (t: Trade) => t.outcomeYes as real }

  function One(): Trade -> real { (t: Trade) => 1.0 }

  function MeanOf(bucket: seq<Trade>, f: Trade -> real): real {
    if |bucket| == 0 then 0.0 else SumReal(bucket, f) / |bucket| as real
  }

  function BinAt(n: int): (int, seq<Trade>) -> Bin
    requires n > 0
  {
    (k: int, bucket: seq<Trade>) =>
      Bin(k as real * Width(n), (k + 1) as real * Width(n), MeanOf(bucket, Prob()), MeanOf(bucket, Observed()), |bucket|)
  }

  /** The non-empty buckets among the first `k`, ascending, each turned into a bin. */
  function BinsUpTo(trades: seq<Trade>, index: Trade -> int, bin: (int, seq<Trade>) -> Bin, k: nat): seq<Bin> {
    if k == 0 then []
    else
      var bucket := Filter(trades, At(index, k - 1));
      BinsUpTo(trades, index, bin, k - 1) + if |bucket| == 0 then [] else [bin(k - 1, bucket)]
  }

  function Bins(trades: seq<Trade>, n: int): seq<Bin>
    requires n > 0
  {
    BinsUpTo(trades, IndexOf(n), BinAt(n), n)
  }

  method CalibrationBins(trades: seq<Trade>, n: int) returns (r: Option<seq<Bin>>)
    ensures r == if n <= 0 then None else Some(Bins(trades, n))
  {
    if n <= 0 { return None; }
    if |trades| == 0 {
      NoTradesNoBins(IndexOf(n), BinAt(n), n);
      return Some([]);
    }
    var buckets := new seq<Trade>[n](_ => []);
    for i := 0 to |trades|
      invariant forall k :: 0 <= k < n ==> buckets[k] == Filter(trades[..i], At(IndexOf(n), k))
    {
      var t := trades[i];
      assert trades[..i + 1][..i] == trades[..i];
      var idx := Down(t.probYes / Width(n));
      if idx >= n { idx := n - 1; }
      if idx < 0 { idx := 0; }
      buckets[idx] := buckets[idx] + [t];
    }
    assert trades[..|trades|] == trades;
    var bins := [];
    for k := 0 to n
      invariant bins == BinsUpTo(trades, IndexOf(n), BinAt(n), k)
    {
      if |buckets[k]| > 0 { bins := bins + [BinAt(n)(k, buckets[k])]; }
    }
    return Some(bins);
  }

  lemma {:induction false} NoTradesNoBins(index: Trade -> int, bin: (int, seq<Trade>) -> Bin, k: nat)
    ensures BinsUpTo([], index, bin, k) == []
    decreases k
  {
    if k > 0 { NoTradesNoBins(index, bin, k - 1); }
  }

  // ---------------------------------------------------------------- the bins partition the trades

  lemma {:induction false} SumSplit(xs: seq<Trade>, p: Trade -> bool, q: Trade -> bool, r: Trade -> bool, f: Trade -> real)
    requires forall x :: x in xs ==> (r(x) <==> p(x) || q(x)) && !(p(x) && q(x))
    ensures SumReal(Filter(xs, r), f) == SumReal(Filter(xs, p), f) + SumReal(Filter(xs, q), f)
    decreases |xs|
  {
    if |xs| == 0 {
    } else {
      var front, last := xs[..|xs| - 1], xs[|xs| - 1];
      assert last in xs;
      SumSplit(front, p, q, r, f);
      SumRealAppend(Filter(front, p), last, f);
      SumRealAppend(Filter(front, q), last, f);
      SumRealAppend(Filter(front, r), last, f);
    }
  }

  function CountIn(): Bin -> real { (b: Bin) => b.count as real }

  function PredictedIn(): Bin -> real { (b: Bin) => b.count as real * b.predictedMean }

  function ObservedIn(): Bin -> real { (b: Bin) => b.count as real * b.observedFreq }

  lemma {:induction false} SumOfOnes(xs: seq<Trade>)
    ensures SumReal(xs, One()) == |xs| as real
    decreases |xs|
  {
    if |xs| == 0 {
    } else {
      SumOfOnes(xs[..|xs| - 1]);
    }
  }

  /** A bin statistic that gives back a sum over the bin's trades, summed over all bins. */
  lemma {:induction false} BinsRecover(
    trades: seq<Trade>, index: Trade -> int, bin: (int, seq<Trade>) -> Bin, k: nat, g: Bin -> real, f: Trade -> real)
    requires forall t :: t in trades ==> index(t) >= 0
    requires forall j: int, bucket :: |bucket| > 0 ==> g(bin(j, bucket)) == SumReal(bucket, f)
    ensures SumReal(BinsUpTo(trades, index, bin, k), g) == SumReal(Filter(trades, Below(index, k)), f)
    decreases k
  {
    if k == 0 {
      NoneBelowZero(trades, index);
    } else {
      BinsRecover(trades, index, bin, k - 1, g, f);
      var bucket := Filter(trades, At(index, k - 1));
      SumSplit(trades, Below(index, k - 1), At(index, k - 1), Below(index, k), f);
      var front := BinsUpTo(trades, index, bin, k - 1);
      if |bucket| == 0 {
        assert front + [] == front;
      } else {
        SumRealAppend(front, bin(k - 1, bucket), g);
      }
    }
  }

  lemma {:induction false} NoneBelowZero(trades: seq<Trade>, index: Trade -> int)
    requires forall t :: t in trades ==> index(t) >= 0
    ensures Filter(trades, Below(index, 0)) == []
    decreases |trades|
  {
    if |trades| == 0 {
    } else {
      assert trades[|trades| - 1] in trades;
      NoneBelowZero(trades[..|trades| - 1], index);
    }
  }

  lemma IndexInRange(n: int, t: Trade)
    requires n > 0
    ensures 0 <= IndexOf(n)(t) < n
  {
  }

  lemma BinStatistics(n: int, k: int, bucket: seq<Trade>)
    requires n > 0 && |bucket| > 0
    ensures CountIn()(BinAt(n)(k, bucket)) == SumReal(bucket, One())
    ensures PredictedIn()(BinAt(n)(k, bucket)) == SumReal(bucket, Prob())
    ensures ObservedIn()(BinAt(n)(k, bucket)) == SumReal(bucket, Observed())
  {
    SumOfOnes(bucket);
    Means.MeanTimesCount(SumReal(bucket, Prob()), |bucket| as real);
    Means.MeanTimesCount(SumReal(bucket, Observed()), |bucket| as real);
  }

  /** No trade is lost or counted twice: counts add up to the number of trades, and the
      count-weighted means add up to the sums of the probabilities and of the outcomes. */
  lemma BinsPartitionTrades(trades: seq<Trade>, n: int)
    requires n > 0
    ensures SumReal(Bins(trades, n), CountIn()) == |trades| as real
    ensures SumReal(Bins(trades, n), PredictedIn()) == SumReal(trades, Prob())
    ensures SumReal(Bins(trades, n), ObservedIn()) == SumReal(trades, Observed())
  {
    var index, bin := IndexOf(n), BinAt(n);
    forall t: Trade ensures 0 <= index(t) < n { IndexInRange(n, t); }
    forall k: int, bucket: seq<Trade> | |bucket| > 0
      ensures CountIn()(bin(k, bucket)) == SumReal(bucket, One())
      ensures PredictedIn()(bin(k, bucket)) == SumReal(bucket, Prob())
      ensures ObservedIn()(bin(k, bucket)) == SumReal(bucket, Observed())
    {
      BinStatistics(n, k, bucket);
    }
    PartitionBy(trades, index, bin, n);
  }

  lemma PartitionBy(trades: seq<Trade>, index: Trade -> int, bin: (int, seq<Trade>) -> Bin, n: nat)
    requires forall t :: t in trades ==> 0 <= index(t) < n
    requires forall k: int, bucket :: |bucket| > 0 ==> CountIn()(bin(k, bucket)) == SumReal(bucket, One())
    requires forall k: int, bucket :: |bucket| > 0 ==> PredictedIn()(bin(k, bucket)) == SumReal(bucket, Prob())
    requires forall k: int, bucket :: |bucket| > 0 ==> ObservedIn()(bin(k, bucket)) == SumReal(bucket, Observed())
    ensures var bins := BinsUpTo(trades, index, bin, n);
            && SumReal(bins, CountIn()) == |trades| as real
            && SumReal(bins, PredictedIn()) == SumReal(trades, Prob())
            && SumReal(bins, ObservedIn()) == SumReal(trades, Observed())
  {
    BinsRecover(trades, index, bin, n, CountIn(), One());
    BinsRecover(trades, index, bin, n, PredictedIn(), Prob());
    BinsRecover(trades, index, bin, n, ObservedIn(), Observed());
    FilterAll(trades, Below(index, n));
    SumOfOnes(trades);
  }

  // ---------------------------------------------------------------- each bin holds what it says

  lemma ProbabilityInBin(n: int, prob: real)
    requires n > 0 && 0.0 <= prob <= 1.0
    ensures 0 <= BinIndex(n, prob) < n
    ensures BinIndex(n, prob) as real * Width(n) <= prob <= (BinIndex(n, prob) + 1) as real * Width(n)
  {
    var w := Width(n);
    assert w > 0.0 && n as real * w == 1.0;
    Reals.Bracket(prob, w, prob / w, prob / w + 1.0);
    assert prob / w >= 0.0;
    var idx := Down(prob / w);
    Reals.Bracket(prob, w, idx as real, (idx + 1) as real);
    if idx >= n {
      assert BinIndex(n, prob) == n - 1;
      Reals.Scale((n - 1) as real, idx as real, w);
      assert (n - 1 + 1) as real * w == 1.0;
    }
  }

  /** A bin is not empty and its predicted mean lies between its bounds. */
  predicate WellFormed(b: Bin) {
    b.count > 0 && b.lower <= b.predictedMean <= b.upper
  }

  lemma BucketWithin(trades: seq<Trade>, n: int, k: int, t: Trade)
    requires n > 0 && t in Filter(trades, At(IndexOf(n), k)) && 0.0 <= t.probYes <= 1.0
    ensures k as real * Width(n) <= t.probYes <= (k + 1) as real * Width(n)
  {
    FilterMember(trades, At(IndexOf(n), k), t);
    ProbabilityInBin(n, t.probYes);
  }

  predicate AllWithin(bucket: seq<Trade>, low: real, high: real) {
    forall t :: t in bucket ==> low <= t.probYes <= high
  }

  lemma BucketAllWithin(trades: seq<Trade>, n: int, k: int)
    requires n > 0 && AllWithin(trades, 0.0, 1.0)
    ensures AllWithin(Filter(trades, At(IndexOf(n), k)), k as real * Width(n), (k + 1) as real * Width(n))
  {
    var bucket := Filter(trades, At(IndexOf(n), k));
    var low, high := k as real * Width(n), (k + 1) as real * Width(n);
    forall t | t in bucket ensures low <= t.probYes <= high {
      FilterMember(trades, At(IndexOf(n), k), t);
      BucketWithin(trades, n, k, t);
    }
  }

  lemma MeanOfBucketWithin(bucket: seq<Trade>, low: real, high: real)
    requires |bucket| > 0 && AllWithin(bucket, low, high)
    ensures low <= MeanOf(bucket, Prob()) <= high
  {
    Means.MeanWithin(bucket, Prob(), low, high);
  }

  lemma BinAtIsWellFormed(n: int, k: int, bucket: seq<Trade>)
    requires n > 0 && |bucket| > 0 && AllWithin(bucket, k as real * Width(n), (k + 1) as real * Width(n))
    ensures WellFormed(BinAt(n)(k, bucket))
  {
    MeanOfBucketWithin(bucket, k as real * Width(n), (k + 1) as real * Width(n));
  }

  /** Well-formed bins in ascending order that do not overlap, none reaching above `top`. */
  predicate Ascending(bins: seq<Bin>, top: real) {
    && (forall i :: 0 <= i < |bins| ==> WellFormed(bins[i]) && bins[i].upper <= top)
    && (forall i, j :: 0 <= i < j < |bins| ==> bins[i].upper <= bins[j].lower)
  }

  lemma AscendingAppend(bins: seq<Bin>, b: Bin)
    requires Ascending(bins, b.lower) && WellFormed(b)
    ensures Ascending(bins + [b], b.upper)
  {
  }

  lemma AscendingWiden(bins: seq<Bin>, top: real, top': real)
    requires Ascending(bins, top) && top <= top'
    ensures Ascending(bins, top')
  {
  }

  predicate Rises(edge: int -> real, k: int) { edge(k) <= edge(k + 1) }

  predicate Spans(edge: int -> real, k: int, b: Bin) { b.lower == edge(k) && b.upper == edge(k + 1) }

  lemma {:induction false} BinsAscend(
    trades: seq<Trade>, index: Trade -> int, bin: (int, seq<Trade>) -> Bin, edge: int -> real, k: nat)
    requires forall j :: Rises(edge, j)
    requires forall j: int, bucket :: Spans(edge, j, bin(j, bucket))
    requires forall j: int :: |Filter(trades, At(index, j))| > 0 ==> WellFormed(bin(j, Filter(trades, At(index, j))))
    ensures Ascending(BinsUpTo(trades, index, bin, k), edge(k))
    decreases k
  {
    if k > 0 {
      BinsAscend(trades, index, bin, edge, k - 1);
      var bucket := Filter(trades, At(index, k - 1));
      var front := BinsUpTo(trades, index, bin, k - 1);
      assert Rises(edge, k - 1);
      if |bucket| > 0 {
        assert Spans(edge, k - 1, bin(k - 1, bucket));
        AscendingAppend(front, bin(k - 1, bucket));
      } else {
        AscendingWiden(front, edge(k - 1), edge(k));
      }
    }
  }

  function EdgeAt(n: int): int -> real
    requires n > 0
  {
    (k: int) => k as real * Width(n)
  }

  lemma EdgesAscend(n: int, k: int)
    requires n > 0
    ensures Rises(EdgeAt(n), k) && EdgeAt(n)(n) == 1.0
  {
    assert Width(n) > 0.0 && n as real * Width(n) == 1.0;
    Reals.Scale(k as real, (k + 1) as real, Width(n));
  }

  /** The bins are non-empty, disjoint, ascending and within [0, 1], and each predicted mean
      lies in its bin. */
  lemma BinsAreAscending(trades: seq<Trade>, n: int)
    requires n > 0 && forall t :: t in trades ==> 0.0 <= t.probYes <= 1.0
    ensures Ascending(Bins(trades, n), 1.0)
  {
    var index, bin, edge := IndexOf(n), BinAt(n), EdgeAt(n);
    forall k: int ensures Rises(edge, k) { EdgesAscend(n, k); }
    forall k: int, bucket: seq<Trade> ensures Spans(edge, k, bin(k, bucket)) { }
    forall k: int | |Filter(trades, At(index, k))| > 0 ensures WellFormed(bin(k, Filter(trades, At(index, k)))) {
      BucketAllWithin(trades, n, k);
      BinAtIsWellFormed(n, k, Filter(trades, At(index, k)));
    }
    EdgesAscend(n, n);
    BinsAscend(trades, index, bin, edge, n);
  }

  // ---------------------------------------------------------------- what a bin says

  /** The probability belongs to the `k`th of `n` equal parts of [0, 1], 1 itself to the last. */
  predicate Belongs(n: int, k: int, prob: real) {
    k as real <= prob * n as real && (prob * n as real < (k + 1) as real || (k == n - 1 && prob == 1.0))
  }

  lemma BelongsIff(n: int, k: int, prob: real)
    requires n > 0 && 0 <= k < n && 0.0 <= prob <= 1.0
    ensures BinIndex(n, prob) == k <==> Belongs(n, k, prob)
  {
    var w := Width(n);
    assert n as real * w == 1.0;
    assert prob / w == prob * n as real;
    Reals.Scale(0.0, prob, n as real);
    Reals.Scale(prob, 1.0, n as real);
    if prob < 1.0 { Reals.ScaleStrict(prob, 1.0, n as real); }
  }

  function Part(n: int, k: int): Trade -> bool { (t: Trade) => Belongs(n, k, t.probYes) }

  function Hit(): Trade -> bool { (t: Trade) => t.outcomeYes == 1 }

  /** The bin tells the bounds of the `k`th part, how many trades are in the bucket, the sum of
      their probabilities and how many of them settled YES. */
  predicate Tells(n: int, k: int, bucket: seq<Trade>, b: Bin) {
    && b.lower * n as real == k as real && b.upper * n as real == (k + 1) as real
    && b.count == |bucket| > 0
    && b.count as real * b.predictedMean == SumReal(bucket, Prob())
    && b.count as real * b.observedFreq == |Filter(bucket, Hit())| as real
  }

  /** For the trades that fall into that part. */
  predicate Describes(trades: seq<Trade>, n: int, k: int, b: Bin) {
    0 <= k < n && Tells(n, k, Filter(trades, Part(n, k)), b)
  }

  lemma {:induction false} HitsAreCounted(trades: seq<Trade>)
    requires forall t :: t in trades ==> t.outcomeYes in {0, 1}
    ensures SumReal(trades, Observed()) == |Filter(trades, Hit())| as real
    decreases |trades|
  {
    if |trades| == 0 {
    } else {
      assert trades[|trades| - 1] in trades;
      HitsAreCounted(trades[..|trades| - 1]);
    }
  }

  lemma EdgeTimes(n: int, k: int)
    requires n > 0
    ensures k as real * Width(n) * n as real == k as real
  {
    assert Width(n) * n as real == 1.0;
    assert k as real * (Width(n) * n as real) == k as real;
  }

  lemma PartIsBucket(trades: seq<Trade>, n: int, k: int)
    requires n > 0 && 0 <= k < n && forall t :: t in trades ==> 0.0 <= t.probYes <= 1.0
    ensures Filter(trades, At(IndexOf(n), k)) == Filter(trades, Part(n, k))
  {
    forall t | t in trades ensures At(IndexOf(n), k)(t) == Part(n, k)(t) { BelongsIff(n, k, t.probYes); }
    FilterSame(trades, At(IndexOf(n), k), Part(n, k));
  }

  lemma BinStates(n: int, k: int, bucket: seq<Trade>)
    requires n > 0 && |bucket| > 0 && forall t :: t in bucket ==> t.outcomeYes in {0, 1}
    ensures Tells(n, k, bucket, BinAt(n)(k, bucket))
  {
    BinStatistics(n, k, bucket);
    HitsAreCounted(bucket);
    EdgeTimes(n, k);
    EdgeTimes(n, k + 1);
  }

  lemma BucketDescribes(trades: seq<Trade>, n: int, k: int)
    requires n > 0 && 0 <= k < n && |Filter(trades, At(IndexOf(n), k))| > 0
    requires forall t :: t in trades ==> 0.0 <= t.probYes <= 1.0 && t.outcomeYes in {0, 1}
    ensures Describes(trades, n, k, BinAt(n)(k, Filter(trades, At(IndexOf(n), k))))
  {
    var bucket := Filter(trades, At(IndexOf(n), k));
    PartIsBucket(trades, n, k);
    forall t | t in bucket ensures t.outcomeYes in {0, 1} { FilterMember(trades, At(IndexOf(n), k), t); }
    BinStates(n, k, bucket);
  }

  lemma {:induction false} BinsMembers(trades: seq<Trade>, index: Trade -> int, bin: (int, seq<Trade>) -> Bin, k: nat, b: Bin)
    ensures b in BinsUpTo(trades, index, bin, k)
            <==> exists j :: 0 <= j < k && |Filter(trades, At(index, j))| > 0 && b == bin(j, Filter(trades, At(index, j)))
    decreases k
  {
    if k == 0 {
    } else {
      BinsMembers(trades, index, bin, k - 1, b);
    }
  }

  /** A bin is in the table exactly when it describes one of the parts into which trades fall. */
  lemma BinsDescribe(trades: seq<Trade>, n: int, b: Bin)
    requires n > 0 && forall t :: t in trades ==> 0.0 <= t.probYes <= 1.0 && t.outcomeYes in {0, 1}
    ensures b in Bins(trades, n) <==> exists k :: Describes(trades, n, k, b)
  {
    BinsMembers(trades, IndexOf(n), BinAt(n), n, b);
    if b in Bins(trades, n) {
      var k :| 0 <= k < n && |Filter(trades, At(IndexOf(n), k))| > 0 && b == BinAt(n)(k, Filter(trades, At(IndexOf(n), k)));
      BucketDescribes(trades, n, k);
    }
    if k :| Describes(trades, n, k, b) {
      PartIsBucket(trades, n, k);
      BucketDescribes(trades, n, k);
      DescribedOnce(trades, n, k, b, BinAt(n)(k, Filter(trades, At(IndexOf(n), k))));
    }
  }

  lemma DescribedOnce(trades: seq<Trade>, n: int, k: int, b: Bin, b': Bin)
    requires n > 0 && Describes(trades, n, k, b) && Describes(trades, n, k, b')
    ensures b == b'
  {
    SameFactor(n as real, b.lower, b'.lower);
    SameFactor(n as real, b.upper, b'.upper);
    SameFactor(b.count as real, b.predictedMean, b'.predictedMean);
    SameFactor(b.count as real, b.observedFreq, b'.observedFreq);
  }

  lemma SameFactor(c: real, x: real, y: real)
    requires c > 0.0 && c * x == c * y
    ensures x == y
  {
    if x < y { Reals.ScaleStrict(x, y, c); }
    if y < x { Reals.ScaleStrict(y, x, c); }
  }
}
