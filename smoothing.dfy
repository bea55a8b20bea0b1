/** `backward_moving_average` of covid.py: right-aligned window means computed from prefix sums. */
module Smoothing {
  import opened Wrappers
  import opened Vectors

  /** The x values kept and the smoothed y values, pairwise aligned. */
  datatype Smoothed = Smoothed(xs: seq<int>, ys: seq<real>)

  /** The window mean over `lag` days ending at each kept x, read off the prefix sums C of y.
      When lag exceeds the length of y, reading C[lag-1] is an IndexError. */
  function BackwardMovingAverage(x: seq<int>, y: seq<real>, lag: nat): (r: Result<Smoothed>)
    requires lag >= 1
    ensures r.Ok? <==> lag <= |y|
    ensures r.Err? ==> r.error == IndexError
    ensures r.Ok? ==> r.value.xs == SliceFrom(x, lag - 1) && |r.value.ys| == |y| - lag + 1
  {
    var c := CumSum(y);
    if lag > |c| then Err(IndexError) else Ok(Smoothed(SliceFrom(x, lag - 1), WindowValues(c, lag)))
  }

  /** The prefix-sum difference read for output k: C[lag-1] for the boundary, C[lag+k-1] - C[k-1] after it. */
  function PrefixWindow(c: seq<real>, lag: nat, k: nat): real
    requires 1 <= lag <= |c| && k <= |c| - lag
  {
    if k == 0 then c[lag - 1] else c[lag + k - 1] - c[k - 1]
  }

  /** The boundary value C[lag-1]/lag followed by (C[lag:] - C[:-lag])/lag: value k is the
      prefix-sum difference around the window of `lag` inputs ending at k+lag-1, divided by lag. */
  function WindowValues(c: seq<real>, lag: nat): (v: seq<real>)
    requires 1 <= lag <= |c|
    ensures |v| == |c| - lag + 1
    ensures forall k {:trigger PrefixWindow(c, lag, k)} :: 0 <= k < |v| ==> v[k] == PrefixWindow(c, lag, k) / (lag as real)
  {
    [c[lag - 1] / (lag as real)] + seq(|c| - lag, j requires 0 <= j < |c| - lag => (c[lag + j] - c[j]) / (lag as real))
  }

  /** The prefix-sum difference the smoothing reads for output k is the sum of the window y[k..k+lag]. */
  lemma PrefixDifference(y: seq<real>, lag: nat, k: nat)
    requires 1 <= lag <= |y| && k <= |y| - lag
    ensures PrefixWindow(CumSum(y), lag, k) == Sum(y[k..k + lag])
  {
    if k == 0 {
      CumSumIsPrefixSum(y, lag - 1);
      assert y[..lag] == y[k..k + lag];
    } else {
      CumSumIsPrefixSum(y, lag + k - 1);
      CumSumIsPrefixSum(y, k - 1);
      WindowSum(y, k, k + lag);
    }
  }

  /** Output k is the mean of the window y[k], ..., y[k+lag-1]. */
  lemma WindowMeanAt(x: seq<int>, y: seq<real>, lag: nat, k: nat)
    requires 1 <= lag <= |y| && k <= |y| - lag
    ensures BackwardMovingAverage(x, y, lag).Ok?
    ensures BackwardMovingAverage(x, y, lag).value.ys[k] == Mean(y[k..k + lag])
  {
    var c := CumSum(y);
    var w := y[k..k + lag];
    assert BackwardMovingAverage(x, y, lag).value.ys == WindowValues(c, lag);
    PrefixDifference(y, lag, k);
    assert Mean(w) == Sum(w) / (lag as real);
  }

  /** Every smoothed value is the mean of the `lag` inputs ending at its x. */
  lemma WindowMeans(x: seq<int>, y: seq<real>, lag: nat)
    requires 1 <= lag <= |y| && |x| == |y|
    ensures BackwardMovingAverage(x, y, lag).Ok?
    ensures |BackwardMovingAverage(x, y, lag).value.xs| == |BackwardMovingAverage(x, y, lag).value.ys|
    ensures forall k :: 0 <= k < |BackwardMovingAverage(x, y, lag).value.xs| ==>
      BackwardMovingAverage(x, y, lag).value.xs[k] == x[k + lag - 1]
    ensures forall k :: 0 <= k < |BackwardMovingAverage(x, y, lag).value.ys| ==>
      BackwardMovingAverage(x, y, lag).value.ys[k] == Mean(y[k..k + lag])
  {
    forall k | 0 <= k <= |y| - lag
      ensures BackwardMovingAverage(x, y, lag).value.ys[k] == Mean(y[k..k + lag])
    {
      WindowMeanAt(x, y, lag, k);
    }
  }

  /** The boundary value C[lag-1]/lag is the mean of the first `lag` inputs. */
  lemma FirstIsLeadingMean(x: seq<int>, y: seq<real>, lag: nat)
    requires 1 <= lag <= |y|
    ensures BackwardMovingAverage(x, y, lag).Ok?
    ensures BackwardMovingAverage(x, y, lag).value.ys[0] == Mean(y[..lag])
  {
    WindowMeanAt(x, y, lag, 0);
    assert y[0..lag] == y[..lag];
  }

  /** A constant series is left unchanged by smoothing. */
  lemma ConstantIsFixed(x: seq<int>, y: seq<real>, lag: nat, c: real)
    requires 1 <= lag <= |y|
    requires forall i :: 0 <= i < |y| ==> y[i] == c
    ensures BackwardMovingAverage(x, y, lag).Ok?
    ensures forall k :: 0 <= k < |BackwardMovingAverage(x, y, lag).value.ys| ==>
      BackwardMovingAverage(x, y, lag).value.ys[k] == c
  {
    forall k | 0 <= k <= |y| - lag
      ensures BackwardMovingAverage(x, y, lag).value.ys[k] == c
    {
      WindowMeanAt(x, y, lag, k);
      MeanConstant(y[k..k + lag], c);
    }
  }

  /** A window as wide as the series gives one point, the overall mean, at the last x. */
  lemma WholeWindow(x: seq<int>, y: seq<real>)
    requires |x| == |y| && y != []
    ensures BackwardMovingAverage(x, y, |y|) == Ok(Smoothed([x[|x| - 1]], [Mean(y)]))
  {
    WindowMeanAt(x, y, |y|, 0);
    assert y[0..|y|] == y;
    var r := BackwardMovingAverage(x, y, |y|).value;
    assert r.xs == [x[|x| - 1]];
    assert r.ys == [Mean(y)];
  }

  /** The seven-day example: the mean of 1, ..., 7 is 4. */
  lemma SevenDayExample()
    ensures BackwardMovingAverage([0, 1, 2, 3, 4, 5, 6], [1.0, 2.0, 3.0, 4.0, 5.0, 6.0, 7.0], 7)
         == Ok(Smoothed([6], [4.0]))
  {
    var y := [1.0, 2.0, 3.0, 4.0, 5.0, 6.0, 7.0];
    WholeWindow([0, 1, 2, 3, 4, 5, 6], y);
    assert Sum(y[..1]) == 1.0 by { assert y[..1][..0] == []; }
    assert Sum(y[..2]) == 3.0 by { assert y[..2][..1] == y[..1]; }
    assert Sum(y[..3]) == 6.0 by { assert y[..3][..2] == y[..2]; }
    assert Sum(y[..4]) == 10.0 by { assert y[..4][..3] == y[..3]; }
    assert Sum(y[..5]) == 15.0 by { assert y[..5][..4] == y[..4]; }
    assert Sum(y[..6]) == 21.0 by { assert y[..6][..5] == y[..5]; }
    assert y[..7] == y;
    assert Sum(y) == 28.0;
  }
}
