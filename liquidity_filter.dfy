/** strategy/liquidity_filter.py: the average-volume liquidity test. */
module LiquidityFilter {
  import opened Series

  /** `is_liquid`: a non-empty history whose mean volume reaches `minAvgVolume`. */
  function IsLiquid(volumeHistory: seq<real>, minAvgVolume: real): (r: bool)
    ensures r <==> |volumeHistory| > 0 && Sum(volumeHistory) >= |volumeHistory| as real * minAvgVolume
  {
    if |volumeHistory| == 0 then false
    else
      var avgVol := Sum(volumeHistory) / |volumeHistory| as real;
      MeanAtLeast(Sum(volumeHistory), |volumeHistory| as real, minAvgVolume);
      avgVol >= minAvgVolume
  }

  lemma MeanAtLeast(total: real, n: real, bound: real)
    requires n > 0.0
    ensures total / n >= bound <==> total >= n * bound
  {
    var m := total / n;
    assert total == m * n;
    if m >= bound {
      assert (m - bound) * n >= 0.0;
    } else {
      assert (bound - m) * n > 0.0;
    }
  }

  /** Only the multiset of volumes matters, not the order of the bars. */
  lemma LiquidityIgnoresOrder(a: seq<real>, b: seq<real>, minAvgVolume: real)
    requires multiset(a) == multiset(b)
    ensures IsLiquid(a, minAvgVolume) == IsLiquid(b, minAvgVolume)
  {
    SumPermutation(a, b);
    assert |a| == |multiset(a)| == |multiset(b)| == |b|;
  }

  /** A stricter threshold never admits more: liquidity at `hi` implies liquidity at any `lo <= hi`. */
  lemma LiquidityMonotone(volumeHistory: seq<real>, lo: real, hi: real)
    requires lo <= hi
    ensures IsLiquid(volumeHistory, hi) ==> IsLiquid(volumeHistory, lo)
  {
    var n := |volumeHistory| as real;
    assert n * hi - n * lo == n * (hi - lo);
    assert n * (hi - lo) >= 0.0;
  }
}
