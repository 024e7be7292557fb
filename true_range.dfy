/**
 * True range and average true range. strategy/market_regime.py and
 * strategy/volatility_filter.py carry textually identical copies of
 * `compute_true_range` and `compute_atr`; both are specified here once, and
 * each file's loop is proved against this definition in its own module.
 */
module TrueRange {
  import opened Wrappers
  import opened Series

  /**
   * The loops read `lows[i]` and `closes[i - 1]` for every `1 <= i < len(highs)`;
   * shorter lows or closes would raise IndexError in the source.
   */
  predicate Covers(highs: seq<real>, lows: seq<real>, closes: seq<real>) {
    |lows| >= |highs| && |closes| + 1 >= |highs|
  }

  /** Python's `max(a, b, c)`. */
  function Max3(a: real, b: real, c: real): (r: real)
    ensures r >= a && r >= b && r >= c
    ensures r == a || r == b || r == c
  {
    if a >= b && a >= c then a else if b >= c then b else c
  }

  /** The true range of bar `i`: max(high - low, |high - previous close|, |low - previous close|). */
  function TrueRangeAt(highs: seq<real>, lows: seq<real>, closes: seq<real>, i: nat): (r: real)
    requires Covers(highs, lows, closes) && 1 <= i < |highs|
    ensures r >= highs[i] - lows[i]
    ensures r >= 0.0
  {
    Max3(highs[i] - lows[i], Abs(highs[i] - closes[i - 1]), Abs(lows[i] - closes[i - 1]))
  }

  /** `compute_true_range`: empty for fewer than two bars, else one value per bar after the first. */
  function TrueRanges(highs: seq<real>, lows: seq<real>, closes: seq<real>): (r: seq<real>)
    requires Covers(highs, lows, closes)
    ensures |highs| < 2 ==> r == []
    ensures |highs| >= 2 ==> |r| == |highs| - 1
    ensures forall j :: 0 <= j < |r| ==> r[j] >= 0.0 && r[j] >= highs[j + 1] - lows[j + 1]
  {
    if |highs| < 2 then []
    else seq(|highs| - 1, j requires 0 <= j < |highs| - 1 => TrueRangeAt(highs, lows, closes, j + 1))
  }

  /**
   * `compute_atr`: the mean of the last `period` true ranges, undefined when
   * there are fewer than `period` of them, that is fewer than period + 1 bars.
   */
  function Atr(highs: seq<real>, lows: seq<real>, closes: seq<real>, period: nat): (r: Option<real>)
    requires Covers(highs, lows, closes) && period > 0
    ensures r.None? <==> |highs| < period + 1
    ensures r.Some? ==> r.value >= 0.0
  {
    var tr := TrueRanges(highs, lows, closes);
    if |tr| < period then None
    else
      var last := LastN(tr, period);
      SumNonnegative(last);
      Some(Sum(last) / period as real)
  }
}
