/** strategy/indicators.py: simple and exponential moving averages and the RSI. */
module Indicators {
  import opened Wrappers
  import opened Series

  lemma MulNonnegative(a: real, b: real)
    requires a >= 0.0 && b >= 0.0
    ensures a * b >= 0.0
  {
  }

  // ---------------------------------------------------------------- SMA

  /** `simple_moving_average`: the mean of the last `period` prices, undefined on shorter history. */
  function SimpleMovingAverage(prices: seq<real>, period: nat): (r: Option<real>)
    requires period > 0
    ensures r.None? <==> |prices| < period
  {
    if |prices| < period then None else Some(Sum(LastN(prices, period)) / period as real)
  }

  /** A mean of `n` values whose sum lies in [n * lo, n * hi] lies in [lo, hi]. */
  lemma MeanWithinRange(total: real, n: nat, lo: real, hi: real)
    requires n > 0
    requires n as real * lo <= total <= n as real * hi
    ensures lo <= total / n as real <= hi
  {
    var m := total / n as real;
    assert total == m * n as real;
  }

  /** The SMA lies between the smallest and the largest price of its window. */
  lemma SmaWithinWindowRange(prices: seq<real>, period: nat, lo: real, hi: real)
    requires 0 < period <= |prices|
    requires forall i :: |prices| - period <= i < |prices| ==> lo <= prices[i] <= hi
    ensures lo <= SimpleMovingAverage(prices, period).value <= hi
  {
    var w := LastN(prices, period);
    assert |w| == period;
    assert forall i :: 0 <= i < |w| ==> w[i] == prices[|prices| - period + i];
    SumBounds(w, lo, hi);
    MeanWithinRange(Sum(w), period, lo, hi);
  }

  // ---------------------------------------------------------------- EMA

  /** The smoothing multiplier 2 / (period + 1). */
  function Multiplier(period: nat): (k: real)
    requires period > 0
    ensures 0.0 < k <= 1.0
  {
    2.0 / (period as real + 1.0)
  }

  /** The EMA recurrence `e := (p - e) * k + e` folded over `rest`, starting from `seed`. */
  function EmaFold(seed: real, rest: seq<real>, k: real): real
    decreases |rest|
  {
    if rest == [] then seed else EmaFold((rest[0] - seed) * k + seed, rest[1..], k)
  }

  /**
   * `exponential_moving_average`: seeded with the SMA of the first `period`
   * prices, then smoothed over the remaining ones.
   */
  function Ema(prices: seq<real>, period: nat): (r: Option<real>)
    requires period > 0
    ensures r.None? <==> |prices| < period
    ensures |prices| == period ==> r == SimpleMovingAverage(prices, period)
  {
    if |prices| < period then None
    else
      var sma := SimpleMovingAverage(prices[..period], period);
      assert |prices| == period ==> prices[..period] == prices && prices[period..] == [];
      Some(EmaFold(sma.value, prices[period..], Multiplier(period)))
  }

  /** The loop of `exponential_moving_average`. */
  method ExponentialMovingAverage(prices: seq<real>, period: nat) returns (r: Option<real>)
    requires period > 0
    ensures r == Ema(prices, period)
  {
    if |prices| < period {
      return None;
    }
    var sma := SimpleMovingAverage(prices[..period], period);
    var multiplier := 2.0 / (period as real + 1.0);
    var emaPrevious := sma.value;
    for i := period to |prices|
      invariant EmaFold(emaPrevious, prices[i..], multiplier)
             == EmaFold(sma.value, prices[period..], multiplier)
    {
      assert prices[i..][1..] == prices[i + 1..];
      emaPrevious := (prices[i] - emaPrevious) * multiplier + emaPrevious;
    }
    assert prices[|prices|..] == [];
    return Some(emaPrevious);
  }

  /** One EMA step is a convex combination, so it stays within [lo, hi]. */
  lemma {:induction false} EmaFoldWithinRange(seed: real, rest: seq<real>, k: real, lo: real, hi: real)
    requires 0.0 <= k <= 1.0
    requires lo <= seed <= hi
    requires forall i :: 0 <= i < |rest| ==> lo <= rest[i] <= hi
    ensures lo <= EmaFold(seed, rest, k) <= hi
    decreases |rest|
  {
    if rest != [] {
      var next := (rest[0] - seed) * k + seed;
      MulNonnegative(k, rest[0] - lo);
      MulNonnegative(1.0 - k, seed - lo);
      MulNonnegative(k, hi - rest[0]);
      MulNonnegative(1.0 - k, hi - seed);
      assert next - lo == k * (rest[0] - lo) + (1.0 - k) * (seed - lo);
      assert hi - next == k * (hi - rest[0]) + (1.0 - k) * (hi - seed);
      EmaFoldWithinRange(next, rest[1..], k, lo, hi);
    }
  }

  /** The EMA lies between the smallest and the largest price. */
  lemma EmaWithinRange(prices: seq<real>, period: nat, lo: real, hi: real)
    requires 0 < period <= |prices|
    requires forall i :: 0 <= i < |prices| ==> lo <= prices[i] <= hi
    ensures lo <= Ema(prices, period).value <= hi
  {
    SmaWithinWindowRange(prices[..period], period, lo, hi);
    EmaFoldWithinRange(SimpleMovingAverage(prices[..period], period).value,
                       prices[period..], Multiplier(period), lo, hi);
  }

  /** Folding the recurrence over a constant series that starts at the same constant keeps it. */
  lemma {:induction false} EmaFoldConstant(c: real, rest: seq<real>, k: real)
    requires forall i :: 0 <= i < |rest| ==> rest[i] == c
    ensures EmaFold(c, rest, k) == c
    decreases |rest|
  {
    if rest != [] {
      var next := (rest[0] - c) * k + c;
      assert next == c;
      assert EmaFold(c, rest, k) == EmaFold(next, rest[1..], k);
      EmaFoldConstant(c, rest[1..], k);
    }
  }

  /** On a flat series every EMA equals the price, whatever the period. */
  lemma EmaOfConstant(prices: seq<real>, period: nat, c: real)
    requires 0 < period <= |prices|
    requires forall i :: 0 <= i < |prices| ==> prices[i] == c
    ensures Ema(prices, period) == Some(c)
  {
    EmaWithinRange(prices, period, c, c);
  }

  // ---------------------------------------------------------------- RSI

  /** The i-th price change counted from the end: `prices[-i] - prices[-i - 1]`. */
  function Delta(prices: seq<real>, i: nat): real
    requires 1 <= i < |prices|
  {
    prices[|prices| - i] - prices[|prices| - i - 1]
  }

  /** Positive changes go to `gains`; every other change goes to `losses` as its absolute value. */
  function Gain(d: real): real { if d > 0.0 then d else 0.0 }
  function Loss(d: real): real { if d > 0.0 then 0.0 else Abs(d) }

  /** The sums of `gains` and `losses` after the first `n` iterations of the RSI loop. */
  function GainSum(prices: seq<real>, n: nat): (r: real)
    requires n < |prices|
    ensures r >= 0.0
    decreases n
  {
    if n == 0 then 0.0 else GainSum(prices, n - 1) + Gain(Delta(prices, n))
  }

  function LossSum(prices: seq<real>, n: nat): (r: real)
    requires n < |prices|
    ensures r >= 0.0
    decreases n
  {
    if n == 0 then 0.0 else LossSum(prices, n - 1) + Loss(Delta(prices, n))
  }

  /** 100 - 100 / (1 + rs) lies in [0, 100) for rs >= 0. */
  lemma RsiFormulaRange(rs: real)
    requires rs >= 0.0
    ensures 0.0 <= 100.0 - 100.0 / (1.0 + rs) < 100.0
  {
    var d := 1.0 + rs;
    var q := 100.0 / d;
    assert q * d == 100.0;
    assert q > 0.0;
    assert q <= 100.0;
  }

  /**
   * `relative_strength_index`: undefined on fewer than period + 1 prices;
   * exactly 100 when the average loss of the last `period` changes is 0;
   * otherwise 100 - 100 / (1 + avg_gain / avg_loss).
   */
  function Rsi(prices: seq<real>, period: nat): (r: Option<real>)
    requires period > 0 || |prices| == 0
    ensures r.None? <==> |prices| < period + 1
    ensures r.Some? ==> 0.0 <= r.value <= 100.0
    ensures r.Some? ==> (r.value == 100.0 <==> LossSum(prices, period) == 0.0)
  {
    if |prices| < period + 1 then None
    else
      var avgGain := GainSum(prices, period) / period as real;
      var avgLoss := LossSum(prices, period) / period as real;
      if avgLoss == 0.0 then Some(100.0)
      else
        var rs := avgGain / avgLoss;
        RsiFormulaRange(rs);
        Some(100.0 - 100.0 / (1.0 + rs))
  }

  /** The loop of `relative_strength_index`, which collects `gains` and `losses`. */
  method RelativeStrengthIndex(prices: seq<real>, period: nat) returns (r: Option<real>)
    requires period > 0 || |prices| == 0
    ensures r == Rsi(prices, period)
  {
    if |prices| < period + 1 {
      return None;
    }
    var gains: seq<real> := [];
    var losses: seq<real> := [];
    for i := 1 to period + 1
      invariant Sum(gains) == GainSum(prices, i - 1)
      invariant Sum(losses) == LossSum(prices, i - 1)
    {
      var delta := prices[|prices| - i] - prices[|prices| - i - 1];
      if delta > 0.0 {
        SumAppend(gains, delta);
        gains := gains + [delta];
      } else {
        SumAppend(losses, Abs(delta));
        losses := losses + [Abs(delta)];
      }
    }
    var avgGain := Sum(gains) / period as real;
    var avgLoss := Sum(losses) / period as real;
    if avgLoss == 0.0 {
      return Some(100.0);
    }
    var rs := avgGain / avgLoss;
    return Some(100.0 - 100.0 / (1.0 + rs));
  }

  lemma {:induction false} LossSumFlat(prices: seq<real>, n: nat)
    requires n < |prices|
    requires forall i :: 0 <= i < |prices| ==> prices[i] == prices[0]
    ensures LossSum(prices, n) == 0.0
    decreases n
  {
    if n > 0 {
      LossSumFlat(prices, n - 1);
    }
  }

  /** A flat series (every change 0) has RSI exactly 100. */
  lemma RsiOfFlatSeries(prices: seq<real>, period: nat)
    requires 0 < period < |prices|
    requires forall i :: 0 <= i < |prices| ==> prices[i] == prices[0]
    ensures Rsi(prices, period) == Some(100.0)
  {
    LossSumFlat(prices, period);
  }

  lemma {:induction false} SumsOfLastChanges(prices: seq<real>, period: nat, n: nat)
    requires period < |prices| && n <= period
    ensures GainSum(prices, n) == GainSum(prices[|prices| - (period + 1)..], n)
    ensures LossSum(prices, n) == LossSum(prices[|prices| - (period + 1)..], n)
    decreases n
  {
    if n > 0 {
      var tail := prices[|prices| - (period + 1)..];
      assert Delta(prices, n) == Delta(tail, n);
      SumsOfLastChanges(prices, period, n - 1);
    }
  }

  /** Only the last `period` changes (the last period + 1 prices) enter the RSI. */
  lemma RsiUsesOnlyLastChanges(prices: seq<real>, period: nat)
    requires 0 < period < |prices|
    ensures Rsi(prices, period) == Rsi(prices[|prices| - (period + 1)..], period)
  {
    SumsOfLastChanges(prices, period, period);
  }
}
