/**
 * strategy/advanced_indicators.py: MACD with its own first-price-seeded EMA,
 * and variants of true range, ATR and ADX.
 */
module AdvancedIndicators {
  import opened Wrappers
  import opened Series
  import opened Indicators
  import opened TrueRange
  import opened MarketRegime

  // ---------------------------------------------------------------- MACD

  /** The smoothing factor `2 / (period + 1)` of the inner `ema` helper; a period of 0 gives 2. */
  function Smoothing(period: nat): (k: real)
    ensures 0.0 < k <= 2.0
  {
    2.0 / (period as real + 1.0)
  }

  /** The inner `ema` helper of `compute_macd`: seeded with the first value, not with an SMA. */
  function SeededEma(series: seq<real>, period: nat): real
    requires |series| > 0
  {
    EmaFold(series[0], series[1..], Smoothing(period))
  }

  /** The loop of the inner `ema` helper. */
  method SeededEmaLoop(series: seq<real>, period: nat) returns (emaVal: real)
    requires |series| > 0
    ensures emaVal == SeededEma(series, period)
  {
    var k := 2.0 / (period as real + 1.0);
    emaVal := series[0];
    for i := 1 to |series|
      invariant EmaFold(emaVal, series[i..], k) == EmaFold(series[0], series[1..], k)
    {
      assert series[i..][1..] == series[i + 1..];
      emaVal := (series[i] - emaVal) * k + emaVal;
    }
    assert series[|series|..] == [];
  }

  /**
   * The two EMA helpers of the project differ: on prices [1, 2] with period 2
   * the SMA-seeded one gives 1.5 and the first-price-seeded one 5/3.
   */
  lemma SeededEmaDiffersFromEma()
    ensures Ema([1.0, 2.0], 2) == Some(1.5)
    ensures SeededEma([1.0, 2.0], 2) == 5.0 / 3.0
  {
    assert [1.0, 2.0][..1] == [1.0];
    assert Sum([1.0]) == 1.0;
    assert Sum([1.0, 2.0]) == 3.0;
    assert [1.0, 2.0][1..] == [2.0];
    assert [2.0][1..] == [];
  }

  datatype MacdResult = MacdResult(macd: real, signal: real, hist: real)

  /** `[macd] * max(1, min(len(prices), signal_period))`: the history list the source builds. */
  function MacdHistory(macdLine: real, priceCount: nat, signalPeriod: nat): (h: seq<real>)
    ensures |h| > 0
    ensures forall i :: 0 <= i < |h| ==> h[i] == macdLine
  {
    var n := if priceCount < signalPeriod then priceCount else signalPeriod;
    seq(if n < 1 then 1 else n, _ => macdLine)
  }

  /**
   * `compute_macd`: None on fewer than `long_period` prices; otherwise the
   * MACD line (short EMA minus long EMA), the signal line (the EMA of the
   * history list) and their difference.
   */
  function Macd(prices: seq<real>, shortPeriod: nat, longPeriod: nat, signalPeriod: nat): (r: Option<MacdResult>)
    requires |prices| > 0 || longPeriod > 0
    ensures r.None? <==> |prices| < longPeriod
    ensures r.Some? ==> r.value.macd == SeededEma(prices, shortPeriod) - SeededEma(prices, longPeriod)
  {
    if |prices| < longPeriod then None
    else
      var macdLine := SeededEma(prices, shortPeriod) - SeededEma(prices, longPeriod);
      var signalLine := SeededEma(MacdHistory(macdLine, |prices|, signalPeriod), signalPeriod);
      Some(MacdResult(macdLine, signalLine, macdLine - signalLine))
  }

  /** `compute_macd` with its loops: the two EMAs, the history list and the signal EMA. */
  method ComputeMacd(prices: seq<real>, shortPeriod: nat, longPeriod: nat, signalPeriod: nat)
    returns (r: Option<MacdResult>)
    requires |prices| > 0 || longPeriod > 0
    ensures r == Macd(prices, shortPeriod, longPeriod, signalPeriod)
  {
    if |prices| < longPeriod {
      return None;
    }
    var shortEma := SeededEmaLoop(prices, shortPeriod);
    var longEma := SeededEmaLoop(prices, longPeriod);
    var macdLine := shortEma - longEma;
    var macdHist := [shortEma - longEma];
    var upper := if |prices| < signalPeriod then |prices| else signalPeriod;
    var i := 1;
    while i < upper
      invariant 1 <= i <= (if upper < 1 then 1 else upper)
      invariant |macdHist| == i
      invariant forall j :: 0 <= j < |macdHist| ==> macdHist[j] == macdLine
    {
      macdHist := macdHist + [macdHist[|macdHist| - 1]];
      i := i + 1;
    }
    var expected := MacdHistory(macdLine, |prices|, signalPeriod);
    assert |macdHist| == |expected|;
    assert forall j :: 0 <= j < |macdHist| ==> macdHist[j] == expected[j];
    assert macdHist == expected;
    var signalLine := SeededEmaLoop(macdHist, signalPeriod);
    return Some(MacdResult(macdLine, signalLine, macdLine - signalLine));
  }

  /**
   * The history list repeats one value, so the signal line equals the MACD
   * line and the histogram is always 0.
   */
  lemma MacdHistogramIsZero(prices: seq<real>, shortPeriod: nat, longPeriod: nat, signalPeriod: nat)
    requires |prices| >= longPeriod && |prices| > 0
    ensures Macd(prices, shortPeriod, longPeriod, signalPeriod).value.signal
         == Macd(prices, shortPeriod, longPeriod, signalPeriod).value.macd
    ensures Macd(prices, shortPeriod, longPeriod, signalPeriod).value.hist == 0.0
  {
    var macdLine := SeededEma(prices, shortPeriod) - SeededEma(prices, longPeriod);
    var h := MacdHistory(macdLine, |prices|, signalPeriod);
    EmaFoldConstant(macdLine, h[1..], Smoothing(signalPeriod));
  }

  /** On a flat price series the MACD line is 0. */
  lemma MacdOfFlatSeries(prices: seq<real>, shortPeriod: nat, longPeriod: nat, signalPeriod: nat)
    requires |prices| >= longPeriod && |prices| > 0
    requires forall i :: 0 <= i < |prices| ==> prices[i] == prices[0]
    ensures Macd(prices, shortPeriod, longPeriod, signalPeriod).value.macd == 0.0
  {
    EmaFoldConstant(prices[0], prices[1..], Smoothing(shortPeriod));
    EmaFoldConstant(prices[0], prices[1..], Smoothing(longPeriod));
  }

  // ---------------------------------------------------------------- true range and ATR

  /** `compute_true_range` of this file: None (not []) on fewer than 2 bars. */
  function AdvTrueRange(highs: seq<real>, lows: seq<real>, closes: seq<real>): (r: Option<seq<real>>)
    requires Covers(highs, lows, closes)
    ensures r.None? <==> |highs| < 2
    ensures r.Some? ==> r.value == TrueRanges(highs, lows, closes) && |r.value| == |highs| - 1
  {
    if |highs| < 2 then None else Some(TrueRanges(highs, lows, closes))
  }

  /** The loop of `compute_true_range`. */
  method ComputeAdvTrueRange(highs: seq<real>, lows: seq<real>, closes: seq<real>) returns (r: Option<seq<real>>)
    requires Covers(highs, lows, closes)
    ensures r == AdvTrueRange(highs, lows, closes)
  {
    if |highs| < 2 {
      return None;
    }
    var tr: seq<real> := [];
    for i := 1 to |highs|
      invariant |tr| == i - 1
      invariant forall j :: 0 <= j < i - 1 ==> tr[j] == TrueRangeAt(highs, lows, closes, j + 1)
    {
      tr := tr + [Max3(highs[i] - lows[i], Abs(highs[i] - closes[i - 1]), Abs(lows[i] - closes[i - 1]))];
    }
    assert tr == TrueRanges(highs, lows, closes);
    return Some(tr);
  }

  /**
   * `compute_atr` of this file: None when the true ranges are missing, empty
   * or fewer than `period`. A period of 0 divides by zero once there are true
   * ranges, hence the precondition.
   */
  function AdvAtr(highs: seq<real>, lows: seq<real>, closes: seq<real>, period: nat): (r: Option<real>)
    requires Covers(highs, lows, closes) && (period > 0 || |highs| < 2)
    ensures r.None? <==> |highs| < 2 || |highs| < period + 1
  {
    var trs := AdvTrueRange(highs, lows, closes);
    if trs.None? || |trs.value| == 0 || |trs.value| < period then None
    else Some(Sum(LastN(trs.value, period)) / period as real)
  }

  /** Wherever both are defined by the source, this ATR is the one of the regime classifier. */
  lemma AdvAtrAgrees(highs: seq<real>, lows: seq<real>, closes: seq<real>, period: nat)
    requires Covers(highs, lows, closes) && period > 0
    ensures AdvAtr(highs, lows, closes, period) == Atr(highs, lows, closes, period)
  {
  }

  // ---------------------------------------------------------------- ADX

  /** The ADX needs a non-zero ATR once it has enough bars: a zero ATR divides by zero in the source. */
  predicate AdvAdxDefined(highs: seq<real>, lows: seq<real>, closes: seq<real>, period: nat) {
    && Covers(highs, lows, closes)
    && (period > 0 || |highs| < 2)
    && (period > 0 && |highs| >= period + 1 ==> Atr(highs, lows, closes, period).value != 0.0)
  }

  /** `sum([dx] * period) / period`: the "smoothing" of the source. */
  function Smoothed(dx: real, period: nat): real
    requires period > 0
  {
    Sum(seq(period, _ => dx)) / period as real
  }

  /** Averaging `period` copies of a value gives the value back. */
  lemma SmoothingIsIdentity(dx: real, period: nat)
    requires period > 0
    ensures Smoothed(dx, period) == dx
  {
    var s := seq(period, _ => dx);
    SumBounds(s, dx, dx);
    MeanWithinRange(Sum(s), period, dx, dx);
  }

  /**
   * `compute_adx` of this file: None on fewer than period + 1 bars or without
   * an ATR, otherwise the DX of the last `period` directional moves,
   * averaged over `period` copies.
   */
  function AdvAdx(highs: seq<real>, lows: seq<real>, closes: seq<real>, period: nat): (r: Option<real>)
    requires AdvAdxDefined(highs, lows, closes, period)
    ensures r.None? <==> |highs| < period + 1 || |highs| < 2
  {
    if |highs| < period + 1 then None
    else
      var atr := AdvAtr(highs, lows, closes, period);
      if atr.None? then None
      else
        var plusDi := DirectionalIndex(PlusDms(highs, lows), atr.value, period);
        var minusDi := DirectionalIndex(MinusDms(highs, lows), atr.value, period);
        Some(Smoothed(Dx(plusDi, minusDi), period))
  }

  /**
   * This ADX is the classifier's ADX: the "smoothing" over `period` copies
   * of one DX changes nothing.
   */
  lemma AdvAdxAgrees(highs: seq<real>, lows: seq<real>, closes: seq<real>, period: nat)
    requires AdvAdxDefined(highs, lows, closes, period) && period > 0
    ensures AdvAdx(highs, lows, closes, period) == Adx(highs, lows, closes, period)
  {
    if |highs| >= period + 1 {
      var atr := Atr(highs, lows, closes, period);
      var plusDi := DirectionalIndex(PlusDms(highs, lows), atr.value, period);
      var minusDi := DirectionalIndex(MinusDms(highs, lows), atr.value, period);
      SmoothingIsIdentity(Dx(plusDi, minusDi), period);
    }
  }

  /**
   * The directional-move loop of `compute_adx`, written `max(move, 0) if move
   * > other else 0`: the same moves as the classifier's ADX credits.
   */
  method DirectionalMoves(highs: seq<real>, lows: seq<real>) returns (plusDm: seq<real>, minusDm: seq<real>)
    requires |lows| >= |highs| && |highs| > 0
    ensures plusDm == PlusDms(highs, lows) && minusDm == MinusDms(highs, lows)
  {
    plusDm := [];
    minusDm := [];
    for i := 1 to |highs|
      invariant |plusDm| == i - 1 && |minusDm| == i - 1
      invariant forall j :: 0 <= j < i - 1 ==> plusDm[j] == PlusDm(highs, lows, j + 1)
      invariant forall j :: 0 <= j < i - 1 ==> minusDm[j] == MinusDm(highs, lows, j + 1)
    {
      var upMove := highs[i] - highs[i - 1];
      var downMove := lows[i - 1] - lows[i];
      plusDm := plusDm + [if upMove > downMove then (if upMove > 0.0 then upMove else 0.0) else 0.0];
      minusDm := minusDm + [if downMove > upMove then (if downMove > 0.0 then downMove else 0.0) else 0.0];
    }
    assert plusDm == PlusDms(highs, lows);
    assert minusDm == MinusDms(highs, lows);
  }

  /** `compute_adx`: the directional moves, the ATR and the smoothing. */
  method ComputeAdvAdx(highs: seq<real>, lows: seq<real>, closes: seq<real>, period: nat) returns (r: Option<real>)
    requires AdvAdxDefined(highs, lows, closes, period)
    ensures r == AdvAdx(highs, lows, closes, period)
  {
    if |highs| < period + 1 {
      return None;
    }
    var plusDm, minusDm := DirectionalMoves(highs, lows);
    var atrVal := AdvAtr(highs, lows, closes, period);
    if atrVal.None? {
      return None;
    }
    var plusDi := DirectionalIndex(plusDm, atrVal.value, period);
    var minusDi := DirectionalIndex(minusDm, atrVal.value, period);
    var dx := Dx(plusDi, minusDi);
    return Some(Smoothed(dx, period));
  }
}
