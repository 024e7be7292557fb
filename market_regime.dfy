/** strategy/market_regime.py: true range, ATR, the lightweight ADX and the regime classifier. */
module MarketRegime {
  import opened Wrappers
  import opened Series
  import opened TrueRange

  datatype Regime = Trending | EarlyTrend | Sideways

  /** The loop of `compute_true_range`. */
  method ComputeTrueRange(highs: seq<real>, lows: seq<real>, closes: seq<real>) returns (tr: seq<real>)
    requires Covers(highs, lows, closes)
    ensures tr == TrueRanges(highs, lows, closes)
  {
    if |highs| < 2 {
      return [];
    }
    tr := [];
    for i := 1 to |highs|
      invariant |tr| == i - 1
      invariant forall j :: 0 <= j < i - 1 ==> tr[j] == TrueRangeAt(highs, lows, closes, j + 1)
    {
      tr := tr + [Max3(highs[i] - lows[i], Abs(highs[i] - closes[i - 1]), Abs(lows[i] - closes[i - 1]))];
    }
  }

  /** Up-move of bar `i`, credited only when positive and larger than the down-move. */
  function PlusDm(highs: seq<real>, lows: seq<real>, i: nat): real
    requires |lows| >= |highs| && 1 <= i < |highs|
  {
    var up := highs[i] - highs[i - 1];
    var down := lows[i - 1] - lows[i];
    if up > down && up > 0.0 then up else 0.0
  }

  /** Down-move of bar `i`, credited only when positive and larger than the up-move. */
  function MinusDm(highs: seq<real>, lows: seq<real>, i: nat): real
    requires |lows| >= |highs| && 1 <= i < |highs|
  {
    var up := highs[i] - highs[i - 1];
    var down := lows[i - 1] - lows[i];
    if down > up && down > 0.0 then down else 0.0
  }

  /** Both directional moves are non-negative and at most one of them is positive. */
  lemma DirectionalMovesExclusive(highs: seq<real>, lows: seq<real>, i: nat)
    requires |lows| >= |highs| && 1 <= i < |highs|
    ensures PlusDm(highs, lows, i) >= 0.0 && MinusDm(highs, lows, i) >= 0.0
    ensures PlusDm(highs, lows, i) == 0.0 || MinusDm(highs, lows, i) == 0.0
  {
  }

  /** The `plus_dm` and `minus_dm` lists the ADX loop builds. */
  function PlusDms(highs: seq<real>, lows: seq<real>): (r: seq<real>)
    requires |lows| >= |highs|
    ensures forall j :: 0 <= j < |r| ==> r[j] >= 0.0
  {
    if |highs| == 0 then []
    else seq(|highs| - 1, j requires 0 <= j < |highs| - 1 => PlusDm(highs, lows, j + 1))
  }

  function MinusDms(highs: seq<real>, lows: seq<real>): (r: seq<real>)
    requires |lows| >= |highs|
    ensures forall j :: 0 <= j < |r| ==> r[j] >= 0.0
  {
    if |highs| == 0 then []
    else seq(|highs| - 1, j requires 0 <= j < |highs| - 1 => MinusDm(highs, lows, j + 1))
  }

  /** A directional index: the sum of the last `period` moves over the ATR, times 100. */
  function DirectionalIndex(moves: seq<real>, atr: real, period: nat): (r: real)
    requires atr > 0.0
    requires forall j :: 0 <= j < |moves| ==> moves[j] >= 0.0
    ensures r >= 0.0
  {
    var last := LastN(moves, period);
    SumNonnegative(last);
    Sum(last) / atr * 100.0
  }

  lemma RatioAtMostOne(a: real, b: real)
    requires 0.0 <= a <= b && b > 0.0
    ensures 0.0 <= a / b <= 1.0
  {
    var q := a / b;
    assert q * b == a;
  }

  /** DX = |+DI - -DI| / (+DI + -DI) * 100, and 0 when both indices are 0. */
  function Dx(plusDi: real, minusDi: real): (r: real)
    requires plusDi >= 0.0 && minusDi >= 0.0
    ensures 0.0 <= r <= 100.0
    ensures plusDi + minusDi == 0.0 ==> r == 0.0
    ensures plusDi == minusDi ==> r == 0.0
  {
    if plusDi + minusDi == 0.0 then 0.0
    else
      var q := Abs(plusDi - minusDi) / (plusDi + minusDi);
      assert q * (plusDi + minusDi) == Abs(plusDi - minusDi);
      assert Abs(plusDi - minusDi) <= plusDi + minusDi;
      RatioAtMostOne(Abs(plusDi - minusDi), plusDi + minusDi);
      assert 0.0 <= q <= 1.0;
      q * 100.0
  }

  /**
   * `compute_adx`: undefined on fewer than period + 1 bars or when the ATR is
   * undefined or 0; otherwise the DX of the last `period` directional moves,
   * which lies in [0, 100].
   */
  function Adx(highs: seq<real>, lows: seq<real>, closes: seq<real>, period: nat): (r: Option<real>)
    requires Covers(highs, lows, closes) && (period > 0 || |highs| == 0)
    ensures r.None? <==> |highs| < period + 1 || Atr(highs, lows, closes, period).value == 0.0
    ensures r.Some? ==> 0.0 <= r.value <= 100.0
  {
    if |highs| < period + 1 then None
    else
      var atr := Atr(highs, lows, closes, period);
      if atr.None? || atr.value == 0.0 then None
      else
        var plusDi := DirectionalIndex(PlusDms(highs, lows), atr.value, period);
        var minusDi := DirectionalIndex(MinusDms(highs, lows), atr.value, period);
        Some(Dx(plusDi, minusDi))
  }

  /** The loops of `compute_adx`, which collect `plus_dm` and `minus_dm`. */
  method ComputeAdx(highs: seq<real>, lows: seq<real>, closes: seq<real>, period: nat) returns (r: Option<real>)
    requires Covers(highs, lows, closes) && (period > 0 || |highs| == 0)
    ensures r == Adx(highs, lows, closes, period)
  {
    if |highs| < period + 1 {
      return None;
    }
    var plusDm, minusDm := DirectionalMoves(highs, lows);
    var atr := Atr(highs, lows, closes, period);
    if atr.None? || atr.value == 0.0 {
      return None;
    }
    var plusDi := DirectionalIndex(plusDm, atr.value, period);
    var minusDi := DirectionalIndex(minusDm, atr.value, period);
    return Some(Dx(plusDi, minusDi));
  }

  /** The loop of `compute_adx` that collects `plus_dm` and `minus_dm`, one pair per bar after the first. */
  method DirectionalMoves(highs: seq<real>, lows: seq<real>) returns (plusDm: seq<real>, minusDm: seq<real>)
    requires |highs| > 0 && |lows| >= |highs|
    ensures plusDm == PlusDms(highs, lows) && minusDm == MinusDms(highs, lows)
  {
    plusDm, minusDm := [], [];
    for i := 1 to |highs|
      invariant |plusDm| == i - 1 && |minusDm| == i - 1
      invariant forall j :: 0 <= j < i - 1 ==> plusDm[j] == PlusDm(highs, lows, j + 1)
      invariant forall j :: 0 <= j < i - 1 ==> minusDm[j] == MinusDm(highs, lows, j + 1)
    {
      var up := highs[i] - highs[i - 1];
      var down := lows[i - 1] - lows[i];
      plusDm := plusDm + [if up > down && up > 0.0 then up else 0.0];
      minusDm := minusDm + [if down > up && down > 0.0 then down else 0.0];
    }
  }

  /** `max(highs[-10:]) - min(lows[-10:])`. */
  function RecentRange(highs: seq<real>, lows: seq<real>): real
    requires |highs| > 0 && |lows| > 0
  {
    Max(LastN(highs, 10)) - Min(LastN(lows, 10))
  }

  /** `max(highs[-20:-10]) - min(lows[-20:-10])`: the window is clamped on fewer than 20 bars. */
  function PriorRange(highs: seq<real>, lows: seq<real>): real
    requires |highs| > 10 && |lows| > 10
  {
    Max(SliceFromEnd(highs, 20, 10)) - Min(SliceFromEnd(lows, 20, 10))
  }

  /**
   * `detect_market_regime` with ADX and ATR over 14 bars: SIDEWAYS when either
   * is undefined; TRENDING iff ADX >= adxTrend; EARLY_TREND iff
   * adxEarly <= ADX < adxTrend and the last 10 bars' range exceeds 1.3 times
   * the prior window's range; SIDEWAYS otherwise.
   */
  function DetectMarketRegime(highs: seq<real>, lows: seq<real>, closes: seq<real>,
                              adxTrend: real, adxEarly: real): (r: Regime)
    requires Covers(highs, lows, closes)
    ensures Adx(highs, lows, closes, 14).None? ==> r == Sideways
    ensures r == Trending <==>
      Adx(highs, lows, closes, 14).Some? && Adx(highs, lows, closes, 14).value >= adxTrend
    ensures r == EarlyTrend <==>
      && Adx(highs, lows, closes, 14).Some?
      && adxEarly <= Adx(highs, lows, closes, 14).value < adxTrend
      && RecentRange(highs, lows) > PriorRange(highs, lows) * 1.3
    ensures r != Sideways ==> |highs| >= 15 && Atr(highs, lows, closes, 14).value > 0.0
  {
    var adx := Adx(highs, lows, closes, 14);
    var atr := Atr(highs, lows, closes, 14);
    if adx.None? || atr.None? then Sideways
    else if adx.value >= adxTrend then Trending
    else if adx.value >= adxEarly && RecentRange(highs, lows) > PriorRange(highs, lows) * 1.3 then EarlyTrend
    else Sideways
  }
}
