/** strategy/decision_engine.py: the final BUY / SELL decision from the upstream signals. */
module DecisionEngine {
  import opened Wrappers
  import opened Series
  import opened Indicators
  import opened Labels
  import opened MarketRegime
  import opened HtfBias
  import opened BreakoutDetector

  /** Only TRENDING and EARLY_TREND markets are traded. */
  predicate RegimeAllows(marketRegime: Regime) {
    marketRegime == Trending || marketRegime == EarlyTrend
  }

  /** The higher-timeframe bias points the same way as the breakout. */
  predicate BiasAligned(breakout: Breakout, htfBias: Bias) {
    match breakout
    case Long => htfBias.Bullish()
    case Short => htfBias.Bearish()
  }

  /** A usable VWAP that the last traded price is on the wrong side of, beyond 0.3 %. */
  predicate VwapViolated(breakout: Breakout, vwapVal: Option<real>, ltp: real) {
    Truthy(vwapVal) &&
    match breakout
    case Long => ltp < Times(vwapVal.value, 0.997)
    case Short => ltp > Times(vwapVal.value, 1.003)
  }

  /** The bias is the STRONG one of the breakout's direction. */
  predicate StrongBias(breakout: Breakout, htfBias: Bias) {
    match breakout
    case Long => htfBias == BullishStrong
    case Short => htfBias == BearishStrong
  }

  /** At least 30 prices, EMA 9 above EMA 21 and RSI 14 above 48. */
  predicate LongMomentum(prices: seq<real>) {
    |prices| >= 30
    && Ema(prices, 9).value > Ema(prices, 21).value
    && Rsi(prices, 14).value > 48.0
  }

  /** At least 30 prices, EMA 9 below EMA 21 and RSI 14 below 52. */
  predicate ShortMomentum(prices: seq<real>) {
    |prices| >= 30
    && Ema(prices, 9).value < Ema(prices, 21).value
    && Rsi(prices, 14).value < 52.0
  }

  /** Every gate for entering in the direction of `breakout`. */
  predicate Enters(prices: seq<real>, marketRegime: Regime, htfBias: Bias, breakout: Breakout,
                   vwapVal: Option<real>, ltp: real)
  {
    && RegimeAllows(marketRegime)
    && BiasAligned(breakout, htfBias)
    && (VwapViolated(breakout, vwapVal, ltp) ==> StrongBias(breakout, htfBias))
    && (if breakout == Long then LongMomentum(prices) else ShortMomentum(prices))
  }

  /**
   * `final_trade_decision`: BUY exactly when a LONG breakout passes every
   * gate, SELL exactly when a SHORT one does. A VWAP on the wrong side is
   * tolerated only with a STRONG bias.
   */
  function FinalTradeDecision(prices: seq<real>, marketRegime: Regime, htfBias: Bias,
                              breakoutSignal: Option<Breakout>, vwapVal: Option<real>, ltp: real): (r: Option<Side>)
    ensures r == Some(Buy) <==>
      breakoutSignal == Some(Long) && Enters(prices, marketRegime, htfBias, Long, vwapVal, ltp)
    ensures r == Some(Sell) <==>
      breakoutSignal == Some(Short) && Enters(prices, marketRegime, htfBias, Short, vwapVal, ltp)
  {
    if !RegimeAllows(marketRegime) then None
    else if breakoutSignal.None? then None
    else if breakoutSignal == Some(Long) && !htfBias.Bullish() then None
    else if breakoutSignal == Some(Short) && !htfBias.Bearish() then None
    else
      var vwapOk :=
        if Truthy(vwapVal) then
          !(breakoutSignal == Some(Long) && ltp < Times(vwapVal.value, 0.997))
          && !(breakoutSignal == Some(Short) && ltp > Times(vwapVal.value, 1.003))
        else true;
      if !vwapOk && breakoutSignal == Some(Long) && htfBias != BullishStrong then None
      else if !vwapOk && breakoutSignal == Some(Short) && htfBias != BearishStrong then None
      else if |prices| < 30 then None
      else
        var ema9 := Ema(prices, 9);
        var ema21 := Ema(prices, 21);
        var rsi14 := Rsi(prices, 14);
        if breakoutSignal == Some(Long) && ema9.value > ema21.value && rsi14.value > 48.0 then Some(Buy)
        else if breakoutSignal == Some(Short) && ema9.value < ema21.value && rsi14.value < 52.0 then Some(Sell)
        else None
  }

  /** No trade in a sideways market, whatever the other signals say. */
  lemma SidewaysNeverTrades(prices: seq<real>, htfBias: Bias, breakoutSignal: Option<Breakout>,
                            vwapVal: Option<real>, ltp: real)
    ensures FinalTradeDecision(prices, Sideways, htfBias, breakoutSignal, vwapVal, ltp) == None
  {
    var r := FinalTradeDecision(prices, Sideways, htfBias, breakoutSignal, vwapVal, ltp);
    assert r != Some(Buy) && r != Some(Sell);
  }

  /** The decision never goes against the HTF bias. */
  lemma DecisionAgreesWithBias(prices: seq<real>, marketRegime: Regime, htfBias: Bias,
                               breakoutSignal: Option<Breakout>, vwapVal: Option<real>, ltp: real)
    ensures FinalTradeDecision(prices, marketRegime, htfBias, breakoutSignal, vwapVal, ltp) == Some(Buy)
        ==> htfBias.Bullish()
    ensures FinalTradeDecision(prices, marketRegime, htfBias, breakoutSignal, vwapVal, ltp) == Some(Sell)
        ==> htfBias.Bearish()
  {
  }

  /**
   * With a STRONG bias in the breakout's direction the VWAP does not matter:
   * any VWAP (or none) and any last traded price give the same decision.
   */
  lemma StrongBiasIgnoresVwap(prices: seq<real>, marketRegime: Regime, htfBias: Bias, breakout: Breakout,
                              vwap1: Option<real>, ltp1: real, vwap2: Option<real>, ltp2: real)
    requires StrongBias(breakout, htfBias)
    ensures FinalTradeDecision(prices, marketRegime, htfBias, Some(breakout), vwap1, ltp1)
         == FinalTradeDecision(prices, marketRegime, htfBias, Some(breakout), vwap2, ltp2)
  {
    var r1 := FinalTradeDecision(prices, marketRegime, htfBias, Some(breakout), vwap1, ltp1);
    var r2 := FinalTradeDecision(prices, marketRegime, htfBias, Some(breakout), vwap2, ltp2);
    assert r1 == Some(Buy) <==> r2 == Some(Buy);
    assert r1 == Some(Sell) <==> r2 == Some(Sell);
  }

  /** A VWAP of 0 is falsy and therefore means the same as no VWAP. */
  lemma ZeroVwapIsNoVwap(prices: seq<real>, marketRegime: Regime, htfBias: Bias,
                         breakoutSignal: Option<Breakout>, ltp: real)
    ensures FinalTradeDecision(prices, marketRegime, htfBias, breakoutSignal, Some(0.0), ltp)
         == FinalTradeDecision(prices, marketRegime, htfBias, breakoutSignal, None, ltp)
  {
  }
}
