/** strategy/htf_bias.py: the higher-timeframe bias from two EMAs and a soft VWAP check. */
module HtfBias {
  import opened Wrappers
  import opened Series
  import opened Indicators

  datatype Bias = BullishStrong | BullishWeak | BearishStrong | BearishWeak | Neutral
  {
    predicate Bullish() { this == BullishStrong || this == BullishWeak }
    predicate Bearish() { this == BearishStrong || this == BearishWeak }
  }

  /** What the source demands: `long_period` is a real period, `short_period` too once it is used. */
  predicate PeriodsOk(prices: seq<real>, shortPeriod: nat, longPeriod: nat) {
    longPeriod > 0 && (|prices| >= longPeriod ==> shortPeriod > 0)
  }

  /** Both EMAs exist and the short one is above the long one. */
  predicate EmasBullish(prices: seq<real>, shortPeriod: nat, longPeriod: nat)
    requires PeriodsOk(prices, shortPeriod, longPeriod)
  {
    |prices| >= longPeriod && |prices| >= shortPeriod
    && Ema(prices, shortPeriod).value > Ema(prices, longPeriod).value
  }

  /** Both EMAs exist and the short one is below the long one. */
  predicate EmasBearish(prices: seq<real>, shortPeriod: nat, longPeriod: nat)
    requires PeriodsOk(prices, shortPeriod, longPeriod)
  {
    |prices| >= longPeriod && |prices| >= shortPeriod
    && Ema(prices, shortPeriod).value < Ema(prices, longPeriod).value
  }

  /** A usable VWAP (present and non-zero) that the last price clears by the tolerance. */
  predicate VwapBullish(price: real, vwapValue: Option<real>, vwapTolerance: real) {
    Truthy(vwapValue) && price > Times(vwapValue.value, 1.0 + vwapTolerance)
  }

  /** The `elif`: a usable VWAP, not cleared upwards, that the last price undercuts by the tolerance. */
  predicate VwapBearish(price: real, vwapValue: Option<real>, vwapTolerance: real) {
    Truthy(vwapValue) && !(price > Times(vwapValue.value, 1.0 + vwapTolerance))
    && price < Times(vwapValue.value, 1.0 - vwapTolerance)
  }

  /**
   * `get_htf_bias`: NEUTRAL on short history, an undefined EMA or equal
   * EMAs; otherwise the EMA direction, STRONG when the VWAP agrees and WEAK
   * when it does not.
   */
  function GetHtfBias(prices: seq<real>, vwapValue: Option<real>, shortPeriod: nat, longPeriod: nat,
                      vwapTolerance: real): (r: Bias)
    requires PeriodsOk(prices, shortPeriod, longPeriod)
    ensures |prices| < longPeriod ==> r == Neutral
    ensures r.Bullish() <==> EmasBullish(prices, shortPeriod, longPeriod)
    ensures r.Bearish() <==> EmasBearish(prices, shortPeriod, longPeriod)
    ensures r == BullishStrong <==>
      EmasBullish(prices, shortPeriod, longPeriod) && VwapBullish(prices[|prices| - 1], vwapValue, vwapTolerance)
    ensures r == BearishStrong <==>
      EmasBearish(prices, shortPeriod, longPeriod) && VwapBearish(prices[|prices| - 1], vwapValue, vwapTolerance)
  {
    if |prices| < longPeriod then Neutral
    else
      var emaShort := Ema(prices, shortPeriod);
      var emaLong := Ema(prices, longPeriod);
      if emaShort.None? || emaLong.None? then Neutral
      else
        var price := prices[|prices| - 1];
        if emaShort.value == emaLong.value then Neutral
        else
          var emaBullish := emaShort.value > emaLong.value;
          var vwapBias: Option<bool> :=
            if Truthy(vwapValue) then
              if price > Times(vwapValue.value, 1.0 + vwapTolerance) then Some(true)
              else if price < Times(vwapValue.value, 1.0 - vwapTolerance) then Some(false)
              else None
            else None;
          if emaBullish then
            if vwapBias == Some(true) then BullishStrong else BullishWeak
          else
            if vwapBias == Some(false) then BearishStrong else BearishWeak
  }

  /**
   * The VWAP is a soft filter: it only decides STRONG against WEAK, never the
   * direction of the bias.
   */
  lemma VwapNeverDecidesDirection(prices: seq<real>, vwap1: Option<real>, vwap2: Option<real>,
                                  shortPeriod: nat, longPeriod: nat, vwapTolerance: real)
    requires PeriodsOk(prices, shortPeriod, longPeriod)
    ensures GetHtfBias(prices, vwap1, shortPeriod, longPeriod, vwapTolerance).Bullish()
        == GetHtfBias(prices, vwap2, shortPeriod, longPeriod, vwapTolerance).Bullish()
    ensures GetHtfBias(prices, vwap1, shortPeriod, longPeriod, vwapTolerance).Bearish()
        == GetHtfBias(prices, vwap2, shortPeriod, longPeriod, vwapTolerance).Bearish()
    ensures (GetHtfBias(prices, vwap1, shortPeriod, longPeriod, vwapTolerance) == Neutral)
        == (GetHtfBias(prices, vwap2, shortPeriod, longPeriod, vwapTolerance) == Neutral)
  {
    var b1 := GetHtfBias(prices, vwap1, shortPeriod, longPeriod, vwapTolerance);
    var b2 := GetHtfBias(prices, vwap2, shortPeriod, longPeriod, vwapTolerance);
    assert b1 == Neutral <==> !b1.Bullish() && !b1.Bearish();
    assert b2 == Neutral <==> !b2.Bullish() && !b2.Bearish();
  }

  /** A flat price series has equal EMAs and therefore no bias. */
  lemma FlatSeriesIsNeutral(prices: seq<real>, vwapValue: Option<real>, shortPeriod: nat, longPeriod: nat,
                            vwapTolerance: real)
    requires PeriodsOk(prices, shortPeriod, longPeriod)
    requires forall i :: 0 <= i < |prices| ==> prices[i] == prices[0]
    ensures GetHtfBias(prices, vwapValue, shortPeriod, longPeriod, vwapTolerance) == Neutral
  {
    if |prices| >= longPeriod && |prices| >= shortPeriod {
      EmaOfConstant(prices, shortPeriod, prices[0]);
      EmaOfConstant(prices, longPeriod, prices[0]);
    }
  }
}
