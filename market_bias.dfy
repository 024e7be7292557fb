/** strategy/market_bias.py: the overall market mood from the NIFTY 50 index. */
module MarketBias {
  import opened Wrappers

  datatype MarketMood = Bullish | Bearish | Sideways

  /**
   * `get_market_bias`: SIDEWAYS when any input is missing; BULLISH when the
   * index is above its VWAP and EMA 20 is above EMA 50; BEARISH when both are
   * below; SIDEWAYS otherwise.
   */
  function GetMarketBias(niftyPrice: Option<real>, niftyVwap: Option<real>,
                         ema20: Option<real>, ema50: Option<real>): (r: MarketMood)
    ensures (niftyPrice.None? || niftyVwap.None? || ema20.None? || ema50.None?) ==> r == Sideways
    ensures r == Bullish <==>
      (&& niftyPrice.Some? && niftyVwap.Some? && ema20.Some? && ema50.Some?
       && niftyPrice.value > niftyVwap.value && ema20.value > ema50.value)
    ensures r == Bearish <==>
      (&& niftyPrice.Some? && niftyVwap.Some? && ema20.Some? && ema50.Some?
       && niftyPrice.value < niftyVwap.value && ema20.value < ema50.value)
  {
    if niftyPrice.None? || niftyVwap.None? || ema20.None? || ema50.None? then Sideways
    else if niftyPrice.value > niftyVwap.value && ema20.value > ema50.value then Bullish
    else if niftyPrice.value < niftyVwap.value && ema20.value < ema50.value then Bearish
    else Sideways
  }

  /** The input with its sign flipped, a missing value staying missing. */
  function Negated(x: Option<real>): (r: Option<real>)
    ensures r.Some? <==> x.Some?
    ensures r.Some? ==> r.value == -x.value
  {
    match x
    case None => None
    case Some(v) => Some(-v)
  }

  /** The rule treats both directions alike: mirroring every input swaps BULLISH and BEARISH. */
  lemma MoodIsSymmetric(niftyPrice: Option<real>, niftyVwap: Option<real>,
                        ema20: Option<real>, ema50: Option<real>)
    ensures GetMarketBias(Negated(niftyPrice), Negated(niftyVwap), Negated(ema20), Negated(ema50))
         == match GetMarketBias(niftyPrice, niftyVwap, ema20, ema50)
            case Bullish => Bearish
            case Bearish => Bullish
            case Sideways => Sideways
  {
  }
}
