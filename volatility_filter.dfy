/** strategy/volatility_filter.py: its copy of the true-range loop and the ATR-relative expansion check. */
module VolatilityFilter {
  import opened Wrappers
  import opened Series
  import opened TrueRange

  /** The loop of this file's `compute_true_range` (its `compute_atr` is `TrueRange.Atr`). */
  method ComputeTrueRange(highs: seq<real>, lows: seq<real>, closes: seq<real>) returns (trValues: seq<real>)
    requires Covers(highs, lows, closes)
    ensures trValues == TrueRanges(highs, lows, closes)
  {
    if |highs| < 2 {
      return [];
    }
    trValues := [];
    var i := 1;
    while i < |highs|
      invariant 1 <= i <= |highs|
      invariant |trValues| == i - 1
      invariant forall j :: 0 <= j < i - 1 ==> trValues[j] == TrueRangeAt(highs, lows, closes, j + 1)
    {
      trValues := trValues + [Max3(highs[i] - lows[i], Abs(highs[i] - closes[i - 1]), Abs(lows[i] - closes[i - 1]))];
      i := i + 1;
    }
  }

  function Min2(a: real, b: real): real { if a <= b then a else b }

  /**
   * `volatility_breakout_confirmed`: False without an ATR; True when the
   * absolute move reaches atr * atrMultiplier; with a positive ATR also when
   * the move reaches the fraction `minMovePct` of the ATR.
   */
  function VolatilityBreakoutConfirmed(currentMove: real, atrValue: Option<real>,
                                       atrMultiplier: real, minMovePct: real): (r: bool)
    ensures atrValue.None? ==> !r
    ensures atrValue.Some? && Abs(currentMove) >= atrValue.value * atrMultiplier ==> r
    ensures atrValue.Some? && atrValue.value > 0.0 ==>
              (r <==> Abs(currentMove) >= atrValue.value * Min2(atrMultiplier, minMovePct))
    ensures atrValue.Some? && atrValue.value <= 0.0 ==>
              (r <==> Abs(currentMove) >= atrValue.value * atrMultiplier)
  {
    if atrValue.None? then false
    else if Abs(currentMove) >= atrValue.value * atrMultiplier then true
    else if atrValue.value > 0.0 then
      var movePct := Abs(currentMove) / atrValue.value;
      assert movePct * atrValue.value == Abs(currentMove);
      assert movePct >= minMovePct <==> Abs(currentMove) >= atrValue.value * minMovePct;
      movePct >= minMovePct
    else false
  }

  /** The check depends only on the size of the move, not on its direction. */
  lemma BreakoutIgnoresDirection(currentMove: real, atrValue: Option<real>, atrMultiplier: real, minMovePct: real)
    ensures VolatilityBreakoutConfirmed(currentMove, atrValue, atrMultiplier, minMovePct)
         == VolatilityBreakoutConfirmed(-currentMove, atrValue, atrMultiplier, minMovePct)
  {
  }

  /** A zero ATR confirms every move. */
  lemma ZeroAtrAlwaysConfirms(currentMove: real, atrMultiplier: real, minMovePct: real)
    ensures VolatilityBreakoutConfirmed(currentMove, Some(0.0), atrMultiplier, minMovePct)
  {
  }
}
