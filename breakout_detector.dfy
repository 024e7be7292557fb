/** strategy/breakout_detector.py: compression, expansion confirmation and the directional break. */
module BreakoutDetector {
  import opened Wrappers
  import opened Series
  import opened TrueRange
  import opened VolumeFilter

  datatype Breakout = Long | Short

  /** `max(window) - min(window)`, never negative. */
  function WindowRange(window: seq<real>): (r: real)
    requires |window| > 0
    ensures r >= 0.0
  {
    Max(window) - Min(window)
  }

  /**
   * `detect_compression`: False on fewer than 2 x lookback prices or a flat
   * previous window; otherwise True iff the last `lookback` prices span less
   * than `compressionRatio` times the `lookback` prices before them.
   */
  function DetectCompression(prices: seq<real>, lookback: nat, compressionRatio: real): (r: bool)
    requires lookback > 0
    ensures |prices| < lookback * 2 ==> !r
    ensures |prices| >= lookback * 2 ==>
      var previous := WindowRange(SliceFromEnd(prices, lookback * 2, lookback));
      (r <==> previous != 0.0 && WindowRange(LastN(prices, lookback)) < Times(previous, compressionRatio))
  {
    if |prices| < lookback * 2 then false
    else
      var recent := LastN(prices, lookback);
      var previous := SliceFromEnd(prices, lookback * 2, lookback);
      var recentRange := WindowRange(recent);
      var previousRange := WindowRange(previous);
      if previousRange == 0.0 then false
      else recentRange < Times(previousRange, compressionRatio)
  }

  /** The ATR confirmation: skipped when a bar series is empty or the 14-bar ATR is undefined or 0. */
  predicate AtrConfirms(prices: seq<real>, highs: seq<real>, lows: seq<real>, closes: seq<real>,
                        atrMultiplier: real)
    requires |prices| >= 2
    requires |highs| > 0 && |lows| > 0 && |closes| > 0 ==> Covers(highs, lows, closes)
  {
    && |highs| > 0 && |lows| > 0 && |closes| > 0
    && var atr := Atr(highs, lows, closes, 14);
       Truthy(atr) && Abs(prices[|prices| - 1] - prices[|prices| - 2]) >= Times(atr.value, atrMultiplier)
  }

  /** The volume confirmation: needs at least 20 volumes. */
  predicate VolumeConfirms(volumeHistory: seq<real>, volThreshold: real) {
    |volumeHistory| > 0 && |volumeHistory| >= 20 && VolumeSpikeConfirmed(volumeHistory, volThreshold, 20, 3)
  }

  /** Every gate before the directional test passes. */
  predicate GatesPass(prices: seq<real>, volumeHistory: seq<real>,
                      highs: seq<real>, lows: seq<real>, closes: seq<real>,
                      volThreshold: real, atrMultiplier: real)
    requires |highs| > 0 && |lows| > 0 && |closes| > 0 ==> Covers(highs, lows, closes)
  {
    && |prices| >= 30
    && DetectCompression(prices, 20, 0.65)
    && (AtrConfirms(prices, highs, lows, closes, atrMultiplier) || VolumeConfirms(volumeHistory, volThreshold))
  }

  /** `prices[-20:]`, split into the 19 earlier prices and the current one. */
  function Segment(prices: seq<real>): (s: seq<real>)
    requires |prices| >= 20
    ensures |s| == 19
  {
    LastN(prices, 20)[..19]
  }

  predicate BreaksUp(prices: seq<real>, breakoutPct: real)
    requires |prices| >= 20
  {
    prices[|prices| - 1] > Times(Max(Segment(prices)), 1.0 + breakoutPct)
  }

  predicate BreaksDown(prices: seq<real>, breakoutPct: real)
    requires |prices| >= 20
  {
    prices[|prices| - 1] < Times(Min(Segment(prices)), 1.0 - breakoutPct)
  }

  /**
   * `breakout_signal_confirmed`: LONG when every gate passes and the last
   * price clears the prior 19-price high by `breakoutPct`; otherwise SHORT when
   * it falls below the prior low by `breakoutPct`; otherwise no signal. The
   * optional bar lists of the source are sequences here, an empty one standing
   * for both None and [] (both falsy).
   */
  function BreakoutSignalConfirmed(prices: seq<real>, volumeHistory: seq<real>,
                                   highs: seq<real>, lows: seq<real>, closes: seq<real>,
                                   breakoutPct: real, volThreshold: real, atrMultiplier: real): (r: Option<Breakout>)
    requires |highs| > 0 && |lows| > 0 && |closes| > 0 ==> Covers(highs, lows, closes)
    ensures |prices| < 30 ==> r.None?
    ensures r.Some? ==> |prices| >= 40
    ensures r.Some? ==> GatesPass(prices, volumeHistory, highs, lows, closes, volThreshold, atrMultiplier)
    ensures r == Some(Long) <==>
      GatesPass(prices, volumeHistory, highs, lows, closes, volThreshold, atrMultiplier)
      && BreaksUp(prices, breakoutPct)
    ensures r == Some(Short) <==>
      GatesPass(prices, volumeHistory, highs, lows, closes, volThreshold, atrMultiplier)
      && !BreaksUp(prices, breakoutPct) && BreaksDown(prices, breakoutPct)
  {
    if |prices| < 30 then None
    else if !DetectCompression(prices, 20, 0.65) then None
    else
      var atrOk := AtrConfirms(prices, highs, lows, closes, atrMultiplier);
      var volumeOk := VolumeConfirms(volumeHistory, volThreshold);
      if !(atrOk || volumeOk) then None
      else
        var recentSegment := LastN(prices, 20);
        var high := Max(recentSegment[..19]);
        var low := Min(recentSegment[..19]);
        var current := recentSegment[19];
        if current > Times(high, 1.0 + breakoutPct) then Some(Long)
        else if current < Times(low, 1.0 - breakoutPct) then Some(Short)
        else None
  }

  /** Every price moved by the same amount `c`. */
  function Shifted(s: seq<real>, c: real): (r: seq<real>)
    ensures |r| == |s|
  {
    seq(|s|, i requires 0 <= i < |s| => s[i] + c)
  }

  /** Shifting commutes with slicing. */
  lemma ShiftedSlice(s: seq<real>, c: real, lo: nat, hi: nat)
    requires lo <= hi <= |s|
    ensures Shifted(s, c)[lo..hi] == Shifted(s[lo..hi], c)
  {
    assert forall i :: 0 <= i < hi - lo ==> Shifted(s, c)[lo..hi][i] == s[lo + i] + c;
  }

  lemma ShiftedSlices(s: seq<real>, c: real, lookback: nat)
    requires lookback > 0
    ensures LastN(Shifted(s, c), lookback) == Shifted(LastN(s, lookback), c)
    ensures SliceFromEnd(Shifted(s, c), lookback * 2, lookback)
         == Shifted(SliceFromEnd(s, lookback * 2, lookback), c)
  {
    ShiftedLastN(s, c, lookback);
    var start := if |s| >= lookback * 2 then |s| - lookback * 2 else 0;
    var stop := if |s| >= lookback then |s| - lookback else 0;
    ShiftedSlice(s, c, start, stop);
  }

  lemma ShiftedLastN(s: seq<real>, c: real, n: nat)
    ensures LastN(Shifted(s, c), n) == Shifted(LastN(s, n), c)
  {
    var k := if n == 0 || n >= |s| then 0 else |s| - n;
    ShiftedSlice(s, c, k, |s|);
    assert s[0..|s|] == s;
    assert Shifted(s, c)[0..|s|] == Shifted(s, c);
  }

  /** A range is unaffected by moving every price by the same amount. */
  lemma WindowRangeShifted(window: seq<real>, c: real)
    requires |window| > 0
    ensures WindowRange(Shifted(window, c)) == WindowRange(window)
  {
    var t := Shifted(window, c);
    var i :| 0 <= i < |window| && window[i] == Max(window);
    var j :| 0 <= j < |t| && t[j] == Max(t);
    assert t[i] <= Max(t) && window[j] <= Max(window);
    var i' :| 0 <= i' < |window| && window[i'] == Min(window);
    var j' :| 0 <= j' < |t| && t[j'] == Min(t);
    assert t[i'] >= Min(t) && window[j'] >= Min(window);
  }

  /**
   * Compression depends only on how far prices move, not on their level:
   * adding the same amount to every price leaves the verdict unchanged.
   */
  lemma CompressionIgnoresLevel(prices: seq<real>, lookback: nat, compressionRatio: real, c: real)
    requires lookback > 0
    ensures DetectCompression(Shifted(prices, c), lookback, compressionRatio)
         == DetectCompression(prices, lookback, compressionRatio)
  {
    if |prices| >= lookback * 2 {
      ShiftedSlices(prices, c, lookback);
      WindowRangeShifted(LastN(prices, lookback), c);
      WindowRangeShifted(SliceFromEnd(prices, lookback * 2, lookback), c);
    }
  }

  /**
   * With positive prices and a non-negative breakout percentage the two
   * directional tests cannot both hold, so the order of the LONG and SHORT
   * checks does not matter: SHORT is exactly the gates plus a break below the
   * prior low.
   */
  lemma DirectionsExclusive(prices: seq<real>, volumeHistory: seq<real>,
                            highs: seq<real>, lows: seq<real>, closes: seq<real>,
                            breakoutPct: real, volThreshold: real, atrMultiplier: real)
    requires |highs| > 0 && |lows| > 0 && |closes| > 0 ==> Covers(highs, lows, closes)
    requires |prices| >= 20 && breakoutPct >= 0.0
    requires forall i :: 0 <= i < |prices| ==> prices[i] > 0.0
    ensures !(BreaksUp(prices, breakoutPct) && BreaksDown(prices, breakoutPct))
    ensures BreakoutSignalConfirmed(prices, volumeHistory, highs, lows, closes,
                                    breakoutPct, volThreshold, atrMultiplier) == Some(Short)
        <==> GatesPass(prices, volumeHistory, highs, lows, closes, volThreshold, atrMultiplier)
             && BreaksDown(prices, breakoutPct)
  {
    var seg := Segment(prices);
    var lo := Min(seg);
    var hi := Max(seg);
    assert lo in seg;
    assert lo > 0.0 by {
      var k :| 0 <= k < |seg| && seg[k] == lo;
      assert seg[k] == prices[|prices| - 20 + k];
    }
    assert lo <= hi by {
      assert seg[0] <= hi && lo <= seg[0];
    }
    UpperAboveLower(lo, hi, breakoutPct);
  }

  lemma UpperAboveLower(lo: real, hi: real, p: real)
    requires 0.0 < lo <= hi && p >= 0.0
    ensures Times(lo, 1.0 - p) <= Times(hi, 1.0 + p)
  {
    assert lo * p >= 0.0;
    assert hi * p >= 0.0;
  }
}
