/** strategy/volume_filter.py: the tiered volume-spike check. */
module VolumeFilter {
  import opened Series

  /** `sum(volume_history[-lookback:]) / lookback`: the current volume is part of the average. */
  function AverageVolume(volumeHistory: seq<real>, lookback: nat): real
    requires lookback > 0
  {
    Sum(LastN(volumeHistory, lookback)) / lookback as real
  }

  /** The history is long enough to be judged at all. */
  predicate Judged(volumeHistory: seq<real>, lookback: nat, risingBars: nat) {
    |volumeHistory| > 0 && |volumeHistory| >= lookback + risingBars
  }

  /**
   * `volume_spike_confirmed`, first matching tier wins: (1) current >= 1.25 x
   * average; (2) current >= thresholdMultiplier x average; (3) the last
   * `risingBars` volumes strictly increase and current >= 0.95 x average.
   * A zero `lookback` divides by zero in the source once the history is long
   * enough to be judged, hence the precondition.
   */
  function VolumeSpikeConfirmed(volumeHistory: seq<real>, thresholdMultiplier: real,
                                lookback: nat, risingBars: nat): (r: bool)
    requires lookback > 0 || !Judged(volumeHistory, lookback, risingBars)
    ensures !Judged(volumeHistory, lookback, risingBars) ==> !r
    ensures Judged(volumeHistory, lookback, risingBars) ==>
      (r <==> Tiered(volumeHistory[|volumeHistory| - 1], AverageVolume(volumeHistory, lookback),
                     thresholdMultiplier, StrictlyIncreasing(LastN(volumeHistory, risingBars))))
  {
    if !Judged(volumeHistory, lookback, risingBars) then false
    else
      var avgVolume := AverageVolume(volumeHistory, lookback);
      var currentVolume := volumeHistory[|volumeHistory| - 1];
      if currentVolume >= Times(avgVolume, 1.25) then true
      else if currentVolume >= Times(avgVolume, thresholdMultiplier) then true
      else if StrictlyIncreasing(LastN(volumeHistory, risingBars)) && currentVolume >= Times(avgVolume, 0.95) then true
      else false
  }

  /**
   * The three tiers together: 1.25 x the average, the configured multiple
   * of it, or 0.95 x it after a strictly rising run.
   */
  predicate Tiered(current: real, average: real, thresholdMultiplier: real, rising: bool) {
    || current >= Times(average, 1.25)
    || current >= Times(average, thresholdMultiplier)
    || (rising && current >= Times(average, 0.95))
  }

  /** The tiers compare ratios, so a common positive factor changes none of them. */
  lemma TieredScaled(current: real, average: real, current': real, average': real,
                     thresholdMultiplier: real, rising: bool, k: real)
    requires k > 0.0 && current' == Times(current, k) && average' == Times(average, k)
    ensures Tiered(current', average', thresholdMultiplier, rising)
         == Tiered(current, average, thresholdMultiplier, rising)
  {
    ScaledThreshold(current, average, current', average', 1.25, k);
    ScaledThreshold(current, average, current', average', thresholdMultiplier, k);
    ScaledThreshold(current, average, current', average', 0.95, k);
  }

  /** Every volume multiplied by `k`. */
  function Scaled(s: seq<real>, k: real): (r: seq<real>)
    ensures |r| == |s|
  {
    seq(|s|, i requires 0 <= i < |s| => k * s[i])
  }

  lemma ScaledAt(s: seq<real>, k: real, i: nat)
    requires i < |s|
    ensures Scaled(s, k)[i] == Times(s[i], k)
  {
  }

  /** Taking the last `n` commutes with scaling. */
  lemma LastNScaled(s: seq<real>, n: nat, k: real)
    ensures LastN(Scaled(s, k), n) == Scaled(LastN(s, n), k)
  {
    var a := LastN(Scaled(s, k), n);
    var b := Scaled(LastN(s, n), k);
    assert |a| == |b|;
    forall i | 0 <= i < |a|
      ensures a[i] == b[i]
    {
      assert a[i] == Scaled(s, k)[|s| - |a| + i];
    }
  }

  lemma ScaledComparison(a: real, b: real, k: real)
    requires k > 0.0
    ensures (k * a >= k * b) <==> (a >= b)
  {
    if a >= b {
      assert k * a - k * b == k * (a - b);
    } else {
      assert k * b - k * a == k * (b - a);
    }
  }

  lemma AverageScaled(volumeHistory: seq<real>, lookback: nat, k: real)
    requires lookback > 0
    ensures AverageVolume(Scaled(volumeHistory, k), lookback) == Times(AverageVolume(volumeHistory, lookback), k)
  {
    var w := LastN(volumeHistory, lookback);
    LastNScaled(volumeHistory, lookback, k);
    SumScaled(w, k);
    QuotientScaled(Sum(w), lookback as real, k);
  }

  lemma SumScaled(s: seq<real>, k: real)
    ensures Sum(Scaled(s, k)) == Times(Sum(s), k)
  {
    SumScale(s, k);
    assert Scaled(s, k) == seq(|s|, i requires 0 <= i < |s| => k * s[i]);
  }

  lemma QuotientScaled(x: real, n: real, k: real)
    requires n != 0.0
    ensures Times(x, k) / n == Times(x / n, k)
  {
    var q := x / n;
    assert q * n == x;
    assert (k * q) * n == k * x;
  }

  lemma IncreasingScaled(s: seq<real>, k: real)
    requires k > 0.0
    ensures StrictlyIncreasing(Scaled(s, k)) == StrictlyIncreasing(s)
  {
    var t := Scaled(s, k);
    forall i | 1 <= i < |s|
      ensures t[i - 1] < t[i] <==> s[i - 1] < s[i]
    {
      ScaledComparison(s[i - 1], s[i], k);
    }
  }

  /**
   * The check is scale-free: measuring every volume in other units (a common
   * positive factor) does not change the verdict.
   */
  lemma SpikeIsScaleInvariant(volumeHistory: seq<real>, thresholdMultiplier: real,
                              lookback: nat, risingBars: nat, k: real)
    requires lookback > 0 && k > 0.0
    ensures VolumeSpikeConfirmed(Scaled(volumeHistory, k), thresholdMultiplier, lookback, risingBars)
         == VolumeSpikeConfirmed(volumeHistory, thresholdMultiplier, lookback, risingBars)
  {
    var h := volumeHistory;
    var h' := Scaled(h, k);
    if Judged(h, lookback, risingBars) {
      var rising := StrictlyIncreasing(LastN(h, risingBars));
      LastNScaled(h, risingBars, k);
      IncreasingScaled(LastN(h, risingBars), k);
      assert StrictlyIncreasing(LastN(h', risingBars)) == rising;
      TiersScaled(h, lookback, thresholdMultiplier, rising, k);
    }
  }

  /** The current volume and the average both scale by `k`, so the tiers agree. */
  lemma TiersScaled(h: seq<real>, lookback: nat, thresholdMultiplier: real, rising: bool, k: real)
    requires |h| > 0 && lookback > 0 && k > 0.0
    ensures Tiered(Scaled(h, k)[|h| - 1], AverageVolume(Scaled(h, k), lookback), thresholdMultiplier, rising)
         == Tiered(h[|h| - 1], AverageVolume(h, lookback), thresholdMultiplier, rising)
  {
    ScaledAt(h, k, |h| - 1);
    AverageScaled(h, lookback, k);
    TieredScaled(h[|h| - 1], AverageVolume(h, lookback), Scaled(h, k)[|h| - 1],
                 AverageVolume(Scaled(h, k), lookback), thresholdMultiplier, rising, k);
  }

  lemma ScaledThreshold(current: real, average: real, current': real, average': real, c: real, k: real)
    requires k > 0.0 && current' == Times(current, k) && average' == Times(average, k)
    ensures (current' >= Times(average', c)) == (current >= Times(average, c))
  {
    assert Times(average', c) == k * Times(average, c);
    ScaledComparison(current, Times(average, c), k);
  }
}
