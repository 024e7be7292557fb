/** strategy/vwap_filter.py: the running or windowed volume-weighted average price. */
module VwapFilter {
  import opened Wrappers
  import opened Series

  /** One accepted `update(price, volume)`. */
  datatype Sample = Sample(price: real, volume: real)

  /** `price * volume` of every sample. */
  function Products(h: seq<Sample>): (r: seq<real>)
    ensures |r| == |h|
  {
    seq(|h|, i requires 0 <= i < |h| => Times(h[i].price, h[i].volume))
  }

  function Volumes(h: seq<Sample>): (r: seq<real>)
    ensures |r| == |h|
  {
    seq(|h|, i requires 0 <= i < |h| => h[i].volume)
  }

  lemma SamplesAppend(h: seq<Sample>, x: Sample)
    ensures Products(h + [x]) == Products(h) + [Times(x.price, x.volume)]
    ensures Volumes(h + [x]) == Volumes(h) + [x.volume]
  {
    var h' := h + [x];
    assert forall i :: 0 <= i < |h| ==> h'[i] == h[i];
    assert Products(h')[..|h|] == Products(h);
    assert Volumes(h')[..|h|] == Volumes(h);
  }

  /** The part of a stream the sums cover: all of it when unbounded (`window` 0), else the last `window` items. */
  function Scope<T>(s: seq<T>, window: nat): (r: seq<T>)
    ensures window == 0 || |s| <= window ==> r == s
    ensures 0 < window <= |s| ==> |r| == window
  {
    if window == 0 then s else LastN(s, window)
  }

  /** The VWAP of the samples since the last reset: None while their volume sums to 0. */
  function Vwap(h: seq<Sample>, window: nat): (r: Option<real>)
    ensures r.None? <==> Sum(Scope(Volumes(h), window)) == 0.0
    ensures r.Some? ==> Times(r.value, Sum(Scope(Volumes(h), window))) == Sum(Scope(Products(h), window))
  {
    var volumeSum := Sum(Scope(Volumes(h), window));
    if volumeSum == 0.0 then None
    else
      QuotientTimes(Sum(Scope(Products(h), window)), volumeSum);
      Some(Sum(Scope(Products(h), window)) / volumeSum)
  }

  /** Division undone by multiplication. */
  lemma QuotientTimes(x: real, y: real)
    requires y != 0.0
    ensures Times(x / y, y) == x
  {
  }

  class VWAPCalculator {
    /** `window`, with 0 standing for both None and 0 (both falsy: the unbounded mode). */
    const window: nat

    var priceVolumeSum: real
    var volumeSum: real
    /** The two `deque(maxlen=window)`s; unused (and empty) in the unbounded mode. */
    var priceVolumeWindow: seq<real>
    var volumeWindow: seq<real>

    /** Every sample accepted since construction or the last reset. */
    ghost var history: seq<Sample>

    ghost predicate Valid()
      reads this
    {
      && priceVolumeSum == Sum(Scope(Products(history), window))
      && volumeSum == Sum(Scope(Volumes(history), window))
      && (window > 0 ==> priceVolumeWindow == Scope(Products(history), window)
                         && volumeWindow == Scope(Volumes(history), window))
      && (window == 0 ==> priceVolumeWindow == [] && volumeWindow == [])
    }

    /** `VWAPCalculator(window)`: zero sums, nothing recorded. */
    constructor (windowArg: nat)
      ensures Valid() && window == windowArg && history == []
    {
      window := windowArg;
      priceVolumeSum := 0.0;
      volumeSum := 0.0;
      priceVolumeWindow := [];
      volumeWindow := [];
      history := [];
    }

    /** `reset`: a new session starts with zero sums and empty windows. */
    method Reset()
      requires Valid()
      modifies this
      ensures Valid() && history == []
      ensures priceVolumeSum == 0.0 && volumeSum == 0.0
      ensures priceVolumeWindow == [] && volumeWindow == []
      ensures GetVwap().None?
    {
      priceVolumeSum := 0.0;
      volumeSum := 0.0;
      priceVolumeWindow := [];
      volumeWindow := [];
      history := [];
    }

    /**
     * `update`: a missing price or volume is ignored; otherwise the sample is
     * added to the sums (or to the windows, whose sums are recomputed) and the
     * new VWAP is returned.
     */
    method Update(price: Option<real>, volume: Option<real>) returns (r: Option<real>)
      requires Valid()
      modifies this
      ensures Valid()
      ensures price.None? || volume.None? ==>
        r.None? && history == old(history)
        && priceVolumeSum == old(priceVolumeSum) && volumeSum == old(volumeSum)
        && priceVolumeWindow == old(priceVolumeWindow) && volumeWindow == old(volumeWindow)
      ensures price.Some? && volume.Some? ==>
        history == old(history) + [Sample(price.value, volume.value)] && r == Vwap(history, window)
      ensures r.Some? ==> r == GetVwap()
    {
      if volume.None? || price.None? {
        return None;
      }
      var p, v := price.value, volume.value;
      var sample := Sample(p, v);
      ghost var h := history + [sample];
      if window > 0 {
        WindowedStep(history, sample, window);
        priceVolumeWindow := BoundedAppend(priceVolumeWindow, Times(p, v), window);
        volumeWindow := BoundedAppend(volumeWindow, v, window);
        assert priceVolumeWindow == Scope(Products(h), window);
        assert volumeWindow == Scope(Volumes(h), window);
        priceVolumeSum := Sum(priceVolumeWindow);
        volumeSum := Sum(volumeWindow);
      } else {
        UnboundedStep(history, sample);
        priceVolumeSum := priceVolumeSum + Times(p, v);
        volumeSum := volumeSum + v;
      }
      history := h;
      assert Valid();
      if volumeSum == 0.0 {
        return None;
      }
      return Some(priceVolumeSum / volumeSum);
    }

    /** `get_vwap`: the VWAP of the samples in scope, without changing anything. */
    function GetVwap(): (r: Option<real>)
      reads this
      requires Valid()
      ensures r == Vwap(history, window)
    {
      if volumeSum == 0.0 then None else Some(priceVolumeSum / volumeSum)
    }
  }

  /** The two deques after one more sample still hold the last `window` products and volumes. */
  lemma WindowedStep(h: seq<Sample>, x: Sample, window: nat)
    requires window > 0
    ensures BoundedAppend(Scope(Products(h), window), Times(x.price, x.volume), window)
         == Scope(Products(h + [x]), window)
    ensures BoundedAppend(Scope(Volumes(h), window), x.volume, window) == Scope(Volumes(h + [x]), window)
  {
    SamplesAppend(h, x);
    BoundedAppendKeepsLastN(Products(h), Times(x.price, x.volume), window);
    BoundedAppendKeepsLastN(Volumes(h), x.volume, window);
  }

  /** The running sums after one more sample are the totals over every sample since the reset. */
  lemma UnboundedStep(h: seq<Sample>, x: Sample)
    ensures Sum(Scope(Products(h + [x]), 0)) == Sum(Scope(Products(h), 0)) + Times(x.price, x.volume)
    ensures Sum(Scope(Volumes(h + [x]), 0)) == Sum(Scope(Volumes(h), 0)) + x.volume
  {
    SamplesAppend(h, x);
    SumAppend(Products(h), Times(x.price, x.volume));
    SumAppend(Volumes(h), x.volume);
  }

  // ---------------------------------------------------------------- properties of the specification

  /** A positive weight keeps the order of two prices. */
  lemma WeightKeepsOrder(a: real, b: real, w: real)
    requires a <= b && w > 0.0
    ensures Times(a, w) <= Times(b, w)
  {
    assert Times(b, w) - Times(a, w) == (b - a) * w;
  }

  /** With positive volumes, the volume-weighted sum lies between lo and hi times the volume sum. */
  lemma {:induction false} WeightedSumBounds(h: seq<Sample>, lo: real, hi: real)
    requires forall i :: 0 <= i < |h| ==> h[i].volume > 0.0 && lo <= h[i].price <= hi
    ensures Sum(Volumes(h)) >= 0.0 && (|h| > 0 ==> Sum(Volumes(h)) > 0.0)
    ensures Times(lo, Sum(Volumes(h))) <= Sum(Products(h)) <= Times(hi, Sum(Volumes(h)))
    decreases |h|
  {
    if h != [] {
      var init := h[..|h| - 1];
      var last := h[|h| - 1];
      WeightedSumBounds(init, lo, hi);
      assert h == init + [last];
      SamplesAppend(init, last);
      SumAppend(Products(init), Times(last.price, last.volume));
      SumAppend(Volumes(init), last.volume);
      WeightKeepsOrder(lo, last.price, last.volume);
      WeightKeepsOrder(last.price, hi, last.volume);
      TimesDistributes(lo, Sum(Volumes(init)), last.volume);
      TimesDistributes(hi, Sum(Volumes(init)), last.volume);
    }
  }

  lemma TimesDistributes(a: real, x: real, y: real)
    ensures Times(a, x + y) == Times(a, x) + Times(a, y)
  {
  }

  /** The sums of a window are the sums over the window's samples. */
  lemma ScopeOfSamples(h: seq<Sample>, window: nat)
    ensures Scope(Products(h), window) == Products(Scope(h, window))
    ensures Scope(Volumes(h), window) == Volumes(Scope(h, window))
  {
    if 0 < window < |h| {
      ProductsSuffix(h, |h| - window);
      VolumesSuffix(h, |h| - window);
    }
  }

  lemma ProductsSuffix(h: seq<Sample>, k: nat)
    requires k <= |h|
    ensures Products(h)[k..] == Products(h[k..])
  {
    assert forall i :: 0 <= i < |h| - k ==> Products(h)[k..][i] == Products(h[k..])[i];
  }

  lemma VolumesSuffix(h: seq<Sample>, k: nat)
    requires k <= |h|
    ensures Volumes(h)[k..] == Volumes(h[k..])
  {
    assert forall i :: 0 <= i < |h| - k ==> Volumes(h)[k..][i] == Volumes(h[k..])[i];
  }

  lemma QuotientBounds(total: real, weight: real, lo: real, hi: real)
    requires weight > 0.0 && Times(lo, weight) <= total <= Times(hi, weight)
    ensures lo <= total / weight <= hi
  {
    var q := total / weight;
    assert q * weight == total;
    assert (q - lo) * weight >= 0.0;
    assert (hi - q) * weight >= 0.0;
  }

  /**
   * With positive volumes the VWAP exists once a sample is in scope and lies
   * between the lowest and the highest price of the samples in scope.
   */
  lemma VwapWithinPriceRange(h: seq<Sample>, window: nat, lo: real, hi: real)
    requires |h| > 0
    requires forall i :: 0 <= i < |h| ==> h[i].volume > 0.0
    requires forall i :: 0 <= i < |Scope(h, window)| ==> lo <= Scope(h, window)[i].price <= hi
    ensures Vwap(h, window).Some?
    ensures lo <= Vwap(h, window).value <= hi
  {
    var s := Scope(h, window);
    ScopeOfSamples(h, window);
    assert s == h[|h| - |s|..];
    assert forall i :: 0 <= i < |s| ==> s[i].volume > 0.0;
    assert |s| > 0;
    WeightedSumBounds(s, lo, hi);
    var total, weight := Sum(Products(s)), Sum(Volumes(s));
    assert weight > 0.0;
    QuotientBounds(total, weight, lo, hi);
  }

  predicate NonNegativeVolumes(h: seq<Sample>) {
    forall i :: 0 <= i < |h| ==> h[i].volume >= 0.0
  }

  /** After a sample with positive volume, on top of non-negative volumes, the VWAP is defined. */
  lemma VwapDefinedAfterPositiveVolume(h: seq<Sample>, x: Sample, window: nat)
    requires NonNegativeVolumes(h) && x.volume > 0.0
    ensures Vwap(h + [x], window).Some?
  {
    var h' := h + [x];
    var s := Scope(h', window);
    ScopeOfSamples(h', window);
    assert s == h'[|h'| - |s|..] && |s| > 0;
    assert s == s[..|s| - 1] + [x];
    SamplesAppend(s[..|s| - 1], x);
    assert forall i :: 0 <= i < |s| - 1 ==> s[i].volume >= 0.0;
    SumNonnegative(Volumes(s[..|s| - 1]));
    SumAppend(Volumes(s[..|s| - 1]), x.volume);
  }

  /** Two bars of 10 shares at 100 and at 110 average to 105 in the unbounded mode. */
  lemma TwoBarExample()
    ensures Vwap([Sample(100.0, 10.0), Sample(110.0, 10.0)], 0) == Some(105.0)
  {
    var h := [Sample(100.0, 10.0), Sample(110.0, 10.0)];
    assert Products(h) == [1000.0, 1100.0];
    assert Volumes(h) == [10.0, 10.0];
    assert [1000.0, 1100.0][..1] == [1000.0];
    assert [10.0, 10.0][..1] == [10.0];
    assert Sum([1000.0, 1100.0]) == 2100.0;
    assert Sum([10.0, 10.0]) == 20.0;
  }

  /** With a window of one only the latest bar counts. */
  lemma WindowOfOneExample()
    ensures Vwap([Sample(100.0, 10.0), Sample(110.0, 10.0)], 1) == Some(110.0)
  {
    var h := [Sample(100.0, 10.0), Sample(110.0, 10.0)];
    assert Scope(Products(h), 1) == [1100.0];
    assert Scope(Volumes(h), 1) == [10.0];
    assert [1100.0][..0] == [];
    assert [10.0][..0] == [];
  }
}
