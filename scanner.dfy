/** strategy/scanner.py: the per-instrument rolling store of prices, highs, lows, closes and volumes. */
module Scanner {
  import opened Wrappers
  import opened Series

  /**
   * The series of an instrument, empty when it was never updated: what
   * `store.get(instrument, [])` reads, and what `_init_store` leaves in place
   * before the first append.
   */
  function SeriesOf(store: map<string, seq<real>>, instrument: string): (s: seq<real>)
    ensures instrument !in store ==> s == []
  {
    if instrument in store then store[instrument] else []
  }

  /** `max_len if max_len is not None else window_size`. */
  function Capacity(windowSize: nat, maxLen: Option<nat>): (cap: nat)
    ensures maxLen.None? ==> cap == windowSize
    ensures maxLen.Some? ==> cap == maxLen.value
  {
    if maxLen.Some? then maxLen.value else windowSize
  }

  /** Five stores over the same instruments, with parallel series no longer than `maxLen`. */
  ghost predicate Parallel(prices: map<string, seq<real>>, highs: map<string, seq<real>>,
                           lows: map<string, seq<real>>, closes: map<string, seq<real>>,
                           volumes: map<string, seq<real>>, maxLen: nat)
  {
    && highs.Keys == prices.Keys && lows.Keys == prices.Keys
    && closes.Keys == prices.Keys && volumes.Keys == prices.Keys
    && forall k :: k in prices ==>
         && |highs[k]| == |prices[k]| && |lows[k]| == |prices[k]|
         && |closes[k]| == |prices[k]| && |volumes[k]| == |prices[k]|
         && |prices[k]| <= maxLen
  }

  /** One bounded append to each store keeps them parallel. */
  lemma ParallelAfterAppend(prices: map<string, seq<real>>, highs: map<string, seq<real>>,
                            lows: map<string, seq<real>>, closes: map<string, seq<real>>,
                            volumes: map<string, seq<real>>, maxLen: nat, instrument: string,
                            price: real, high: real, low: real, close: real, volume: real)
    requires Parallel(prices, highs, lows, closes, volumes, maxLen)
    ensures Parallel(prices[instrument := BoundedAppend(SeriesOf(prices, instrument), price, maxLen)],
                     highs[instrument := BoundedAppend(SeriesOf(highs, instrument), high, maxLen)],
                     lows[instrument := BoundedAppend(SeriesOf(lows, instrument), low, maxLen)],
                     closes[instrument := BoundedAppend(SeriesOf(closes, instrument), close, maxLen)],
                     volumes[instrument := BoundedAppend(SeriesOf(volumes, instrument), volume, maxLen)],
                     maxLen)
  {
    var n := |SeriesOf(prices, instrument)|;
    var m := if n + 1 <= maxLen then n + 1 else maxLen;
    assert |SeriesOf(highs, instrument)| == n && |SeriesOf(lows, instrument)| == n;
    assert |SeriesOf(closes, instrument)| == n && |SeriesOf(volumes, instrument)| == n;
    ParallelAfterSet(prices, highs, lows, closes, volumes, maxLen, instrument,
                     BoundedAppend(SeriesOf(prices, instrument), price, maxLen),
                     BoundedAppend(SeriesOf(highs, instrument), high, maxLen),
                     BoundedAppend(SeriesOf(lows, instrument), low, maxLen),
                     BoundedAppend(SeriesOf(closes, instrument), close, maxLen),
                     BoundedAppend(SeriesOf(volumes, instrument), volume, maxLen));
  }

  /** Replacing one instrument's five series by parallel ones keeps the stores parallel. */
  lemma ParallelAfterSet(prices: map<string, seq<real>>, highs: map<string, seq<real>>,
                         lows: map<string, seq<real>>, closes: map<string, seq<real>>,
                         volumes: map<string, seq<real>>, maxLen: nat, instrument: string,
                         p: seq<real>, h: seq<real>, l: seq<real>, c: seq<real>, v: seq<real>)
    requires Parallel(prices, highs, lows, closes, volumes, maxLen)
    requires |h| == |p| && |l| == |p| && |c| == |p| && |v| == |p| && |p| <= maxLen
    ensures Parallel(prices[instrument := p], highs[instrument := h], lows[instrument := l],
                     closes[instrument := c], volumes[instrument := v], maxLen)
  {
  }

  class MarketScanner {
    /** The maximum length of every buffer (`deque(maxlen=...)`). */
    const maxLen: nat

    var prices: map<string, seq<real>>
    var highs: map<string, seq<real>>
    var lows: map<string, seq<real>>
    var closes: map<string, seq<real>>
    var volumes: map<string, seq<real>>

    /** The five stores know the same instruments and hold parallel series no longer than `maxLen`. */
    ghost predicate Valid()
      reads this
    {
      Parallel(prices, highs, lows, closes, volumes, maxLen)
    }

    /** `MarketScanner(window_size, max_len)`: empty stores. */
    constructor (windowSize: nat, maxLenArg: Option<nat>)
      ensures Valid()
      ensures maxLen == Capacity(windowSize, maxLenArg)
      ensures prices == map[] && highs == map[] && lows == map[] && closes == map[] && volumes == map[]
    {
      maxLen := Capacity(windowSize, maxLenArg);
      prices := map[];
      highs := map[];
      lows := map[];
      closes := map[];
      volumes := map[];
    }

    /**
     * `update`: appends one value to each of the instrument's five buffers,
     * the oldest value dropping out of a full buffer; every other instrument
     * is untouched.
     */
    method Update(instrument: string, price: real, high: real, low: real, close: real, volume: real)
      requires Valid()
      modifies this
      ensures Valid()
      ensures prices == old(prices)[instrument := BoundedAppend(SeriesOf(old(prices), instrument), price, maxLen)]
      ensures highs == old(highs)[instrument := BoundedAppend(SeriesOf(old(highs), instrument), high, maxLen)]
      ensures lows == old(lows)[instrument := BoundedAppend(SeriesOf(old(lows), instrument), low, maxLen)]
      ensures closes == old(closes)[instrument := BoundedAppend(SeriesOf(old(closes), instrument), close, maxLen)]
      ensures volumes == old(volumes)[instrument := BoundedAppend(SeriesOf(old(volumes), instrument), volume, maxLen)]
    {
      ParallelAfterAppend(prices, highs, lows, closes, volumes, maxLen,
                          instrument, price, high, low, close, volume);
      prices := prices[instrument := BoundedAppend(SeriesOf(prices, instrument), price, maxLen)];
      highs := highs[instrument := BoundedAppend(SeriesOf(highs, instrument), high, maxLen)];
      lows := lows[instrument := BoundedAppend(SeriesOf(lows, instrument), low, maxLen)];
      closes := closes[instrument := BoundedAppend(SeriesOf(closes, instrument), close, maxLen)];
      volumes := volumes[instrument := BoundedAppend(SeriesOf(volumes, instrument), volume, maxLen)];
    }

    /** `get_prices`: a copy of the buffer, empty for an unknown instrument. */
    function GetPrices(instrument: string): (s: seq<real>)
      reads this
      requires Valid()
      ensures instrument !in prices ==> s == []
      ensures |s| <= maxLen
      ensures |s| == |GetHighs(instrument)| == |GetLows(instrument)|
           == |GetCloses(instrument)| == |GetVolumes(instrument)|
    {
      SeriesOf(prices, instrument)
    }

    function GetHighs(instrument: string): (s: seq<real>)
      reads this
      requires Valid()
      ensures instrument !in highs ==> s == []
    {
      SeriesOf(highs, instrument)
    }

    function GetLows(instrument: string): (s: seq<real>)
      reads this
      requires Valid()
      ensures instrument !in lows ==> s == []
    {
      SeriesOf(lows, instrument)
    }

    function GetCloses(instrument: string): (s: seq<real>)
      reads this
      requires Valid()
      ensures instrument !in closes ==> s == []
    {
      SeriesOf(closes, instrument)
    }

    function GetVolumes(instrument: string): (s: seq<real>)
      reads this
      requires Valid()
      ensures instrument !in volumes ==> s == []
    {
      SeriesOf(volumes, instrument)
    }
  }

  /** A buffer of capacity `cap` after the values `xs` were appended to it one by one, from empty. */
  function Fed(xs: seq<real>, cap: nat): (s: seq<real>)
    ensures |s| <= cap
    decreases |xs|
  {
    if xs == [] then [] else BoundedAppend(Fed(xs[..|xs| - 1], cap), xs[|xs| - 1], cap)
  }

  /** A series of the store always holds exactly the last `maxLen` values fed to it, in order. */
  lemma {:induction false} FedKeepsLastValues(xs: seq<real>, cap: nat)
    requires cap > 0
    ensures Fed(xs, cap) == LastN(xs, cap)
    decreases |xs|
  {
    if xs != [] {
      var init := xs[..|xs| - 1];
      FedKeepsLastValues(init, cap);
      BoundedAppendKeepsLastN(init, xs[|xs| - 1], cap);
      assert init + [xs[|xs| - 1]] == xs;
    }
  }
}
