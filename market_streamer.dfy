/**
 * core/market_streamer.py: one `on_message` batch over explicit state. The
 * scanner, the VWAP calculators, the day's signal sets, the admission flag,
 * the trade monitor and the risk manager are the module's globals; the
 * broker's answer to an order is a function parameter and the day is passed in.
 */
module MarketStreamer {
  import opened Wrappers
  import opened Series
  import opened Labels
  import opened TrueRange
  import opened MarketRegime
  import opened HtfBias
  import opened BreakoutDetector
  import DecisionEngine
  import opened VwapFilter
  import opened Scanner
  import opened OrderExecutor
  import TM = TradeMonitor
  import RM = RiskManager

  /** The last one-minute bar of a feed, with every field parsed. */
  datatype Bar = Bar(high: real, low: real, close: real, volume: real)

  /**
   * One entry of `message["feeds"]`: the LTP when it parses, and the last
   * OHLC bar when the list is non-empty and its four fields parse.
   */
  datatype Feed = Feed(instKey: string, ltp: Option<real>, bar: Option<Bar>)

  /** The printed ALERT line of an entry signal. */
  datatype Alert = Alert(instKey: string, side: Side, price: real, vwap: real, regime: Regime, bias: Bias)

  /** `MarketScanner(max_len=600)`. */
  const HISTORY_LEN: nat := 600

  /** Below this many stored prices an instrument is only recorded. */
  const MIN_PRICES: nat := 30

  /** What the strategy concluded for an instrument: the side and the inputs the alert shows. */
  datatype TradeSignal = TradeSignal(side: Side, regime: Regime, bias: Bias, breakout: Breakout)

  /**
   * Regime, HTF bias, breakout and decision with the defaults `on_message`
   * uses: a signal only when a breakout is confirmed and the decision engine
   * enters on it.
   */
  function Strategy(prices: seq<real>, highs: seq<real>, lows: seq<real>, closes: seq<real>,
                    volumes: seq<real>, vwapVal: Option<real>, ltp: real): (r: Option<TradeSignal>)
    requires Covers(highs, lows, closes)
  {
    Signal(prices, DetectMarketRegime(highs, lows, closes, 18.0, 14.0), GetHtfBias(prices, vwapVal, 20, 50, 0.002),
           BreakoutSignalConfirmed(prices, volumes, highs, lows, closes, 0.0012, 1.15, 0.7), vwapVal, ltp)
  }

  /** The decision step of the strategy, given the regime, the bias and the breakout. */
  function Signal(prices: seq<real>, regime: Regime, bias: Bias, breakout: Option<Breakout>,
                  vwapVal: Option<real>, ltp: real): (r: Option<TradeSignal>)
  {
    if breakout.None? then None
    else
      var decision := DecisionEngine.FinalTradeDecision(prices, regime, bias, breakout, vwapVal, ltp);
      if decision.None? then None
      else Some(TradeSignal(decision.value, regime, bias, breakout.value))
  }

  /**
   * A signal carries the regime and the bias it was decided on and a
   * confirmed breakout, buys only on a LONG breakout and sells only on a
   * SHORT one, and passes every entry gate of the decision engine.
   */
  lemma SignalMeaning(prices: seq<real>, regime: Regime, bias: Bias, breakout: Option<Breakout>,
                      vwapVal: Option<real>, ltp: real)
    ensures var r := Signal(prices, regime, bias, breakout, vwapVal, ltp);
      && (breakout.None? ==> r.None?)
      && (r.Some? ==>
        && r.value.regime == regime && r.value.regime != Sideways
        && r.value.bias == bias
        && breakout == Some(r.value.breakout)
        && (r.value.side == Buy <==> r.value.breakout == Long)
        && DecisionEngine.Enters(prices, regime, bias, r.value.breakout, vwapVal, ltp))
  {
    if breakout.Some? {
      var decision := DecisionEngine.FinalTradeDecision(prices, regime, bias, breakout, vwapVal, ltp);
      if decision == Some(Buy) {
        assert DecisionEngine.Enters(prices, regime, bias, Long, vwapVal, ltp);
      } else if decision == Some(Sell) {
        assert DecisionEngine.Enters(prices, regime, bias, Short, vwapVal, ltp);
      }
    }
  }

  /**
   * A signal needs 40 prices, a trending or early-trend regime and a confirmed
   * breakout, buys only on a LONG breakout and sells only on a SHORT one, and
   * passes every entry gate of the decision engine.
   */
  lemma StrategyMeaning(prices: seq<real>, highs: seq<real>, lows: seq<real>, closes: seq<real>,
                        volumes: seq<real>, vwapVal: Option<real>, ltp: real)
    requires Covers(highs, lows, closes)
    ensures var r := Strategy(prices, highs, lows, closes, volumes, vwapVal, ltp);
      r.Some? ==>
        && |prices| >= 40
        && r.value.regime == DetectMarketRegime(highs, lows, closes, 18.0, 14.0)
        && r.value.regime != Sideways
        && r.value.bias == GetHtfBias(prices, vwapVal, 20, 50, 0.002)
        && BreakoutSignalConfirmed(prices, volumes, highs, lows, closes, 0.0012, 1.15, 0.7) == Some(r.value.breakout)
        && (r.value.side == Buy <==> r.value.breakout == Long)
        && DecisionEngine.Enters(prices, r.value.regime, r.value.bias, r.value.breakout, vwapVal, ltp)
    ensures BreakoutSignalConfirmed(prices, volumes, highs, lows, closes, 0.0012, 1.15, 0.7).None? ==>
      Strategy(prices, highs, lows, closes, volumes, vwapVal, ltp).None?
  {
    SignalMeaning(prices, DetectMarketRegime(highs, lows, closes, 18.0, 14.0), GetHtfBias(prices, vwapVal, 20, 50, 0.002),
                  BreakoutSignalConfirmed(prices, volumes, highs, lows, closes, 0.0012, 1.15, 0.7), vwapVal, ltp);
  }

  /** A successful placement means the LTP was positive, so the trade it registers is well formed. */
  lemma PlacedOrderHasPositivePrice(instKey: string, side: Side, price: real,
                                    broker: LimitOrder -> Option<OrderResponse>)
    requires PlaceLimitOrder(instKey, side.Name(), price, broker).Some?
    ensures price > 0.0
  {
    AffordableIffWithinCapital(price);
  }

  /** The day's signal set, empty before the first batch of the day. */
  function SignalsOn(signalsToday: map<string, set<string>>, today: string): (s: set<string>)
    ensures today !in signalsToday ==> s == {}
  {
    if today in signalsToday then signalsToday[today] else {}
  }

  /** Every registered trade keeps the shape `TM.WellFormed` describes. */
  predicate AllWellFormed(trades: map<string, TM.TrackedTrade>) {
    forall id {:trigger TM.WellFormed(trades[id])} :: id in trades ==> TM.WellFormed(trades[id])
  }

  /** The trade map after an order placement: unchanged when the broker returned nothing. */
  predicate Registered(before: map<string, TM.TrackedTrade>, after: map<string, TM.TrackedTrade>,
                       instKey: string, side: Side, ltp: real, placed: Option<OrderResponse>)
  {
    if placed.None? then after == before
    else after == before[placed.value.orderId := TM.NewTrackedTrade(instKey, side, ltp, placed.value.quantity.GetOr(0))]
  }

  /** The instruments of the alerts, in order. */
  function AlertKeys(alerts: seq<Alert>): (r: seq<string>)
    ensures |r| == |alerts| && forall k :: 0 <= k < |r| ==> r[k] == alerts[k].instKey
  {
    seq(|alerts|, k requires 0 <= k < |alerts| => alerts[k].instKey)
  }

  /** The instruments of a list of alerts, as the set `signals_today[today]` gains. */
  function KeySet(alerts: seq<Alert>): (r: set<string>)
    decreases |alerts|
  {
    if alerts == [] then {} else KeySet(alerts[..|alerts| - 1]) + {alerts[|alerts| - 1].instKey}
  }

  /** An instrument is in the key set exactly when one of the alerts is about it. */
  lemma {:induction false} KeySetMeaning(alerts: seq<Alert>)
    ensures forall key :: key in KeySet(alerts) <==> key in AlertKeys(alerts)
    decreases |alerts|
  {
    if alerts != [] {
      var init := alerts[..|alerts| - 1];
      KeySetMeaning(init);
      assert AlertKeys(alerts) == AlertKeys(init) + [alerts[|alerts| - 1].instKey];
    }
  }

  /**
   * What a batch may alert: each instrument at most once, never one already
   * alerted on the day (`base`) and only one whose bar was seen (`bars`).
   */
  predicate AlertsSound(alerts: seq<Alert>, base: set<string>, bars: set<string>) {
    && Distinct(AlertKeys(alerts))
    && (forall k :: 0 <= k < |alerts| ==> alerts[k].instKey !in base && alerts[k].instKey in bars)
  }

  /** An alert for an instrument neither alerted on the day nor earlier in the batch keeps the batch sound. */
  lemma AlertsSoundStep(alerts: seq<Alert>, base: set<string>, bars: set<string>, bars': set<string>, alert: Alert)
    requires AlertsSound(alerts, base, bars) && bars <= bars' && alert.instKey in bars'
    requires alert.instKey !in base + KeySet(alerts)
    ensures AlertsSound(alerts + [alert], base, bars')
  {
    KeySetMeaning(alerts);
    var a := alerts + [alert];
    assert forall k :: 0 <= k < |alerts| ==> a[k] == alerts[k];
    assert forall k :: 0 <= k < |alerts| ==> AlertKeys(alerts)[k] != alert.instKey;
  }

  /** The instruments of a batch whose LTP and bar both parsed: the only ones the scanner and VWAP see. */
  function BarKeys(feeds: seq<Feed>): (r: set<string>)
    ensures feeds != [] && feeds[|feeds| - 1].ltp.Some? && feeds[|feeds| - 1].bar.Some? ==> feeds[|feeds| - 1].instKey in r
    decreases |feeds|
  {
    if feeds == [] then {}
    else
      var f := feeds[|feeds| - 1];
      BarKeys(feeds[..|feeds| - 1]) + if f.ltp.Some? && f.bar.Some? then {f.instKey} else {}
  }

  /** An instrument is among the bar keys exactly when one of its feeds carries both an LTP and a bar. */
  lemma {:induction false} BarKeysMeaning(feeds: seq<Feed>, k: string)
    ensures k in BarKeys(feeds) <==>
      exists i :: 0 <= i < |feeds| && feeds[i].instKey == k && feeds[i].ltp.Some? && feeds[i].bar.Some?
    decreases |feeds|
  {
    if feeds != [] {
      var init := feeds[..|feeds| - 1];
      BarKeysMeaning(init, k);
      if k in BarKeys(init) {
        var i :| 0 <= i < |init| && init[i].instKey == k && init[i].ltp.Some? && init[i].bar.Some?;
        assert feeds[i] == init[i];
      }
      if exists i :: 0 <= i < |feeds| && feeds[i].instKey == k && feeds[i].ltp.Some? && feeds[i].bar.Some? {
        var i :| 0 <= i < |feeds| && feeds[i].instKey == k && feeds[i].ltp.Some? && feeds[i].bar.Some?;
        if i < |init| {
          assert init[i] == feeds[i];
        }
      }
    }
  }

  /** `current_prices`: the LTP of every feed whose LTP parsed, a later entry overriding an earlier one. */
  function CurrentPrices(feeds: seq<Feed>): (r: map<string, real>)
    decreases |feeds|
  {
    if feeds == [] then map[]
    else
      var f := feeds[|feeds| - 1];
      var r0 := CurrentPrices(feeds[..|feeds| - 1]);
      if f.ltp.Some? then r0[f.instKey := f.ltp.value] else r0
  }

  /** With distinct instrument keys, `current_prices` holds exactly the parsed LTPs. */
  lemma {:induction false} CurrentPricesOfFeeds(feeds: seq<Feed>)
    requires forall i, j :: 0 <= i < j < |feeds| ==> feeds[i].instKey != feeds[j].instKey
    ensures forall i :: 0 <= i < |feeds| && feeds[i].ltp.Some? ==>
      feeds[i].instKey in CurrentPrices(feeds) && CurrentPrices(feeds)[feeds[i].instKey] == feeds[i].ltp.value
    ensures forall k :: k in CurrentPrices(feeds) ==>
      exists i :: 0 <= i < |feeds| && feeds[i].instKey == k && feeds[i].ltp == Some(CurrentPrices(feeds)[k])
    decreases |feeds|
  {
    if feeds != [] {
      var init := feeds[..|feeds| - 1];
      CurrentPricesOfFeeds(init);
      var r, r0, last := CurrentPrices(feeds), CurrentPrices(init), feeds[|feeds| - 1];
      assert r == if last.ltp.Some? then r0[last.instKey := last.ltp.value] else r0;
      forall i | 0 <= i < |feeds| && feeds[i].ltp.Some?
        ensures feeds[i].instKey in r && r[feeds[i].instKey] == feeds[i].ltp.value
      {
        if i < |init| {
          assert init[i] == feeds[i];
        }
      }
      forall k | k in r
        ensures exists i :: 0 <= i < |feeds| && feeds[i].instKey == k && feeds[i].ltp == Some(r[k])
      {
        if k == last.instKey && last.ltp.Some? {
          assert feeds[|feeds| - 1].ltp == Some(r[k]);
        } else {
          assert k in r0 && r[k] == r0[k];
          var i :| 0 <= i < |init| && init[i].instKey == k && init[i].ltp == Some(r0[k]);
          assert feeds[i] == init[i];
        }
      }
    }
  }

  /** The exit reasons in the strings `record_trade_outcome` receives. */
  function ReasonNames(exits: seq<TM.Exit>): (r: seq<string>)
    ensures |r| == |exits|
    decreases |exits|
  {
    if exits == [] then [] else ReasonNames(exits[..|exits| - 1]) + [exits[|exits| - 1].reason.Name()]
  }

  function ExitIds(exits: seq<TM.Exit>): (r: set<string>)
    decreases |exits|
  {
    if exits == [] then {} else ExitIds(exits[..|exits| - 1]) + {exits[|exits| - 1].tradeId}
  }

  /** The ids removed after a check are exactly the ids of its exits. */
  lemma {:induction false} ExitIdsMeaning(exits: seq<TM.Exit>)
    ensures forall id :: id in ExitIds(exits) <==> exists k :: 0 <= k < |exits| && exits[k].tradeId == id
    decreases |exits|
  {
    if exits != [] {
      var init := exits[..|exits| - 1];
      ExitIdsMeaning(init);
      assert forall k :: 0 <= k < |init| ==> init[k] == exits[k];
    }
  }

  /** The monitor's dictionary order after `remove_trade` of each exit in turn. */
  function OrderAfter(order: seq<string>, exits: seq<TM.Exit>): seq<string>
    decreases |exits|
  {
    if exits == [] then order else TM.Without(OrderAfter(order, exits[..|exits| - 1]), exits[|exits| - 1].tradeId)
  }

  /** The ids of `order` that are not in `gone`, in their original order. */
  function Kept(order: seq<string>, gone: set<string>): seq<string>
    decreases |order|
  {
    if order == [] then []
    else Kept(order[..|order| - 1], gone) + (if order[|order| - 1] in gone then [] else [order[|order| - 1]])
  }

  /** Keeping everything is the identity. */
  lemma {:induction false} KeptAll(order: seq<string>)
    ensures Kept(order, {}) == order
    decreases |order|
  {
    if order != [] {
      KeptAll(order[..|order| - 1]);
      assert order == order[..|order| - 1] + [order[|order| - 1]];
    }
  }

  /** Deleting one more id from a filtered order is filtering by one more id. */
  lemma {:induction false} WithoutKept(order: seq<string>, gone: set<string>, x: string)
    ensures TM.Without(Kept(order, gone), x) == Kept(order, gone + {x})
    decreases |order|
  {
    if order != [] {
      var init, last := order[..|order| - 1], order[|order| - 1];
      WithoutKept(init, gone, x);
      var k0, k1 := Kept(init, gone), Kept(init, gone + {x});
      assert TM.Without(k0, x) == k1;
      if last in gone {
        assert Kept(order, gone) == k0 && Kept(order, gone + {x}) == k1;
      } else {
        var s := k0 + [last];
        assert Kept(order, gone) == s;
        assert s[..|s| - 1] == k0 && s[|s| - 1] == last;
        if last == x {
          assert Kept(order, gone + {x}) == k1;
        } else {
          assert Kept(order, gone + {x}) == k1 + [last];
        }
      }
    }
  }

  /**
   * Deleting the exits one by one leaves the other trades in their
   * dictionary order: the same as filtering the exit ids out at once.
   */
  lemma {:induction false} OrderAfterKeeps(order: seq<string>, exits: seq<TM.Exit>)
    ensures OrderAfter(order, exits) == Kept(order, ExitIds(exits))
    decreases |exits|
  {
    if exits == [] {
      KeptAll(order);
    } else {
      var init := exits[..|exits| - 1];
      OrderAfterKeeps(order, init);
      WithoutKept(order, ExitIds(init), exits[|exits| - 1].tradeId);
    }
  }

  /** One more feed: how the bar keys and the price map of the processed prefix grow. */
  lemma FeedsStep(feeds: seq<Feed>, i: nat)
    requires i < |feeds|
    ensures var f := feeds[i];
      && (f.ltp.Some? && f.bar.Some? ==> BarKeys(feeds[..i + 1]) == BarKeys(feeds[..i]) + {f.instKey})
      && (f.ltp.None? || f.bar.None? ==> BarKeys(feeds[..i + 1]) == BarKeys(feeds[..i]))
      && CurrentPrices(feeds[..i + 1])
         == if f.ltp.Some? then CurrentPrices(feeds[..i])[f.instKey := f.ltp.value] else CurrentPrices(feeds[..i])
  {
    assert feeds[..i + 1][..i] == feeds[..i];
  }

  /** One more exit: how the recorded counters and the remaining trades of the processed prefix evolve. */
  lemma ExitsStep(c: RM.RiskCounters, trades: map<string, TM.TrackedTrade>, order: seq<string>, exits: seq<TM.Exit>, i: nat)
    requires i < |exits|
    ensures RM.RecordedAll(c, ReasonNames(exits[..i + 1]))
         == RM.Recorded(RM.RecordedAll(c, ReasonNames(exits[..i])), exits[i].reason.Name())
    ensures (trades - ExitIds(exits[..i])) - {exits[i].tradeId} == trades - ExitIds(exits[..i + 1])
    ensures TM.Without(OrderAfter(order, exits[..i]), exits[i].tradeId) == OrderAfter(order, exits[..i + 1])
  {
    assert exits[..i + 1][..i] == exits[..i];
    var names := ReasonNames(exits[..i]);
    assert ReasonNames(exits[..i + 1]) == names + [exits[i].reason.Name()];
    assert (names + [exits[i].reason.Name()])[..|names|] == names;
  }

  // ---------------------------------------------------------------- one batch, on values

  /** The scanner's five stores. */
  datatype Stores = Stores(prices: map<string, seq<real>>, highs: map<string, seq<real>>,
                           lows: map<string, seq<real>>, closes: map<string, seq<real>>,
                           volumes: map<string, seq<real>>)

  /**
   * What the entry logic keeps: the instruments alerted today, the alerts of
   * the batch so far, the monitor's trades with their dictionary order, and
   * the admission flag.
   */
  datatype Book = Book(signals: set<string>, alerts: seq<Alert>, trades: map<string, TM.TrackedTrade>,
                       order: seq<string>, allow: bool)

  /** What one batch reads and writes, as values: the stores, the samples fed to each VWAP calculator, and the book. */
  datatype World = World(stores: Stores, samples: map<string, seq<Sample>>, book: Book)

  /** The samples of an instrument's calculator, none for an unknown instrument. */
  function SamplesOf(samples: map<string, seq<Sample>>, instKey: string): seq<Sample> {
    if instKey in samples then samples[instKey] else []
  }

  /** Well-formed trades whose dictionary order lists only open ids. */
  ghost predicate BookCoherent(b: Book) {
    && AllWellFormed(b.trades)
    && (forall k :: 0 <= k < |b.order| ==> b.order[k] in b.trades)
  }

  /**
   * What the streamer keeps true between feeds: parallel stores bounded by
   * the history length, calculators fed non-negative volumes, and a coherent book.
   */
  ghost predicate Coherent(w: World) {
    && Parallel(w.stores.prices, w.stores.highs, w.stores.lows, w.stores.closes, w.stores.volumes, HISTORY_LEN)
    && (forall k :: k in w.samples ==> NonNegativeVolumes(w.samples[k]))
    && BookCoherent(w.book)
  }

  /** Every bar of the batch has a positive volume. */
  predicate PositiveVolumes(feeds: seq<Feed>) {
    forall i :: 0 <= i < |feeds| && feeds[i].bar.Some? ==> feeds[i].bar.value.volume > 0.0
  }

  /** Lines 103-104: `scanner.update`, the bar appended to each of the instrument's five stores. */
  function Appended(s: Stores, instKey: string, ltp: real, bar: Bar): Stores {
    Stores(s.prices[instKey := BoundedAppend(SeriesOf(s.prices, instKey), ltp, HISTORY_LEN)],
           s.highs[instKey := BoundedAppend(SeriesOf(s.highs, instKey), bar.high, HISTORY_LEN)],
           s.lows[instKey := BoundedAppend(SeriesOf(s.lows, instKey), bar.low, HISTORY_LEN)],
           s.closes[instKey := BoundedAppend(SeriesOf(s.closes, instKey), bar.close, HISTORY_LEN)],
           s.volumes[instKey := BoundedAppend(SeriesOf(s.volumes, instKey), bar.volume, HISTORY_LEN)])
  }

  /**
   * Lines 103-119: the bar is appended to the instrument's five stores and,
   * once 30 prices are stored, the LTP and the volume go to its calculator.
   */
  function Recorded(w: World, instKey: string, ltp: real, bar: Bar): World {
    var stores := Appended(w.stores, instKey, ltp, bar);
    if |SeriesOf(stores.prices, instKey)| < MIN_PRICES then w.(stores := stores)
    else World(stores, w.samples[instKey := SamplesOf(w.samples, instKey) + [Sample(ltp, bar.volume)]], w.book)
  }

  /**
   * The strategy can run on an instrument: its high, low and close series
   * line up and, once 30 prices are stored, its VWAP is defined.
   */
  ghost predicate Fits(w: World, instKey: string) {
    && Covers(SeriesOf(w.stores.highs, instKey), SeriesOf(w.stores.lows, instKey), SeriesOf(w.stores.closes, instKey))
    && (|SeriesOf(w.stores.prices, instKey)| >= MIN_PRICES ==> Vwap(SamplesOf(w.samples, instKey), 0).Some?)
  }

  /** Recording a bar with a positive volume keeps the streamer coherent and readies the instrument for the strategy. */
  lemma RecordedCoherent(w: World, instKey: string, ltp: real, bar: Bar)
    requires Coherent(w) && bar.volume > 0.0
    ensures Coherent(Recorded(w, instKey, ltp, bar)) && Fits(Recorded(w, instKey, ltp, bar), instKey)
  {
    var s := w.stores;
    ParallelAfterAppend(s.prices, s.highs, s.lows, s.closes, s.volumes, HISTORY_LEN,
                        instKey, ltp, bar.high, bar.low, bar.close, bar.volume);
    var r := Recorded(w, instKey, ltp, bar);
    assert r.stores == Appended(s, instKey, ltp, bar) && r.book == w.book;
    if |SeriesOf(r.stores.prices, instKey)| >= MIN_PRICES {
      var h := SamplesOf(w.samples, instKey);
      VwapDefinedAfterPositiveVolume(h, Sample(ltp, bar.volume), 0);
      assert r.samples == w.samples[instKey := h + [Sample(ltp, bar.volume)]];
      assert NonNegativeVolumes(h + [Sample(ltp, bar.volume)]);
    }
  }

  /**
   * Lines 148-188 for a signal on an instrument not yet alerted today: it is
   * alerted and marked; a refusal by the risk manager clears the flag;
   * otherwise an order accepted by the broker is registered at the LTP.
   */
  function Admitted(b: Book, instKey: string, ltp: real, signal: TradeSignal, vwap: real,
                    canTrade: bool, broker: LimitOrder -> Option<OrderResponse>): Book
  {
    var alerted := b.(signals := b.signals + {instKey},
                      alerts := b.alerts + [Alert(instKey, signal.side, ltp, vwap, signal.regime, signal.bias)]);
    if !canTrade then alerted.(allow := false) else Placed(alerted, instKey, signal.side, ltp, broker)
  }

  /** Lines 169-188: the limit order goes to the broker and an accepted one is tracked at the LTP. */
  function Placed(b: Book, instKey: string, side: Side, ltp: real, broker: LimitOrder -> Option<OrderResponse>): Book {
    var placed := PlaceLimitOrder(instKey, side.Name(), ltp, broker);
    if placed.None? then b
    else
      var id := placed.value.orderId;
      b.(trades := b.trades[id := TM.NewTrackedTrade(instKey, side, ltp, placed.value.quantity.GetOr(0))],
         order := if id in b.trades then b.order else b.order + [id])
  }

  /**
   * What an admission does to the book: the instrument joins today's signals
   * with one alert at the LTP; the flag survives exactly when the risk
   * manager allows trading; a refusal registers nothing; otherwise the trades
   * are the old ones plus the order the broker accepted, if any, as a fresh
   * trade at the LTP on the signal's side.
   */
  lemma AdmittedMeaning(b: Book, instKey: string, ltp: real, signal: TradeSignal, vwap: real,
                        canTrade: bool, broker: LimitOrder -> Option<OrderResponse>)
    ensures var r := Admitted(b, instKey, ltp, signal, vwap, canTrade, broker);
      && r.signals == b.signals + {instKey}
      && r.alerts == b.alerts + [Alert(instKey, signal.side, ltp, vwap, signal.regime, signal.bias)]
      && (r.allow <==> b.allow && canTrade)
      && (!canTrade ==> r.trades == b.trades && r.order == b.order)
      && (canTrade ==> Registered(b.trades, r.trades, instKey, signal.side, ltp,
                                  PlaceLimitOrder(instKey, signal.side.Name(), ltp, broker)))
  {
    if canTrade {
      AdmittedAllowing(b, instKey, ltp, signal, vwap, broker);
    }
  }

  /** The admission of a signal the risk manager allows. */
  lemma AdmittedAllowing(b: Book, instKey: string, ltp: real, signal: TradeSignal, vwap: real,
                         broker: LimitOrder -> Option<OrderResponse>)
    ensures var r := Admitted(b, instKey, ltp, signal, vwap, true, broker);
      && r.allow == b.allow
      && Registered(b.trades, r.trades, instKey, signal.side, ltp, PlaceLimitOrder(instKey, signal.side.Name(), ltp, broker))
  {
  }

  /** Admitting a signal keeps the book coherent: a registered trade has a positive entry price. */
  lemma AdmittedCoherent(b: Book, instKey: string, ltp: real, signal: TradeSignal, vwap: real,
                         canTrade: bool, broker: LimitOrder -> Option<OrderResponse>)
    requires BookCoherent(b)
    ensures BookCoherent(Admitted(b, instKey, ltp, signal, vwap, canTrade, broker))
  {
    var placed := PlaceLimitOrder(instKey, signal.side.Name(), ltp, broker);
    if canTrade && placed.Some? {
      PlacedOrderHasPositivePrice(instKey, signal.side, ltp, broker);
      TM.NewTradeWellFormed(instKey, signal.side, ltp, placed.value.quantity.GetOr(0));
    }
  }

  /** `b` is `b0` after admitting some signal on `instKey` at `ltp`. */
  ghost predicate Admits(b0: Book, b: Book, instKey: string, ltp: real, canTrade: bool,
                         broker: LimitOrder -> Option<OrderResponse>)
  {
    exists signal: TradeSignal, vwap: real :: b == Admitted(b0, instKey, ltp, signal, vwap, canTrade, broker)
  }

  /**
   * An admission, whatever the signal: one more alert, for the instrument and
   * at the LTP, after the old ones; the instrument joins the signals; the flag
   * survives exactly when trading is allowed; and every trade that is new or
   * changed was opened on that alert (none when trading is refused).
   */
  lemma AdmitsMeaning(b0: Book, b: Book, instKey: string, ltp: real, canTrade: bool,
                      broker: LimitOrder -> Option<OrderResponse>)
    requires Admits(b0, b, instKey, ltp, canTrade, broker)
    ensures b.signals == b0.signals + {instKey}
    ensures |b.alerts| == |b0.alerts| + 1 && b.alerts[..|b0.alerts|] == b0.alerts
    ensures b.alerts[|b0.alerts|].instKey == instKey && b.alerts[|b0.alerts|].price == ltp
    ensures b.allow <==> b0.allow && canTrade
    ensures !canTrade ==> b.trades == b0.trades && b.order == b0.order
    ensures forall id :: id in b.trades && !(id in b0.trades && b.trades[id] == b0.trades[id]) ==>
      Opened(b.trades[id], b.alerts[|b0.alerts|])
  {
    var signal: TradeSignal, vwap: real :| b == Admitted(b0, instKey, ltp, signal, vwap, canTrade, broker);
    AdmittedMeaning(b0, instKey, ltp, signal, vwap, canTrade, broker);
    assert b.alerts[..|b0.alerts|] == b0.alerts;
  }

  /** The strategy's verdict on a ready instrument, from its stored series and its calculator's VWAP. */
  function SignalOf(w: World, instKey: string, ltp: real): Option<TradeSignal>
    requires Fits(w, instKey)
  {
    Strategy(SeriesOf(w.stores.prices, instKey), SeriesOf(w.stores.highs, instKey), SeriesOf(w.stores.lows, instKey),
             SeriesOf(w.stores.closes, instKey), SeriesOf(w.stores.volumes, instKey),
             Vwap(SamplesOf(w.samples, instKey), 0), ltp)
  }

  /**
   * Lines 106-188 once the bar is stored: below 30 prices nothing more
   * happens; otherwise the strategy runs on the stored series and the
   * calculator's VWAP, and a signal on an instrument not yet alerted today
   * is admitted.
   */
  function Decided(w: World, instKey: string, ltp: real, canTrade: bool,
                   broker: LimitOrder -> Option<OrderResponse>): World
    requires Fits(w, instKey)
  {
    if |SeriesOf(w.stores.prices, instKey)| < MIN_PRICES then w
    else
      var signal := SignalOf(w, instKey, ltp);
      if signal.None? || instKey in w.book.signals then w
      else w.(book := Admitted(w.book, instKey, ltp, signal.value, Vwap(SamplesOf(w.samples, instKey), 0).value,
                               canTrade, broker))
  }

  /**
   * Completeness and soundness of a decision: the book changes exactly when
   * 30 prices are stored, the strategy signals and the instrument was not
   * alerted today, and then by that admission; the stores never change.
   */
  lemma DecidedMeaning(w: World, instKey: string, ltp: real, canTrade: bool,
                       broker: LimitOrder -> Option<OrderResponse>)
    requires Fits(w, instKey)
    ensures var r := Decided(w, instKey, ltp, canTrade, broker);
      && r.stores == w.stores && r.samples == w.samples
      && var admits := |SeriesOf(w.stores.prices, instKey)| >= MIN_PRICES && SignalOf(w, instKey, ltp).Some?
                       && instKey !in w.book.signals;
         && (!admits ==> r.book == w.book)
         && (admits ==> r.book == Admitted(w.book, instKey, ltp, SignalOf(w, instKey, ltp).value,
                                           Vwap(SamplesOf(w.samples, instKey), 0).value, canTrade, broker))
  {
    var r := Decided(w, instKey, ltp, canTrade, broker);
    if |SeriesOf(w.stores.prices, instKey)| < MIN_PRICES {
      assert r == w;
    } else {
      var signal := SignalOf(w, instKey, ltp);
      if signal.None? || instKey in w.book.signals {
        assert r == w;
      } else {
        var b := Admitted(w.book, instKey, ltp, signal.value, Vwap(SamplesOf(w.samples, instKey), 0).value, canTrade, broker);
        assert r == w.(book := b);
      }
    }
  }

  /** Deciding on a ready instrument keeps the streamer coherent. */
  lemma DecidedCoherent(w: World, instKey: string, ltp: real, canTrade: bool,
                        broker: LimitOrder -> Option<OrderResponse>)
    requires Coherent(w) && Fits(w, instKey)
    ensures Coherent(Decided(w, instKey, ltp, canTrade, broker))
  {
    DecidedMeaning(w, instKey, ltp, canTrade, broker);
    if |SeriesOf(w.stores.prices, instKey)| >= MIN_PRICES && SignalOf(w, instKey, ltp).Some? {
      AdmittedCoherent(w.book, instKey, ltp, SignalOf(w, instKey, ltp).value,
                       Vwap(SamplesOf(w.samples, instKey), 0).value, canTrade, broker);
    }
  }

  /**
   * Lines 78-188 for one feed: a feed without a parsed LTP and bar leaves the
   * stores alone; otherwise the bar is recorded and the strategy decides.
   */
  function Step(w: World, f: Feed, canTrade: bool, broker: LimitOrder -> Option<OrderResponse>): (r: World)
    requires Coherent(w) && (f.bar.Some? ==> f.bar.value.volume > 0.0)
    ensures Coherent(r)
  {
    if f.ltp.None? || f.bar.None? then w
    else
      var stored := Recorded(w, f.instKey, f.ltp.value, f.bar.value);
      RecordedCoherent(w, f.instKey, f.ltp.value, f.bar.value);
      DecidedCoherent(stored, f.instKey, f.ltp.value, canTrade, broker);
      Decided(stored, f.instKey, f.ltp.value, canTrade, broker)
  }

  /** The scan past a feed whose LTP and bar parsed. */
  lemma ScanParsedStep(w: World, feeds: seq<Feed>, i: nat, canTrade: bool, broker: LimitOrder -> Option<OrderResponse>)
    requires Coherent(w) && PositiveVolumes(feeds) && i < |feeds| && feeds[i].ltp.Some? && feeds[i].bar.Some?
    ensures PositiveVolumes(feeds[..i]) && PositiveVolumes(feeds[..i + 1])
    ensures Scan(w, feeds[..i + 1], canTrade, broker)
         == Step(Scan(w, feeds[..i], canTrade, broker),
                 Feed(feeds[i].instKey, Some(feeds[i].ltp.value), Some(feeds[i].bar.value)), canTrade, broker)
  {
    ScanStep(w, feeds, i, canTrade, broker);
    assert feeds[i] == Feed(feeds[i].instKey, Some(feeds[i].ltp.value), Some(feeds[i].bar.value));
  }

  /** A feed whose LTP and bar parsed: its bar is recorded, after which the strategy can run, and then decided on. */
  lemma StepParsed(w: World, instKey: string, ltp: real, bar: Bar, canTrade: bool,
                   broker: LimitOrder -> Option<OrderResponse>)
    requires Coherent(w) && bar.volume > 0.0
    ensures Fits(Recorded(w, instKey, ltp, bar), instKey)
    ensures Step(w, Feed(instKey, Some(ltp), Some(bar)), canTrade, broker)
         == Decided(Recorded(w, instKey, ltp, bar), instKey, ltp, canTrade, broker)
  {
    RecordedCoherent(w, instKey, ltp, bar);
  }

  /** The feeds of a batch, one `Step` after the other in message order. */
  function Scan(w: World, feeds: seq<Feed>, canTrade: bool, broker: LimitOrder -> Option<OrderResponse>): (r: World)
    requires Coherent(w) && PositiveVolumes(feeds)
    ensures Coherent(r)
    decreases |feeds|
  {
    if feeds == [] then w
    else
      var init := feeds[..|feeds| - 1];
      assert forall i :: 0 <= i < |init| ==> init[i] == feeds[i];
      Step(Scan(w, init, canTrade, broker), feeds[|feeds| - 1], canTrade, broker)
  }

  /** A scan of one more feed is one more step. */
  lemma ScanStep(w: World, feeds: seq<Feed>, i: nat, canTrade: bool, broker: LimitOrder -> Option<OrderResponse>)
    requires Coherent(w) && PositiveVolumes(feeds) && i < |feeds|
    ensures PositiveVolumes(feeds[..i]) && PositiveVolumes(feeds[..i + 1])
    ensures Scan(w, feeds[..i + 1], canTrade, broker) == Step(Scan(w, feeds[..i], canTrade, broker), feeds[i], canTrade, broker)
  {
    assert feeds[..i + 1][..i] == feeds[..i];
  }

  /**
   * A step leaves the book alone or admits the feed's instrument: then its
   * LTP and bar parsed, it was not alerted before, and it joins the signals
   * with one alert of its own at its LTP.
   */
  lemma StepAdmits(w: World, f: Feed, canTrade: bool, broker: LimitOrder -> Option<OrderResponse>)
    requires Coherent(w) && (f.bar.Some? ==> f.bar.value.volume > 0.0)
    ensures var r := Step(w, f, canTrade, broker).book;
      || r == w.book
      || (&& f.ltp.Some? && f.bar.Some? && f.instKey !in w.book.signals
          && Admits(w.book, r, f.instKey, f.ltp.value, canTrade, broker))
  {
    if f.ltp.Some? && f.bar.Some? {
      var stored := Recorded(w, f.instKey, f.ltp.value, f.bar.value);
      RecordedCoherent(w, f.instKey, f.ltp.value, f.bar.value);
      DecidedMeaning(stored, f.instKey, f.ltp.value, canTrade, broker);
      var r := Step(w, f, canTrade, broker).book;
      if r != w.book {
        var signal, vwap := SignalOf(stored, f.instKey, f.ltp.value).value, Vwap(SamplesOf(stored.samples, f.instKey), 0).value;
        assert r == Admitted(w.book, f.instKey, f.ltp.value, signal, vwap, canTrade, broker);
      }
    }
  }

  /**
   * A parsed feed with 30 stored prices whose strategy signals on an
   * instrument not yet alerted today is admitted: no signal is dropped.
   */
  lemma StepComplete(w: World, f: Feed, canTrade: bool, broker: LimitOrder -> Option<OrderResponse>)
    requires Coherent(w) && f.ltp.Some? && f.bar.Some? && f.bar.value.volume > 0.0
    ensures var stored := Recorded(w, f.instKey, f.ltp.value, f.bar.value);
      Fits(stored, f.instKey)
    ensures var stored := Recorded(w, f.instKey, f.ltp.value, f.bar.value);
      && |SeriesOf(stored.stores.prices, f.instKey)| >= MIN_PRICES
      && SignalOf(stored, f.instKey, f.ltp.value).Some? && f.instKey !in w.book.signals
      ==> Step(w, f, canTrade, broker).book
          == Admitted(w.book, f.instKey, f.ltp.value, SignalOf(stored, f.instKey, f.ltp.value).value,
                      Vwap(SamplesOf(stored.samples, f.instKey), 0).value, canTrade, broker)
  {
    RecordedCoherent(w, f.instKey, f.ltp.value, f.bar.value);
    DecidedMeaning(Recorded(w, f.instKey, f.ltp.value, f.bar.value), f.instKey, f.ltp.value, canTrade, broker);
  }

  /** One more alert: its instrument joins the key set. */
  lemma AlertsStep(alerts: seq<Alert>, alert: Alert)
    ensures KeySet(alerts + [alert]) == KeySet(alerts) + {alert.instKey}
  {
    assert (alerts + [alert])[..|alerts|] == alerts;
  }

  /** The book after one feed: unchanged, or the feed's instrument, parsed and not yet alerted, admitted. */
  ghost predicate BookStep(b0: Book, b: Book, f: Feed, canTrade: bool, broker: LimitOrder -> Option<OrderResponse>) {
    || b == b0
    || (f.ltp.Some? && f.bar.Some? && f.instKey !in b0.signals && Admits(b0, b, f.instKey, f.ltp.value, canTrade, broker))
  }

  /** The last feed of a batch moves the book by one `BookStep`. */
  lemma ScanLast(w: World, feeds: seq<Feed>, canTrade: bool, broker: LimitOrder -> Option<OrderResponse>)
    requires Coherent(w) && PositiveVolumes(feeds) && feeds != []
    ensures PositiveVolumes(feeds[..|feeds| - 1])
    ensures BookStep(Scan(w, feeds[..|feeds| - 1], canTrade, broker).book, Scan(w, feeds, canTrade, broker).book,
                     feeds[|feeds| - 1], canTrade, broker)
  {
    var n := |feeds| - 1;
    ScanStep(w, feeds, n, canTrade, broker);
    assert feeds[..n + 1] == feeds;
    StepAdmits(Scan(w, feeds[..n], canTrade, broker), feeds[n], canTrade, broker);
  }

  /**
   * The alerts of a batch: today's signals grow by exactly their instruments,
   * no instrument is alerted twice or again on the same day, and only
   * instruments whose LTP and bar parsed are alerted.
   */
  lemma {:induction false} ScanAlertsSound(w: World, feeds: seq<Feed>, canTrade: bool,
                                           broker: LimitOrder -> Option<OrderResponse>)
    requires Coherent(w) && PositiveVolumes(feeds) && w.book.alerts == []
    ensures var r := Scan(w, feeds, canTrade, broker).book;
      && r.signals == w.book.signals + KeySet(r.alerts)
      && AlertsSound(r.alerts, w.book.signals, BarKeys(feeds))
    decreases |feeds|
  {
    if feeds != [] {
      var n := |feeds| - 1;
      ScanLast(w, feeds, canTrade, broker);
      ScanAlertsSound(w, feeds[..n], canTrade, broker);
      FeedsStep(feeds, n);
      assert feeds[..n + 1] == feeds;
      BookStepSound(w.book.signals, Scan(w, feeds[..n], canTrade, broker).book, Scan(w, feeds, canTrade, broker).book,
                    feeds[n], canTrade, broker, BarKeys(feeds[..n]), BarKeys(feeds));
    }
  }

  /** One `BookStep` keeps the alerts sound and today's signals their instruments. */
  lemma BookStepSound(base: set<string>, r0: Book, r: Book, f: Feed, canTrade: bool,
                      broker: LimitOrder -> Option<OrderResponse>, bars0: set<string>, bars: set<string>)
    requires r0.signals == base + KeySet(r0.alerts) && AlertsSound(r0.alerts, base, bars0)
    requires BookStep(r0, r, f, canTrade, broker) && bars0 <= bars
    requires f.ltp.Some? && f.bar.Some? ==> f.instKey in bars
    ensures r.signals == base + KeySet(r.alerts) && AlertsSound(r.alerts, base, bars)
  {
    if r != r0 {
      AdmitsMeaning(r0, r, f.instKey, f.ltp.value, canTrade, broker);
      var alert := r.alerts[|r0.alerts|];
      assert r.alerts == r0.alerts + [alert];
      AlertsStep(r0.alerts, alert);
      AlertsSoundStep(r0.alerts, base, bars0, bars, alert);
    }
  }

  /**
   * The admission flag over a batch: it is cleared exactly when a signal was
   * alerted while the risk manager refused, a batch never sets it, and a
   * refusal registers no trade.
   */
  lemma {:induction false} ScanFlag(w: World, feeds: seq<Feed>, canTrade: bool,
                                    broker: LimitOrder -> Option<OrderResponse>)
    requires Coherent(w) && PositiveVolumes(feeds)
    ensures var r := Scan(w, feeds, canTrade, broker).book;
      && |r.alerts| >= |w.book.alerts|
      && (r.allow <==> w.book.allow && (canTrade || |r.alerts| == |w.book.alerts|))
      && (!canTrade ==> r.trades == w.book.trades && r.order == w.book.order)
    decreases |feeds|
  {
    if feeds != [] {
      var n := |feeds| - 1;
      ScanLast(w, feeds, canTrade, broker);
      ScanFlag(w, feeds[..n], canTrade, broker);
      var r0, r := Scan(w, feeds[..n], canTrade, broker).book, Scan(w, feeds, canTrade, broker).book;
      if r != r0 {
        AdmitsMeaning(r0, r, feeds[n].instKey, feeds[n].ltp.value, canTrade, broker);
      }
    }
  }

  /**
   * Only the instruments whose LTP and bar parsed reach the scanner and the
   * VWAP calculators: every other instrument's stores and samples are as
   * they were.
   */
  lemma {:induction false} ScanFrame(w: World, feeds: seq<Feed>, canTrade: bool,
                                     broker: LimitOrder -> Option<OrderResponse>)
    requires Coherent(w) && PositiveVolumes(feeds)
    ensures var r := Scan(w, feeds, canTrade, broker); var seen := BarKeys(feeds);
      && r.stores.prices - seen == w.stores.prices - seen && r.stores.highs - seen == w.stores.highs - seen
      && r.stores.lows - seen == w.stores.lows - seen && r.stores.closes - seen == w.stores.closes - seen
      && r.stores.volumes - seen == w.stores.volumes - seen && r.samples - seen == w.samples - seen
    decreases |feeds|
  {
    if feeds != [] {
      var n := |feeds| - 1;
      ScanLastStores(w, feeds, canTrade, broker);
      ScanFrame(w, feeds[..n], canTrade, broker);
      FeedsStep(feeds, n);
      assert feeds[..n + 1] == feeds;
      var f := feeds[n];
      if f.ltp.Some? && f.bar.Some? {
        var r0, r := Scan(w, feeds[..n], canTrade, broker), Scan(w, feeds, canTrade, broker);
        var seen0 := BarKeys(feeds[..n]);
        StoreFrame(w.stores.prices, r0.stores.prices, r.stores.prices, seen0, f.instKey);
        StoreFrame(w.stores.highs, r0.stores.highs, r.stores.highs, seen0, f.instKey);
        StoreFrame(w.stores.lows, r0.stores.lows, r.stores.lows, seen0, f.instKey);
        StoreFrame(w.stores.closes, r0.stores.closes, r.stores.closes, seen0, f.instKey);
        StoreFrame(w.stores.volumes, r0.stores.volumes, r.stores.volumes, seen0, f.instKey);
        StoreFrame(w.samples, r0.samples, r.samples, seen0, f.instKey);
      }
    }
  }

  /** The last feed of a batch: unparsed, it changes nothing; parsed, its bar is appended and its samples change at most at its key. */
  lemma ScanLastStores(w: World, feeds: seq<Feed>, canTrade: bool, broker: LimitOrder -> Option<OrderResponse>)
    requires Coherent(w) && PositiveVolumes(feeds) && feeds != []
    ensures PositiveVolumes(feeds[..|feeds| - 1])
    ensures var n := |feeds| - 1; var f := feeds[n];
      var r0, r := Scan(w, feeds[..n], canTrade, broker), Scan(w, feeds, canTrade, broker);
      if f.ltp.Some? && f.bar.Some? then
        && r.stores == Appended(r0.stores, f.instKey, f.ltp.value, f.bar.value)
        && (r.samples == r0.samples || (f.instKey in r.samples && r.samples == r0.samples[f.instKey := r.samples[f.instKey]]))
      else r == r0
  {
    var n := |feeds| - 1;
    ScanStep(w, feeds, n, canTrade, broker);
    assert feeds[..n + 1] == feeds;
    var f := feeds[n];
    if f.ltp.Some? && f.bar.Some? {
      var r0 := Scan(w, feeds[..n], canTrade, broker);
      ScanParsedStep(w, feeds, n, canTrade, broker);
      StepParsed(r0, f.instKey, f.ltp.value, f.bar.value, canTrade, broker);
      DecidedMeaning(Recorded(r0, f.instKey, f.ltp.value, f.bar.value), f.instKey, f.ltp.value, canTrade, broker);
    }
  }

  /** A store unchanged outside `seen` that then changes at most at `key` is unchanged outside both. */
  lemma StoreFrame<V>(m0: map<string, V>, m1: map<string, V>, m2: map<string, V>, seen: set<string>, key: string)
    requires m1 - seen == m0 - seen
    requires m2 == m1 || (key in m2 && m2 == m1[key := m2[key]])
    ensures m2 - (seen + {key}) == m0 - (seen + {key})
  {
    var out := seen + {key};
    forall k | k !in out
      ensures (k in m2 <==> k in m0) && (k in m2 ==> m2[k] == m0[k])
    {
      assert (k in m1 <==> k in m1 - seen) && (k in m0 <==> k in m0 - seen);
    }
    assert (m2 - out).Keys == (m0 - out).Keys;
  }

  /**
   * Every trade a batch registers is a fresh tracked trade at the LTP and on
   * the side of one of the batch's alerts: trades are only opened on a signal.
   */
  lemma {:induction false} ScanTradesFromAlerts(w: World, feeds: seq<Feed>, canTrade: bool,
                                                broker: LimitOrder -> Option<OrderResponse>)
    requires Coherent(w) && PositiveVolumes(feeds)
    ensures var b0, r := w.book, Scan(w, feeds, canTrade, broker).book;
      && |r.alerts| >= |b0.alerts| && r.alerts[..|b0.alerts|] == b0.alerts
      && forall id :: id in r.trades ==>
           || (id in b0.trades && r.trades[id] == b0.trades[id])
           || exists j :: |b0.alerts| <= j < |r.alerts| && Opened(r.trades[id], r.alerts[j])
    decreases |feeds|
  {
    if feeds != [] {
      var n := |feeds| - 1;
      ScanLast(w, feeds, canTrade, broker);
      ScanTradesFromAlerts(w, feeds[..n], canTrade, broker);
      var b0, r0, r := w.book, Scan(w, feeds[..n], canTrade, broker).book, Scan(w, feeds, canTrade, broker).book;
      if r != r0 {
        AdmitsMeaning(r0, r, feeds[n].instKey, feeds[n].ltp.value, canTrade, broker);
        TradesFromAlertsStep(b0, r0, r);
      }
    }
  }

  /** One admission keeps every trade either old or opened on one of the alerts after `b0`'s. */
  lemma TradesFromAlertsStep(b0: Book, r0: Book, r: Book)
    requires |r0.alerts| >= |b0.alerts| && r0.alerts[..|b0.alerts|] == b0.alerts
    requires forall id :: id in r0.trades ==>
      || (id in b0.trades && r0.trades[id] == b0.trades[id])
      || exists j :: |b0.alerts| <= j < |r0.alerts| && Opened(r0.trades[id], r0.alerts[j])
    requires |r.alerts| == |r0.alerts| + 1 && r.alerts[..|r0.alerts|] == r0.alerts
    requires forall id :: id in r.trades && !(id in r0.trades && r.trades[id] == r0.trades[id]) ==>
      Opened(r.trades[id], r.alerts[|r0.alerts|])
    ensures |r.alerts| >= |b0.alerts| && r.alerts[..|b0.alerts|] == b0.alerts
    ensures forall id :: id in r.trades ==>
      || (id in b0.trades && r.trades[id] == b0.trades[id])
      || exists j :: |b0.alerts| <= j < |r.alerts| && Opened(r.trades[id], r.alerts[j])
  {
    assert r.alerts[..|b0.alerts|] == r.alerts[..|r0.alerts|][..|b0.alerts|];
    forall id | id in r.trades
      ensures || (id in b0.trades && r.trades[id] == b0.trades[id])
              || exists j :: |b0.alerts| <= j < |r.alerts| && Opened(r.trades[id], r.alerts[j])
    {
      if id in r0.trades && r.trades[id] == r0.trades[id] {
        if !(id in b0.trades && r0.trades[id] == b0.trades[id]) {
          var j :| |b0.alerts| <= j < |r0.alerts| && Opened(r0.trades[id], r0.alerts[j]);
          assert r.alerts[j] == r0.alerts[j];
        }
      } else {
        assert Opened(r.trades[id], r.alerts[|r0.alerts|]);
      }
    }
  }

  /** A trade opened on an alert: at the alert's LTP, on its side, for its instrument, with fresh levels. */
  predicate Opened(t: TM.TrackedTrade, alert: Alert) {
    t == TM.NewTrackedTrade(alert.instKey, alert.side, alert.price, t.qty)
  }

  /** `vwap_calculators = {key: VWAPCalculator() for key in instrument_list}`. */
  method NewCalculators(instrumentList: seq<string>) returns (calculators: map<string, VWAPCalculator>)
    ensures calculators.Keys == set k | k in instrumentList
    ensures forall k :: k in calculators ==>
      fresh(calculators[k]) && calculators[k].Valid() && calculators[k].window == 0 && calculators[k].history == []
    ensures forall k1, k2 :: k1 in calculators && k2 in calculators && k1 != k2 ==> calculators[k1] != calculators[k2]
  {
    calculators := map[];
    var i := 0;
    while i < |instrumentList|
      invariant 0 <= i <= |instrumentList|
      invariant calculators.Keys == set k | k in instrumentList[..i]
      invariant forall k :: k in calculators ==>
        fresh(calculators[k]) && calculators[k].Valid() && calculators[k].window == 0 && calculators[k].history == []
      invariant forall k1, k2 :: k1 in calculators && k2 in calculators && k1 != k2 ==> calculators[k1] != calculators[k2]
    {
      var calculator := new VWAPCalculator(0);
      calculators := calculators[instrumentList[i] := calculator];
      assert instrumentList[..i + 1] == instrumentList[..i] + [instrumentList[i]];
      i := i + 1;
    }
    assert instrumentList[..i] == instrumentList;
  }

  class Session {
    const scanner: MarketScanner
    const vwaps: map<string, VWAPCalculator>
    const monitor: TM.TradeMonitor
    const risk: RM.RiskManager
    /** `signals_today`: the instruments already alerted, by day. */
    var signalsToday: map<string, set<string>>
    /** `ALLOW_NEW_TRADES`. */
    var allowNewTrades: bool

    ghost predicate Valid()
      reads scanner, monitor, risk, vwaps.Values
    {
      && scanner.Valid() && scanner.maxLen == HISTORY_LEN
      && monitor.Valid() && AllWellFormed(monitor.activeTrades)
      && VwapsValid()
    }

    /** One distinct, unbounded calculator per instrument, fed only non-negative volumes. */
    ghost predicate VwapsValid()
      reads vwaps.Values
    {
      && (forall k {:trigger vwaps[k].Valid()} :: k in vwaps ==>
            vwaps[k].Valid() && vwaps[k].window == 0 && NonNegativeVolumes(vwaps[k].history))
      && (forall k1, k2 :: k1 in vwaps && k2 in vwaps && k1 != k2 ==> vwaps[k1] != vwaps[k2])
    }

    /** The samples each VWAP calculator has taken. */
    ghost function Samples(): map<string, seq<Sample>>
      reads vwaps.Values
    {
      map k | k in vwaps :: vwaps[k].history
    }

    /** The scanner's stores as a value. */
    ghost function StoresNow(): Stores
      reads scanner
    {
      Stores(scanner.prices, scanner.highs, scanner.lows, scanner.closes, scanner.volumes)
    }

    /** The book as a value, with `batch` as the alerts so far and `today`'s signals. */
    ghost function BookOn(today: string, batch: seq<Alert>): Book
      reads this, monitor
    {
      Book(SignalsOn(signalsToday, today), batch, monitor.activeTrades, monitor.order, allowNewTrades)
    }

    /** The session as the value `World` describes. */
    ghost function Now(today: string, batch: seq<Alert>): (w: World)
      requires Valid()
      reads this, scanner, monitor, risk, vwaps.Values
      ensures Coherent(w)
    {
      assert forall k :: k in vwaps ==> vwaps[k].Valid();
      World(StoresNow(), Samples(), BookOn(today, batch))
    }

    /** The module's start-up state: empty stores, one unbounded VWAP calculator per instrument, trading allowed. */
    constructor (instrumentList: seq<string>)
      ensures Valid() && allowNewTrades && signalsToday == map[]
      ensures vwaps.Keys == set k | k in instrumentList
      ensures forall k :: k in vwaps ==> vwaps[k].history == []
      ensures scanner.prices == map[] && monitor.activeTrades == map[] && risk.Counters() == RM.ZeroCounters
    {
      var calculators := NewCalculators(instrumentList);
      scanner := new MarketScanner(50, Some(HISTORY_LEN));
      vwaps := calculators;
      monitor := new TM.TradeMonitor();
      risk := new RM.RiskManager();
      signalsToday := map[];
      allowNewTrades := true;
      new;
      forall k | k in calculators
        ensures calculators[k].Valid() && calculators[k].window == 0 && NonNegativeVolumes(calculators[k].history)
      {
        assert calculators[k].history == [];
      }
    }

    /**
     * Lines 148-188 for an instrument with a signal: the first signal of the
     * day for the instrument is alerted and marked, before the risk check; a
     * refusal clears the admission flag and places nothing; otherwise the
     * order goes to the broker and an accepted one is registered at the LTP.
     */
    method Admit(instKey: string, ltp: real, signal: TradeSignal, vwap: real, today: string,
                 broker: LimitOrder -> Option<OrderResponse>, ghost batch: seq<Alert>) returns (alert: Option<Alert>)
      requires Valid() && today in signalsToday
      modifies this, monitor
      ensures Valid() && today in signalsToday && signalsToday == old(signalsToday)[today := signalsToday[today]]
      ensures unchanged(scanner, risk) && unchanged(vwaps.Values)
      ensures StoresNow() == old(StoresNow()) && Samples() == old(Samples())
      ensures alert.Some? <==> instKey !in old(signalsToday[today])
      ensures BookOn(today, batch + Listed(alert))
           == if alert.None? then old(BookOn(today, batch))
              else Admitted(old(BookOn(today, batch)), instKey, ltp, signal, vwap, risk.CanTradeNow(), broker)
    {
      if instKey in signalsToday[today] {
        return None;
      }
      signalsToday := signalsToday[today := signalsToday[today] + {instKey}];
      alert := Some(Alert(instKey, signal.side, ltp, vwap, signal.regime, signal.bias));
      if !risk.CanTradeNow() {
        allowNewTrades := false;
        return;
      }
      PlaceOrder(instKey, signal.side, ltp, broker, today, batch + Listed(alert));
    }

    /** Lines 169-188: the order goes to the broker and an accepted one is added to the monitor. */
    method PlaceOrder(instKey: string, side: Side, ltp: real, broker: LimitOrder -> Option<OrderResponse>,
                      ghost today: string, ghost batch: seq<Alert>)
      requires Valid()
      modifies monitor
      ensures Valid() && unchanged(this, scanner, risk) && unchanged(vwaps.Values)
      ensures BookOn(today, batch) == Placed(old(BookOn(today, batch)), instKey, side, ltp, broker)
    {
      var orderResult := PlaceLimitOrder(instKey, side.Name(), ltp, broker);
      if orderResult.Some? {
        PlacedOrderHasPositivePrice(instKey, side, ltp, broker);
        var trade := TM.NewTrackedTrade(instKey, side, ltp, orderResult.value.quantity.GetOr(0));
        TM.NewTradeWellFormed(instKey, side, ltp, orderResult.value.quantity.GetOr(0));
        monitor.AddTrade(orderResult.value.orderId, instKey, side, ltp, orderResult.value.quantity.GetOr(0));
        assert monitor.activeTrades == old(monitor.activeTrades)[orderResult.value.orderId := trade];
      }
    }

    /**
     * Lines 106-188 once the bar is stored: with 30 prices or more the
     * strategy runs on the stored series and the fresh VWAP, and a signal
     * goes on to `Admit`.
     */
    method Decide(instKey: string, ltp: real, vwapVal: Option<real>, today: string,
                  broker: LimitOrder -> Option<OrderResponse>, ghost batch: seq<Alert>) returns (alert: Option<Alert>)
      requires Valid() && today in signalsToday
      requires Fits(Now(today, batch), instKey)
      requires |scanner.GetPrices(instKey)| >= MIN_PRICES ==> vwapVal == Vwap(SamplesOf(Samples(), instKey), 0)
      modifies this, monitor
      ensures Valid() && today in signalsToday && signalsToday == old(signalsToday)[today := signalsToday[today]]
      ensures unchanged(scanner, risk) && unchanged(vwaps.Values)
      ensures Now(today, batch + Listed(alert)) == Decided(old(Now(today, batch)), instKey, ltp, risk.CanTradeNow(), broker)
    {
      ghost var w0 := Now(today, batch);
      var prices1m := scanner.GetPrices(instKey);
      if |prices1m| < MIN_PRICES {
        assert batch + Listed(None) == batch;
        return None;
      }
      var signal := Strategy(prices1m, scanner.GetHighs(instKey), scanner.GetLows(instKey),
                             scanner.GetCloses(instKey), scanner.GetVolumes(instKey), vwapVal, ltp);
      assert signal == SignalOf(w0, instKey, ltp);
      if signal.None? {
        assert batch + Listed(None) == batch;
        return None;
      }
      alert := Admit(instKey, ltp, signal.value, vwapVal.value, today, broker, batch);
      assert StoresNow() == w0.stores && Samples() == w0.samples;
      assert BookOn(today, batch + Listed(alert))
          == if instKey in w0.book.signals then w0.book
             else Admitted(w0.book, instKey, ltp, signal.value, vwapVal.value, risk.CanTradeNow(), broker);
    }

    /**
     * Lines 103-119: the bar goes into the scanner and, once 30 prices are
     * stored, the LTP and the bar's volume into the instrument's VWAP, whose
     * new value is returned.
     */
    method Record(instKey: string, ltp: real, bar: Bar, ghost today: string, ghost batch: seq<Alert>)
      returns (vwapVal: Option<real>)
      requires Valid() && instKey in vwaps && bar.volume > 0.0
      modifies scanner, vwaps[instKey]
      ensures Valid() && unchanged(this, monitor, risk)
      ensures Now(today, batch) == Recorded(old(Now(today, batch)), instKey, ltp, bar)
      ensures |scanner.GetPrices(instKey)| >= MIN_PRICES ==>
        vwapVal.Some? && vwapVal == Vwap(SamplesOf(Samples(), instKey), 0)
    {
      StoreBar(instKey, ltp, bar);
      if |scanner.GetPrices(instKey)| < MIN_PRICES {
        return None;
      }
      vwapVal := FeedVwap(instKey, ltp, bar.volume);
      assert vwaps[instKey].Valid() && vwaps[instKey].window == 0;
      assert SamplesOf(Samples(), instKey) == vwaps[instKey].history;
    }

    /** Lines 103-104: the LTP and the bar's high, low, close and volume go into the scanner. */
    method StoreBar(instKey: string, ltp: real, bar: Bar)
      requires Valid()
      modifies scanner
      ensures Valid() && unchanged(this, monitor, risk) && Samples() == old(Samples())
      ensures StoresNow() == Appended(old(StoresNow()), instKey, ltp, bar)
    {
      scanner.Update(instKey, ltp, bar.high, bar.low, bar.close, bar.volume);
    }

    /** Line 119: the instrument's calculator takes the LTP and the bar's volume; with a positive volume its VWAP is defined. */
    method FeedVwap(instKey: string, ltp: real, volume: real) returns (vwapVal: Option<real>)
      requires Valid() && instKey in vwaps && volume > 0.0
      modifies vwaps[instKey]
      ensures Valid() && unchanged(this, monitor, scanner, risk)
      ensures vwaps[instKey].history == old(vwaps[instKey].history) + [Sample(ltp, volume)]
      ensures Samples() == old(Samples())[instKey := old(vwaps[instKey].history) + [Sample(ltp, volume)]]
      ensures vwapVal.Some? && vwapVal == vwaps[instKey].GetVwap()
    {
      var calculator := vwaps[instKey];
      assert calculator.Valid();
      VwapDefinedAfterPositiveVolume(calculator.history, Sample(ltp, volume), calculator.window);
      vwapVal := calculator.Update(Some(ltp), Some(volume));
    }

    /**
     * Lines 193-206: every exit is recorded with the risk manager and removed
     * from the monitor; the flag is cleared as soon as the risk manager refuses.
     */
    method RecordExits(exits: seq<TM.Exit>)
      requires Valid()
      modifies this, monitor, risk
      ensures Valid()
      ensures risk.Counters() == RM.RecordedAll(old(risk.Counters()), ReasonNames(exits))
      ensures monitor.activeTrades == old(monitor.activeTrades) - ExitIds(exits)
      ensures monitor.order == OrderAfter(old(monitor.order), exits)
      ensures signalsToday == old(signalsToday)
      ensures exits == [] ==> allowNewTrades == old(allowNewTrades)
      ensures exits != [] ==> (allowNewTrades <==> old(allowNewTrades) && risk.CanTradeNow())
    {
      var i := 0;
      assert exits[..0] == [] && ExitIds(exits[..0]) == {};
      assert monitor.activeTrades == old(monitor.activeTrades) - {};
      while i < |exits|
        invariant 0 <= i <= |exits|
        invariant Valid() && signalsToday == old(signalsToday)
        invariant risk.Counters() == RM.RecordedAll(old(risk.Counters()), ReasonNames(exits[..i]))
        invariant monitor.activeTrades == old(monitor.activeTrades) - ExitIds(exits[..i])
        invariant monitor.order == OrderAfter(old(monitor.order), exits[..i])
        invariant i == 0 ==> allowNewTrades == old(allowNewTrades)
        invariant i > 0 ==> (allowNewTrades <==> old(allowNewTrades) && risk.CanTradeNow())
      {
        ExitsStep(old(risk.Counters()), old(monitor.activeTrades), old(monitor.order), exits, i);
        RecordExit(exits[i]);
        i := i + 1;
      }
      assert exits[..i] == exits;
    }

    /** One exit: recorded with the risk manager, removed from the monitor, and the flag cleared on a refusal. */
    method RecordExit(exit: TM.Exit)
      requires Valid()
      modifies this, monitor, risk
      ensures Valid() && signalsToday == old(signalsToday)
      ensures risk.Counters() == RM.Recorded(old(risk.Counters()), exit.reason.Name())
      ensures monitor.activeTrades == old(monitor.activeTrades) - {exit.tradeId}
      ensures monitor.order == TM.Without(old(monitor.order), exit.tradeId)
      ensures allowNewTrades == (old(allowNewTrades) && risk.CanTradeNow())
      ensures !RM.CanTrade(old(risk.Counters())) ==> !risk.CanTradeNow()
    {
      ghost var before := risk.Counters();
      risk.RecordTradeOutcome(exit.reason.Name());
      if !RM.CanTrade(before) {
        RM.BlockedStaysBlocked(before, [exit.reason.Name()]);
      }
      monitor.RemoveTrade(exit.tradeId);
      if !risk.CanTradeNow() {
        allowNewTrades := false;
      }
    }

    /** Lines 89-188 for one instrument whose LTP and bar parsed: `Record`, then `Decide`. */
    method HandleBar(instKey: string, ltp: real, bar: Bar, today: string,
                     broker: LimitOrder -> Option<OrderResponse>, ghost batch: seq<Alert>) returns (alert: Option<Alert>)
      requires Valid() && today in signalsToday && instKey in vwaps && bar.volume > 0.0
      modifies this, scanner, monitor, vwaps[instKey]
      ensures Valid() && today in signalsToday && signalsToday == old(signalsToday)[today := signalsToday[today]]
      ensures Now(today, batch + Listed(alert))
           == Step(old(Now(today, batch)), Feed(instKey, Some(ltp), Some(bar)), risk.CanTradeNow(), broker)
    {
      ghost var w := Now(today, batch);
      StepParsed(w, instKey, ltp, bar, risk.CanTradeNow(), broker);
      var vwapVal := Record(instKey, ltp, bar, today, batch);
      alert := Decide(instKey, ltp, vwapVal, today, broker, batch);
    }

    /**
     * Lines 76-188: every feed whose LTP parsed contributes to the price map,
     * and every one whose bar parsed as well goes through `HandleBar`.
     */
    method ScanFeeds(feeds: seq<Feed>, today: string, broker: LimitOrder -> Option<OrderResponse>)
      returns (alerts: seq<Alert>, currentPrices: map<string, real>)
      requires Valid() && PositiveVolumes(feeds)
      requires forall i :: 0 <= i < |feeds| && feeds[i].ltp.Some? && feeds[i].bar.Some? ==> feeds[i].instKey in vwaps
      modifies this, scanner, monitor, vwaps.Values
      ensures Valid() && today in signalsToday
      ensures currentPrices == CurrentPrices(feeds)
      ensures Now(today, alerts) == Scan(old(Now(today, [])), feeds, risk.CanTradeNow(), broker)
      ensures signalsToday == old(signalsToday)[today := SignalsOn(old(signalsToday), today) + KeySet(alerts)]
      ensures AlertsSound(alerts, SignalsOn(old(signalsToday), today), BarKeys(feeds))
      ensures scanner.prices - BarKeys(feeds) == old(scanner.prices) - BarKeys(feeds)
      ensures Samples() - BarKeys(feeds) == old(Samples()) - BarKeys(feeds)
      ensures allowNewTrades ==> old(allowNewTrades)
      ensures old(allowNewTrades) && !allowNewTrades ==> !risk.CanTradeNow()
    {
      ghost var w0 := Now(today, []);
      ghost var canTrade := risk.CanTradeNow();
      if today !in signalsToday {
        signalsToday := signalsToday[today := {}];
      }
      currentPrices := map[];
      alerts := [];
      assert feeds[..0] == [];
      var i := 0;
      while i < |feeds|
        invariant 0 <= i <= |feeds|
        invariant Scanned(feeds, i, today, alerts, currentPrices, old(signalsToday), w0, canTrade, broker)
      {
        alerts, currentPrices :=
          ScanOne(feeds, i, today, broker, alerts, currentPrices, old(signalsToday), w0, canTrade);
        i := i + 1;
      }
      assert feeds[..i] == feeds;
      ScanAlertsSound(w0, feeds, canTrade, broker);
      ScanFlag(w0, feeds, canTrade, broker);
      ScanFrame(w0, feeds, canTrade, broker);
    }

    /**
     * The state after the first `n` feeds of a batch: the session is the
     * value `Scan` computes from its state before the batch, other days'
     * signals are as they were, and the price map covers the prefix.
     */
    ghost predicate Scanned(feeds: seq<Feed>, n: nat, today: string, alerts: seq<Alert>,
                            currentPrices: map<string, real>, signals0: map<string, set<string>>,
                            w0: World, canTrade: bool, broker: LimitOrder -> Option<OrderResponse>)
      requires n <= |feeds|
      reads this, scanner, monitor, risk, vwaps.Values
    {
      && Valid() && today in signalsToday && Coherent(w0) && PositiveVolumes(feeds)
      && signalsToday == signals0[today := signalsToday[today]]
      && currentPrices == CurrentPrices(feeds[..n])
      && canTrade == risk.CanTradeNow()
      && PositiveVolumes(feeds[..n])
      && Now(today, alerts) == Scan(w0, feeds[..n], canTrade, broker)
    }

    /** One feed of the batch: `HandleBar` when its LTP and bar parsed, else at most its LTP is noted. */
    method ScanOne(feeds: seq<Feed>, i: nat, today: string, broker: LimitOrder -> Option<OrderResponse>,
                   alerts: seq<Alert>, currentPrices: map<string, real>, ghost signals0: map<string, set<string>>,
                   ghost w0: World, ghost canTrade: bool)
      returns (alerts': seq<Alert>, currentPrices': map<string, real>)
      requires i < |feeds| && (feeds[i].ltp.Some? && feeds[i].bar.Some? ==> feeds[i].instKey in vwaps)
      requires Scanned(feeds, i, today, alerts, currentPrices, signals0, w0, canTrade, broker)
      modifies this, scanner, monitor, vwaps.Values
      ensures Scanned(feeds, i + 1, today, alerts', currentPrices', signals0, w0, canTrade, broker)
    {
      var feed := feeds[i];
      if feed.ltp.Some? && feed.bar.Some? {
        alerts', currentPrices' :=
          ScanParsed(feeds, i, today, broker, alerts, currentPrices, signals0, w0, canTrade);
      } else {
        alerts' := alerts;
        currentPrices' := if feed.ltp.Some? then currentPrices[feed.instKey := feed.ltp.value] else currentPrices;
        SkipUnparsed(feeds, i, today, alerts, currentPrices, currentPrices', signals0, w0, canTrade, broker);
      }
    }

    /** A feed without a parsed LTP or bar only adds its LTP, if any, to the price map. */
    lemma SkipUnparsed(feeds: seq<Feed>, i: nat, today: string, alerts: seq<Alert>,
                       currentPrices: map<string, real>, next: map<string, real>,
                       signals0: map<string, set<string>>, w0: World, canTrade: bool,
                       broker: LimitOrder -> Option<OrderResponse>)
      requires i < |feeds| && (feeds[i].ltp.None? || feeds[i].bar.None?)
      requires next == if feeds[i].ltp.Some? then currentPrices[feeds[i].instKey := feeds[i].ltp.value] else currentPrices
      requires Scanned(feeds, i, today, alerts, currentPrices, signals0, w0, canTrade, broker)
      ensures Scanned(feeds, i + 1, today, alerts, next, signals0, w0, canTrade, broker)
    {
      FeedsStep(feeds, i);
      ScanStep(w0, feeds, i, canTrade, broker);
    }

    /** One feed whose LTP and bar both parsed: `HandleBar`, and the scan state moves past it. */
    method ScanParsed(feeds: seq<Feed>, i: nat, today: string, broker: LimitOrder -> Option<OrderResponse>,
                      alerts: seq<Alert>, currentPrices: map<string, real>, ghost signals0: map<string, set<string>>,
                      ghost w0: World, ghost canTrade: bool)
      returns (alerts': seq<Alert>, currentPrices': map<string, real>)
      requires i < |feeds| && feeds[i].ltp.Some? && feeds[i].bar.Some? && feeds[i].instKey in vwaps
      requires Scanned(feeds, i, today, alerts, currentPrices, signals0, w0, canTrade, broker)
      modifies this, scanner, monitor, vwaps[feeds[i].instKey]
      ensures Scanned(feeds, i + 1, today, alerts', currentPrices', signals0, w0, canTrade, broker)
    {
      var feed := feeds[i];
      FeedsStep(feeds, i);
      ScanParsedStep(w0, feeds, i, canTrade, broker);
      currentPrices' := currentPrices[feed.instKey := feed.ltp.value];
      ghost var before := signalsToday;
      var alert := HandleBar(feed.instKey, feed.ltp.value, feed.bar.value, today, broker, alerts);
      alerts' := alerts + Listed(alert);
      SignalsFrame(signals0, before, signalsToday, today);
    }

    /**
     * Lines 190-206: all open trades are checked against the batch's prices
     * and every exit is recorded and removed.
     */
    method MonitorTrades(currentPrices: map<string, real>) returns (exits: seq<TM.Exit>)
      requires Valid() && TM.AllCheckable(monitor.activeTrades, currentPrices)
      modifies this, monitor, risk
      ensures Valid() && signalsToday == old(signalsToday)
      ensures unchanged(scanner) && unchanged(vwaps.Values)
      ensures StoresNow() == old(StoresNow()) && Samples() == old(Samples())
      ensures exits == TM.ExitsOf(old(monitor.activeTrades), old(monitor.order), currentPrices)
      ensures monitor.activeTrades == TM.Checked(old(monitor.activeTrades), currentPrices) - ExitIds(exits)
      ensures monitor.order == OrderAfter(old(monitor.order), exits)
      ensures risk.Counters() == RM.RecordedAll(old(risk.Counters()), ReasonNames(exits))
      ensures forall k :: 0 <= k < |exits| ==> exits[k].tradeId !in monitor.activeTrades
      ensures forall j, k :: 0 <= j < k < |exits| ==> exits[j].tradeId != exits[k].tradeId
      ensures exits == [] ==> allowNewTrades == old(allowNewTrades)
      ensures exits != [] ==> (allowNewTrades <==> old(allowNewTrades) && risk.CanTradeNow())
    {
      TM.CheckKeepsLevels(monitor.activeTrades, currentPrices);
      TM.ExitsReportClosures(monitor.activeTrades, monitor.order, currentPrices);
      exits := monitor.CheckTrades(currentPrices);
      RecordExits(exits);
      ExitIdsMeaning(exits);
    }

    /**
     * `on_message`: nothing at all happens once new trades are disallowed;
     * otherwise the batch is scanned (`Scan`) and the trades it leaves are
     * checked against its prices, every exit being recorded and removed.
     */
    method OnMessage(feeds: seq<Feed>, today: string, broker: LimitOrder -> Option<OrderResponse>)
      returns (alerts: seq<Alert>, exits: seq<TM.Exit>)
      requires Valid() && PositiveVolumes(feeds)
      requires forall i :: 0 <= i < |feeds| && feeds[i].ltp.Some? && feeds[i].bar.Some? ==> feeds[i].instKey in vwaps
      modifies this, scanner, monitor, risk, vwaps.Values
      ensures Valid()
      ensures !old(allowNewTrades) ==>
        && alerts == [] && exits == [] && !allowNewTrades && signalsToday == old(signalsToday)
        && StoresNow() == old(StoresNow()) && Samples() == old(Samples())
        && monitor.activeTrades == old(monitor.activeTrades) && monitor.order == old(monitor.order)
        && risk.Counters() == old(risk.Counters())
      ensures old(allowNewTrades) ==>
        var w := Scan(old(Now(today, [])), feeds, old(risk.CanTradeNow()), broker);
        var b, prices := w.book, CurrentPrices(feeds);
        && alerts == b.alerts && SignalsOn(signalsToday, today) == b.signals
        && StoresNow() == w.stores && Samples() == w.samples
        && TM.AllCheckable(b.trades, prices)
        && exits == TM.ExitsOf(b.trades, b.order, prices)
        && monitor.activeTrades == TM.Checked(b.trades, prices) - ExitIds(exits)
        && monitor.order == OrderAfter(b.order, exits)
        && allowNewTrades == (b.allow && (exits == [] || risk.CanTradeNow()))
      ensures allowNewTrades ==> old(allowNewTrades)
      ensures old(allowNewTrades) ==>
        signalsToday == old(signalsToday)[today := SignalsOn(old(signalsToday), today) + KeySet(alerts)]
      ensures AlertsSound(alerts, SignalsOn(old(signalsToday), today), BarKeys(feeds))
      ensures scanner.prices - BarKeys(feeds) == old(scanner.prices) - BarKeys(feeds)
      ensures risk.Counters() == RM.RecordedAll(old(risk.Counters()), ReasonNames(exits))
      ensures forall k :: 0 <= k < |exits| ==> exits[k].tradeId !in monitor.activeTrades
      ensures forall j, k :: 0 <= j < k < |exits| ==> exits[j].tradeId != exits[k].tradeId
    {
      if !allowNewTrades {
        return [], [];
      }
      ghost var w := Scan(Now(today, []), feeds, risk.CanTradeNow(), broker);
      var currentPrices;
      alerts, currentPrices := ScanFeeds(feeds, today, broker);
      assert Now(today, alerts) == w;
      assert monitor.activeTrades == w.book.trades && monitor.order == w.book.order && allowNewTrades == w.book.allow;
      TM.CheckKeepsLevels(monitor.activeTrades, currentPrices);
      exits := MonitorTrades(currentPrices);
    }
  }

  /** Two changes confined to one day's signals are one such change. */
  lemma SignalsFrame(s0: map<string, set<string>>, s1: map<string, set<string>>, s2: map<string, set<string>>, today: string)
    requires today in s1 && today in s2
    requires s1 == s0[today := s1[today]] && s2 == s1[today := s2[today]]
    ensures s2 == s0[today := s2[today]]
  {
    assert s0[today := s1[today]][today := s2[today]] == s0[today := s2[today]];
  }

  /** The alert a call produced, as the batch's list gains it. */
  function Listed(alert: Option<Alert>): (r: seq<Alert>)
    ensures |r| <= 1
  {
    if alert.Some? then [alert.value] else []
  }
}
