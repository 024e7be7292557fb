/**
 * execution/trade_monitor.py: the exit state machine of the open trades
 * (stop-loss, then target, then a one-shot breakeven ratchet, then a partial
 * exit) and the monitor that holds them by trade id.
 */
module TradeMonitor {
  import opened Wrappers
  import opened Series
  import opened Labels
  import opened ExecutionConfig

  /** A live trade. The side is BUY or SELL; `open_time` is not modelled. */
  datatype TrackedTrade = TrackedTrade(
    instKey: string,
    side: Side,
    entryPrice: real,
    qty: int,
    stopLoss: real,
    target: real,
    breakevenMoved: bool,
    partialExitDone: bool,
    isClosed: bool)

  /** `calc_stop_loss`: below the entry for a BUY, above it for a SELL. */
  function InitialStop(entryPrice: real, side: Side): real {
    if side == Buy then Times(entryPrice, 1.0 - STOP_LOSS_PCT) else Times(entryPrice, 1.0 + STOP_LOSS_PCT)
  }

  /** `calc_target`: above the entry for a BUY, below it for a SELL. */
  function InitialTarget(entryPrice: real, side: Side): real {
    if side == Buy then Times(entryPrice, 1.0 + TARGET_PCT) else Times(entryPrice, 1.0 - TARGET_PCT)
  }

  /** `TrackedTrade(inst_key, side, entry_price, qty)`: initial levels, every flag false. */
  function NewTrackedTrade(instKey: string, side: Side, entryPrice: real, qty: int): (t: TrackedTrade)
    ensures t.instKey == instKey && t.side == side && t.entryPrice == entryPrice && t.qty == qty
    ensures t.stopLoss == InitialStop(entryPrice, side) && t.target == InitialTarget(entryPrice, side)
    ensures !t.breakevenMoved && !t.partialExitDone && !t.isClosed
  {
    TrackedTrade(instKey, side, entryPrice, qty, InitialStop(entryPrice, side), InitialTarget(entryPrice, side),
                 false, false, false)
  }

  /** With a positive entry, a new trade's entry lies strictly between its stop and its target. */
  lemma EntryBetweenStopAndTarget(instKey: string, side: Side, entryPrice: real, qty: int)
    requires entryPrice > 0.0
    ensures var t := NewTrackedTrade(instKey, side, entryPrice, qty);
      && (side == Buy ==> t.stopLoss < t.entryPrice < t.target)
      && (side == Sell ==> t.target < t.entryPrice < t.stopLoss)
  {
    assert Times(entryPrice, 1.0 - STOP_LOSS_PCT) == entryPrice - entryPrice * STOP_LOSS_PCT;
    assert Times(entryPrice, 1.0 + STOP_LOSS_PCT) == entryPrice + entryPrice * STOP_LOSS_PCT;
    assert Times(entryPrice, 1.0 + TARGET_PCT) == entryPrice + entryPrice * TARGET_PCT;
    assert Times(entryPrice, 1.0 - TARGET_PCT) == entryPrice - entryPrice * TARGET_PCT;
  }

  /** `get_current_profit_pct`: the favourable move as a fraction of the entry. */
  function ProfitPct(t: TrackedTrade, currentPrice: real): real
    requires t.entryPrice != 0.0
  {
    if t.side == Buy then (currentPrice - t.entryPrice) / t.entryPrice
    else (t.entryPrice - currentPrice) / t.entryPrice
  }

  /** The profit fraction times the entry is the favourable price move. */
  lemma ProfitPctMeaning(t: TrackedTrade, currentPrice: real)
    requires t.entryPrice != 0.0
    ensures Times(ProfitPct(t, currentPrice), t.entryPrice)
         == if t.side == Buy then currentPrice - t.entryPrice else t.entryPrice - currentPrice
  {
  }

  /** The three reasons `check_trades` reports. */
  datatype ExitReason = StopLoss | Target | PartialExit {
    function Name(): (s: string)
      ensures s in {"STOP_LOSS", "TARGET", "PARTIAL_EXIT"}
    {
      match this
      case StopLoss => "STOP_LOSS"
      case Target => "TARGET"
      case PartialExit => "PARTIAL_EXIT"
    }
  }

  /** One `(trade_id, reason, exit_price)` tuple. */
  datatype Exit = Exit(tradeId: string, reason: ExitReason, price: real)

  /** A trade after one check, and the reason it exited, if it did. */
  datatype Outcome = Outcome(trade: TrackedTrade, exit: Option<ExitReason>)

  predicate StopHit(t: TrackedTrade, ltp: real) {
    if t.side == Buy then ltp <= t.stopLoss else ltp >= t.stopLoss
  }

  predicate TargetHit(t: TrackedTrade, ltp: real) {
    if t.side == Buy then ltp >= t.target else ltp <= t.target
  }

  /** The partial-exit retrace test, against the entry rather than the stop. */
  predicate RetracedBelowPartialLimit(t: TrackedTrade, ltp: real) {
    if t.side == Buy then ltp <= Times(t.entryPrice, 1.0 + PARTIAL_EXIT_LIMIT_PCT)
    else ltp >= Times(t.entryPrice, 1.0 - PARTIAL_EXIT_LIMIT_PCT)
  }

  /** The breakeven step of one check: the stop moves to the entry once, when the profit reaches the threshold. */
  function Ratchet(t: TrackedTrade, profit: real): (r: TrackedTrade)
    ensures r.breakevenMoved == (t.breakevenMoved || profit >= BREAKEVEN_MOVE_PCT)
    ensures r.stopLoss == if !t.breakevenMoved && profit >= BREAKEVEN_MOVE_PCT then t.entryPrice else t.stopLoss
    ensures r == t.(stopLoss := r.stopLoss, breakevenMoved := r.breakevenMoved)
  {
    if !t.breakevenMoved && profit >= BREAKEVEN_MOVE_PCT then t.(stopLoss := t.entryPrice, breakevenMoved := true)
    else t
  }

  /**
   * The body of the `check_trades` loop for one open trade whose instrument
   * has the price `ltp`: the stop is tested first, the target next; only then
   * may the stop ratchet to the entry (not re-tested in the same call), and
   * last comes the partial-exit test. An exit closes the trade and reports
   * the observed price, not the level that was crossed.
   */
  function Evaluate(t: TrackedTrade, ltp: real): (r: Outcome)
    requires !t.isClosed && t.entryPrice != 0.0
    ensures r.exit == Some(StopLoss) <==> StopHit(t, ltp)
    ensures r.exit == Some(Target) <==> !StopHit(t, ltp) && TargetHit(t, ltp)
    ensures r.exit.Some? <==> r.trade.isClosed
    ensures r.exit.Some? && r.exit != Some(PartialExit) ==> r.trade == t.(isClosed := true)
    ensures r.exit != Some(StopLoss) && r.exit != Some(Target) ==>
      r.trade.(isClosed := t.isClosed) == Ratchet(t, ProfitPct(t, ltp))
  {
    var profit := ProfitPct(t, ltp);
    if StopHit(t, ltp) then Outcome(t.(isClosed := true), Some(StopLoss))
    else if TargetHit(t, ltp) then Outcome(t.(isClosed := true), Some(Target))
    else
      var t1 := Ratchet(t, profit);
      if !t1.partialExitDone && profit >= PARTIAL_EXIT_MOVE_PCT && RetracedBelowPartialLimit(t1, ltp) then
        Outcome(t1.(isClosed := true), Some(PartialExit))
      else Outcome(t1, None)
  }

  /** A trade `check_trades` can look at without dividing by a zero entry. */
  predicate Checkable(t: TrackedTrade, prices: map<string, real>) {
    !t.isClosed && t.instKey in prices ==> t.entryPrice != 0.0
  }

  /** One iteration of `check_trades`: closed trades and trades without a price are skipped untouched. */
  function Check(t: TrackedTrade, prices: map<string, real>): (r: Outcome)
    requires Checkable(t, prices)
    ensures t.isClosed || t.instKey !in prices ==> r == Outcome(t, None)
    ensures r.exit.Some? <==> !t.isClosed && r.trade.isClosed
    ensures r.exit.Some? ==> t.instKey in prices
  {
    if t.isClosed || t.instKey !in prices then Outcome(t, None)
    else Evaluate(t, prices[t.instKey])
  }

  /** What the check reports for one trade: nothing, or one tuple with the observed price. */
  function ExitOf(id: string, t: TrackedTrade, prices: map<string, real>): (r: seq<Exit>)
    requires Checkable(t, prices)
    ensures |r| <= 1
    ensures |r| == 1 <==> Check(t, prices).exit.Some?
  {
    var o := Check(t, prices);
    if o.exit.Some? then [Exit(id, o.exit.value, prices[t.instKey])] else []
  }

  predicate AllCheckable(trades: map<string, TrackedTrade>, prices: map<string, real>) {
    forall id :: id in trades ==> Checkable(trades[id], prices)
  }

  /** The exits of the trades `ids`, in that order. */
  function ExitsOf(trades: map<string, TrackedTrade>, ids: seq<string>, prices: map<string, real>): (r: seq<Exit>)
    requires AllCheckable(trades, prices)
    requires forall k :: 0 <= k < |ids| ==> ids[k] in trades
    ensures |r| <= |ids|
    decreases |ids|
  {
    if ids == [] then []
    else
      var id := ids[|ids| - 1];
      ExitsOf(trades, ids[..|ids| - 1], prices) + ExitOf(id, trades[id], prices)
  }

  /** Every trade after one `check_trades`, each checked on its own. */
  function Checked(trades: map<string, TrackedTrade>, prices: map<string, real>): (r: map<string, TrackedTrade>)
    requires AllCheckable(trades, prices)
    ensures r.Keys == trades.Keys
  {
    map id | id in trades :: Check(trades[id], prices).trade
  }

  ghost predicate Reported(exits: seq<Exit>, id: string) {
    exists k :: 0 <= k < |exits| && exits[k].tradeId == id
  }

  /**
   * The exits of distinct trades name each trade at most once, name exactly
   * the trades the check closes, and carry that trade's observed price.
   */
  lemma {:induction false} ExitsReportClosures(trades: map<string, TrackedTrade>, ids: seq<string>,
                                               prices: map<string, real>)
    requires AllCheckable(trades, prices)
    requires forall k :: 0 <= k < |ids| ==> ids[k] in trades
    requires Distinct(ids)
    ensures var e := ExitsOf(trades, ids, prices);
      && (forall j, k :: 0 <= j < k < |e| ==> e[j].tradeId != e[k].tradeId)
      && (forall k :: 0 <= k < |e| ==>
            e[k].tradeId in ids && e[k].tradeId in trades
            && trades[e[k].tradeId].instKey in prices
            && e[k].price == prices[trades[e[k].tradeId].instKey]
            && Check(trades[e[k].tradeId], prices).exit == Some(e[k].reason))
      && (forall id :: id in trades ==>
            (Reported(e, id) <==> id in ids && Check(trades[id], prices).exit.Some?))
    decreases |ids|
  {
    ExitsSound(trades, ids, prices);
    var e := ExitsOf(trades, ids, prices);
    forall id | id in trades
      ensures Reported(e, id) <==> id in ids && Check(trades[id], prices).exit.Some?
    {
      if Reported(e, id) {
        var k :| 0 <= k < |e| && e[k].tradeId == id;
        assert SoundExit(trades, ids, prices, ExitsOf(trades, ids, prices)[k]);
      }
      if id in ids && Check(trades[id], prices).exit.Some? {
        ExitReported(trades, ids, prices, id);
      }
    }
  }

  /** A trade among `ids` that its check closes is reported. */
  lemma {:induction false} ExitReported(trades: map<string, TrackedTrade>, ids: seq<string>,
                                        prices: map<string, real>, id: string)
    requires AllCheckable(trades, prices)
    requires forall k :: 0 <= k < |ids| ==> ids[k] in trades
    requires id in ids && id in trades && Check(trades[id], prices).exit.Some?
    ensures Reported(ExitsOf(trades, ids, prices), id)
    decreases |ids|
  {
    var init := ids[..|ids| - 1];
    var last := ids[|ids| - 1];
    var e := ExitsOf(trades, ids, prices);
    var e0 := ExitsOf(trades, init, prices);
    assert e == e0 + ExitOf(last, trades[last], prices);
    if id == last {
      assert e[|e| - 1].tradeId == id;
    } else {
      assert id in init by {
        var j :| 0 <= j < |ids| && ids[j] == id;
        assert init[j] == id;
      }
      ExitReported(trades, init, prices, id);
      var k :| 0 <= k < |e0| && e0[k].tradeId == id;
      assert e[k] == e0[k];
    }
  }

  /** An exit about one of `ids`, carrying the trade's observed price and the reason its check closed it. */
  predicate SoundExit(trades: map<string, TrackedTrade>, ids: seq<string>, prices: map<string, real>, x: Exit)
    requires AllCheckable(trades, prices)
  {
    && x.tradeId in ids && x.tradeId in trades
    && trades[x.tradeId].instKey in prices
    && x.price == prices[trades[x.tradeId].instKey]
    && Check(trades[x.tradeId], prices).exit == Some(x.reason)
  }

  /** Each exit is about one of the checked trades, once, with its price and its reason. */
  lemma {:induction false} ExitsSound(trades: map<string, TrackedTrade>, ids: seq<string>, prices: map<string, real>)
    requires AllCheckable(trades, prices)
    requires forall k :: 0 <= k < |ids| ==> ids[k] in trades
    requires Distinct(ids)
    ensures var e := ExitsOf(trades, ids, prices);
      && (forall j, k :: 0 <= j < k < |e| ==> e[j].tradeId != e[k].tradeId)
      && (forall k :: 0 <= k < |e| ==> SoundExit(trades, ids, prices, e[k]))
    decreases |ids|
  {
    if ids != [] {
      var init := ids[..|ids| - 1];
      var id := ids[|ids| - 1];
      ExitsSound(trades, init, prices);
      assert id !in init;
      var e0 := ExitsOf(trades, init, prices);
      var e := ExitsOf(trades, ids, prices);
      var last := ExitOf(id, trades[id], prices);
      assert e == e0 + last;
      forall k | 0 <= k < |e0|
        ensures e[k] == e0[k] && SoundExit(trades, ids, prices, e[k]) && e[k].tradeId != id
      {
        assert SoundExit(trades, init, prices, ExitsOf(trades, init, prices)[k]);
      }
      assert forall j, k :: 0 <= j < k < |e0| ==>
        ExitsOf(trades, init, prices)[j].tradeId != ExitsOf(trades, init, prices)[k].tradeId;
      if last != [] {
        var o := Check(trades[id], prices);
        assert e[|e0|] == last[0] == Exit(id, o.exit.value, prices[trades[id].instKey]);
      }
    }
  }

  /** One more id: its exit, if any, comes after those of the ids before it. */
  lemma ExitsOfStep(trades: map<string, TrackedTrade>, ids: seq<string>, i: nat, prices: map<string, real>)
    requires AllCheckable(trades, prices)
    requires forall k :: 0 <= k < |ids| ==> ids[k] in trades
    requires i < |ids|
    ensures ExitsOf(trades, ids[..i + 1], prices) == ExitsOf(trades, ids[..i], prices) + ExitOf(ids[i], trades[ids[i]], prices)
  {
    assert ids[..i + 1][..i] == ids[..i];
  }

  /** Python dict order: a new id goes last, a replaced one keeps its place. */
  function Without(s: seq<string>, x: string): (r: seq<string>)
    ensures forall y :: y in r <==> y in s && y != x
    ensures Distinct(s) ==> Distinct(r)
    ensures |r| <= |s|
    decreases |s|
  {
    if s == [] then []
    else
      var r0 := Without(s[..|s| - 1], x);
      var last := s[|s| - 1];
      if last == x then r0
      else
        assert Distinct(s) ==> last !in s[..|s| - 1];
        r0 + [last]
  }

  class TradeMonitor {
    /** The ids of `active_trades` in dictionary order. */
    var order: seq<string>
    var activeTrades: map<string, TrackedTrade>

    ghost predicate Valid()
      reads this
    {
      && Distinct(order)
      && (forall k :: 0 <= k < |order| ==> order[k] in activeTrades)
      && (forall id :: id in activeTrades ==> id in order)
    }

    constructor ()
      ensures Valid() && order == [] && activeTrades == map[]
    {
      order := [];
      activeTrades := map[];
    }

    /** `add_trade`: a new tracked trade under `tradeId`, replacing any trade already there. */
    method AddTrade(tradeId: string, instKey: string, side: Side, entryPrice: real, qty: int)
      requires Valid()
      modifies this
      ensures Valid()
      ensures activeTrades == old(activeTrades)[tradeId := NewTrackedTrade(instKey, side, entryPrice, qty)]
      ensures order == if tradeId in old(activeTrades) then old(order) else old(order) + [tradeId]
    {
      if tradeId !in activeTrades {
        order := order + [tradeId];
      }
      activeTrades := activeTrades[tradeId := NewTrackedTrade(instKey, side, entryPrice, qty)];
    }

    /** `remove_trade`: forgets `tradeId`; an unknown id changes nothing. */
    method RemoveTrade(tradeId: string)
      requires Valid()
      modifies this
      ensures Valid()
      ensures activeTrades == old(activeTrades) - {tradeId}
      ensures order == Without(old(order), tradeId)
      ensures tradeId !in old(activeTrades) ==> activeTrades == old(activeTrades) && order == old(order)
    {
      if tradeId in activeTrades {
        activeTrades := activeTrades - {tradeId};
      } else {
        WithoutAbsent(order, tradeId);
      }
      order := Without(order, tradeId);
      assert forall k :: 0 <= k < |order| ==> order[k] in order;
    }

    /**
     * `check_trades(current_prices)`: every open trade with a price is
     * evaluated, in dictionary order; the exits are returned in that order.
     */
    method CheckTrades(prices: map<string, real>) returns (exits: seq<Exit>)
      requires Valid() && AllCheckable(activeTrades, prices)
      modifies this
      ensures Valid() && order == old(order)
      ensures activeTrades == Checked(old(activeTrades), prices)
      ensures exits == ExitsOf(old(activeTrades), order, prices)
    {
      var checked;
      checked, exits := CheckEach(activeTrades, order, prices);
      PartlyCheckedAll(old(activeTrades), order, prices);
      activeTrades := checked;
    }
  }

  /**
   * The loop of `check_trades` over the trades in dictionary order `ids`:
   * each trade is checked once, and the exits come out in that order.
   */
  method CheckEach(trades: map<string, TrackedTrade>, ids: seq<string>, prices: map<string, real>)
    returns (checked: map<string, TrackedTrade>, exits: seq<Exit>)
    requires AllCheckable(trades, prices) && Distinct(ids)
    requires forall k :: 0 <= k < |ids| ==> ids[k] in trades
    ensures checked == PartlyChecked(trades, ids, prices)
    ensures exits == ExitsOf(trades, ids, prices)
  {
    CheckEachStart(trades, ids, prices);
    checked := trades;
    exits := [];
    var i := 0;
    while i < |ids|
      invariant i <= |ids|
      invariant checked == PartlyChecked(trades, ids[..i], prices)
      invariant exits == ExitsOf(trades, ids[..i], prices)
    {
      CheckEachStep(trades, ids, i, prices, checked, exits);
      var id := ids[i];
      var trade := checked[id];
      exits := exits + ExitOf(id, trade, prices);
      checked := checked[id := Check(trade, prices).trade];
      i := i + 1;
    }
    assert ids[..i] == ids;
  }

  /** The trades part-way through a check: those in `done` are checked, the rest untouched. */
  ghost function PartlyChecked(trades: map<string, TrackedTrade>, done: seq<string>, prices: map<string, real>)
    : (r: map<string, TrackedTrade>)
    requires AllCheckable(trades, prices)
    ensures r.Keys == trades.Keys
  {
    map id | id in trades :: if id in done then Check(trades[id], prices).trade else trades[id]
  }

  /** Before the loop of `CheckEach` nothing is checked and nothing reported. */
  lemma CheckEachStart(trades: map<string, TrackedTrade>, ids: seq<string>, prices: map<string, real>)
    requires AllCheckable(trades, prices)
    requires forall k :: 0 <= k < |ids| ==> ids[k] in trades
    ensures PartlyChecked(trades, ids[..0], prices) == trades
    ensures ExitsOf(trades, ids[..0], prices) == []
  {
    assert ids[..0] == [];
  }

  /** One iteration of `CheckEach` keeps both of its loop invariants. */
  lemma CheckEachStep(trades: map<string, TrackedTrade>, ids: seq<string>, i: nat, prices: map<string, real>,
                      checked: map<string, TrackedTrade>, exits: seq<Exit>)
    requires AllCheckable(trades, prices) && Distinct(ids)
    requires forall k :: 0 <= k < |ids| ==> ids[k] in trades
    requires i < |ids|
    requires checked == PartlyChecked(trades, ids[..i], prices)
    requires exits == ExitsOf(trades, ids[..i], prices)
    ensures ids[i] in checked && Checkable(checked[ids[i]], prices)
    ensures checked[ids[i] := Check(checked[ids[i]], prices).trade] == PartlyChecked(trades, ids[..i + 1], prices)
    ensures exits + ExitOf(ids[i], checked[ids[i]], prices) == ExitsOf(trades, ids[..i + 1], prices)
  {
    PartlyCheckedStep(trades, ids, i, prices);
    ExitsOfStep(trades, ids, i, prices);
  }

  /** One more id: its trade is checked, starting from the original. */
  lemma PartlyCheckedStep(trades: map<string, TrackedTrade>, ids: seq<string>, i: nat, prices: map<string, real>)
    requires AllCheckable(trades, prices) && Distinct(ids)
    requires forall k :: 0 <= k < |ids| ==> ids[k] in trades
    requires i < |ids|
    ensures PartlyChecked(trades, ids[..i], prices)[ids[i]] == trades[ids[i]]
    ensures PartlyChecked(trades, ids[..i + 1], prices)
         == PartlyChecked(trades, ids[..i], prices)[ids[i] := Check(trades[ids[i]], prices).trade]
  {
    assert ids[i] !in ids[..i];
    assert forall x :: x in ids[..i + 1] <==> x in ids[..i] || x == ids[i];
  }

  lemma PartlyCheckedAll(trades: map<string, TrackedTrade>, done: seq<string>, prices: map<string, real>)
    requires AllCheckable(trades, prices)
    requires forall id :: id in trades ==> id in done
    ensures PartlyChecked(trades, done, prices) == Checked(trades, prices)
  {
  }

  lemma {:induction false} WithoutAbsent(s: seq<string>, x: string)
    requires x !in s
    ensures Without(s, x) == s
    decreases |s|
  {
    if s != [] {
      var init, last := s[..|s| - 1], s[|s| - 1];
      assert x !in init && last != x;
      WithoutAbsent(init, x);
      assert init + [last] == s;
    }
  }

  // ---------------------------------------------------------------- the life of one trade

  /**
   * The shape every tracked trade keeps: a positive entry, the initial
   * target, and the stop at its initial level until the ratchet moves it to
   * the entry.
   */
  predicate WellFormed(t: TrackedTrade) {
    && t.entryPrice > 0.0
    && t.target == InitialTarget(t.entryPrice, t.side)
    && t.stopLoss == (if t.breakevenMoved then t.entryPrice else InitialStop(t.entryPrice, t.side))
  }

  lemma NewTradeWellFormed(instKey: string, side: Side, entryPrice: real, qty: int)
    requires entryPrice > 0.0
    ensures WellFormed(NewTrackedTrade(instKey, side, entryPrice, qty))
  {
  }

  /**
   * With the configured constants the partial exit never fires for a positive
   * entry: reaching the 0.70% zone puts the price beyond the 0.65% retrace
   * level. `partial_exit_done` is never set either.
   */
  lemma PartialExitUnreachable(t: TrackedTrade, ltp: real)
    requires !t.isClosed && t.entryPrice > 0.0
    ensures Evaluate(t, ltp).exit != Some(PartialExit)
    ensures Evaluate(t, ltp).trade.partialExitDone == t.partialExitDone
  {
    var profit := ProfitPct(t, ltp);
    if profit >= PARTIAL_EXIT_MOVE_PCT {
      var e := t.entryPrice;
      assert profit * e >= PARTIAL_EXIT_MOVE_PCT * e;
      if t.side == Buy {
        assert ltp - e >= PARTIAL_EXIT_MOVE_PCT * e;
        assert Times(e, 1.0 + PARTIAL_EXIT_LIMIT_PCT) == e + PARTIAL_EXIT_LIMIT_PCT * e;
      } else {
        assert e - ltp >= PARTIAL_EXIT_MOVE_PCT * e;
        assert Times(e, 1.0 - PARTIAL_EXIT_LIMIT_PCT) == e - PARTIAL_EXIT_LIMIT_PCT * e;
      }
      assert !RetracedBelowPartialLimit(Ratchet(t, profit), ltp);
    }
  }

  /**
   * One check keeps a trade well formed; a BUY stop only moves up, a SELL
   * stop only moves down; the ratchet, once latched, never fires again.
   */
  lemma EvaluateKeepsLevels(t: TrackedTrade, ltp: real)
    requires !t.isClosed && WellFormed(t)
    ensures var r := Evaluate(t, ltp).trade;
      && WellFormed(r)
      && (t.side == Buy ==> r.stopLoss >= t.stopLoss)
      && (t.side == Sell ==> r.stopLoss <= t.stopLoss)
      && (t.breakevenMoved ==> r.stopLoss == t.stopLoss && r.breakevenMoved)
  {
    PartialExitUnreachable(t, ltp);
    var e := t.entryPrice;
    assert Times(e, 1.0 - STOP_LOSS_PCT) == e - STOP_LOSS_PCT * e;
    assert Times(e, 1.0 + STOP_LOSS_PCT) == e + STOP_LOSS_PCT * e;
  }

  /** The same over every trade of one `check_trades` call. */
  lemma CheckKeepsLevels(trades: map<string, TrackedTrade>, prices: map<string, real>)
    requires forall id :: id in trades ==> WellFormed(trades[id])
    ensures AllCheckable(trades, prices)
    ensures forall id :: id in trades ==> WellFormed(Checked(trades, prices)[id])
    ensures forall id :: id in trades && trades[id].side == Buy ==>
      Checked(trades, prices)[id].stopLoss >= trades[id].stopLoss
    ensures forall id :: id in trades && trades[id].side == Sell ==>
      Checked(trades, prices)[id].stopLoss <= trades[id].stopLoss
  {
    forall id | id in trades
      ensures WellFormed(Checked(trades, prices)[id])
      ensures trades[id].side == Buy ==> Checked(trades, prices)[id].stopLoss >= trades[id].stopLoss
      ensures trades[id].side == Sell ==> Checked(trades, prices)[id].stopLoss <= trades[id].stopLoss
    {
      var t := trades[id];
      if !t.isClosed && t.instKey in prices {
        EvaluateKeepsLevels(t, prices[t.instKey]);
      }
    }
  }

  /**
   * A trade is closed by a check exactly when the check reports it; trades
   * already closed or without a price come out unchanged.
   */
  lemma ClosedExactlyWhenReported(trades: map<string, TrackedTrade>, order: seq<string>,
                                  prices: map<string, real>, id: string)
    requires AllCheckable(trades, prices)
    requires Distinct(order) && (forall k :: 0 <= k < |order| ==> order[k] in trades)
    requires forall x :: x in trades ==> x in order
    requires id in trades
    ensures Reported(ExitsOf(trades, order, prices), id) <==>
      !trades[id].isClosed && Checked(trades, prices)[id].isClosed
    ensures trades[id].isClosed || trades[id].instKey !in prices ==>
      Checked(trades, prices)[id] == trades[id] && !Reported(ExitsOf(trades, order, prices), id)
  {
    ExitsReportClosures(trades, order, prices);
  }

  /** A stop-loss exit reports the observed price, which may lie beyond the stop level. */
  lemma StopExitReportsObservedPrice(t: TrackedTrade, prices: map<string, real>)
    requires WellFormed(t) && t.side == Buy && !t.isClosed && !t.breakevenMoved
    requires t.instKey in prices && prices[t.instKey] < t.stopLoss
    ensures ExitOf("id", t, prices) == [Exit("id", StopLoss, prices[t.instKey])]
    ensures ExitOf("id", t, prices)[0].price != t.stopLoss
  {
  }
}
