/** execution/risk_manager.py: the daily counters of closed trades and the limits that stop new entries. */
module RiskManager {
  import opened ExecutionConfig

  /** The four counters: stop-losses, full targets, partial exits and all closed trades. */
  datatype RiskCounters = RiskCounters(stopLosses: nat, targetHits: nat, partialExits: nat, totalTrades: nat)

  const ZeroCounters: RiskCounters := RiskCounters(0, 0, 0, 0)

  /** Trading may go on while every counter is strictly below its daily maximum. */
  predicate CanTrade(c: RiskCounters) {
    && c.totalTrades < MAX_TRADES_PER_DAY
    && c.stopLosses < MAX_STOP_LOSSES
    && c.targetHits < MAX_TARGET_HITS
    && c.partialExits < MAX_PARTIAL_EXITS
  }

  /** The counters after one closed trade with the given exit reason. */
  function Recorded(c: RiskCounters, exitReason: string): RiskCounters {
    var c1 := c.(totalTrades := c.totalTrades + 1);
    if exitReason == "STOP_LOSS" then c1.(stopLosses := c.stopLosses + 1)
    else if exitReason == "TARGET" then c1.(targetHits := c.targetHits + 1)
    else if exitReason == "PARTIAL_EXIT" then c1.(partialExits := c.partialExits + 1)
    else c1
  }

  /** The counters after a sequence of closed trades. */
  function RecordedAll(c: RiskCounters, reasons: seq<string>): RiskCounters
    decreases |reasons|
  {
    if reasons == [] then c else Recorded(RecordedAll(c, reasons[..|reasons| - 1]), reasons[|reasons| - 1])
  }

  /** `get_current_status`: a snapshot of the counters and the admission verdict. */
  datatype RiskStatus = RiskStatus(totalTrades: nat, stopLosses: nat, targetHits: nat, partialExits: nat, canTrade: bool)

  class RiskManager {
    var stopLosses: nat
    var targetHits: nat
    var partialExits: nat
    var totalTrades: nat

    function Counters(): RiskCounters
      reads this
    {
      RiskCounters(stopLosses, targetHits, partialExits, totalTrades)
    }

    /** `RiskManager()`: a fresh day. */
    constructor ()
      ensures Counters() == ZeroCounters
    {
      stopLosses := 0;
      targetHits := 0;
      partialExits := 0;
      totalTrades := 0;
    }

    /** `reset_daily_counters`: all four counters back to zero, so trading is allowed again. */
    method ResetDailyCounters()
      modifies this
      ensures Counters() == ZeroCounters
      ensures CanTradeNow()
    {
      stopLosses := 0;
      targetHits := 0;
      partialExits := 0;
      totalTrades := 0;
    }

    /** `record_trade_outcome`: one more closed trade, counted under its reason when it has a known one. */
    method RecordTradeOutcome(exitReason: string)
      modifies this
      ensures Counters() == Recorded(old(Counters()), exitReason)
    {
      totalTrades := totalTrades + 1;
      if exitReason == "STOP_LOSS" {
        stopLosses := stopLosses + 1;
      } else if exitReason == "TARGET" {
        targetHits := targetHits + 1;
      } else if exitReason == "PARTIAL_EXIT" {
        partialExits := partialExits + 1;
      }
    }

    /** `can_trade_now`: the limits tested one after the other, the first one reached refusing. */
    function CanTradeNow(): (r: bool)
      reads this
      ensures r <==> CanTrade(Counters())
    {
      if totalTrades >= MAX_TRADES_PER_DAY then false
      else if stopLosses >= MAX_STOP_LOSSES then false
      else if targetHits >= MAX_TARGET_HITS then false
      else if partialExits >= MAX_PARTIAL_EXITS then false
      else true
    }

    /** `get_current_status`: reads the counters and the verdict, changing nothing. */
    function GetCurrentStatus(): (r: RiskStatus)
      reads this
      ensures RiskCounters(r.stopLosses, r.targetHits, r.partialExits, r.totalTrades) == Counters()
      ensures r.canTrade == CanTrade(Counters())
    {
      RiskStatus(totalTrades, stopLosses, targetHits, partialExits, CanTradeNow())
    }
  }

  /**
   * Recording a trade adds exactly one to the total, and one to the counter of
   * its reason when the reason is one of the three known ones; an unknown
   * reason changes only the total.
   */
  lemma RecordedCountsOnce(c: RiskCounters, exitReason: string)
    ensures var r := Recorded(c, exitReason);
      && r.totalTrades == c.totalTrades + 1
      && r.stopLosses + r.targetHits + r.partialExits
         == c.stopLosses + c.targetHits + c.partialExits
            + (if exitReason in {"STOP_LOSS", "TARGET", "PARTIAL_EXIT"} then 1 else 0)
      && (r.stopLosses > c.stopLosses <==> exitReason == "STOP_LOSS")
      && (r.targetHits > c.targetHits <==> exitReason == "TARGET")
      && (r.partialExits > c.partialExits <==> exitReason == "PARTIAL_EXIT")
  {
  }

  /** Counters never decrease between resets. */
  lemma {:induction false} RecordedAllMonotone(c: RiskCounters, reasons: seq<string>)
    ensures var r := RecordedAll(c, reasons);
      && r.totalTrades == c.totalTrades + |reasons|
      && r.stopLosses >= c.stopLosses && r.targetHits >= c.targetHits && r.partialExits >= c.partialExits
    decreases |reasons|
  {
    if reasons != [] {
      RecordedAllMonotone(c, reasons[..|reasons| - 1]);
    }
  }

  /** Once trading is refused it stays refused, whatever trades are recorded afterwards. */
  lemma BlockedStaysBlocked(c: RiskCounters, reasons: seq<string>)
    requires !CanTrade(c)
    ensures !CanTrade(RecordedAll(c, reasons))
  {
    RecordedAllMonotone(c, reasons);
  }

  /** With the configured limits, the fifteenth closed trade of a day stops trading. */
  lemma FifteenTradesStopTrading(c: RiskCounters, reasons: seq<string>)
    requires |reasons| >= MAX_TRADES_PER_DAY
    ensures !CanTrade(RecordedAll(c, reasons))
  {
    RecordedAllMonotone(c, reasons);
  }

  /** A fresh day allows trading, since every limit is positive. */
  lemma FreshDayCanTrade()
    ensures CanTrade(ZeroCounters)
  {
  }
}
