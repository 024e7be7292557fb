/** The constants of execution/execution_config.py. */
module ExecutionConfig {

  /** Capital put into one trade, in rupees. */
  const CAPITAL_PER_TRADE: real := 75000.0

  /** Limit orders are placed this fraction above (BUY) or below (SELL) the reference price. */
  const LIMIT_BUFFER_PCT: real := 0.0003

  /** Initial stop-loss and primary target, as fractions of the entry price. */
  const STOP_LOSS_PCT: real := 0.0045
  const TARGET_PCT: real := 0.0120

  /** Move the stop to the entry price once the trade is this much in profit. */
  const BREAKEVEN_MOVE_PCT: real := 0.0050

  /** Partial-exit zone and exit level. */
  const PARTIAL_EXIT_MOVE_PCT: real := 0.0070
  const PARTIAL_EXIT_LIMIT_PCT: real := 0.0065

  /** Daily risk limits. */
  const MAX_STOP_LOSSES: nat := 5
  const MAX_TARGET_HITS: nat := 5
  const MAX_PARTIAL_EXITS: nat := 5
  const MAX_TRADES_PER_DAY: nat := 15
}
