# Intraday trading bot: a verified model of the signal and trade pipeline

This project models the decision core of an intraday equity trading bot
that streams NSE market data. For every batch of price feeds, the bot:

- stores bars per instrument in bounded rolling series;
- keeps a running or windowed VWAP per instrument;
- classifies the market regime from ATR and a lightweight ADX;
- derives a higher-timeframe bias from two EMAs and the VWAP;
- looks for a compressed range that breaks out with volume or volatility confirmation;
- passes the result through a gate cascade that ends in BUY, SELL or nothing;
- checks the daily risk limits and places a limit order.

It then watches the open trades for a stop-loss, target, breakeven ratchet or
partial exit, and records every closed trade with the daily risk governor.

There is one Dafny module per source file:

| module | source file |
|---|---|
| `Scanner` | `strategy/scanner.py` |
| `VwapFilter` | `strategy/vwap_filter.py` |
| `Indicators` | `strategy/indicators.py` |
| `MarketRegime` | `strategy/market_regime.py` |
| `VolatilityFilter` | `strategy/volatility_filter.py` |
| `VolumeFilter` | `strategy/volume_filter.py` |
| `BreakoutDetector` | `strategy/breakout_detector.py` |
| `HtfBias` | `strategy/htf_bias.py` |
| `DecisionEngine` | `strategy/decision_engine.py` |
| `AdvancedIndicators` | `strategy/advanced_indicators.py` |
| `MarketBias` | `strategy/market_bias.py` |
| `LiquidityFilter` | `strategy/liquidity_filter.py` |
| `TradeMonitor` | `execution/trade_monitor.py` |
| `RiskManager` | `execution/risk_manager.py` |
| `OrderExecutor` | `execution/order_executor.py` |
| `TradeLogger` | `execution/trade_logger.py` |
| `ExecutionConfig` | `execution/execution_config.py` |
| `Universe` | `utils/build_nifty250_universe.py` |
| `MarketStreamer` | `core/market_streamer.py` |

Four more modules are shared:

- `Wrappers` holds Python's `None`-or-value results.
- `Series` holds `sum`, `abs`, `max`, `min`, negative-index slicing and bounded `deque` appends.
- `Labels` holds the BUY/SELL side.
- `TrueRange` holds the true range and ATR. These are defined once because `strategy/market_regime.py` and `strategy/volatility_filter.py` carry identical copies.

Modelling conventions:

- **Numbers.** Prices and volumes are mathematical reals. `None` is `Option`.
- **Python truthiness.** This is written out where the code relies on it:
  - A VWAP or ATR of 0 counts as absent.
  - A VWAP window of `None` or 0 is the unbounded mode, modelled as `window == 0`.
- **Stateful objects.** These are classes whose methods are proved against specification functions of the old state:
  - the scanner, the VWAP calculator, the trade monitor and the risk manager;
  - the streamer's globals, gathered in `MarketStreamer.Session`.
- **Loops.** Every loop in the source is a method with a loop, proved equal to a recursive definition. The pure callers use that definition.
- **Inputs from outside.** The broker's reply to an order is a function parameter, and the current day is passed in.

## Model

| member | source | states |
|---|---|---|
| Indicators.SimpleMovingAverage | strategy/indicators.py:5-13 | undefined exactly when there are fewer than `period` prices |
| Indicators.SmaWithinWindowRange | strategy/indicators.py:11-13 | the SMA lies between any lower and upper bound of the prices in its window |
| Indicators.EmaFold | strategy/indicators.py:28-31 | the loop `ema = (price - ema) * multiplier + ema` over the remaining prices, from a given seed; `EmaFoldWithinRange` and `EmaFoldConstant` state what it keeps |
| Indicators.Multiplier | strategy/indicators.py:26 | the smoothing factor 2 / (period + 1) lies in (0, 1] |
| Indicators.Ema | strategy/indicators.py:16-31 | undefined exactly when there are fewer than `period` prices; with exactly `period` prices it is the SMA seed |
| Indicators.ExponentialMovingAverage | strategy/indicators.py:16-31 | the seeded smoothing loop computes `Ema` |
| Indicators.EmaFoldWithinRange | strategy/indicators.py:28-31 | each smoothing step is a convex combination, so the running EMA stays within the bounds of seed and prices |
| Indicators.EmaWithinRange | strategy/indicators.py:16-31 | the EMA lies between any lower and upper bound of all prices |
| Indicators.EmaFoldConstant | strategy/indicators.py:29-30 | smoothing a constant series from that constant keeps it |
| Indicators.EmaOfConstant | strategy/indicators.py:16-31 | on a flat series the EMA equals the price for every period |
| Indicators.GainSum | strategy/indicators.py:43-50 | the sum of the collected gains is non-negative |
| Indicators.Gain | strategy/indicators.py:47-48 | a positive change goes to `gains` as itself, anything else contributes 0 there; `GainSum` states the sum is non-negative |
| Indicators.Loss | strategy/indicators.py:49-50 | a non-positive change goes to `losses` as its absolute value, a positive one contributes 0 there; `LossSum` states the sum is non-negative |
| Indicators.LossSum | strategy/indicators.py:43-50 | the sum of the collected losses (absolute values) is non-negative |
| Indicators.Rsi | strategy/indicators.py:34-60 | undefined exactly on fewer than period + 1 prices; otherwise in [0, 100], and exactly 100 iff the loss sum is 0 |
| Indicators.RelativeStrengthIndex | strategy/indicators.py:40-60 | the gains/losses loop computes `Rsi` |
| Indicators.LossSumFlat | strategy/indicators.py:45-50 | a flat series produces no losses |
| Indicators.RsiOfFlatSeries | strategy/indicators.py:55-56 | a flat series has RSI exactly 100 |
| Indicators.SumsOfLastChanges | strategy/indicators.py:45-50 | the gain and loss sums depend only on the last period + 1 prices |
| Indicators.RsiUsesOnlyLastChanges | strategy/indicators.py:40-60 | the RSI of a history equals the RSI of its last period + 1 prices |
| LiquidityFilter.IsLiquid | strategy/liquidity_filter.py:3-24 | liquid iff the history is non-empty and its total volume reaches length × threshold (mean ≥ threshold) |
| LiquidityFilter.LiquidityIgnoresOrder | strategy/liquidity_filter.py:18 | two histories with the same multiset of volumes get the same verdict |
| LiquidityFilter.LiquidityMonotone | strategy/liquidity_filter.py:21-22 | liquid at a threshold implies liquid at every lower threshold |
| MarketBias.GetMarketBias | strategy/market_bias.py:3-29 | SIDEWAYS if any input is missing; BULLISH iff price > VWAP and EMA20 > EMA50; BEARISH iff both are below |
| MarketBias.MoodIsSymmetric | strategy/market_bias.py:20-26 | negating every input swaps BULLISH and BEARISH and keeps SIDEWAYS |
| TrueRange.Max3 | strategy/market_regime.py:16-20 | Python's three-way `max`: one of the arguments, and at least each of them |
| TrueRange.TrueRangeAt | strategy/market_regime.py:15-21 | a bar's true range is non-negative and at least its high - low |
| TrueRange.TrueRanges | strategy/market_regime.py:9-22 | empty for fewer than two bars, else one non-negative value per bar after the first |
| TrueRange.Atr | strategy/market_regime.py:25-29 | undefined exactly on fewer than period + 1 bars; otherwise a non-negative mean |
| MarketRegime.ComputeTrueRange | strategy/market_regime.py:9-22 | the loop builds exactly `TrueRanges` |
| MarketRegime.PlusDm | strategy/market_regime.py:39-42 | the up-move of a bar, credited only when positive and larger than the down-move, else 0; `DirectionalMovesExclusive` states its meaning |
| MarketRegime.MinusDm | strategy/market_regime.py:39-43 | the down-move of a bar, credited only when positive and larger than the up-move, else 0; `DirectionalMovesExclusive` states its meaning |
| MarketRegime.DirectionalMovesExclusive | strategy/market_regime.py:39-43 | both directional moves are non-negative and at most one of them is positive |
| MarketRegime.PlusDms | strategy/market_regime.py:38-42 | every +DM is non-negative |
| MarketRegime.MinusDms | strategy/market_regime.py:38-43 | every -DM is non-negative |
| MarketRegime.DirectionalIndex | strategy/market_regime.py:49-50 | a directional index is non-negative |
| MarketRegime.Dx | strategy/market_regime.py:52-56 | DX lies in [0, 100]; it is 0 when both indices are 0 or when they are equal |
| MarketRegime.Adx | strategy/market_regime.py:32-56 | undefined iff there are fewer than period + 1 bars or the ATR is 0; otherwise in [0, 100] |
| MarketRegime.ComputeAdx | strategy/market_regime.py:32-56 | the procedure with its loops computes `Adx` |
| MarketRegime.DirectionalMoves | strategy/market_regime.py:36-43 | the loop builds exactly the +DM and -DM lists |
| MarketRegime.DetectMarketRegime | strategy/market_regime.py:63-94 | SIDEWAYS without an ADX; TRENDING iff ADX ≥ the trend level; EARLY_TREND iff ADX is between the two levels and the recent 10-bar range exceeds 1.3 × the prior window's; any trend implies at least 15 bars and a positive ATR |
| VolatilityFilter.ComputeTrueRange | strategy/volatility_filter.py:3-16 | this file's copy of the loop builds the same `TrueRanges` |
| VolatilityFilter.VolatilityBreakoutConfirmed | strategy/volatility_filter.py:26-52 | false without an ATR; true when the move reaches ATR × multiplier; with a positive ATR, true iff the move reaches ATR × min(multiplier, min_move_pct) |
| VolatilityFilter.BreakoutIgnoresDirection | strategy/volatility_filter.py:43-49 | the verdict depends only on the size of the move |
| VolatilityFilter.ZeroAtrAlwaysConfirms | strategy/volatility_filter.py:43-44 | a zero ATR confirms every move |
| AdvancedIndicators.SeededEma | strategy/advanced_indicators.py:16-21 | the inner `ema` helper: the smoothing recurrence seeded with the first value rather than an SMA; `SeededEmaLoop` is proved equal to it and `SeededEmaDiffersFromEma` shows it is not `Indicators.Ema` |
| AdvancedIndicators.Smoothing | strategy/advanced_indicators.py:17 | the inner EMA factor 2 / (period + 1) lies in (0, 2] |
| AdvancedIndicators.SeededEmaLoop | strategy/advanced_indicators.py:16-21 | the inner `ema` loop is the smoothing recurrence seeded with the first value |
| AdvancedIndicators.SeededEmaDiffersFromEma | strategy/advanced_indicators.py:16-21 | on [1, 2] with period 2 this EMA gives 5/3 while the SMA-seeded EMA of strategy/indicators.py gives 1.5 |
| AdvancedIndicators.MacdHistory | strategy/advanced_indicators.py:29-31 | the history list is non-empty and repeats the MACD value |
| AdvancedIndicators.Macd | strategy/advanced_indicators.py:6-36 | None exactly on fewer than `long_period` prices; otherwise the MACD line is short EMA - long EMA |
| AdvancedIndicators.ComputeMacd | strategy/advanced_indicators.py:6-36 | the procedure with its loops computes `Macd` |
| AdvancedIndicators.MacdHistogramIsZero | strategy/advanced_indicators.py:28-34 | the signal line equals the MACD line, so the histogram is always 0 |
| AdvancedIndicators.MacdOfFlatSeries | strategy/advanced_indicators.py:23-26 | a flat price series has MACD line 0 |
| AdvancedIndicators.AdvTrueRange | strategy/advanced_indicators.py:39-56 | None exactly on fewer than two bars; otherwise the same true ranges as strategy/market_regime.py |
| AdvancedIndicators.ComputeAdvTrueRange | strategy/advanced_indicators.py:47-56 | the loop computes `AdvTrueRange` |
| AdvancedIndicators.AdvAtr | strategy/advanced_indicators.py:59-66 | None exactly on fewer than two bars or fewer than period + 1 bars |
| AdvancedIndicators.AdvAtrAgrees | strategy/advanced_indicators.py:59-66 | for a positive period this ATR equals the classifier's ATR |
| AdvancedIndicators.Smoothed | strategy/advanced_indicators.py:94 | `sum([dx] * period) / period`; `SmoothingIsIdentity` states it is `dx` |
| AdvancedIndicators.SmoothingIsIdentity | strategy/advanced_indicators.py:94 | averaging `period` copies of DX returns DX |
| AdvancedIndicators.AdvAdx | strategy/advanced_indicators.py:69-95 | None exactly on fewer than period + 1 bars (or fewer than two) |
| AdvancedIndicators.AdvAdxAgrees | strategy/advanced_indicators.py:69-95 | this ADX equals the classifier's ADX: the smoothing changes nothing |
| AdvancedIndicators.DirectionalMoves | strategy/advanced_indicators.py:77-82 | the `max(move, 0) if move > other else 0` loop credits the same moves as the classifier's |
| AdvancedIndicators.ComputeAdvAdx | strategy/advanced_indicators.py:69-95 | the procedure computes `AdvAdx` |
| BreakoutDetector.WindowRange | strategy/breakout_detector.py:18-19 | a window's max - min is never negative |
| BreakoutDetector.DetectCompression | strategy/breakout_detector.py:8-24 | false on fewer than 2 × lookback prices; otherwise true iff the previous window's range is non-zero and the recent range is below ratio × the previous range |
| BreakoutDetector.Segment | strategy/breakout_detector.py:72-74 | the 19 prices before the current one in the last 20 |
| BreakoutDetector.BreakoutSignalConfirmed | strategy/breakout_detector.py:27-83 | no signal on fewer than 30 prices (in fact any signal needs 40); LONG iff every gate (compression, ATR or volume confirmation) passes and the last price clears the prior high by the breakout percentage; SHORT iff the gates pass, there is no upward break and the price falls below the prior low by it |
| BreakoutDetector.ShiftedSlice | strategy/breakout_detector.py:15-16 | shifting commutes with slicing |
| BreakoutDetector.ShiftedSlices | strategy/breakout_detector.py:15-16 | shifting commutes with taking the recent and the previous window |
| BreakoutDetector.ShiftedLastN | strategy/breakout_detector.py:15 | shifting commutes with taking the last n prices |
| BreakoutDetector.WindowRangeShifted | strategy/breakout_detector.py:18-19 | a window's range does not change when every price moves by the same amount |
| BreakoutDetector.CompressionIgnoresLevel | strategy/breakout_detector.py:8-24 | compression depends on price movement, not price level |
| BreakoutDetector.DirectionsExclusive | strategy/breakout_detector.py:77-83 | with positive prices and a non-negative percentage, up and down breaks exclude each other, so SHORT is exactly the gates plus a downward break |
| BreakoutDetector.UpperAboveLower | strategy/breakout_detector.py:77-80 | the lower trigger never exceeds the upper one |
| VolumeFilter.AverageVolume | strategy/volume_filter.py:23-24 | the mean of the last `lookback` volumes, the current one included; `AverageScaled` states it scales with the volumes |
| VolumeFilter.VolumeSpikeConfirmed | strategy/volume_filter.py:3-41 | false on an empty history or fewer than lookback + rising_bars volumes; otherwise true iff one of the three tiers holds (1.25 × average, threshold × average, or a strictly rising run and 0.95 × average) |
| VolumeFilter.TieredScaled | strategy/volume_filter.py:27-39 | scaling the current volume and the average by one positive factor changes no tier |
| VolumeFilter.LastNScaled | strategy/volume_filter.py:23 | taking the last n volumes commutes with scaling |
| VolumeFilter.AverageScaled | strategy/volume_filter.py:23-24 | the average of a scaled history is the scaled average |
| VolumeFilter.SumScaled | strategy/volume_filter.py:24 | the sum of a scaled history is the scaled sum |
| VolumeFilter.IncreasingScaled | strategy/volume_filter.py:36-37 | a positive factor keeps a run strictly rising or not |
| VolumeFilter.SpikeIsScaleInvariant | strategy/volume_filter.py:3-41 | measuring every volume in other units (a common positive factor) never changes the verdict |
| VolumeFilter.TiersScaled | strategy/volume_filter.py:23-39 | the current volume and the average scale together, so the tiers agree |
| VolumeFilter.ScaledThreshold | strategy/volume_filter.py:28-38 | each single tier comparison is unchanged by a positive factor |
| HtfBias.GetHtfBias | strategy/htf_bias.py:6-62 | NEUTRAL on fewer than `long_period` prices; bullish iff both EMAs exist and the short one is above; bearish iff it is below; STRONG iff a usable VWAP also agrees by the tolerance |
| HtfBias.VwapNeverDecidesDirection | strategy/htf_bias.py:43-60 | the VWAP only picks STRONG or WEAK: any two VWAPs give the same direction, or NEUTRAL for both |
| HtfBias.FlatSeriesIsNeutral | strategy/htf_bias.py:36-41 | a flat price series has equal EMAs and so no bias |
| DecisionEngine.FinalTradeDecision | strategy/decision_engine.py:6-74 | BUY iff a LONG breakout passes every gate (trending regime, bullish bias, VWAP tolerated only with a STRONG bias, 30 prices, EMA9 > EMA21 and RSI > 48); SELL iff a SHORT one passes the mirrored gates |
| DecisionEngine.SidewaysNeverTrades | strategy/decision_engine.py:22-24 | a SIDEWAYS market never trades |
| DecisionEngine.DecisionAgreesWithBias | strategy/decision_engine.py:30-37 | BUY needs a bullish bias and SELL a bearish one |
| DecisionEngine.StrongBiasIgnoresVwap | strategy/decision_engine.py:39-52 | with a STRONG bias in the breakout's direction, no VWAP or last price changes the decision |
| DecisionEngine.ZeroVwapIsNoVwap | strategy/decision_engine.py:41 | a VWAP of 0 is falsy and decides like no VWAP |
| Labels.Side.Name | strategy/decision_engine.py:66-72 | a side's string is "BUY" or "SELL", and "BUY" exactly for the buy side |
| TradeLogger.PnlPct | execution/trade_logger.py:55-59 | pnl_pct × entry = the move in the trade's favour (exit - entry for "BUY", entry - exit for any other side) × 100 |
| TradeLogger.PnlAmount | execution/trade_logger.py:61-65 | zero for a zero quantity or a flat exit; with a positive quantity, positive iff the exit moved in the side's favour |
| TradeLogger.FlatTradeHasNoPnl | execution/trade_logger.py:55-65 | exiting at the entry price gives zero on both figures |
| TradeLogger.SideFlipNegates | execution/trade_logger.py:55-65 | replacing "BUY" with any other side string negates both figures |
| TradeLogger.PnlSignsAgree | execution/trade_logger.py:55-65 | with a positive entry and a positive quantity the percentage and the amount have the same sign |
| OrderExecutor.CalculateQuantity | execution/order_executor.py:26-35 | 0 for a non-positive price; otherwise the largest whole number of shares whose cost stays within CAPITAL_PER_TRADE |
| OrderExecutor.AffordableIffWithinCapital | execution/order_executor.py:48-51 | at least one share is affordable iff 0 < price ≤ CAPITAL_PER_TRADE |
| OrderExecutor.PrepareLimitOrder | execution/order_executor.py:37-76 | no order iff less than one share is affordable or the side is neither "BUY" nor "SELL"; otherwise the order carries the instrument, the side, that quantity, and the price moved by LIMIT_BUFFER_PCT (above for BUY, below for SELL) |
| OrderExecutor.LimitOrderShape | execution/order_executor.py:54-62 | a placed BUY limit is above the price and a SELL limit is between 0 and the price; the order's cost at the price is within the capital |
| OrderExecutor.PlaceLimitOrder | execution/order_executor.py:37-88 | the broker is called only with a prepared order, and nothing is placed when preparation fails |
| RiskManager.CanTrade | execution/risk_manager.py:41-62 | trading may go on iff each of the four counters is strictly below its daily maximum; `BlockedStaysBlocked` and `FreshDayCanTrade` state its behaviour over a day |
| RiskManager.Recorded | execution/risk_manager.py:24-39 | one closed trade: the total grows by one and so does the counter named by the reason, none for an unknown reason; `RecordedCountsOnce` states it |
| RiskManager.RecordedAll | execution/risk_manager.py:24-39 | the counters after a sequence of closed trades, recorded in order; `RecordedAllMonotone` states that the total grows by their number and no counter decreases |
| RiskManager.RiskManager.constructor | execution/risk_manager.py:15-16 | a new manager starts the day with every counter at zero |
| RiskManager.RiskManager.ResetDailyCounters | execution/risk_manager.py:18-22 | every counter is back to zero, after which trading is allowed |
| RiskManager.RiskManager.RecordTradeOutcome | execution/risk_manager.py:24-39 | the counters become `Recorded` of the old counters: one more trade, counted under its reason |
| RiskManager.RiskManager.CanTradeNow | execution/risk_manager.py:41-62 | true iff every counter is strictly below its daily maximum |
| RiskManager.RiskManager.GetCurrentStatus | execution/risk_manager.py:64-75 | the snapshot holds the four counters and the admission verdict |
| RiskManager.RecordedCountsOnce | execution/risk_manager.py:30-39 | one trade adds exactly one to the total and one to the counter of a known reason, and to no other counter |
| RiskManager.RecordedAllMonotone | execution/risk_manager.py:24-39 | after n recorded trades the total grew by n and no counter decreased |
| RiskManager.BlockedStaysBlocked | execution/risk_manager.py:41-62 | once trading is refused, further recorded trades never allow it again before a reset |
| RiskManager.FifteenTradesStopTrading | execution/risk_manager.py:47-48 | MAX_TRADES_PER_DAY (15) recorded trades always stop trading |
| RiskManager.FreshDayCanTrade | execution/risk_manager.py:18-22 | a fresh day allows trading, because every limit is positive |
| Series.Max | strategy/breakout_detector.py:18 | Python's `max` of a non-empty list: an element, and no element is larger |
| Series.Min | strategy/breakout_detector.py:18 | Python's `min` of a non-empty list: an element, and no element is smaller |
| Series.LastN | strategy/indicators.py:13 | Python's `s[-n:]`: the last n elements, or the whole list when n is 0 or at least the length |
| Series.SliceFromEnd | strategy/breakout_detector.py:16 | Python's `s[-a:-b]`: a - b elements on long enough input, empty when b covers the whole list |
| Series.BoundedAppend | strategy/scanner.py:25-27 | appending to a `deque(maxlen=cap)` leaves min(length + 1, cap) elements |
| Series.BoundedAppendContents | strategy/scanner.py:36 | the deque holds the newest elements ending with the appended one: all of them while there is room, the oldest dropped once it is full |
| Series.BoundedAppendKeepsLastN | strategy/scanner.py:36 | a buffer that holds the last cap values of a stream still does after one more append |
| Scanner.SeriesOf | strategy/scanner.py:54-67 | an unknown instrument reads as the empty list |
| Scanner.Capacity | strategy/scanner.py:15 | `max_len` when given, `window_size` otherwise |
| Scanner.ParallelAfterAppend | strategy/scanner.py:29-52 | appending one bar to all five buffers of an instrument keeps the five stores over the same instruments, with equal lengths within the capacity |
| Scanner.ParallelAfterSet | strategy/scanner.py:29-52 | replacing one instrument's five series by equally long ones within the capacity keeps the stores parallel |
| Scanner.MarketScanner.constructor | strategy/scanner.py:10-22 | empty stores, with the capacity chosen from `max_len` or `window_size` |
| Scanner.MarketScanner.Update | strategy/scanner.py:29-52 | each of the five stores gets the bar's value appended (bounded) for this instrument only, and the stores stay parallel |
| Scanner.MarketScanner.GetPrices | strategy/scanner.py:54-55 | empty for an unknown instrument; never longer than the capacity; as long as the instrument's highs, lows, closes and volumes |
| Scanner.MarketScanner.GetHighs | strategy/scanner.py:57-58 | empty for an unknown instrument |
| Scanner.MarketScanner.GetLows | strategy/scanner.py:60-61 | empty for an unknown instrument |
| Scanner.MarketScanner.GetCloses | strategy/scanner.py:63-64 | empty for an unknown instrument |
| Scanner.MarketScanner.GetVolumes | strategy/scanner.py:66-67 | empty for an unknown instrument |
| Scanner.Fed | strategy/scanner.py:36 | a buffer fed value by value never exceeds its capacity |
| Scanner.FedKeepsLastValues | strategy/scanner.py:25-36 | a buffer always holds exactly the last `max_len` values fed to it, in order |
| VwapFilter.Products | strategy/vwap_filter.py:48 | one price × volume per sample |
| VwapFilter.Volumes | strategy/vwap_filter.py:49 | one volume per sample |
| VwapFilter.SamplesAppend | strategy/vwap_filter.py:48-56 | one more sample appends its product and its volume |
| VwapFilter.Scope | strategy/vwap_filter.py:20-23 | the whole stream when unbounded (a falsy `window`), else the last `window` items |
| VwapFilter.Vwap | strategy/vwap_filter.py:58-61 | None iff the volumes in scope sum to 0; otherwise VWAP × volume sum = price-volume sum |
| VwapFilter.VWAPCalculator.constructor | strategy/vwap_filter.py:11-23 | zero sums and no samples, for the given window |
| VwapFilter.VWAPCalculator.Reset | strategy/vwap_filter.py:25-34 | zero sums, empty windows, no samples, and no VWAP |
| VwapFilter.VWAPCalculator.Update | strategy/vwap_filter.py:36-61 | a missing price or volume changes nothing and returns None; otherwise the sample is recorded, the sums (running or over the windows) cover exactly the samples in scope, and the result is the VWAP of those samples, which `get_vwap` then returns |
| VwapFilter.VWAPCalculator.GetVwap | strategy/vwap_filter.py:63-69 | the VWAP of the samples in scope |
| VwapFilter.WindowedStep | strategy/vwap_filter.py:47-52 | after one more sample the two deques still hold the last `window` products and volumes |
| VwapFilter.UnboundedStep | strategy/vwap_filter.py:53-56 | the running sums after one more sample are the totals over every sample since the reset |
| VwapFilter.WeightKeepsOrder | strategy/vwap_filter.py:48 | a positive volume keeps the order of two prices |
| VwapFilter.WeightedSumBounds | strategy/vwap_filter.py:51-56 | with positive volumes, the price-volume sum lies between lo and hi times the volume sum |
| VwapFilter.ScopeOfSamples | strategy/vwap_filter.py:47-52 | the windowed sums are the sums over the samples in the window |
| VwapFilter.ProductsSuffix | strategy/vwap_filter.py:48 | dropping old samples drops their products |
| VwapFilter.VolumesSuffix | strategy/vwap_filter.py:49 | dropping old samples drops their volumes |
| VwapFilter.QuotientBounds | strategy/vwap_filter.py:61 | a ratio whose numerator lies between lo and hi times a positive denominator lies in [lo, hi] |
| VwapFilter.VwapWithinPriceRange | strategy/vwap_filter.py:36-61 | with positive volumes the VWAP exists and lies between the lowest and highest price in scope |
| VwapFilter.VwapDefinedAfterPositiveVolume | strategy/vwap_filter.py:58-61 | after a positive-volume sample on top of non-negative volumes the VWAP is defined |
| VwapFilter.TwoBarExample | strategy/vwap_filter.py:53-61 | 10 shares at 100 and 10 at 110 give 105 in the unbounded mode |
| VwapFilter.WindowOfOneExample | strategy/vwap_filter.py:47-61 | with a window of one only the latest bar counts (110) |
| TradeMonitor.InitialStop | execution/trade_monitor.py:31-35 | `calc_stop_loss`: entry × (1 − STOP_LOSS_PCT) for a BUY, entry × (1 + STOP_LOSS_PCT) otherwise; `EntryBetweenStopAndTarget` states it lies on the losing side of a positive entry |
| TradeMonitor.InitialTarget | execution/trade_monitor.py:37-41 | `calc_target`: entry × (1 + TARGET_PCT) for a BUY, entry × (1 − TARGET_PCT) otherwise; `EntryBetweenStopAndTarget` states it lies on the winning side of a positive entry |
| TradeMonitor.NewTrackedTrade | execution/trade_monitor.py:17-27 | a new trade keeps its instrument, side, entry and quantity, starts at the initial stop and target, and has every flag false |
| TradeMonitor.EntryBetweenStopAndTarget | execution/trade_monitor.py:31-41 | with a positive entry, a BUY's stop < entry < target and a SELL's target < entry < stop |
| TradeMonitor.ProfitPct | execution/trade_monitor.py:43-46 | `get_current_profit_pct`: the favourable move over the entry; `ProfitPctMeaning` states its meaning |
| TradeMonitor.ProfitPctMeaning | execution/trade_monitor.py:43-46 | profit fraction × entry is the favourable price move for the side |
| TradeMonitor.ExitReason.Name | execution/trade_monitor.py:87-121 | the reason strings are "STOP_LOSS", "TARGET" and "PARTIAL_EXIT" |
| TradeMonitor.Ratchet | execution/trade_monitor.py:105-109 | the breakeven flag latches once the profit reaches BREAKEVEN_MOVE_PCT, and the stop moves to the entry only on that first time; nothing else changes |
| TradeMonitor.StopHit | execution/trade_monitor.py:86-93 | the LTP at or below the stop for a BUY, at or above it for a SELL; `Evaluate` states that this decides STOP_LOSS |
| TradeMonitor.TargetHit | execution/trade_monitor.py:96-103 | the LTP at or above the target for a BUY, at or below it for a SELL; `Evaluate` states that this decides TARGET once the stop is not hit |
| TradeMonitor.RetracedBelowPartialLimit | execution/trade_monitor.py:116-123 | the partial-exit retrace test against the entry; `PartialExitUnreachable` states that, after the 0.70 % move it requires, it never holds for a positive entry, so PARTIAL_EXIT is never reported |
| TradeMonitor.Evaluate | execution/trade_monitor.py:83-123 | stop-loss iff the stop is hit; target iff the stop is not hit and the target is; the trade is closed iff it exits; a stop or target exit changes nothing but the closed flag; without one the breakeven step has been applied |
| TradeMonitor.Check | execution/trade_monitor.py:75-81 | a closed trade or one without a price is skipped unchanged; an exit is reported iff the check closes an open trade, and only for an instrument with a price |
| TradeMonitor.ExitOf | execution/trade_monitor.py:86-123 | at most one tuple per trade, and one iff the check exits it |
| TradeMonitor.ExitsOf | execution/trade_monitor.py:73-125 | no more exits than trades checked |
| TradeMonitor.Checked | execution/trade_monitor.py:75-123 | every trade is still there after a check (same ids) |
| TradeMonitor.ExitsReportClosures | execution/trade_monitor.py:66-125 | over distinct ids, the exits name no trade twice, each carries its trade's observed price and the reason its check gave, and a trade is reported iff it is among the ids and its check exits it |
| TradeMonitor.ExitReported | execution/trade_monitor.py:86-123 | every checked trade that exits is reported |
| TradeMonitor.ExitsSound | execution/trade_monitor.py:73-125 | each exit is about one of the checked trades, once, with its price and its reason |
| TradeMonitor.ExitsOfStep | execution/trade_monitor.py:75 | the exits of one more trade come after those of the trades before it |
| TradeMonitor.Without | execution/trade_monitor.py:62-64 | deleting a key from the dictionary order leaves the other keys, still distinct |
| TradeMonitor.TradeMonitor.constructor | execution/trade_monitor.py:54-55 | no active trades |
| TradeMonitor.TradeMonitor.AddTrade | execution/trade_monitor.py:57-60 | the id now maps to a new tracked trade, replacing any trade under it; a new id goes last in dictionary order and a replaced id keeps its place |
| TradeMonitor.TradeMonitor.RemoveTrade | execution/trade_monitor.py:62-64 | the id is forgotten, and an unknown id changes nothing |
| TradeMonitor.TradeMonitor.CheckTrades | execution/trade_monitor.py:66-125 | every trade becomes its checked self, the dictionary order is kept, and the exits are those of the trades in dictionary order |
| TradeMonitor.CheckEach | execution/trade_monitor.py:73-125 | the loop checks each trade once, and the exits come out in order |
| TradeMonitor.PartlyChecked | execution/trade_monitor.py:75-123 | part-way through the loop every trade is still there |
| TradeMonitor.PartlyCheckedStep | execution/trade_monitor.py:75 | a trade is checked starting from its original state, because each id occurs once |
| TradeMonitor.WithoutAbsent | execution/trade_monitor.py:63 | removing an absent id leaves the order unchanged |
| TradeMonitor.NewTradeWellFormed | execution/trade_monitor.py:17-27 | a new trade with a positive entry starts with the initial stop and target |
| TradeMonitor.PartialExitUnreachable | execution/trade_monitor.py:111-123 | with the configured constants the partial exit never fires for a positive entry (reaching +0.70 % puts the price above the +0.65 % retrace level), and `partial_exit_done` is never set |
| TradeMonitor.EvaluateKeepsLevels | execution/trade_monitor.py:83-123 | one check keeps a trade well formed, a BUY stop only rises, a SELL stop only falls, and a latched ratchet never fires again |
| TradeMonitor.CheckKeepsLevels | execution/trade_monitor.py:66-125 | the same for every trade of one `check_trades` call |
| TradeMonitor.ClosedExactlyWhenReported | execution/trade_monitor.py:66-125 | a trade is reported iff the call closes it; closed trades and trades without a price are unchanged and not reported |
| TradeMonitor.StopExitReportsObservedPrice | execution/trade_monitor.py:86-89 | a stop-loss exit reports the observed price, which may lie beyond the stop level |
| MarketStreamer.SignalMeaning | core/market_streamer.py:134-148 | no breakout, no signal; a signal keeps the regime (never SIDEWAYS) and the bias it was decided on and its breakout, buys iff the breakout is LONG, and passes every entry gate of the decision engine |
| MarketStreamer.Strategy | core/market_streamer.py:115-148 | the regime, the HTF bias and the confirmed breakout from the stored series with the streamer's default arguments, then the decision; `StrategyMeaning` states its meaning |
| MarketStreamer.StrategyMeaning | core/market_streamer.py:115-148 | a signal needs 40 prices, comes from the regime, the HTF bias and the confirmed breakout computed with the defaults the streamer uses, buys iff the breakout is LONG, and passes every entry gate |
| MarketStreamer.PlacedOrderHasPositivePrice | core/market_streamer.py:169-178 | an accepted order implies a positive LTP, so the trade registered at the LTP is well formed |
| MarketStreamer.SignalsOn | core/market_streamer.py:72-73 | a day not yet seen has an empty signal set |
| MarketStreamer.AlertKeys | core/market_streamer.py:148-160 | the instruments of the alerts, one per alert, in order |
| MarketStreamer.KeySetMeaning | core/market_streamer.py:153 | the set the day's signals gain holds exactly the instruments of the alerts |
| MarketStreamer.AlertsSoundStep | core/market_streamer.py:149-153 | an alert for an instrument not yet alerted today keeps the batch's alerts distinct, new for the day, and limited to instruments with a parsed bar |
| MarketStreamer.BarKeys | core/market_streamer.py:78-104 | the last feed's instrument is included when its LTP and bar both parsed |
| MarketStreamer.BarKeysMeaning | core/market_streamer.py:78-104 | an instrument reaches the scanner iff one of its feeds has both an LTP and a bar |
| MarketStreamer.CurrentPrices | core/market_streamer.py:76-87 | `current_prices` after the feed loop: each parsed LTP written under its instrument, a later feed overwriting an earlier one; `CurrentPricesOfFeeds` states its meaning |
| MarketStreamer.CurrentPricesOfFeeds | core/market_streamer.py:76-87 | with distinct instrument keys, `current_prices` holds exactly the parsed LTPs |
| MarketStreamer.ReasonNames | core/market_streamer.py:193-200 | one reason string per exit |
| MarketStreamer.OrderAfter | execution/trade_monitor.py:62-64 | the monitor's dictionary order after `remove_trade` of each exit in turn (core/market_streamer.py:193-202); `OrderAfterKeeps` states its meaning |
| MarketStreamer.OrderAfterKeeps | core/market_streamer.py:193-202 | deleting the exited trades one by one leaves exactly the other trades, in their dictionary order: the same as filtering the exit ids out at once |
| MarketStreamer.ExitIdsMeaning | core/market_streamer.py:193-202 | the ids removed after a check are exactly the ids of its exits |
| MarketStreamer.FeedsStep | core/market_streamer.py:78-104 | one more feed adds its instrument to the bar keys iff both parsed, and its LTP to the price map iff it parsed |
| MarketStreamer.AlertsStep | core/market_streamer.py:153 | one more alert adds its instrument to the key set and to today's signals |
| MarketStreamer.ExitsStep | core/market_streamer.py:193-202 | one more exit records its reason with the risk manager and removes its id |
| MarketStreamer.Appended | core/market_streamer.py:103-104 | `scanner.update`: the bar appended to each of the instrument's five stores, bounded at 600; `RecordedCoherent` states it keeps the stores parallel |
| MarketStreamer.Recorded | core/market_streamer.py:103-119 | the bar stored and, once 30 prices are stored, the LTP and volume fed to the instrument's VWAP; `RecordedCoherent` states what it keeps |
| MarketStreamer.RecordedCoherent | core/market_streamer.py:103-119 | storing a bar with a positive volume keeps the five stores parallel and bounded at 600 and every calculator fed non-negative volumes; afterwards the strategy can run on the instrument and, from 30 stored prices on, its VWAP is defined |
| MarketStreamer.Admitted | core/market_streamer.py:148-188 | a signal on an instrument not yet alerted today: marked and alerted, the flag cleared on a risk refusal, else the order placed; `AdmittedMeaning` states its meaning |
| MarketStreamer.Placed | core/market_streamer.py:169-188 | the order goes to the broker and an accepted one is tracked at the LTP under its id; `AdmittedMeaning` states its meaning |
| MarketStreamer.AdmittedMeaning | core/market_streamer.py:148-188 | an admission adds the instrument to today's signals and one alert at the LTP with the signal's side, regime and bias and the VWAP; the flag survives iff the risk manager allows trading; a refusal registers nothing; otherwise exactly the order the broker accepted, if any, is registered as a fresh trade at the LTP |
| MarketStreamer.AdmittedCoherent | core/market_streamer.py:169-188 | an admission keeps every tracked trade well formed and the dictionary order within the open trades |
| MarketStreamer.AdmitsMeaning | core/market_streamer.py:148-188 | whatever the signal, an admission appends exactly one alert for the instrument at its LTP, adds the instrument to the signals, keeps the flag iff trading is allowed, and every new or changed trade was opened on that alert |
| MarketStreamer.Decided | core/market_streamer.py:106-188 | after the bar is stored: nothing below 30 prices, else the strategy on the stored series and the VWAP, and an admission of a fresh signal; `DecidedMeaning` states its meaning |
| MarketStreamer.DecidedMeaning | core/market_streamer.py:106-188 | after a bar is stored the book changes iff 30 prices are stored, the strategy signals and the instrument was not alerted today, and then by exactly that admission; stores and calculators are left as they were |
| MarketStreamer.DecidedCoherent | core/market_streamer.py:106-188 | deciding on a ready instrument keeps the streamer's state coherent |
| MarketStreamer.Step | core/market_streamer.py:78-188 | one feed of a batch keeps the streamer's state coherent: parallel bounded stores, calculators with non-negative volumes, well-formed trades |
| MarketStreamer.StepParsed | core/market_streamer.py:89-188 | a feed whose LTP and bar parsed is its bar recorded and then decided on, and after recording the strategy can run |
| MarketStreamer.StepAdmits | core/market_streamer.py:78-188 | a feed leaves the book alone or admits its own instrument, which then had a parsed LTP and bar and was not alerted today |
| MarketStreamer.StepComplete | core/market_streamer.py:106-188 | no signal is dropped: a parsed feed with 30 stored prices whose strategy signals on an instrument not alerted today is admitted |
| MarketStreamer.Scan | core/market_streamer.py:78-188 | the feeds of one message processed in order keep the streamer's state coherent |
| MarketStreamer.ScanStep | core/market_streamer.py:78 | scanning one more feed is one more step after the feeds before it |
| MarketStreamer.ScanAlertsSound | core/market_streamer.py:78-160 | over a batch, today's signals grow by exactly the alerted instruments, no instrument is alerted twice or again on the same day, and only instruments whose LTP and bar parsed are alerted |
| MarketStreamer.ScanFlag | core/market_streamer.py:148-188 | the alerts only grow; the flag survives a batch iff it was set and either trading is allowed or nothing was alerted; with trading refused no trade is registered |
| MarketStreamer.ScanFrame | core/market_streamer.py:78-119 | the stores and the calculator samples of every instrument without a parsed LTP and bar in the batch are unchanged |
| MarketStreamer.ScanTradesFromAlerts | core/market_streamer.py:148-188 | earlier alerts are kept, and every trade after a batch is either an unchanged earlier trade or was opened on one of the batch's alerts, at its price and side |
| MarketStreamer.NewCalculators | core/market_streamer.py:34 | one new, distinct, unbounded calculator with no samples per instrument of the list |
| MarketStreamer.Session.constructor | core/market_streamer.py:33-44 | the start-up state: empty stores, an unbounded calculator per instrument, no trades, zero counters, trading allowed |
| MarketStreamer.Session.PlaceOrder | core/market_streamer.py:168-188 | the book becomes `Placed`: an order accepted by the broker is tracked at the LTP under its id, a new id goes last in order; a refused order changes nothing; stores, calculators and the risk manager are untouched |
| MarketStreamer.Session.Admit | core/market_streamer.py:148-188 | an alert is produced iff the instrument was not alerted today, and the book then becomes `Admitted` (see `AdmittedMeaning`); only today's signal set changes; stores and calculators are untouched |
| MarketStreamer.Session.Decide | core/market_streamer.py:106-188 | the streamer's state after the decision is `Decided` of the state before (see `DecidedMeaning`); only today's signal set changes; stores, calculators and the risk manager are untouched |
| MarketStreamer.Session.StoreBar | core/market_streamer.py:103-104 | the scanner's stores become `Appended`: the bar added to the instrument's five bounded series; the calculators are untouched |
| MarketStreamer.Session.Record | core/market_streamer.py:103-119 | the state becomes `Recorded` (see `RecordedCoherent`): the bar stored and, from 30 stored prices on, the LTP and volume fed to the VWAP, whose returned value is then defined and is the calculator's VWAP |
| MarketStreamer.Session.FeedVwap | core/market_streamer.py:119 | the calculator gains exactly the sample of the LTP and volume, no other calculator changes, and with a positive volume the returned VWAP is defined and is the calculator's |
| MarketStreamer.Session.RecordExits | core/market_streamer.py:193-206 | every exit is recorded with the risk manager and removed from the monitor, the dictionary order becomes `OrderAfter` (the other trades keep their order, see `OrderAfterKeeps`), and the flag is cleared as soon as the risk manager refuses |
| MarketStreamer.Session.RecordExit | core/market_streamer.py:199-206 | one exit: counted, removed from the trades and from the dictionary order with the others kept in place, and the flag cleared on a refusal; a refusal stays a refusal |
| MarketStreamer.Session.HandleBar | core/market_streamer.py:89-188 | one instrument's bar is exactly one `Step` of the batch (see `StepParsed`, `StepAdmits`, `StepComplete`); only today's signal set changes among the days |
| MarketStreamer.Session.ScanFeeds | core/market_streamer.py:72-188 | the state after the loop is `Scan` of the feeds from the state before (see `ScanAlertsSound`, `ScanFlag`, `ScanTradesFromAlerts`); the price map holds the parsed LTPs; today's signals grow by exactly the alerted instruments; stores and calculators of instruments without a parsed bar are unchanged; the flag is cleared only by a risk refusal |
| MarketStreamer.Session.ScanOne | core/market_streamer.py:78-188 | one feed moves the scan state past it |
| MarketStreamer.Session.SkipUnparsed | core/market_streamer.py:82-101 | a feed without a parsed LTP or bar only adds its LTP, if any, to the price map |
| MarketStreamer.Session.ScanParsed | core/market_streamer.py:87-188 | a feed whose LTP and bar parsed goes through `HandleBar` and the scan state moves past it |
| MarketStreamer.Session.MonitorTrades | core/market_streamer.py:190-206 | the exits are exactly `check_trades` on the open trades in dictionary order; the active trades are the checked trades minus the exited ones, in the order `OrderAfter` leaves; the risk counters record exactly the exits' reasons; no exit names a trade twice; stores and calculators are untouched |
| MarketStreamer.Session.OnMessage | core/market_streamer.py:62-206 | with the flag cleared nothing happens: no alert or exit, and the signals, all five stores, the calculators, the trades, their order and the risk counters are as before; otherwise the alerts, today's signals, stores, calculators and book are those of `Scan` on the message, the exits are `check_trades` of the resulting trades on the batch's prices, the active trades are the checked ones minus the exited, in the order `OrderAfter` leaves, the counters record the exits' reasons, and the flag is never set again |
| Universe.Field | utils/build_nifty250_universe.py:39-42 | a missing column reads as the empty string, as `.get(k, "")` does |
| Universe.TrimFront | utils/build_nifty250_universe.py:17 | the leading whitespace removed: a suffix of the input, not starting with a space, everything dropped being whitespace |
| Universe.TrimBack | utils/build_nifty250_universe.py:17 | the trailing whitespace removed: a prefix of the input, not ending with a space, everything dropped being whitespace |
| Universe.Strip | utils/build_nifty250_universe.py:17 | `.strip()`: no whitespace at either end, never longer than the input |
| Universe.UpperChar | utils/build_nifty250_universe.py:17 | the upper-cased character is never a lower-case letter and is a space iff the original was |
| Universe.Upper | utils/build_nifty250_universe.py:17 | `.upper()` character by character, same length |
| Universe.UpperIdempotent | utils/build_nifty250_universe.py:39 | upper-casing twice is upper-casing once, so the symbol set of upper-cased symbols matches upper-cased trading symbols |
| Universe.RowSymbol | utils/build_nifty250_universe.py:15-16 | the first non-empty of the `Symbol`, `SYMBOL`, `symbol` columns; none iff all three are empty or missing |
| Universe.Nifty250Symbols | utils/build_nifty250_universe.py:6-18 | at most one symbol per row |
| Universe.ReadNifty250Symbols | utils/build_nifty250_universe.py:11-18 | the loop appends exactly the normalised symbols of the rows that have one, in row order |
| Universe.NormalisedUpperStrip | utils/build_nifty250_universe.py:17 | a stripped, upper-cased symbol has no surrounding whitespace and no lower-case letter |
| Universe.SymbolsNormalised | utils/build_nifty250_universe.py:6-18 | every symbol read is stripped and upper case |
| Universe.SymbolsOfAppendedRow | utils/build_nifty250_universe.py:14-17 | a row without a symbol adds nothing; a row with one appends its stripped, upper-cased symbol |
| Universe.Selected | utils/build_nifty250_universe.py:39-44 | an instrument is taken when its upper-cased trading symbol is wanted, its segment is NSE_EQ and its key is non-empty; `KeysSoundAndComplete` states the keys are exactly those of such instruments |
| Universe.InstrumentKeys | utils/build_nifty250_universe.py:34-47 | the keys of the selected instruments in first-occurrence order without repeats; `KeysDistinct`, `KeysSoundAndComplete` and `KeysInFirstOccurrenceOrder` state its meaning |
| Universe.MapToInstrumentKeys | utils/build_nifty250_universe.py:29-47 | the loop returns exactly `InstrumentKeys` of the set of the given symbols: the keys selected in first-occurrence order, without repeats |
| Universe.KeysDistinct | utils/build_nifty250_universe.py:43-45 | no key is returned twice |
| Universe.KeysSoundAndComplete | utils/build_nifty250_universe.py:37-45 | a key is returned iff some NSE_EQ instrument whose upper-cased trading symbol is in the set carries it as a non-empty key |
| Universe.FirstIndex | utils/build_nifty250_universe.py:37-45 | the index of the first selected instrument carrying the key, and no earlier one carries it |
| Universe.FirstIndexOfEarlierKey | utils/build_nifty250_universe.py:37-45 | appending an instrument does not move the first occurrence of a key already carried earlier |
| Universe.FirstIndexOfNewKey | utils/build_nifty250_universe.py:44-45 | a key first carried by the appended instrument has that instrument as its first occurrence |
| Universe.KeysInFirstOccurrenceOrder | utils/build_nifty250_universe.py:37-47 | keys come out in the order of their first occurrence in the instrument master |

## Left out

- Network and broker I/O is not modelled: the Upstox WebSocket and REST clients, the streamer's connection and the `place_order` call. The broker's reply is a parameter `broker: LimitOrder -> Option<OrderResponse>`.
- File I/O is not modelled: the instrument-key JSON read at import, the CSV and JSON reads of the universe builder, and the trade log's CSV writing.
- `print` output and wall-clock time are not modelled: `datetime.now()` becomes the `today` parameter, and `TrackedTrade.open_time` is dropped.
- Floating point is not modelled: IEEE rounding, NaN, overflow and the `round(..., 2)` calls on limit prices and P&L. All arithmetic is over the reals.
- Concurrency is not modelled. The WebSocket callback is one sequential batch step, `MarketStreamer.Session.OnMessage`.
- `main.py` is not part of this model. It is an endless sleep loop.
- An empty order-response dictionary is treated as no response. The order id is modelled as one field, standing for `order_id` or `orderId`.
- A trade's side is BUY or SELL only. The streamer only registers decisions. `OrderExecutor` and `TradeLogger` keep the side as a string because they handle other strings.
- TradeMonitor.TradeMonitor.CheckTrades: requires a non-zero entry price for every trade whose instrument is priced, because `profit_pct` divides by it. Every trade the streamer registers has a positive entry.
- MarketStreamer.Session.OnMessage: requires a positive volume on every parsed bar. The alert's `:.2f` format raises on a `None` VWAP, and a non-positive volume can leave the VWAP undefined.
- MarketStreamer.Session.OnMessage and MarketStreamer.Session.ScanFeeds: require a VWAP calculator for every instrument whose LTP and bar parse. The source looks the calculator up only once 30 prices are stored (line 119) and raises `KeyError` there, so it also accepts a parsed feed for an unlisted instrument while that instrument has fewer than 30 prices. The streamer subscribes only to its instrument list, so such feeds are not expected.
- A symbol row or instrument record whose `trading_symbol` is present but `None` is not modelled. `.upper()` raises on it in the source, and the model reads every field as a string.
- Universe.Strip and Universe.Upper cover ASCII only: whitespace and the letters a-z. Unicode case mapping and Unicode whitespace are not modelled.
- AdvancedIndicators.AdvAdx: requires a non-zero ATR, because `compute_adx` in `strategy/advanced_indicators.py` divides by it with no guard. Its final `sum([dx] * period) / period` is taken over the reals, where it equals `dx`.
- Indicators.SimpleMovingAverage, Indicators.Ema, Indicators.Rsi, TrueRange.Atr, MarketRegime.Adx, HtfBias.GetHtfBias, AdvancedIndicators.AdvAtr, AdvancedIndicators.Macd and VolumeFilter.VolumeSpikeConfirmed: require a positive period wherever the source would divide by zero (`sum([]) / 0`) or index an empty list. The source raises there. `MarketRegime.DetectMarketRegime` always uses period 14 and needs no such requirement.
- The PARTIAL_EXIT branch of `check_trades` cannot fire with the configured constants. This is proved as a lemma, and the branch is kept as written.
- A stop-loss exit reports the observed LTP, not the stop level.
- Once the admission flag is cleared, a batch returns at once, so open trades are no longer monitored. This is proved of `OnMessage`.
