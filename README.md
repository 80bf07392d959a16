# tradeBot core, modelled in Dafny

This project models the trading core of the tradeBot repository: a Binance
futures bot, its backtester and its two offline simulators.

- **Backtester** (`backtest/`). `BacktestEngine.run` walks a frame of
  indicator-annotated bars from index 50 and holds at most one trade. On every
  bar it first checks the open trade's take-profit and stop-loss, then (when
  flat) asks a strategy for a signal on the bars seen so far, then records one
  equity sample. A trade still open at the end is closed at the last close.
  `_calculate_metrics` turns the trades and the equity history into a
  `BacktestResult`. The two strategies are option A (four conditions, all
  required) and option B (two required conditions and at least two of five
  confirmations). `run_backtest.py` parses the `--symbols` argument and adds
  up each strategy's results across symbols.
- **Live bot** (`bot/`).
  - `TradingConfig` holds the settings and the per-symbol overrides.
  - `OptionAStrategy` holds the configured option-A conditions, with a
    realtime variant that appends the in-progress candle. When the live bot
    calls that variant, the appended row is dropped as incomplete (see
    Findings).
  - `PositionManager` sizes, opens, closes and syncs positions, keyed by symbol
    and limited to `max_positions`.
  - `BinanceWebSocket` routes stream messages and keeps a 500-candle buffer per
    symbol.
  - `WebSocketTradingBot` gates entries on kline close and on price updates,
    with a 10-second throttle and a 300-second cooldown.
- **Simulators** (`bot/`). `BotSimulator.run_simulation` replays the bot's
  rules over history, with several positions, an entry cooldown and a
  PnL scaled by the leverage over the stop multiple. `test_combinations.simulate` backtests one setting
  combination, and its `main` ranks the combinations.

Each module states the source's behaviour as functions over values. Where
the source loops or mutates state, a method or a class does the same, and
its contract ties it to those functions.

- Loop-driven passes are specified as folds over the bar index (`Loop`,
  with one `Step` per bar). The methods that run them carry the invariant
  `state == Loop(i)`.
- The properties (booking identities, bounds, gates, round trips,
  no-lookahead) are lemmas about those functions.
- Exchange calls, the clock, indicator computation and float rounding are
  parameters.

## Model

| member | source | states |
|---|---|---|
| Config.PostInit | bot/config.py:60-72 | Only unset fields are filled: symbols become `["BTCUSDT"]` and the settings become the BTCUSDT long-only, 0.3% take-profit table; every other field is unchanged |
| Config.Default | bot/config.py:13-72 | The default configuration is initialized: BTCUSDT only, testnet, 15m, leverage 20, at most 3 positions, default symbol settings |
| Config.PostInitIdempotent | bot/config.py:60-72 | After `__post_init__` both fields are set, and running it again changes nothing |
| Config.GetSymbolSetting | bot/config.py:74-78 | Returns the stored value exactly when both the symbol and the key are present, and the caller's default otherwise |
| Config.DefaultSettingsLookup | bot/config.py:65-78 | Under the defaults, BTCUSDT reads long_only = True and tp_pct = 0.003, and every other symbol gets the caller's default |
| Text.TrimLeftSpec | backtest/run_backtest.py:342 | Left trimming keeps a suffix that does not start with whitespace, and everything dropped is whitespace |
| Text.TrimRightSpec | backtest/run_backtest.py:342 | Right trimming keeps a prefix that does not end with whitespace, and everything dropped is whitespace |
| Text.StripIsTrimmedInfix | backtest/run_backtest.py:342 | `strip()` returns an untouched infix `s[i..j]`; everything outside it is whitespace, and it neither starts nor ends with whitespace; `Text.Strip` is `strip()` (backtest/run_backtest.py:342) |
| Text.Upper | backtest/run_backtest.py:342 | `upper()` keeps the length, maps each lower-case ASCII letter to its upper-case letter (code point minus 32), and keeps every other character |
| Text.Lower | bot/websocket_client.py:46 | `lower()` keeps the length, maps each upper-case ASCII letter to its lower-case letter (code point plus 32), and keeps every other character |
| Text.CaseRoundTrip | bot/websocket_client.py:46 | Upper-casing a lower-cased string gives the upper-cased string, and the mirror: case conversion forgets only the case |
| Text.JoinSplit | backtest/run_backtest.py:342 | Joining the pieces of `split(sep)` with `sep` gives back the input; `Text.Join` is `sep.join` (bot/websocket_client.py:52) |
| Text.SplitPiecesFree | backtest/run_backtest.py:342 | No piece of `split(sep)` contains the separator |
| Text.Split | backtest/run_backtest.py:342 | `split(sep)` always yields at least one piece |
| PnlStats.Partition | bot/simulate_bot.py:281-290 | The `pnl > 0` wins and the `pnl <= 0` losses split the trades: counts and sums add up, wins sum positive (when any), losses sum to at most 0 |
| PnlStats.Wins | bot/simulate_bot.py:282 | Every kept PnL is positive |
| PnlStats.Losses | bot/simulate_bot.py:283 | Every kept PnL is at most 0 |
| PnlStats.Mean | bot/simulate_bot.py:289-290 | The guarded average is 0 for an empty list, and otherwise the value whose product with the count is the sum |
| PnlStats.MeanZeroIff | bot/simulate_bot.py:289-290 | The average is 0 exactly when the sum is |
| PnlStats.Percent | bot/simulate_bot.py:285 | The win rate is 0 without trades, lies in [0, 100] when wins <= trades, and equals wins * 100 / trades |
| Drawdown.MaxDrawdown | bot/simulate_bot.py:292-300 | The running-peak loop computes `MaxDd`, the largest fall below the running peak |
| Drawdown.MaxDdBounds | bot/simulate_bot.py:292-300 | The maximum drawdown is non-negative, bounds the fall at every point, and is below 100% on a positive curve |
| Drawdown.RisingCurveNoDrawdown | bot/simulate_bot.py:292-300 | A curve that always sits at its running peak has zero drawdown |
| Drawdown.Peak | bot/simulate_bot.py:292-297 | The running peak is at least the initial balance and at least every point of the curve |
| Drawdown.FallNonNegative | bot/simulate_bot.py:296-298 | The fall below the running peak is never negative |
| Drawdown.FallBelowHundred | bot/simulate_bot.py:296-298 | A positive point below its peak falls by less than 100% |
| Drawdown.AtPeakNoFall | bot/simulate_bot.py:296-298 | A point at the running peak has no fall |
| Trades.CheckExit | backtest/engine.py:225-243 | Exits exactly when the bar reaches the take-profit or the stop-loss; the take-profit wins when both are reached, and the exit price is the level itself |
| Trades.SignedPctMove | backtest/engine.py:122-125 | The side-signed return times the entry price is the side-signed price move |
| Trades.CloseAt | backtest/engine.py:137-143 | The closed trade carries the exit time, the exit price and the reason |
| Trades.CloseAtPnl | backtest/engine.py:121-143 | pct * entry = leveraged signed move; commission = entry leg + quantity * exit * rate; PnL = leveraged move * quantity - all commission; nothing else changes |
| Trades.Size | backtest/engine.py:154-165 | Sizing fails exactly when the stop sits on the entry price |
| Trades.SizeBounds | backtest/engine.py:154-165 | A sized position risks at most the risk budget at its stop, is worth at most 30% of balance times leverage, and meets one of the two bounds exactly |
| Trades.Open | backtest/engine.py:167-180 | The opened trade is not closed, takes side, time, entry, quantity, levels and reasons from the signal, and has paid the entry commission |
| Trades.Equity | backtest/engine.py:183-197 | Equity is the balance when flat |
| Trades.EquityMarked | backtest/engine.py:183-197 | With a trade open, equity is balance plus the leveraged signed move times the quantity, with no commission |
| Engine.Of | backtest/strategies.py:36-46 | The engine's view of a strategy has its name and gives `check_signal` on every window |
| Engine.Run | backtest/engine.py:92-223 | The loop over bars 50.. with its three phases, followed by the forced close and the metrics, computes `Engine.Backtest` (backtest/engine.py:92-243: the fold `Loop` of `Step`, then the forced close and `Calculate`) |
| Engine.ExitBar | backtest/engine.py:115-147 | The exit phase on local variables equals `Engine.ExitPhase` (backtest/engine.py:115-147) |
| Engine.EnterBar | backtest/engine.py:150-180 | The entry phase on local variables equals `Engine.EntryPhase` (backtest/engine.py:150-180), which sees only bars 0..i |
| Engine.CompareStrategies | backtest/engine.py:330-342 | One result per strategy, in order, each the run of that strategy on the same bars |
| Engine.OpenOnlyAfterStart | backtest/engine.py:106-108 | Nothing is opened, closed or recorded unless some bar from index 50 on was processed |
| Engine.LoopInvariant | backtest/engine.py:108-197 | After the first n bars, the balance is the initial balance plus the closed trades' PnL; no closed trade has reason End; the open trade is not closed; there is one equity sample per bar from index 50 on, stamped with that bar's time |
| Engine.StepInvariant | backtest/engine.py:108-197 | One bar keeps the booking identity and adds one sample stamped with the bar's time |
| Engine.ExitPhaseBooks | backtest/engine.py:114-147 | The exit check keeps the booking identity and leaves the equity history alone |
| Engine.StepBooks | backtest/engine.py:114-197 | One bar keeps the booking identity and appends exactly one sample, stamped with the bar's time |
| Engine.LoopSampled | backtest/engine.py:108-197 | By induction over the bars: booking identity and one stamped sample per bar from index 50 |
| Engine.LoopStepInvariant | backtest/engine.py:108-197 | The booking identity and the sampling carry from n - 1 bars to n bars |
| Engine.NoLookahead | backtest/engine.py:110-151 | The state after n bars depends only on bars 0..n-1 |
| Engine.ShortInputGivesDefaults | backtest/engine.py:106-108 | With at most 50 bars the result is the all-default record |
| Engine.ForcedCloseNotBooked | backtest/engine.py:199-219 | The end-of-data close is reported but never booked: total return = balance gain + that trade's PnL, and it alone has reason End, in last place |
| Engine.FinalTradesBooked | backtest/engine.py:199-219 | For a booked state, the reported trades' PnL is the balance gain plus the forced close's, and End appears only on the last trade |
| Engine.ReopenOnSameBar | backtest/engine.py:114-180 | Exit is checked before entry, so a trade closed on a bar is replaced on that same bar when the strategy signals |
| Engine.FlatBarClosesNothing | backtest/engine.py:114-197 | A bar that starts flat closes nothing and keeps the balance; its equity sample is the balance, or the new trade marked at the close |
| Metrics.Rate | backtest/engine.py:273-278 | The guarded rate is 0 without trades, lies in [0, 1] when wins <= trades, and times the count gives the wins |
| Metrics.MeanPnl | backtest/engine.py:289-291 | The average PnL times the count is the summed PnL |
| Metrics.MeanPnlPct | backtest/engine.py:293-294 | The average pct times the count is the summed pct |
| Metrics.GuardedRatio | backtest/engine.py:299 | `a / b if b > 0 else 0`: the product with b is a, it is 0 for b <= 0, and it is non-negative for a >= 0 |
| Metrics.PeakAt | backtest/engine.py:306 | The expanding maximum bounds every earlier sample and is attained by one |
| Metrics.MaxDrawdownPct | backtest/engine.py:308 | The maximum drawdown pct is non-negative |
| Metrics.MinDrawdownBounds | backtest/engine.py:307-308 | `drawdown.min()` is at most 0, at most every sample's drawdown, and attained at some sample; `Metrics.MinDrawdown` is `drawdown.min()` over the first n samples (backtest/engine.py:306-308) |
| Metrics.MaxDrawdownIsLargestFall | backtest/engine.py:306-308 | The maximum drawdown bounds every fall below the running peak and equals the fall at some sample |
| Metrics.MaxDrawdownBelowOne | backtest/engine.py:306-308 | On a positive equity curve the maximum drawdown is below 1 |
| Metrics.Calculate | backtest/engine.py:245-328 | No trades gives the default record; otherwise the record keeps the trades and counts them |
| Metrics.EquityOf | backtest/engine.py:302-306 | The equity column of the history, one value per sample, in order |
| Metrics.CurveOf | backtest/engine.py:303-304 | The equity curve: one (timestamp, equity) point per sample, in order |
| Metrics.CalculateFigures | backtest/engine.py:266-320 | With trades, the win rate is wins over trades, the total return is the summed PnL over the initial balance, the profit factor is `ProfitFactor` (backtest/engine.py:296-298), the average trade, win and loss are the mean PnL of all, winning and losing trades, the average win and loss percentages are the mean PnL percentages of winning and losing trades, and the total commission is the summed commission |
| Metrics.CalculatePeriod | backtest/engine.py:322-325 | With trades, the period runs from the first bar's timestamp to the last bar's, and its length is the whole days between them, rounded down |
| Metrics.DrawdownPctOf | backtest/engine.py:301-309 | The maximum drawdown fraction of a history is never negative and stays at its default 0 without a history |
| Metrics.CalculateDrawdown | backtest/engine.py:301-309 | With trades, the drawdown fraction is `MaxDrawdownPct` of the equity column (0 without history), the drawdown in money is that fraction times the initial balance (`Metrics.Scale`), and the equity curve is the time-indexed equity (`Metrics.CurveOf`) exactly when there is a history |
| Metrics.WinsLossesPartition | backtest/engine.py:269-270 | Wins and losses partition the trades in count and in summed PnL; `Metrics.Wins` and `Metrics.Losses` are the `pnl > 0` and `pnl <= 0` filters (backtest/engine.py:269-270, 286-287) |
| Metrics.SidesPartition | backtest/engine.py:267-268 | Longs and shorts partition the trades; `Metrics.OfSide` is the side filter (backtest/engine.py:267-268) |
| Metrics.SumPnlAppend | backtest/engine.py:281 | The summed PnL of a concatenation is the sum of the parts; `Metrics.SumPnl` is `sum(t.pnl for t in trades)` (backtest/engine.py:281) |
| Metrics.SumSigns | backtest/engine.py:297-298 | Gross profit is non-negative, and positive with any win; the summed losses are at most 0 |
| Metrics.CountsPartition | backtest/engine.py:265-282 | The winning, losing, long and short counts are the sizes of the `Wins`, `Losses` and `OfSide` filters; winning + losing = total = long + short; the win rate is `Rate(wins, total)` and each side's is the rate of wins among that side's trades, all in [0, 1] and 0 for a side without trades; total return is the summed PnL |
| Metrics.ProfitFactorCases | backtest/engine.py:296-299 | Profit factor >= 0; it is the gross profit with no losing trade, 0 when losses sum to 0, and otherwise gross profit / gross loss; these are the cases of `Metrics.ProfitFactor` (backtest/engine.py:296-299) |
| Metrics.RatioCases | backtest/engine.py:296-299 | With gross loss defaulting to 1, the ratio is non-negative, the gross profit without losses, and 0 when the losses sum to 0 |
| Strategies.OptionALong | backtest/strategies.py:72-114 | A long signal needs RSI < 35; it has strength 1, enters at the close, has its take-profit above the entry and its stop below (for positive ATR) |
| Strategies.OptionAShort | backtest/strategies.py:116-158 | A short signal needs RSI > 65; it has strength 1, enters at the close, has its take-profit below the entry and its stop above |
| Strategies.OptionALongFiresIff | backtest/strategies.py:72-114 | Option A long fires exactly when all four conditions hold; its reasons are all four in order, take-profit = close * 1.01 and stop = close - 2.5 ATR |
| Strategies.OptionAShortFiresIff | backtest/strategies.py:116-158 | Option A short fires exactly when its four conditions hold; take-profit = close * 0.99 and stop = close + 2.5 ATR |
| Strategies.OptionBLong | backtest/strategies.py:187-254 | A long signal needs RSI < 40 and close < BB middle; its strength is in [0.7, 1]; it enters at the close with take-profit above and stop below |
| Strategies.OptionBShort | backtest/strategies.py:256-322 | A short signal needs RSI > 60 and close > BB middle; its strength is in [0.7, 1]; it enters at the close with take-profit below and stop above |
| Strategies.OptionBLongFiresIff | backtest/strategies.py:187-254 | Option B long fires exactly when both required conditions and at least 2 of the 5 confirmations hold; strength = 0.5 + 0.1 per confirmation; reasons are the required ones, then the confirmations; the confirmations are `Strategies.LongConfirmations` (backtest/strategies.py:208-234), in check order |
| Strategies.OptionBShortFiresIff | backtest/strategies.py:256-322 | The mirror statement for option B short; the confirmations are `Strategies.ShortConfirmations` (backtest/strategies.py:277-303), in check order |
| Strategies.CheckSignal | backtest/strategies.py:36-46 | No signal below 50 bars; a signal is never 'none', enters at the last close, and is the long or the short side's signal; the sides are `Strategies.CheckLongEntry` and `Strategies.CheckShortEntry`, which pick option A's or option B's rule (backtest/strategies.py:29-34, 72, 116, 187, 256) |
| Strategies.AtMostOneSide | backtest/strategies.py:72-158 | The RSI gates of each option are disjoint, so the two sides never both fire |
| Strategies.CheckSignalPicksFiringSide | backtest/strategies.py:36-46 | The result is the long signal whenever the long side fires, and the short side's result otherwise |
| Strategies.LastTwoBarsDecide | backtest/strategies.py:36-322 | Windows that agree on their last two bars get the same signal |
| BotStrategy.DropNa | bot/strategy.py:183 | `dropna()` keeps exactly the complete rows and never grows the frame |
| BotStrategy.DropNaAppend | bot/strategy.py:183 | `dropna()` works row by row and keeps the order: a missing row disappears, a complete row stays, and two stretches give their two results in order |
| BotStrategy.CheckLongEntry | bot/strategy.py:78-126 | No signal below two rows; a signal is a long entering at the last close and carries that row's ATR |
| BotStrategy.CheckShortEntry | bot/strategy.py:128-176 | No signal below two rows; a signal is a short entering at the last close and carries that row's ATR |
| BotStrategy.LongEntryFiresIff | bot/strategy.py:78-126 | The long entry fires exactly when the four configured conditions hold; take-profit = entry * (1 + tp_pct) and stop = entry - ATR * sl_atr_mult, with all four reasons |
| BotStrategy.ShortEntryFiresIff | bot/strategy.py:128-176 | The short entry fires exactly when its four conditions hold (the volume test uses the long multiplier); take-profit = entry * (1 - tp_pct) |
| BotStrategy.SignalOnRows | bot/strategy.py:185-197 | The decision on the complete rows: no signal below two rows; a signal enters at the last row's close |
| BotStrategy.CheckSignal | bot/strategy.py:178-197 | No signal with fewer than two complete rows; a signal enters at the last complete close |
| BotStrategy.SignalPriority | bot/strategy.py:178-197 | The long side wins when it fires, else the short side decides; with non-overlapping RSI gates both never fire |
| BotStrategy.CheckSignalRealtime | bot/strategy.py:199-220 | On a frame of plain candles: no signal below 200 closed candles; otherwise the ordinary check on the closed candles plus the in-progress one |
| BotStrategy.LastRowIncomplete | bot/strategy.py:210-218 | A row appended without a column the frame has: same length, the earlier rows unchanged, the last row incomplete |
| BotStrategy.CheckSignalRealtimeOnBuffer | bot/strategy.py:199-220 | The realtime check on the live bot's frame, whose rows carry `is_closed`: no signal below 200 closed candles; otherwise the decision on the complete rows after the appended row has lost its `is_closed` |
| BotStrategy.BufferRealtimeDecidesOnClosed | bot/strategy.py:178-220 | With one indicator row per candle, the live realtime check decides on the closed candles' rows alone; when those rows do not depend on the later candle it equals the ordinary check on the closed candles |
| BotStrategy.GetMarketContext | bot/strategy.py:222-243 | No context exactly when no complete row exists; otherwise price = last close, RSI, both stochastics, the three bands and ATR are the last complete row's, trend Up iff fast EMA > slow EMA, and volume ratio = volume / MA (0 for MA <= 0) |
| PositionManagement.RawQuantity | bot/position_manager.py:55-70 | The unrounded size loses exactly balance * risk_per_trade when the stop is hit |
| PositionManagement.PositionSize | bot/position_manager.py:46-86 | The size is never negative; it is 0 when the balance is not positive or the stop sits on the entry, positive exactly when the balance is positive, the stop differs from the entry and the rounded risk-budget quantity is positive, and then it is that rounded quantity |
| PositionManagement.OpenCases | bot/position_manager.py:88-160 | For `PositionManagement.Open`: a position is returned exactly when the symbol is untracked, a slot is free, the size is positive and the orders were placed; it is then stored under the symbol with the signal's side and entry, the rounded TP/SL and the clock's time, and otherwise nothing changes |
| PositionManagement.CloseCases | bot/position_manager.py:162-186 | For `PositionManagement.Close`: closing succeeds exactly when the symbol is tracked and the orders went through, then removes that symbol alone; otherwise nothing changes |
| PositionManagement.KeepListed | bot/position_manager.py:194-206 | A tracked symbol survives exactly when the exchange lists it, with its record unchanged |
| PositionManagement.ApplyUpdates | bot/position_manager.py:209-214 | The update pass keeps the set of tracked symbols |
| PositionManagement.ApplyUpdatesFields | bot/position_manager.py:209-214 | The update pass changes only entry price and quantity |
| PositionManagement.LastListing | bot/position_manager.py:209-214 | The index of the last exchange entry for a listed symbol |
| PositionManagement.ApplyUpdatesValues | bot/position_manager.py:209-214 | A listed symbol ends with the entry price and size of its last exchange entry; an unlisted one is untouched |
| PositionManagement.SyncCases | bot/position_manager.py:188-217 | For `PositionManagement.Sync`: a failed exchange call changes nothing; otherwise exactly the listed symbols remain, each with the last listing's price and size and every other field kept |
| PositionManagement.OpenKeepsInvariant | bot/position_manager.py:88-160 | Opening keeps at most max_positions positions, each keyed by its own symbol |
| PositionManagement.CloseKeepsInvariant | bot/position_manager.py:162-186 | Closing keeps the slot limit and the keying |
| PositionManagement.SyncKeepsInvariant | bot/position_manager.py:188-217 | Syncing keeps the slot limit and the keying and never adds a position |
| PositionManagement.StatusOf | bot/position_manager.py:219-235 | The status reports the count, max_positions and, for exactly the tracked symbols, each position's side, entry, quantity, TP, SL and entry time |
| PositionManagement.PositionManager.constructor | bot/position_manager.py:33-36 | A new manager tracks no positions |
| PositionManagement.PositionManager.PositionCount | bot/position_manager.py:38-40 | The number of tracked positions |
| PositionManagement.PositionManager.HasPosition | bot/position_manager.py:42-44 | True exactly when the symbol is tracked |
| PositionManagement.PositionManager.OpenPosition | bot/position_manager.py:88-160 | The new positions and the result are those of the opening rule, and the slot limit is kept |
| PositionManagement.PositionManager.ClosePosition | bot/position_manager.py:162-186 | The new positions and the result are those of the closing rule, and the slot limit is kept |
| PositionManagement.PositionManager.SyncPositions | bot/position_manager.py:188-217 | The new positions are those of the sync rule, and the slot limit is kept |
| PositionManagement.PositionManager.UpdateFromExchange | bot/position_manager.py:209-214 | The update loop leaves the positions equal to the update pass over all exchange entries |
| PositionManagement.PositionManager.GetStatus | bot/position_manager.py:219-235 | The status of the current positions |
| BotSimulation.PositionSize | bot/simulate_bot.py:108-119 | Size 0 when the stop sits on the entry price |
| BotSimulation.PositionSizeRisk | bot/simulate_bot.py:108-119 | Otherwise the size loses exactly balance * risk_per_trade when the stop is hit |
| BotSimulation.SizeIdentity | bot/simulate_bot.py:112-119 | Dividing the risk by the relative stop distance and the entry gives the risk back over the absolute distance |
| BotSimulation.CheckPositionExit | bot/simulate_bot.py:121-141 | An exit is reported exactly when the bar reaches the take-profit or the stop-loss; take-profit wins when both are reached |
| BotSimulation.ClosePnlScaled | bot/simulate_bot.py:148-158 | PnL plus the 0.08% fee, times sl_atr_mult percent, equals the risk budget times the leveraged return |
| BotSimulation.Close | bot/simulate_bot.py:143-177 | Closing forgets the symbol, appends one trade and moves the balance by exactly that trade's PnL |
| BotSimulation.Pnls | bot/simulate_bot.py:281-283 | The PnL of each trade, in order |
| BotSimulation.StatsProperties | bot/simulate_bot.py:270-320 | The winning and losing counts are the sizes of the positive and non-positive PnLs and split the trades; the win rate is their percentage; average win and loss are the means of those PnLs; the drawdown is `Drawdown.MaxDd` of the equity curve and non-negative; total PnL is wins plus losses; a profit factor exists exactly when the losses sum to nonzero and is then abs(sum of wins / sum of losses) |
| BotSimulation.PnlsAppend | bot/simulate_bot.py:281-283 | One more trade adds its PnL to the list and to the sum |
| BotSimulation.CloseBooks | bot/simulate_bot.py:143-177 | Balance minus the summed trade PnL is unchanged by a close |
| BotSimulation.StepKeeps | bot/simulate_bot.py:196-258 | One bar keeps the booking identity, appends one sample equal to the balance, keeps earlier trades, keeps the slot bound and touches no other symbol |
| BotSimulation.ExitKeeps | bot/simulate_bot.py:200-211 | The exit phase keeps the booking identity and the samples and only removes the simulated symbol |
| BotSimulation.ContinuesItself | bot/simulate_bot.py:196-258 | A state continues itself with no samples |
| BotSimulation.ContinuesStep | bot/simulate_bot.py:196-258 | A step that keeps the booking and appends the balance continues the run by one sample |
| BotSimulation.StepContinues | bot/simulate_bot.py:196-258 | Each bar extends the run by one sample |
| BotSimulation.Samples | bot/simulate_bot.py:196-258 | One balance sample per bar from index 300 |
| BotSimulation.LoopBooks | bot/simulate_bot.py:196-258 | Over the loop, every balance change is a booked trade, one sample per bar is appended and the last sample is the balance |
| BotSimulation.LoopSlots | bot/simulate_bot.py:196-258 | The loop never holds more positions than the bound and no other symbol enters or leaves |
| BotSimulation.EntryGate | bot/simulate_bot.py:214-255 | No entry within 20 bars of the last one; the last-entry index moves only when a positive-size position is opened on this bar for a flat symbol with a free slot |
| BotSimulation.FinishBooks | bot/simulate_bot.py:260-268 | The leftover position is closed at the last close with reason END and its PnL is booked |
| BotSimulation.BotSimulator.constructor | bot/simulate_bot.py:52-59 | A fresh simulator holds the initial balance, no positions, no trades, no samples |
| BotSimulation.BotSimulator.ClosePosition | bot/simulate_bot.py:143-177 | The fields become those of the closing rule |
| BotSimulation.BotSimulator.CheckExit | bot/simulate_bot.py:200-211 | The fields become those of the exit phase `BotSimulation.ExitPhase` (bot/simulate_bot.py:200-211): a held position that reaches its take-profit or stop is closed at that level |
| BotSimulation.BotSimulator.TryEnter | bot/simulate_bot.py:240-255 | The fields and last-entry index become those of the entry phase `BotSimulation.EnterOn` (bot/simulate_bot.py:240-255): a signal with a positive size opens the position and moves the last-entry index to this bar |
| BotSimulation.BotSimulator.ProcessBar | bot/simulate_bot.py:198-258 | The fields become those of one loop step `BotSimulation.Step` (bot/simulate_bot.py:196-258): the exit phase, then the entry phase only when `BotSimulation.EntryAllowed` holds (symbol flat, a free slot, 20 bars since the last entry; bot/simulate_bot.py:214-218), then one balance sample |
| BotSimulation.FirstBarCallsStrategy | bot/simulate_bot.py:192-238 | On a fresh simulator with a free slot and more than 300 bars, bar 300 passes every gate (`BotSimulation.SignalCallReached`: the exit phase, then `EntryAllowed`, after the bars before it; bot/simulate_bot.py:196-238), so the strategy call (which raises `TypeError` as written) is reached there |
| BotSimulation.BotSimulator.RunSimulation | bot/simulate_bot.py:179-268 | The fields become `BotSimulation.Finish` (bot/simulate_bot.py:260-268: a position left open is closed at the last close with reason END) of `BotSimulation.Loop` (bot/simulate_bot.py:192-258: `Step` applied to bars 300, 301, … in order, starting from the old fields with the last entry at -20) |
| BotSimulation.BotSimulator.Results | bot/simulate_bot.py:270-320 | The statistics of the fields (`BotSimulation.StatsOf`, bot/simulate_bot.py:270-320), or none when nothing was traded |
| Combinations.Window | bot/test_combinations.py:116 | The strategy sees exactly the 300 rows ending at the current row |
| Combinations.CheckExit | bot/test_combinations.py:77-94 | An exit happens exactly when the bar reaches the take-profit or the stop-loss, at that level; take-profit wins when both are reached |
| Combinations.LeveragedReturn | bot/test_combinations.py:97-102 | The return times the entry price is the favourable move times the leverage |
| Combinations.ExitPnl | bot/test_combinations.py:103-104 | PnL plus the 0.08% entry fee, times 2%, is the risk budget times the leveraged return |
| Combinations.ExitPnlSign | bot/test_combinations.py:96-104 | With a positive risk budget and leverage, the PnL before the fee is positive, zero or negative exactly as the price moved in the position's favour |
| Combinations.Pnls | bot/test_combinations.py:144-154 | The PnL of each trade, in order |
| Combinations.ReturnPct | bot/test_combinations.py:148 | The return in percent of the initial balance; positive exactly when the balance grew |
| Combinations.SimulateRows | bot/test_combinations.py:67-156 | The result is `Combinations.ResultOf` (bot/test_combinations.py:143-156: the result dictionary) of `Combinations.Finish` (bot/test_combinations.py:129-131: the END record) of `Combinations.Loop` (bot/test_combinations.py:73-127: `Step` applied to rows 300, 301, … in order, from `Combinations.Start`, bot/test_combinations.py:67-70: the initial balance, no position, no trades, one sample) |
| Combinations.SimulateBar | bot/test_combinations.py:74-127 | One iteration equals `Combinations.Step` (bot/test_combinations.py:74-127): the exit check on the held position, then the strategy on the 300-row window when flat, then one balance sample |
| Combinations.BookExit | bot/test_combinations.py:96-112 | The balance takes the exit PnL and exactly one trade with that PnL, the leveraged return in percent and the reason is recorded |
| Combinations.Summarize | bot/test_combinations.py:129-156 | The END record, the drawdown loop and the result dictionary agree with the result of the finished run |
| Combinations.Simulate | bot/test_combinations.py:61-156 | The run is over the indicator rows with incomplete ones dropped, driven by the bot's signal check |
| Combinations.PnlsAppend | bot/test_combinations.py:106-111 | Recording one more trade adds its PnL to the sum |
| Combinations.StepBooks | bot/test_combinations.py:74-127 | One bar keeps the balance equal to the initial balance plus every PnL and adds one sample equal to the balance |
| Combinations.LoopBooks | bot/test_combinations.py:73-127 | After the loop the balance is the initial balance plus every PnL, one sample per bar from row 300 was added, the last equal to the balance, and no trade is an END trade |
| Combinations.FinishBooks | bot/test_combinations.py:129-131 | The END record adds a zero-PnL trade exactly when a position is open, last, and changes neither balance nor curve |
| Combinations.ResultReports | bot/test_combinations.py:143-156 | The final balance is the initial one plus all PnL, the return is that gain in percent, every trade is a win or a loss, and the win rate is a percentage |
| Combinations.ResultRisk | bot/test_combinations.py:133-154 | The drawdown and the profit factor are non-negative, and a nonzero profit factor is gross win over gross loss |
| Combinations.ProfitFactorRatio | bot/test_combinations.py:154 | With non-negative wins and non-positive losses the factor is non-negative and, when nonzero, gross win over gross loss; the factor is `Combinations.ProfitFactor` |
| Combinations.NegatedDivisor | bot/test_combinations.py:154 | The absolute value of wins over negative losses is wins over the negated losses |
| Combinations.ReopenOnSameBar | bot/test_combinations.py:96-125 | A bar that closes the position and has a signal both records the trade and opens the signal's position |
| Combinations.HeldPositionIgnoresSignal | bot/test_combinations.py:77-127 | While a position is held and not exited, the bar only adds a sample |
| Combinations.NoLookahead | bot/test_combinations.py:73-127 | The run up to bar n depends only on the rows before n |
| Combinations.PrefixLoop | bot/test_combinations.py:73-127 | Cutting the rows at m >= n does not change the run up to n |
| Combinations.ShortHistory | bot/test_combinations.py:73-156 | With at most 300 rows nothing is simulated and every figure is 0 with the initial balance as final balance |
| Combinations.Configure | bot/test_combinations.py:189-191 | A default configuration with only the take-profit and stop-loss settings replaced; leverage and risk stay at their defaults |
| Combinations.RunCombinations | bot/test_combinations.py:170-196 | One result per pair, in the order of the ten pairs, each the run under that pair's configuration with the take-profit in percent |
| Combinations.Insert | bot/test_combinations.py:205 | Insertion adds exactly the one element |
| Combinations.InsertDescending | bot/test_combinations.py:205 | Insertion keeps the results in descending order of return |
| Combinations.SortByReturn | bot/test_combinations.py:205 | The sorted results are a permutation of the results in descending order of return |
| Combinations.BestReturnFirst | bot/test_combinations.py:220 | The first sorted result has the best return of all |
| Combinations.RiskReward | bot/test_combinations.py:229-230 | Return over drawdown when the drawdown is positive (then positive exactly when the return is), 0 otherwise |
| Combinations.FirstMin | bot/test_combinations.py:221 | The first index whose key is smallest |
| Combinations.FirstMax | bot/test_combinations.py:232 | The first index whose key is largest |
| Combinations.BestDrawdown | bot/test_combinations.py:221 | The first result with the smallest drawdown: none is smaller, and every earlier one is strictly larger |
| Combinations.BestBalanced | bot/test_combinations.py:229-232 | The first result with the largest risk-reward: none is larger, and every earlier one is strictly smaller |
| BacktestCli.ParseSymbols | backtest/run_backtest.py:342 | One symbol per comma-separated piece, in order, each stripped and upper-cased |
| BacktestCli.ParsedSymbolsClean | backtest/run_backtest.py:342 | Without a comma there is exactly one symbol; every symbol has no comma, no lower-case ASCII letter and no surrounding whitespace |
| BacktestCli.CleanSymbol | backtest/run_backtest.py:342 | A comma-free piece, stripped and upper-cased, has no comma and no surrounding whitespace |
| BacktestCli.SplitWithoutSeparator | backtest/run_backtest.py:342 | Splitting text without the separator gives the text itself |
| BacktestCli.UpperKeepsSpace | backtest/run_backtest.py:342 | Upper-casing turns no non-space character into whitespace |
| BacktestCli.ResultsOf | backtest/run_backtest.py:439-452 | The results of one strategy, in order |
| BacktestCli.SymbolsOf | backtest/run_backtest.py:452 | The symbol of each result, in order |
| BacktestCli.SummaryClosedForm | backtest/run_backtest.py:438-452 | A strategy has a summary exactly when it has results, and its summary holds the summed trades, wins and returns and the symbols of exactly its results |
| BacktestCli.CombinedWinRate | backtest/run_backtest.py:456 | Wins over trades (0 without trades), within [0, 1] when wins do not exceed trades |
| BacktestCli.AvgReturn | backtest/run_backtest.py:457 | Total return over the number of symbols (0 without symbols) |
| BacktestCli.SummaryAverage | backtest/run_backtest.py:452-457 | A summarised strategy has at least one symbol, one per result, so the average is the mean return over its results |
| BacktestCli.SummaryWinRate | backtest/run_backtest.py:449-456 | When no result has more wins than trades, the combined win rate is within [0, 1] |
| BacktestCli.WinsWithinTrades | backtest/run_backtest.py:449-450 | Summed wins never exceed summed trades when that holds for each result |
| BacktestCli.Aggregate | backtest/run_backtest.py:438-452 | The aggregation loop builds the summary of all results, `BacktestCli.SummaryOf` (backtest/run_backtest.py:438-452): one `Add` per result, in order |
| BacktestCli.MainAsWritten | backtest/run_backtest.py:417-431 | As written, `main` raises `NameError` exactly when a symbol reached the chart branch (unless `--no-chart`) or the trade export (with `--save-trades`); a summary is reached only with `--no-chart`, without `--save-trades` and for several symbols |
| BacktestCli.SummaryOnlyWithoutChartOrExport | backtest/run_backtest.py:417-431 | With several symbols and some result, the default flags and `--save-trades` end in `NameError` at line 418 or 426; only `--no-chart` alone yields the summary of all results |
| BacktestCli.CrossSymbolSummary | backtest/run_backtest.py:431-452 | A summary is produced exactly when more than one symbol was asked for and some result exists, and it is the summary of all results |
| MarketStream.StreamsLayout | bot/websocket_client.py:44-50 | Two streams per symbol, in symbol order: the lower-cased kline stream at 2k and the mark-price stream at 2k + 1; the list is `MarketStream.Streams` (bot/websocket_client.py:44-50) |
| MarketStream.BoundedAppend | bot/websocket_client.py:101-104 | Appending to the 500-candle buffer ends it with the new candle; a full buffer drops its oldest candle |
| MarketStream.LastN | bot/websocket_client.py:102 | The last n elements, or all when there are fewer |
| MarketStream.Extend | bot/trading_bot_ws.py:95-108 | Appending candles one by one keeps the buffer within 500 |
| MarketStream.ExtendKeepsLatest | bot/trading_bot_ws.py:95-108 | Appending candles one by one leaves the last 500 of the old buffer followed by the new candles |
| MarketStream.AsClosed | bot/trading_bot_ws.py:96-104 | Each downloaded candle, marked closed |
| MarketStream.LoadInto | bot/trading_bot_ws.py:95-108 | Loading keeps every buffer bounded, adds a buffer for the symbol only when candles arrived, and leaves other symbols alone |
| MarketStream.LoadIntoStep | bot/trading_bot_ws.py:95-108 | Loading one more candle is one bounded append of it, marked closed |
| MarketStream.LoadIntoLatest | bot/trading_bot_ws.py:95-108 | The loaded buffer is the last 500 of its old candles followed by the downloaded ones |
| MarketStream.MarketDataClient.constructor | bot/websocket_client.py:22-36 | Testnet or mainnet URL by the configuration; no buffers, candles or prices |
| MarketStream.MarketDataClient.GetStreamUrl | bot/websocket_client.py:42-53 | The loop builds the combined-stream URL of the symbols' streams joined by "/", `MarketStream.StreamUrl` (bot/websocket_client.py:52-53) |
| MarketStream.MarketDataClient.HandleKline | bot/websocket_client.py:77-109 | Price and in-progress candle always follow the message; a closed candle is also appended to its bounded buffer and announced |
| MarketStream.MarketDataClient.Append | bot/websocket_client.py:100-104 | A closed candle is appended to the symbol's buffer, created on first use |
| MarketStream.MarketDataClient.HandlePrice | bot/websocket_client.py:111-119 | Only the symbol's price changes, and the update is announced |
| MarketStream.MarketDataClient.OnMessage | bot/websocket_client.py:55-75 | A message without a stream or with an unfit payload changes nothing; kline streams go to the kline handler with its full effect, mark-price streams to the price handler |
| MarketStream.MarketDataClient.Preload | bot/trading_bot_ws.py:95-108 | The appending loop leaves the buffers equal to loading the downloaded candles, marked closed |
| MarketStream.MarketDataClient.GetCurrentPrice | bot/websocket_client.py:174-176 | The symbol's last price, when one was seen |
| MarketStream.MarketDataClient.GetKlines | bot/websocket_client.py:178-182 | The symbol's closed candles, or none |
| MarketStream.MarketDataClient.GetCurrentCandle | bot/websocket_client.py:184-186 | The symbol's in-progress candle, when one was seen |
| MarketStream.Route | bot/websocket_client.py:60-72 | Kline streams are routed before mark-price streams, and a handler is chosen only when the payload has its shape; `Text.Contains` is Python's substring test `in` (bot/websocket_client.py:67, 71) |
| LiveBot.Preloaded | bot/trading_bot_ws.py:87-114 | Every buffer stays within 500 after all downloads are loaded |
| LiveBot.PreloadedOthers | bot/trading_bot_ws.py:91-112 | A symbol with no successful download keeps its buffer, or stays without one |
| LiveBot.PriceGate | bot/trading_bot_ws.py:165-187 | The realtime check runs exactly when the bot is loaded, the symbol is free, a slot is free, 300 s passed since the last realtime entry and 10 s since the last check |
| LiveBot.KlineCloseCases | bot/trading_bot_ws.py:126-163 | For `LiveBot.KlineCloseEntry`: a closed candle opens a position only when loaded, free, with a free slot, 200 candles and a firing signal, and then only under that symbol; otherwise nothing changes |
| LiveBot.PriceUpdateStamps | bot/trading_bot_ws.py:165-223 | For `LiveBot.PriceUpdate`: the check time is recorded exactly when the gates pass; the entry time exactly when a realtime entry happened; positions change only by that entry |
| LiveBot.RealtimeEntryCases | bot/trading_bot_ws.py:194-223 | For `LiveBot.RealtimeEntry` (the realtime check on the kline buffer's frame, `BotStrategy.CheckSignalRealtimeOnBuffer`): the realtime path leaves positions alone or adds the opened one under a symbol that was free |
| LiveBot.RealtimeEntryAsOnClose | bot/trading_bot_ws.py:126-223 | Past the free-symbol and free-slot gates, the realtime path opens exactly what the kline-close path would open on the same buffer, whatever the in-progress candle, when the closed candles' indicator rows do not depend on a later candle |
| LiveBot.ThrottleAfterCheck | bot/trading_bot_ws.py:184-189 | Within 10 s of a passing update the same symbol's updates change nothing |
| LiveBot.CooldownAfterEntry | bot/trading_bot_ws.py:178-182 | Within 300 s of a realtime entry the same symbol's updates change nothing, even after the position closed |
| LiveBot.HistoryGuard | bot/trading_bot_ws.py:116-120 | With fewer than 200 closed candles neither path opens a position or stamps an entry |
| LiveBot.EntriesKeepLimit | bot/trading_bot_ws.py:126-223 | Neither path takes the positions past max_positions or breaks the keying by symbol |
| LiveBot.KlineCloseKeepsLimit | bot/trading_bot_ws.py:126-163 | The kline-close path keeps the position limit and the keying |
| LiveBot.RealtimeKeepsLimit | bot/trading_bot_ws.py:194-223 | The realtime path keeps the position limit and the keying |
| LiveBot.WsTradingBot.constructor | bot/trading_bot_ws.py:36-59 | Not loaded, no positions, no buffers, no timestamps |
| LiveBot.WsTradingBot.LoadInitialData | bot/trading_bot_ws.py:87-114 | The buffers become those after every successful download, the bot is marked loaded, nothing else changes |
| LiveBot.WsTradingBot.OnKlineClose | bot/trading_bot_ws.py:126-163 | Positions and result are those of the kline-close rule; the timers are untouched |
| LiveBot.WsTradingBot.OnPriceUpdate | bot/trading_bot_ws.py:165-192 | Timers and positions become those of the price-update rule |
| LiveBot.WsTradingBot.CheckRealtimeSignal | bot/trading_bot_ws.py:194-223 | Positions and result are those of the realtime rule, which checks the frame of the kline buffer; a successful entry stamps the entry time |

## Left out

- Kline downloads and their pagination (backtest/run_backtest.py:31-90, bot/simulate_bot.py:61-106, bot/test_combinations.py:20-58): network I/O; the bars are inputs.
- Indicator computation (RSI, stochastics, Bollinger bands, ATR, EMA, volume MA): a floating-point library; the backtest takes bars that carry the indicator values, the live bot's strategy takes the indicator pass as a function `indicators` whose `None` rows are the rows `dropna` removes.
- The Sharpe ratio (backtest/engine.py:310-317): float `pct_change`, `std` and `sqrt`; `BacktestResult` has no Sharpe field.
- `client.py`: balance queries, quantity and price rounding, order placement and the exchange's position list come in as parameters (`balance`, `roundQuantity`, `roundPrice`, `OrderOutcome`, `Option<seq<ExchangePosition>>`); an exception from the exchange is a failure value.
- WebSocket connection, reconnection, threading, `start`/`stop` and the bot's run loop, `check_connection`, banner and OS signal handlers (bot/websocket_client.py:121-172, bot/trading_bot_ws.py:61-85 and 225-301): live orchestration; messages arrive already decoded as `Message` values, and the callbacks are returned as `Notification` values instead of being invoked.
- JSON decoding of stream messages: a payload without the expected keys is the `NoRoute` case (the source's handler raises and the exception is logged).
- The notifier, logging, printed tables, charts and CSV export: presentation only.
- Timestamp conversions between pandas datetimes and milliseconds (bot/trading_bot_ws.py:97, 123): timestamps are integers in milliseconds throughout.
- Signal `reasons` keep the reason kind and the indicator value, not the formatted text.
- BotSimulation.BotSimulator.RunSimulation: as written the run raises `TypeError` at its first gated bar (see Findings); the method models the corrected run, where the strategy's signal at each bar is the input `signalAt`. The realtime and close-mode windows the source would pass are not modelled.
- BotSimulation.ClosePnlScaled: the members that close a position require `sl_atr_mult != 0`, where the source would raise a division-by-zero error.
- BotSimulation.BotSimulator.Results: requires a positive initial balance, where the source's drawdown loop would divide by a zero peak.
- Combinations.SimulateRows: requires a positive initial balance, for the same reason.
- Combinations.SortByReturn: states a descending permutation; the stability of Python's sort (equal returns keep their order) is not stated.
- Metrics.MaxDrawdownPct: a zero running peak contributes a drawdown of 0, where the float code would produce a NaN or an infinity.
- Text.Upper: case mapping covers ASCII letters only (as does `Text.Lower`); symbols are ASCII.
- Bar closes and entry prices are positive by type (`Price`), since the source divides by them; a zero price would raise there.
- Prices and balances are exact rationals: float rounding in the accounting is not modelled.
- The engine mutates the `Trade` record in place on exit; the model builds the closed trade as a new value.
- LiveBot.RealtimeEntry: keeps the behaviour as written, deciding on the closed candles only (see Findings); `BotStrategy.CheckSignalRealtime`, the check that includes the in-progress candle, is stated but the live bot does not reach it.
- Chart drawing and CSV export in `run_backtest.py` (backtest/run_backtest.py:417-428): presentation; their missing `os` import is under Findings.

## Findings

| source | as written | input that shows it | evidently intended | confidence | as-written member | corrected member |
|---|---|---|---|---|---|---|
| backtest/run_backtest.py:418, 426 | `os.path` is used in the chart branch (taken by default) and in the trade export, but the imports at lines 11-22 never import `os` | `--symbols BTCUSDT,ETHUSDT` with default flags: `NameError` after the first symbol's results are printed, so the cross-symbol summary (lines 431-462) is never shown | charts and export work, and the summary of all results is printed for several symbols | high, not executed | BacktestCli.SummaryOnlyWithoutChartOrExport | BacktestCli.CrossSymbolSummary |
| bot/simulate_bot.py:234, 238 | the strategy is called as `check_signal_realtime(window_df, current_candle_dict, symbol)` and `check_signal(window_df, symbol)`, but both methods take no symbol (bot/strategy.py:178, 199) | a fresh simulator, `max_positions` at least 1 and more than 300 rows: bar 300 passes every gate and the call raises `TypeError` | the signal of the strategy at each gated bar drives the entry | high, not executed | BotSimulation.FirstBarCallsStrategy | BotSimulation.BotSimulator.RunSimulation |
| bot/strategy.py:210-218, bot/trading_bot_ws.py:207-211 | the live bot builds its frame from the kline buffer, whose candles all carry `is_closed` (bot/trading_bot_ws.py:96-104, bot/websocket_client.py:83-91); the row `check_signal_realtime` appends for the in-progress candle has no `is_closed`, so it is NaN there and `dropna()` (bot/strategy.py:183) removes it | 200 closed candles and an in-progress candle for which the long conditions hold on (last closed, in-progress) but not on the last two closed candles: the source opens nothing, although the method is documented to include the in-progress candle | the realtime check decides with the in-progress candle as its last row | medium, not executed | BotStrategy.BufferRealtimeDecidesOnClosed | BotStrategy.CheckSignalRealtime |
