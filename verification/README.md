# Verified model of a crypto auto-trading system

The system trades coins on signals from technical indicators, first on paper over historical candles, then
live through a broker.  This project models its three computing cores in Dafny and proves what holds over
whole runs.

* **Backtest ledger.** `Rounding`, `Ledger`, `LedgerLaws`, `Trades`, `Overdraft`, `Drawdown`, `Portfolio`, `Results`,
  `Backtest`, `TiedCandles`, `Grid`, `Optimizer`, `MultiSymbol`.  Amounts are exact reals; every explicit `quantize` call is
  round-half-even on its own grid (roundTiesToEven of section 4.3.1 of IEEE 754-2008).  A run is a fold of bars
  (close, time, signal) over a book (cash and holding, trades, equity history); the portfolio, runner and
  optimizer objects are classes whose methods are proved against that fold, and the laws are proved about the fold.
* **Indicator and signal pipeline.** `Market`, `Indicators` (with `MacdIndicator`), `Features`, `Strategies`, and
  what they are in plain sums in `PlainSums`, `IndicatorValues` and `PriceSignals`, and the theorems about runs in
  `Samuelson`, `SignalWindows`, `BollingerRuns`, `MonotoneRuns`, `MacdTrading`, `Affine`, `RunLaws`.
  The four rule strategies share one shape: features, zone, edge against the remembered zone, filter.
* **Live execution.** `Positions`, `Risk`, `StopLoss`, `Orders`, `Events` hold the components, each method
  one atomic segment between awaits.  `Live` puts them together as a transition system: every coroutine is a
  record of where it is suspended, an action resumes one of them up to its next await, and what the broker and
  the database answer is part of the action.  `LiveGate`, `LiveProtocol`, `LiveOrders`, `LiveSignals`,
  `LivePieces`, `LiveMoney` and `LivePositions` prove safety of every sequence of actions, `LiveFanOut` ties the event bus to its
  steps, and `LiveRounds` and `LiveScenarios` build concrete runs.

In the live model `passes`, `calls`, `rows`, `applied`, `events` and `ticks` are histories: they record what the
program wrote to the database, the broker or the bus, so that laws can be stated over whole runs.

A purchase can raise a division error: at a price of zero, or when it shrinks under a fee rate of -1.  The runner,
optimizer and multi-symbol methods say exactly when that ends a run without a result.  The laws about books hold of
every sequence of bars; where a run raises they speak of the run in which that purchase is refused.

Functions that the program's arithmetic is modelled by are also pinned down without their own names: `Trades` states
sizes, fees and profits by the rounding rule alone, `IndicatorValues` the indicators by explicit sums and weights,
`PriceSignals` the strategies' signals on closes with every constant written out, and the live orders have the same in
`Risk.JudgeIs`, `Orders.AskedIs`, `Orders.PiecesAre` and `LiveSignals.CallsAreSized`.

## What turned out different from the documents

* `docs/project_evaluation_report_20260320.md:178-189` calls the cooldown check a race.  Between reading the
  last order time (`execution/order_manager.py:88`) and writing it (line 93) nothing is awaited, so it is
  not: `LiveGate.PassesAreSpaced` holds for any number of coroutines in any interleaving.
* The portfolio promises to shrink an order to the available balance (`backtest/runner.py:154`).  The shrunk
  quantity is rounded half-even, so cash can go below zero: `Overdraft.ShrinkCanOverdraw` is a purchase for 3000
  from a balance of 2000, `OverdrawsExactlyWhen` and, without a fee, `FreeTradeOverdrawsWhen` say when it happens,
  `CashFloor` how far it can go, and `CashStaysNonNegative` with `DefaultsAreRoomy` that the default settings never shrink at all up to a price of
  4e11.
* `max_drawdown` is documented as a number from 0 to 1 (`backtest/runner.py:274`).  That holds exactly while
  equity does not turn negative after having been positive: `Drawdown.MaxDrawdownIsLargestFall`.  The overdrawing
  purchase above, followed by falling closes, is a run in which it does not: `Overdraft.InsolventRun` ends with a
  drawdown of 1.4995, and 1.999 as its largest fall.
* The daily loss limit (`execution/risk.py:38`) never accumulates: nothing calls `record_loss`, so each sale is
  held against the whole limit alone: `LivePositions.LossLimitIsPerSale`.  In `LiveScenarios.DailyLimitIsPassed` two
  sales on one day lose 100 under a limit of 60.
* A sale is not "the whole holding" (comment at `execution/order_manager.py:97`): `LiveSignals.CallsFollowSignals`
  shows the quantity to depend on the price alone, `LiveScenarios.SaleFlattensWhen` when it suffices, and
  `SaleLeavesTheRest` is a run in which half a coin stays.
* The stop-loss monitor (`execution/stop_loss.py:11`) is re-armed by a price event that sees the symbol closed, not by
  the close itself: `LiveScenarios.UnseenReopeningIsUnprotected`, and `ReopenedAndUnprotected` is such a run.
* Of candles with equal timestamps a backtest takes the first listed first (`backtest/runner.py:341`), and its result
  can depend on that: `TiedCandles.TiedRunsDiffer`.
* The forced close at the end of a backtest carries its own label, so the win rate and the profit factor do not
  see it, and the live position book would ignore it: `Results.ForcedCloseIsUncounted`,
  `Positions.ForcedCloseIsNotAFill`.

## Model

| member | source | states |
|---|---|---|
| Rounding.RoundHalfEven | backtest/runner.py:197-198 | the nearest integer, an exact half going to the even neighbour |
| Rounding.QuantizeNear | backtest/runner.py:203-206 | quantising moves a value by at most half a grid unit and lands on the grid |
| Rounding.QuantizeMonotone | backtest/runner.py:203-206 | quantising keeps order |
| Rounding.QuantizeOnGrid | execution/order_manager.py:103 | grid values are unchanged |
| Rounding.QuantizeNearest | backtest/runner.py:248 | no grid value is nearer than the chosen one |
| Rounding.QuantizeOdd | backtest/runner.py:253 | rounding the magnitude and restoring the sign, as decimals do, gives the same value |
| Rounding.QuantizeIsRounded | backtest/runner.py:197-198 | the result is a multiple of 0.01, or 0.00000001, at most half a unit away, and an even multiple at exactly half |
| Rounding.RoundedOnce | backtest/runner.py:197-198 | that rule leaves one value only |
| Rounding.QuantityWorth | execution/order_manager.py:97-103 | a quantity rounded from an amount at a positive price is worth that amount up to half a unit |
| LedgerLaws.EquityDuringRun | backtest/runner.py:383-414 | at every candle equity is initial cash plus market gain minus fees so far |
| LedgerLaws.SelfFinancing | backtest/runner.py:383-435 | final minus initial balance is exactly the held quantity times close-to-close moves, less every fee; nothing is held at the end |
| LedgerLaws.PlayReconciles | backtest/runner.py:246-257 | during a run cash, cost basis and reported profits reconcile up to half a cent for each trade |
| LedgerLaws.PnlMatchesCash | backtest/runner.py:383-435 | the profits over all trades, forced close included, differ from the change in cash by at most 0.005 for each trade |
| Trades.BuysWhen | backtest/runner.py:193-210 | a purchase happens iff the order amount is above 1000 and its rounded size, shrunk where size and fee exceed the balance, is positive |
| Trades.RaisesWhen | backtest/runner.py:193-207 | a purchase raises iff the order amount is above 1000 and has no size |
| Trades.ExecuteMeans | backtest/runner.py:186-268 | what each bar trades in plain numbers: size, fee in whole cents, cash, weighted cost, and a sale's profit with the rounded fee on its cost |
| Trades.RunFigures | backtest/runner.py:198-254 | every trade of every run, forced close included, carries the fee quantity * price * rate rounded to cents, and a sale the profit after the rounded fee on the cost of the position its earlier trades leave |
| Trades.EquityHistoryIs | backtest/runner.py:179-184 | the recorded equity is the opening balance and then cash plus holding at each close before that candle's trade |
| Overdraft.CostNear | backtest/runner.py:197-199 | a purchase costs its quantity at the fee-inclusive price up to half a cent |
| Overdraft.ShrunkCost | backtest/runner.py:201-207 | a shrunk purchase costs at most the balance plus half a quantity unit at the fee-inclusive price and half a cent |
| Overdraft.ShrinkLeaves | backtest/runner.py:203-207 | the balance a shrunk purchase leaves is exactly minus the errors of its two roundings, quantity and fee |
| Overdraft.OverdrawsExactlyWhen | backtest/runner.py:193-212 | a purchase makes cash negative iff it goes through shrunk and its number of quantity units is rounded up by more than half a cent's worth, or down by less than that and the fee up by more |
| Overdraft.ExcessSign | backtest/runner.py:203-205 | the quantity adds to the cost iff the exact number of units has a fraction above one half, or of one half over an odd number |
| Overdraft.FreeTradeOverdrawsWhen | backtest/runner.py:193-212 | without a fee: iff it goes through shrunk and that number rounds up |
| Overdraft.ShrinkCanOverdraw | backtest/runner.py:201-212 | a concrete purchase that overdraws by 1000 |
| Overdraft.CashAfterBar | backtest/runner.py:193-212 | one candle leaves cash above the floor or no lower than it was |
| Overdraft.CashFloor | backtest/runner.py:383-435 | for fee rates up to one half cash over a whole run never drops below minus (half a quantity unit at the highest gross price plus half a cent) |
| Overdraft.NoShrink | backtest/runner.py:193-201 | below a price set by ratio and fee the shrink branch is not taken |
| Overdraft.CashStaysNonNegative | backtest/runner.py:383-435 | there cash and every recorded equity stay non-negative through the run and after it |
| Overdraft.DefaultsAreRoomy | backtest/runner.py:158-164 | the default fee and ratio qualify up to a price of 4e11 |
| Overdraft.RunDrawdown | backtest/runner.py:273-285 | there the drawdown of the run is the largest fall between any two recorded equities, from 0 to 1 |
| Drawdown.MaxDrawdownIsLargestFall | backtest/runner.py:273-285 | one pass equals the maximum over all pairs while equity stays non-negative once positive, and the result is at most 1 if and only if it does |
| Drawdown.DrawdownNeverFalls | backtest/runner.py:270-285 | recording more equity never lowers the drawdown |
| Overdraft.InsolventRun | backtest/runner.py:273-285 | a run over three candles whose drawdown is 1.4995, above one, while its largest fall is 1.999 |
| Portfolio.SimulatedPortfolio.constructor | backtest/runner.py:160-170 | opening cash, no holdings, equity history of one entry |
| Portfolio.SimulatedPortfolio.Buy | backtest/runner.py:186-233 | new account, trade and refusals are those of the ledger, and in plain numbers: when it buys, how much, the fee in whole cents, the cash and the weighted cost; it raises exactly when a division is by zero, and then changes nothing |
| Portfolio.SimulatedPortfolio.SizeOrder | backtest/runner.py:197-207 | quantity and fee, recomputed where they exceed the balance |
| Portfolio.SimulatedPortfolio.AddHolding | backtest/runner.py:214-223 | quantities add and the average price is weighted |
| Portfolio.SimulatedPortfolio.Sell | backtest/runner.py:235-268 | sells everything of the symbol, fee and cost fee each in whole cents, profit and cash accordingly; nothing happens without a holding |
| Portfolio.SimulatedPortfolio.TotalEquity | backtest/runner.py:179-184 | cash plus every holding at its current price, or its average price if there is none |
| Portfolio.SimulatedPortfolio.RecordEquity | backtest/runner.py:270-271 | appends that equity |
| Portfolio.SimulatedPortfolio.MaxDrawdown | backtest/runner.py:273-285 | the loop computes the one-pass drawdown of the recorded history |
| Portfolio.HoldingsValueSplit | backtest/runner.py:180-183 | the sum does not depend on the order holdings are visited in; each counts at its current price, or at its average price without one |
| Results.WinRateMeans | backtest/runner.py:86-98 | a fraction of the sales: 1 iff there are sales and all won, 0 iff none did |
| Results.ProfitFactorMeans | backtest/runner.py:112-119 | above one or infinite if and only if the counted sales made money together |
| Results.WinnersAndLosersAre | backtest/runner.py:78-93 | the winners are exactly the sales with a profit, the losers the other sales |
| Results.WinRateIs | backtest/runner.py:95-98 | the rate times the number of sales is the number of winners |
| Results.ProfitFactorIs | backtest/runner.py:112-119 | the factor times the losers' loss is the winners' profit; infinite or zero where nothing was lost |
| Results.ForcedCloseIsUncounted | backtest/runner.py:79-80 | the sale figures of a run are those without its forced close, whose profit is the rest of the total |
| Results.ReturnBehindTheFigures | backtest/runner.py:64-119 | the return is winners less losers plus the forced close, up to half a cent a trade |
| Market.MarketSnapshot.UpdateTick | market/snapshot.py:43-44 | the ticks kept are again the last received for every symbol |
| Market.LatestTickIsLast | market/snapshot.py:43-50 | the last tick for a symbol is one of its ticks with none of them after it |
| Market.MarketSnapshot.UpdateCandle | market/snapshot.py:46-47 | every symbol's log is again its candles in arrival order |
| Market.MarketSnapshot.GetCandles | market/snapshot.py:52-53 | the last limit candles of the symbol's log |
| Market.MarketSnapshot.GetTick | market/snapshot.py:49-50 | the last tick received for the symbol, if any |
| Market.MarketSnapshot.GetPrice | market/snapshot.py:55-57 | the price of the last tick received for the symbol, if any |
| Indicators.ComputeEma | data/processor/indicators/moving_average.py:19-27 | the loop computes the recurrence, or nothing below the window |
| Indicators.RsiInRange | data/processor/indicators/rsi.py:11-27 | the index lies between 0 and 100: 100 iff nothing was lost in the window, 0 iff something was lost and nothing gained |
| IndicatorValues.SmaIsAverage | data/processor/indicators/moving_average.py:12-16 | the total of the latest prices over their number |
| IndicatorValues.EmaIsExponential | data/processor/indicators/moving_average.py:19-27 | one weighted sum of all prices: the newest weighs 2 / (w + 1), each older one 1 - 2 / (w + 1) times that of the next, the first is the seed |
| IndicatorValues.EmaOneMore | data/processor/indicators/moving_average.py:23-26 | (w + 1) times the new average is twice the price plus w - 1 times the old average |
| IndicatorValues.RsiIs | data/processor/indicators/rsi.py:13-27 | times rises plus falls among the latest period + 1 prices it is a hundred times the rises; 100 without falls |
| IndicatorValues.MacdIs | data/processor/indicators/macd.py:20-48 | line, signal line over every prefix of at least slow + signal prices, and histogram as weighted sums |
| IndicatorValues.BandsAre | data/processor/indicators/bollinger.py:20-27 | symmetric about the mean, n times the squared distance being num_std squared times the squared deviations; the upper one higher unless num_std is negative and the window not flat |
| IndicatorValues.ZonesOnPrices | data/processor/indicators/bollinger.py:20-27 | a close is at a band iff it is num_std deviations out on its side of the mean |
| MacdIndicator.ComputeMacd | data/processor/indicators/macd.py:20-48 | the loop over prefixes computes line, signal line and histogram of the recomputed history |
| MacdIndicator.MacdReady | data/processor/indicators/macd.py:20-45 | a reading exists iff there are slow + 2 * signal - 1 prices (for fast <= slow; the exact count otherwise) |
| MacdIndicator.MacdIsOnePass | data/processor/indicators/macd.py:23-48 | recomputing every prefix gives exactly the reading of a single online pass |
| Samuelson.CauchySchwarz | data/processor/indicators/bollinger.py:21-23 | the squared total deviation is at most the count times the squared deviations |
| Samuelson.LatestWithin | data/processor/indicators/bollinger.py:20-24 | the latest price is within sqrt(n - 1) standard deviations of the mean |
| Samuelson.VarianceZeroIffFlat | data/processor/indicators/bollinger.py:23 | the variance is zero exactly for a flat window |
| Samuelson.WideBands | data/processor/indicators/bollinger.py:20-27 | if num_std squared exceeds window - 1 the latest close is strictly inside the bands, or on both when the window is flat |
| FeatureBuilding.BuildGives | data/processor/feature_builder.py:73-93 | features exist iff the required count is there, always with long average and index, with the short average iff its window is filled |
| Strategies.MACrossoverStrategy.EvaluateFeatures | strategy/impl/ma_crossover.py:117-155 | signal and new memory are those of the crossover automaton |
| Strategies.MACrossoverStrategy.UpdateParams | strategy/impl/ma_crossover.py:65-69 | the named parameters are replaced, the others kept, the memory cleared |
| Strategies.UpdatesAccumulate | strategy/base.py:60-62 | two updates amount to one naming the keys of both, the later value winning |
| Strategies.MergeSets | strategy/base.py:60-62 | every named key sets its own parameter, every other parameter is kept |
| Strategies.RsiStrategy.EvaluateRsi | strategy/impl/rsi_strategy.py:108-136 | signal and new memory of the zone automaton |
| Strategies.RsiStrategy.EvaluateFeatures | strategy/impl/rsi_strategy.py:100-106 | nothing happens without an index, otherwise the zone automaton's step |
| Strategies.RsiStrategy.UpdateParams | strategy/impl/rsi_strategy.py:54-56 | the named parameters are replaced, the others kept, the memory cleared |
| Strategies.BollingerStrategy.EvaluateBands | strategy/impl/bollinger_strategy.py:113-145 | signal and new memory of the band automaton, silent on a zero band width |
| Strategies.BollingerStrategy.EvaluateFeatures | strategy/impl/bollinger_strategy.py:103-111 | nothing happens without bands, otherwise the band automaton's step |
| Strategies.BollingerStrategy.UpdateParams | strategy/impl/bollinger_strategy.py:52-54 | the named parameters are replaced, the others kept, the memory cleared |
| Strategies.MacdStrategy.EvaluateMacd | strategy/impl/macd_strategy.py:117-143 | signal and new memory of the above/below automaton, silent the first time |
| Strategies.MacdStrategy.EvaluateFeatures | strategy/impl/macd_strategy.py:106-115 | nothing happens without a reading, otherwise the above/below automaton's step |
| Strategies.MacdStrategy.UpdateParams | strategy/impl/macd_strategy.py:57-59 | the named parameters are replaced, the others kept, the memory cleared |
| Backtest.SortKeeps | backtest/runner.py:341-350 | sorting by time keeps exactly the given candles |
| Backtest.NewStrategy | backtest/optimizer.py:127-131 | a constructed strategy remembers nothing |
| Backtest.BacktestRunner.constructor | backtest/runner.py:329-345 | the candles are kept sorted by time |
| Backtest.BacktestRunner.Run | backtest/runner.py:347-435 | result and the strategy's memory afterwards equal the fold of the sorted candles from the memory it started with; no result exactly when there is no candle or a purchase raises, and then the memory is that of the candles up to it |
| Backtest.BacktestRunner.RunCandles | backtest/runner.py:383-435 | all candles and then the forced close give the result of the fold |
| Backtest.BacktestRunner.PlayCandles | backtest/runner.py:383-414 | the loop over snapshot, portfolio and strategy objects computes the ledger's fold, and stops at the first purchase that raises |
| Backtest.RaisedForGood | backtest/runner.py:383-414 | a run that has raised takes up no further candle |
| Backtest.BacktestRunner.OneCandle | backtest/runner.py:384-414 | equity is recorded before the strategy reacts, on the closes visible at that candle |
| Backtest.BacktestRunner.EvaluateSnapshot | backtest/runner.py:388-395 | the strategy reacts to the closes of its look-back window, or not at all below the required count |
| Backtest.BacktestRunner.ActOn | backtest/runner.py:397-414 | a buy signal buys, a sell signal sells, anything else does nothing |
| RunLaws.SignalAt | backtest/runner.py:383-395 | the signal at a candle depends only on the candles up to it |
| RunLaws.NoBuyNoTrade | backtest/runner.py:243-244 | a run without buy signals makes no trade and returns the initial balance |
| RunLaws.OrderDoesNotMatter | backtest/runner.py:341-350 | with distinct timestamps a run depends only on which candles were given |
| RunLaws.PeriodCoversCandles | backtest/runner.py:427-435 | a result's period runs from the earliest to the latest given candle |
| TiedCandles.SortIsStable | backtest/runner.py:341-350 | sorting keeps the candles of every timestamp in the order they were given, for every list |
| TiedCandles.TiedRunsDiffer | backtest/runner.py:341-350 | two orders of the same four candles, two of them simultaneous: one backtest ends with 22000, the other with 10000 |
| RunLaws.ReadsWhen | data/processor/feature_builder.py:73-79 | a strategy reads an indicator at a candle iff enough candles have arrived and its own look-back is long enough |
| RunLaws.MacdReadsWhen | strategy/impl/macd_strategy.py:51-55 | MACD is read from candle max(20, slow + 2 * signal - 1) on if signal <= 16, otherwise never |
| RunLaws.BlindStrategyNeverTrades | backtest/runner.py:372-379 | a strategy whose look-back is too short returns the initial balance on every run |
| RunLaws.SignalsIgnoreTheUnit | strategy/impl/ma_crossover.py:117-155 | replacing every close p by a * p + c with a > 0 changes no signal and no memory of any of the four strategies |
| Affine.ViewRescaled | data/processor/feature_builder.py:73-93 | the zone and filters a strategy sees are the same in the new unit |
| Affine.RsiRescaled | data/processor/indicators/rsi.py:16-27 | the RSI is unchanged |
| Affine.SmaRescaled | data/processor/indicators/moving_average.py:12-16 | a simple average moves with the unit |
| Affine.EmaRescaled | data/processor/indicators/moving_average.py:23-27 | the EMA recurrence moves with the unit |
| Affine.BandsRescaled | data/processor/indicators/bollinger.py:20-27 | the bands move with the unit |
| Affine.MacdRescaled | data/processor/indicators/macd.py:23-48 | MACD is above its signal line in the new unit iff it was in the old |
| SignalWindows.MemoryIsLatestZone | strategy/impl/rsi_strategy.py:108-118 | over a run of a fresh strategy the remembered zone is the one seen at the latest candle |
| SignalWindows.SignalFromTwoWindows | backtest/runner.py:383-395 | so the stateful strategies are functions of two successive windows of closes |
| SignalWindows.RsiSignals | strategy/impl/rsi_strategy.py:100-136 | buys iff the index returned to the neutral band from below it, sells iff from above it |
| SignalWindows.CrossoverSignals | strategy/impl/ma_crossover.py:117-155 | buys iff the short average is newly above the long one and the index at most 70; sells iff newly below and the index at least 30 |
| SignalWindows.MacdSignals | strategy/impl/macd_strategy.py:106-143 | signals iff two successive readings lie on different sides of the signal line |
| SignalWindows.BollingerSignals | strategy/impl/bollinger_strategy.py:103-145 | buys iff the close came back inside from the lower band, sells iff from the upper |
| PriceSignals.LookBackIs | backtest/runner.py:372-379 | the closes a strategy sees: the latest of its symbol, up to its own windows plus 15 |
| PriceSignals.DefaultLookBackIs | data/processor/feature_builder.py:75-77 | without a given look-back a builder takes ten candles more than it needs |
| PriceSignals.RsiOnPrices | strategy/impl/rsi_strategy.py:100-136 | its signals on closes: rises and falls against the two levels, before and now |
| PriceSignals.CrossoverOnPrices | strategy/impl/ma_crossover.py:117-155 | its signals on closes: the two averages before and now, and the strength against 70 and 30 |
| PriceSignals.MacdOnPrices | strategy/impl/macd_strategy.py:106-143 | its signals on closes: the sign of the weighted sums before and now |
| PriceSignals.BollingerOnPrices | strategy/impl/bollinger_strategy.py:103-145 | its signals on closes: out at a band before and inside now |
| BollingerRuns.WideSignals | strategy/impl/bollinger_strategy.py:103-145 | with such wide bands the exact signals of a fresh strategy: a buy where a flat stretch ends, nothing else |
| BollingerRuns.NoFlatWindowNoTrade | strategy/impl/bollinger_strategy.py:103-145 | so a run without flat windows emits no signal and returns the initial balance |
| MonotoneRuns.LatestMeanHighest | data/processor/indicators/moving_average.py:12-16 | on rising prices a shorter average is at least a longer one |
| MonotoneRuns.LatestMeanLowest | data/processor/indicators/moving_average.py:12-16 | on falling prices at most |
| MonotoneRuns.NoLossOverbought | data/processor/indicators/rsi.py:20-24 | prices that never fall have RSI 100 |
| MonotoneRuns.MonotoneRunDoesNotTrade | strategy/impl/ma_crossover.py:117-155 | a crossover backtest on monotone closes makes no trade and returns exactly the initial balance |
| MacdTrading.MacdAlternates | strategy/impl/macd_strategy.py:117-143 | MACD signals strictly alternate between buy and sell |
| MacdTrading.AlternatingRun | backtest/runner.py:383-425 | alternating signals give a paired trade list and profits that equal the return exactly |
| MacdTrading.MacdBacktest | strategy/impl/macd_strategy.py:106-143 | so every MACD backtest has alternating trades, each buy closed, and no rounding gap |
| Grid.ProductChooses | backtest/optimizer.py:104 | every product row takes each entry from its list |
| Grid.ProductInOrder | backtest/optimizer.py:104 | rows come in lexicographic order of positions |
| Grid.CombinationsAreComplete | backtest/optimizer.py:101-104 | the combinations are exactly the assignments of a listed value to every parameter |
| Grid.CombinationsAreDistinct | backtest/optimizer.py:101-104 | with no value listed twice no combination comes twice |
| Grid.CombinationsInOrder | backtest/optimizer.py:101-104 | an earlier combination takes the earlier value at the first parameter that differs |
| Optimizer.StrategyOptimizer.RunOne | backtest/optimizer.py:127-143 | one combination is a backtest of a fresh strategy, scored by the metric, or its error |
| Optimizer.StrategyOptimizer.Run | backtest/optimizer.py:116-158 | every combination evaluated once in order and the best is the first maximum; no result exactly when some combination's backtest raises |
| Optimizer.ScoreIs | backtest/optimizer.py:106-114 | which figure each metric maximises, with 999 for an infinite profit factor |
| Optimizer.OptimumIsFirstMaximum | backtest/optimizer.py:145-147 | no assignment from the grid scores higher, and none before it scores as high |
| Optimizer.SearchIgnoresCandleOrder | backtest/optimizer.py:132-141 | with distinct timestamps the order of the candles changes no evaluation |
| MultiSymbol.FromPricesInOrder | backtest/runner.py:453-465 | generated candles are in time order already |
| MultiSymbol.FromPricesAre | backtest/runner.py:453-465 | the i-th candle closes at the i-th price, i minutes after the start |
| MultiSymbol.MultiSymbolBacktestRunner.Run | backtest/runner.py:565-592 | one independent backtest for each symbol on an even share, the final balance their sum; no result exactly when a symbol has no prices or its backtest raises |
| MultiSymbol.TotalIsMeanOfSymbols | backtest/runner.py:484-493 | the total return is the sum of the symbols' returns and its percentage the mean of theirs |
| MultiSymbol.TotalPnlMatchesReturn | backtest/runner.py:565-592 | all reported profits together explain the total return up to half a cent a trade |
| Positions.PositionManager.OnOrderFilled | portfolio/position.py:50-68 | the symbol's position becomes the fill applied to it; other symbols untouched |
| Positions.PositionManager.GetAllPositions | portfolio/position.py:100-101 | exactly the open positions |
| Positions.LowestIsLeast | portfolio/position.py:65-67 | the lowest running total is a minimum over all prefixes |
| Positions.Reflection | portfolio/position.py:60-68 | after any non-negative fills the quantity is the signed total less the least partial total |
| Positions.AverageWithinPaid | portfolio/position.py:60-63 | while open the average price lies between the least and greatest price paid since last flat |
| Positions.BooksAgree | backtest/runner.py:214-223 | a backtest's trades fed to the live book keep quantity, average price and openness equal at every step |
| Positions.SalePnlIsUnrealized | backtest/runner.py:246-257 | in every run each sale, forced close included, sells exactly the live position its earlier trades leave, and its profit is that position's unrealised profit less the two fees |
| Positions.ForcedCloseIsNotAFill | backtest/runner.py:423-425 | over the complete list the books agree iff nothing was force-closed |
| Risk.RiskManager.Check | execution/risk.py:58-110 | verdict, clamped quantity, the division error and the daily reset, in the program's order |
| Risk.RiskManager.RecordLoss | execution/risk.py:112-115 | only positive amounts are added |
| Risk.RiskManager.ResetDailyLoss | execution/risk.py:118-121 | the counter is zero and the date today's |
| Risk.ClampWithinLimit | execution/risk.py:68-78 | a clamped order costs at most the limit and half a quantity unit, and clamping never raises an on-grid quantity |
| Risk.ClampIs | execution/risk.py:68-78 | up to the limit the quantity is unchanged, above it what the limit buys, in whole units |
| Risk.JudgeIs | execution/risk.py:68-110 | the whole verdict in plain numbers: division error, loss limit, ratio limit, or the quantity let through |
| Risk.ApprovedBuy | execution/risk.py:68-110 | a buy is approved iff clamping it does not divide by zero and value * (1 - ratio) <= ratio * available, or cash and value are not positive and the ratio limit not negative |
| StopLoss.StopLossMonitor.OnPriceUpdated | execution/stop_loss.py:56-93 | triggered set and sell decision of one price event: a sell iff the position is open, not triggered, and the price at most average * (1 - stop) or at least average * (1 + take) |
| StopLoss.CrossesAtThreshold | execution/stop_loss.py:79-90 | the test on the return is that one on the price; never for a cost of zero, turned round for a negative average |
| StopLoss.TriggeredIsPending | execution/stop_loss.py:76-93 | a symbol is triggered iff a sell went out and no later event saw it closed |
| StopLoss.SellsExactlyWhen | execution/stop_loss.py:71-106 | a sell goes out exactly at an event that shows an open position across a threshold with no sell pending |
| StopLoss.ClosedBetweenSells | execution/stop_loss.py:76-82 | between two sells for a symbol some event saw it closed |
| Orders.OrderManager.PassGate | execution/order_manager.py:83-103 | hold test, gate test, gate write and sizing as one atomic segment; the quantity is the default amount at the price, rounded to whole units |
| Orders.AskedIs | execution/order_manager.py:97-103 | that quantity by the rounding rule, and its worth |
| Orders.PiecesAre | execution/order_manager.py:117-130 | purchases are split when the count is above one, into that many equal pieces rounded to whole units |
| Orders.SizingChain | execution/order_manager.py:95-132 | all pieces together cost at most max_order_krw plus (n + 1) half quantity units at the price |
| Events.EventBus.Subscribe | core/event.py:51-52 | appends the handler for that type only |
| Events.EventBus.Publish | core/event.py:55-62 | starts the fan-out to the handlers subscribed at that moment, and with none returns at once |
| Events.FailuresAreLogged | core/event.py:59-68 | whatever order the handlers finish in, exactly those that raised are logged, each once, and publish returns only after all have finished |
| Events.FailuresAreIsolated | core/event.py:59-68 | which handlers raise changes neither which start or finish nor when publish returns |
| LiveFanOut.FanOutIsLive | core/event.py:55-68 | with any other handlers beside it, the position handler takes a submission through exactly the live model's stages, and publish returns only after the position was updated |
| LiveGate.VerdictKeepsTheCooldown | execution/order_manager.py:93-111 | whatever the risk verdict the recorded pass stays |
| LiveGate.GateHolds | execution/order_manager.py:86-93 | the remembered time is the symbol's last pass, in every reachable state |
| LiveGate.PassesWhen | execution/order_manager.py:83-93 | a resumed signal passes iff it is no HOLD and its symbol's last pass, if any, is at least the cooldown ago |
| LiveGate.PassesAreSpaced | execution/order_manager.py:86-93 | under every interleaving successive passes of a symbol are at least the cooldown apart |
| LiveGate.PassesInWindow | execution/order_manager.py:86-93 | a window of length w sees k passes only if (k - 1) * cooldown <= w |
| LiveProtocol.ProtocolHolds | execution/order_manager.py:148-227 | in every reachable state each submission has published what its stage says, and rows and applied fills are those of the stages |
| LiveProtocol.OneOutcomeEach | execution/order_manager.py:194-227 | a submission publishes at most one outcome, exactly one when finished unless the failure write failed too |
| LiveProtocol.RowsAreFills | execution/order_manager.py:176-206 | trade rows are the applied fills and the in-flight ones, each once |
| LiveProtocol.QuiescentBooksAgree | execution/order_manager.py:176-206 | with nothing in flight trade rows and applied fills are the same multiset |
| LiveProtocol.DeskAfter | execution/order_manager.py:105-146 | only an approval, the next piece of a split order or a resumed submission changes what is submitted; a rejected signal submits nothing |
| LiveOrders.PassHolds | execution/order_manager.py:117-146 | each pass has one planned order submitted at most its piece count of times |
| LiveOrders.SubmittedWithinLimit | execution/order_manager.py:113-146 | everything one pass submits, over all pieces and interleavings, keeps to the order limit and its roundings |
| LiveOrders.SubmissionsWithinPasses | execution/order_manager.py:134-146 | total submissions never exceed the split count times the passes |
| LiveSignals.CallsFollowSignals | execution/order_manager.py:95-146 | each submission is the order of the one signal that passed for it, its quantity depending on the price alone |
| LiveSignals.CallsAreSized | execution/order_manager.py:95-146 | each submission's symbol, side, price and, step by rounded step, quantity |
| LiveSignals.UnsplitCallsAreWorth | execution/order_manager.py:97-132 | an unsplit one is worth the default amount, or the order limit where that is exceeded, up to half a unit |
| LivePieces.ExecutedSubmission | execution/order_manager.py:168-206 | executed and committed: one row, one event, one applied fill |
| LivePieces.FailedSubmission | execution/order_manager.py:208-227 | refused or not committed: no row, no fill, and the failure published iff it could be recorded |
| LivePieces.OnePieceUnderWay | execution/order_manager.py:134-146 | in every run at most one piece of a split order is under way, and its coroutine waits exactly then |
| LivePieces.AllPiecesAreSubmitted | execution/order_manager.py:138-146 | with every piece executed exactly the split count of equal orders is submitted, and none after |
| LiveSignals.OrderRate | execution/order_manager.py:75-146 | submissions for a symbol are at most split count times its k passes, and k passes take k - 1 cooldowns |
| LiveMoney.PurchasesAreBacked | execution/order_manager.py:105-146 | every purchase sent to the broker was approved by a risk check of its pass at a cash amount with value * (1 - ratio) <= ratio * available |
| LiveMoney.MoneyRate | execution/order_manager.py:86-146 | by time T the orders sent for a symbol are worth at most (T / cooldown + 1) times the order limit and its roundings at the highest price |
| LivePositions.PositionsAreCurrent | portfolio/position.py:50-70 | in every reachable state a position is the fold of its symbol's applied fills |
| LivePositions.QuiescentPosition | portfolio/position.py:60-68 | with nothing in flight a position is what the trade table sums to plus whatever was sold beyond the holding |
| LivePositions.MonitorWatches | execution/stop_loss.py:56-93 | under every interleaving the triggered set is the fold of the events handled |
| LivePositions.TriggeredWhilePending | execution/stop_loss.py:76-93 | in every reachable state a symbol is triggered iff its sell is pending |
| LivePositions.PriceEventSells | execution/stop_loss.py:92-106 | a sell signal starts exactly at a selling event, judged on the position all applied fills leave |
| LivePositions.NoLossIsRecorded | execution/risk.py:112-116 | the daily loss is zero in every reachable state |
| LivePositions.LossLimitIsPerSale | execution/risk.py:80-95 | so a sale is refused iff its open loss alone exceeds the whole daily limit |
| LiveRounds.RoundRuns | execution/order_manager.py:66-206 | an approved signal undisturbed takes six actions from the gate to the updated position |
| LiveScenarios.DailyLimitIsPassed | execution/risk.py:80-95 | a run of two sales on one day, each with an open loss of 50 under a limit of 60, both submitted and executed |
| LiveScenarios.SaleFlattensWhen | execution/order_manager.py:97-103 | a sale executed as submitted leaves the symbol flat iff the holding is at most the clamped default quantity at its price |
| LiveScenarios.SaleLeavesTheRest | execution/order_manager.py:97-103 | a run in which such a sale leaves half a coin |
| LiveScenarios.UnseenReopeningIsUnprotected | execution/stop_loss.py:71-77 | after a stop sell any fills may close and reopen the position: with no price event for the symbol between, the next one starts no signal |
| LiveScenarios.ReopenedAndUnprotected | execution/stop_loss.py:71-77 | a run that does so, with the reopened position far beyond the stop |

## Left out

- Brokers, alerts, database schema and sessions, migrations, the scheduler, start-up wiring, the Redis bus and the strategy store: I/O; in the live model a broker answer and the result of a write are part of the action.
- Dashboard API, charts, reports and printed summaries: rendering.
- The machine-learning strategy and the training branch of a backtest: the classifier is opaque.
- Vote aggregation, the strategy registry and the abstract base class: they would add only easy members.
- Sharpe ratio, average profit and loss, signal strength and metadata: reporting values; with them the division by a zero long average or band middle while such a value is computed.
- Float rounding in percentages and scores and the 28-digit decimal context: arithmetic is exact and only the explicit quantisations round. Scores that differ by less than a float can tell are ties in the program.
- The square root of the Bollinger bands is a parameter `root`, any function with root(v) >= 0 and root(v)^2 = v.
- Strategy parameters: averaging windows below one, where the program divides by zero or slices oddly, are excluded by types. A parameter key that belongs to another strategy is ignored; in the program a window key set on a strategy that does not use it still reaches the backtest's feature builder.
- Backtest.BacktestRunner.constructor: the error for an explicitly empty candle list is a precondition; an empty list given to the run itself yields no result.
- MultiSymbol.MultiSymbolBacktestRunner.constructor: the error for an empty price table is a precondition.
- MultiSymbol.MultiSymbolBacktestRunner.Run: the strategy factory is a function from the symbol to parameters of a fresh strategy; a factory that hands out one shared object is not modelled.
- Optimizer.StrategyOptimizer.Run: the constructor's error for an unsupported metric is not modelled; the metrics are a datatype.
- The strategies' on_tick paths, with their own look-backs, and strategy names are not modelled; a live strategy is an arbitrary source of signals.
- Drawdown.MaxDrawdownIsLargestFall: for a history that turns negative after being positive the largest fall itself is not characterised, only that the one-pass value exceeds 1.
- Live coroutines cannot be cancelled and the process does not stop; a commit that reports failure is taken not to have happened.
- The risk check of a sale does not suspend in the program; the model lets other coroutines run before any check, which only adds behaviours. The interval between pieces is likewise arbitrary.
- Handlers of ORDER_FILLED other than the position manager's in-memory update appear in the fan-out only as starting, raising and finishing; the position's database record is left out.
- The submission and split-order coroutines are steps of the transition system rather than methods; the order record they fill in is left out.
- Live.State holds values, not objects: the component classes are proved against the same functions the transition system uses, and the transition system itself does not capture aliasing between them.
- Nothing is claimed about progress: a sell dropped by the cooldown or the risk check is not repeated.
