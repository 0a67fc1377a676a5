# XAUUSD strategy optimiser — a Dafny model

This project models the core of an XAUUSD (gold) strategy optimiser and of
its live signal endpoint.

The optimiser works in four stages:
- It aggregates raw ticks into fixed-interval OHLC bars per timeframe.
- It splits the work into one job per CPU core and chart.
- Each worker samples random strategy parameter sets and backtests each set
  bar by bar on the chart. The backtest uses an RSI entry rule, ATR-based
  stops, Fibonacci take-profit multiples, spread and commission.
- The main thread ranks all scored sets and summarises the best set's trade
  ledger.

The live endpoint (`controller/xauusd.js`) works in three steps:
- It validates a request from the trading terminal.
- It derives a BUY, a SELL or no trade from the trend and two RSI readings.
- It sizes the position from the account balance.

Modules:

- `Numeric`: absolute value, clamping, and JavaScript's
  `parseFloat(x.toFixed(n))` as `ToFixed`. `ToFixed` rounds half away from
  zero; its monotonicity, error bound, sign and idempotence are proved.
- `Market`: the configuration constants and the entities (tick, bar, chart,
  parameter set, trade record, backtest result, scored set).
- `BarAggregation`: `tickToBarConversion` as a fold over the time-sorted
  ticks, and an imperative method that sorts the tick array in place and
  runs the loop. The method is proved to compute the fold.
- `Sorting`: an in-place insertion sort of an array by a numeric key. It
  stands in for `Array.prototype.sort` with a numeric comparator.
- `Sampler`: `generateRandomProperty` as a function of the `Math.random()`
  draws it consumes.
- `Rsi`: the worker's simple-average RSI as a series, and the worker's
  nested loops proved to compute it.
- `Backtest`: `run_backtest_on_data`.
  - One iteration is a pure `BarStep` over a `SimState` that holds the
    loop's local variables. `Run` is the fold over the bars.
  - An imperative method with the worker's loop is proved to return
    `BacktestSpec`.
  - An invariant (`Consistent`) is proved for every state of a run.
- `Worker`: the per-chunk loop that samples, backtests and scores
  `propCount` parameter sets.
- `Jobs`: the job plan of the orchestrator: which charts get workers, how
  many, and how many sets each samples.
- `Metrics`: the reductions of `calculateMetricsAndSaveHistory`: running
  balance, peak, drawdown, gross profit and loss, win rate and profit factor.
- `Ranking`: the final sort by descending score, the top ten and the best set.
- `Controller`: `getSignal`, `generateTradingSignal` and
  `calculatePositionSize`.

Modelling choices:
- Prices and money are `real`. They are exact, so binary floating point is
  not modelled.
- Instants are integer milliseconds since the epoch.
- The `Math.random()` draws are inputs: the `Draws` datatype, one value in
  [0, 1) per call.

## Model

| member | source | states |
|---|---|---|
| Numeric.Clamp | optimizationWorker.js:164 | `Math.max(Math.min(x, hi), lo)` lies in [lo, hi]. It is x inside the range, lo below it and hi above it. |
| Numeric.ToFixedMonotone | optimizationWorker.js:201-202 | Rounding to n decimals never reverses the order of two numbers. |
| Numeric.ToFixedSign | optimizationWorker.js:147 | Rounding keeps the sign of the number (a negative profit never rounds above 0). |
| Numeric.ToFixedExact | xauusd_optimizer.js:120 | A number with at most n decimals is unchanged by rounding to n decimals. |
| Numeric.ToFixedPositive | xauusd_optimizer.js:144 | A positive rounded value comes from a positive number. |
| Numeric.ToFixedError | controller/xauusd.js:167 | Rounding to n decimals moves a number by at most half a unit in the last kept place. |
| Numeric.ToFixedIdempotent | controller/xauusd.js:76 | Rounding an already rounded number again changes nothing. |
| BarAggregation.BucketStart | xauusd_optimizer.js:113 | The snapped start lies on the bar-duration grid, at or before the tick, less than one duration before it, and in the same bucket. |
| BarAggregation.BucketStartMonotone | xauusd_optimizer.js:113 | A later tick never snaps to an earlier bucket. |
| BarAggregation.Finalize | xauusd_optimizer.js:119-120 | Emitting a bar changes only its atr. The atr is never negative and lies within 0.005 of the bar's range in pips. A flat bar (high = low) gets atr 0, so the final filter drops it. |
| BarAggregation.Positive | xauusd_optimizer.js:148 | The filter keeps exactly the bars with a positive atr: every kept bar is an input bar with atr > 0, and every such input bar is kept. |
| BarAggregation.TickToBarConversion | xauusd_optimizer.js:96-149 | An empty tick list gives no bars at 100 pips per unit. Otherwise the array ends sorted by timestamp, as a permutation of the input. The sort is stable: ticks with equal timestamps keep their input order. The result is the fold `ConvertSorted` of the sorted ticks. |
| BarAggregation.CappedIsFinal | xauusd_optimizer.js:122 | Once the emitted count reaches the cap, later ticks change nothing (the loop has broken). |
| BarAggregation.FeedStep | xauusd_optimizer.js:116-139 | One tick keeps the loop invariant. For a tick not earlier than the open bar, it leaves that tick's bucket open, closing at its mid price, and keeps emitted bars ordered before it. |
| BarAggregation.FeedCloses | xauusd_optimizer.js:116-133 | A tick in a later bucket closes the open bar and opens the tick's bucket, keeping the loop invariant and the order. |
| BarAggregation.FeedAllFacts | xauusd_optimizer.js:109-140 | After any prefix of the ticks, the loop invariant holds and a bar is open. For sorted ticks, the emitted bars are ordered and the open bar is the last tick's bucket. |
| BarAggregation.FlushEmitted | xauusd_optimizer.js:142-146 | After the final push, every bar is well formed and there are at most 10001 bars. |
| BarAggregation.ConvertedBarsWellFormed | xauusd_optimizer.js:96-149 | Every returned bar has low ≤ open, close ≤ high and a start on the bar grid. Its atr equals its rounded range in pips and is positive, so high > low. At most 10001 bars are returned, at 100 pips per unit. |
| BarAggregation.PositiveKeepsOrder | xauusd_optimizer.js:148 | Filtering keeps strictly increasing bar starts strictly increasing. |
| BarAggregation.PositiveAppend | xauusd_optimizer.js:148 | The filter distributes over concatenation. |
| BarAggregation.ConvertedBarsIncreasing | xauusd_optimizer.js:109-148 | For sorted ticks whose run stays under the cap, bar starts are strictly increasing (no bucket appears twice). |
| BarAggregation.LastBarHoldsLastTick | xauusd_optimizer.js:135-146 | For sorted ticks under the cap, the last bar before filtering is the last tick's bucket and closes at that tick's mid price. |
| BarAggregation.CoversStep | xauusd_optimizer.js:116-139 | One sorted tick keeps the run boundaries: each emitted bar summarises the whole run between two consecutive boundaries, the first boundary is the first tick, and the open bar summarises the run from the last boundary to the tick. A tick in a later bucket adds a boundary. |
| BarAggregation.FeedAllCovers | xauusd_optimizer.js:109-140 | For sorted ticks, after any prefix there are run boundaries that the loop state keeps, as in `CoversStep`. |
| BarAggregation.ConvertedBarsPartitionTicks | xauusd_optimizer.js:109-146 | For sorted ticks, the bars before filtering split the ticks into consecutive whole runs, one bar per run. The first run starts at the first tick, each run starts where the previous one ends, and the last ends with the last tick. When the cap is hit, the runs end before the tick that broke the loop, and the last bar is repeated. |
| BarAggregation.ConvertedBarsCoverTicks | xauusd_optimizer.js:109-146 | Without the cap, every sorted tick lies in the run of one of the bars before filtering: no tick is lost. |
| BarAggregation.ConvertedBarsSummariseBuckets | xauusd_optimizer.js:109-146 | For sorted ticks, every bar before filtering summarises a maximal run ticks[lo..hi) of one bucket. Its time is that bucket's start. Its open is the first tick's mid and its close the last tick's mid. Its high and low are the maximum and minimum mid of the run. |
| BarAggregation.CappedRunRepeatsLastBar | xauusd_optimizer.js:116-146 | As written, a run that hits the cap ends with the same bar pushed twice (10001 bars). When that bar's atr is positive, the result repeats it and its starts are not strictly increasing. |
| BarAggregation.ConvertedOnceBarsIncreasing | xauusd_optimizer.js:116-148 | With the final push skipped after the cap, sorted ticks always give strictly increasing starts and at most 10000 bars. |
| Sorting.InsertionSortBy | xauusd_optimizer.js:718 | The array ends sorted by ascending key and is a permutation of its old contents. It is stable: for every key, the elements with that key keep their relative order. |
| Sorting.AdjacentSwapKeepsClasses | xauusd_optimizer.js:718 | Swapping two neighbours with different keys keeps the relative order of each key's elements. |
| Sorting.SortedStableUnique | xauusd_optimizer.js:718 | Two key-sorted sequences in which each key's elements appear in the same order are equal. So a stable sort has exactly one result, the one the engine's stable `Array.prototype.sort` returns. |
| Sampler.AtLeast | optimizationWorker.js:17 | The filtered timeframes are exactly the configured ones not shorter than the chart's. |
| Sampler.NoneAtLeast | optimizationWorker.js:17-18 | When every configured timeframe is shorter than the chart's, none qualifies (so the fallback is taken). |
| Sampler.PickIndex | optimizationWorker.js:27-28 | `Math.floor(u * n)` for a draw u in [0, 1) is a valid index below n. |
| Sampler.LinearDrawInRange | optimizationWorker.js:20-22 | `u * w + lo` for a draw u lies in [lo, lo + w). |
| Sampler.RoundedDrawInRange | optimizationWorker.js:20-22 | Rounding a value in [lo, hi] keeps it in [lo, hi] when both ends are unchanged by the rounding. |
| Sampler.BandEndsAreExact | optimizationWorker.js:20-22 | The band ends 70, 85, 15, 30, 1.5 and 3.5 are unchanged by their rounding. |
| Sampler.GenerateRandomProperty | optimizationWorker.js:15-34 | Instrument and timeframe are copied. The confirmation period is a configured timeframe not shorter than the chart's, or the chart's own above 240. The RSI period is in [7, 21]. The threshold is in [70, 85] when the side draw is below 0.5 and in [15, 30] otherwise. The stop multiplier is in [1.5, 3.5]. The target ratio and pull-back limit are members of their lists. |
| Rsi.Gain | optimizationWorker.js:46-51 | A change's gain is non-negative and positive exactly for a rise. |
| Rsi.Loss | optimizationWorker.js:46-51 | A change's loss is non-negative and positive exactly for a fall. |
| Rsi.GainSum | optimizationWorker.js:45-52 | A window's summed gain is non-negative. |
| Rsi.LossSum | optimizationWorker.js:45-52 | A window's summed loss is non-negative. |
| Rsi.RsiFromSums | optimizationWorker.js:54-58 | The RSI of a window lies in [0, 100). A window without loss gives exactly 100 − 100/201. |
| Rsi.RsiSeries | optimizationWorker.js:36-64 | One value per bar: 50 for the first period + 1 bars, and in [0, 100) everywhere. |
| Rsi.CalculateRsi | optimizationWorker.js:36-64 | The nested loops and the trailing `unshift` loop return exactly `RsiSeries`. |
| Rsi.WindowRsi | optimizationWorker.js:42-59 | The inner loop and the ratio give the RSI of the period changes ending at bar i. |
| Rsi.NoLossIffNoDecline | optimizationWorker.js:45-52 | A window's loss is zero if and only if no close falls below the previous one. |
| Rsi.NoGainIffNoRise | optimizationWorker.js:45-52 | A window's gain is zero if and only if no close rises above the previous one. |
| Rsi.NonFallingWindowSaturates | optimizationWorker.js:57-58 | Past the warm-up, a window whose closes never fall (flat prices included) reads 100 − 100/201, not 50. |
| Rsi.RsiZeroIff | optimizationWorker.js:45-58 | Past the warm-up, the RSI is 0 if and only if the window has a fall and no rise. |
| Rsi.ZeroRsiMeansZeroRs | optimizationWorker.js:57-58 | An RSI of 0 means zero gain and positive loss. |
| Rsi.ZeroGainGivesZeroRsi | optimizationWorker.js:57-58 | Zero gain with positive loss gives an RSI of 0. |
| Backtest.HalfSpread | optimizationWorker.js:93 | Half the spread in price units is positive. |
| Backtest.EntrySignal | optimizationWorker.js:166-173 | LONG if and only if the previous RSI is below a threshold that is below 50. SHORT if and only if it is above a threshold that is above 50. |
| Backtest.LotSize | optimizationWorker.js:159-164 | Lots lie in [0.01, 5]. Inside the clamp, the loss at the stop is exactly 2% of the balance. A raw size below 0.01 gives 0.01 and one above 5 gives 5. |
| Backtest.ExitHit | optimizationWorker.js:109-128 | A long exits if and only if the low reaches the stop or the high the target; a short mirrors it. The exit is a stop-loss if and only if the stop is reached (the stop wins over the target). It exits at the level hit. |
| Backtest.RunBacktestOnData | optimizationWorker.js:66-207 | The worker's loop over mutable state returns exactly `BacktestSpec`: the sentinel result for too few bars, otherwise the fold of `BarStep` over the bars (stopping at ruin), scored and rounded. |
| Backtest.SimulateBars | optimizationWorker.js:95-194 | The bar loop, from bar 1 with the `break` at ruin, ends in exactly the state `Run` gives after the last bar. |
| Backtest.CheckExit | optimizationWorker.js:100-155 | The exit block computes `ExitPhase`. |
| Backtest.CheckEntry | optimizationWorker.js:157-193 | The entry block computes `EntryPhase`. |
| Backtest.RuinIsFinal | optimizationWorker.js:153 | Once the balance is wiped out, no later bar changes the state (the `break`). |
| Backtest.NegativeMoveLoses | optimizationWorker.js:131-135 | A move against the position loses money after commission. |
| Backtest.StopLossLoses | optimizationWorker.js:110-135 | A trade closed at its stop books a negative profit. |
| Backtest.RoundedLotsInRange | optimizationWorker.js:142 | The recorded (rounded) lots stay in [0.01, 5]. |
| Backtest.CloseTradeConsistent | optimizationWorker.js:130-154 | Closing a trade keeps the invariant: its record has rounded lots in range, no profit at a stop-loss, and a direction the threshold allows. |
| Backtest.OpenTradeConsistent | optimizationWorker.js:175-192 | Opening a trade puts the stop on the losing side, the target on the winning side (for a positive ratio) and lots in range. |
| Backtest.EntryPhaseConsistent | optimizationWorker.js:157-193 | The entry check keeps the invariant. |
| Backtest.CloseThenReopen | optimizationWorker.js:100-193 | A bar that closes a trade adds one record exiting at that bar. The same bar opens a new trade, at its own time, if and only if the account survived, the look-back has passed, the stop distance is positive and the previous RSI gives a signal. |
| Backtest.BarStepConsistent | optimizationWorker.js:95-194 | One bar of the loop keeps the invariant. |
| Backtest.RunConsistent | optimizationWorker.js:95-194 | Every state of a run satisfies the invariant. |
| Backtest.HistoryGrows | optimizationWorker.js:140 | The ledger only grows (earlier ledgers are prefixes), by at most one trade per bar. |
| Backtest.BarStepHistory | optimizationWorker.js:140 | One bar keeps the ledger as a prefix and appends at most one record. |
| Backtest.CoreScoreMonotone | optimizationWorker.js:197-201 | The score never decreases with a higher balance or more trades. |
| Backtest.CoreScoreFloor | optimizationWorker.js:197-201 | A run with a non-negative balance scores at least −5, above the sentinel −99999. |
| Backtest.BacktestResultFacts | optimizationWorker.js:66-207 | The sentinel score occurs if and only if there are fewer than period + 1 bars. The trade count equals the ledger's length. The final balance is non-negative. The drawdown is reported as 0. Every ledger entry is well formed. |
| Worker.RunChunk | optimizationWorker.js:214-224 | Exactly `propCount` scored sets, the k-th sampled from the k-th draws and backtested on the chart. |
| Worker.EvaluateTradesOneSide | optimizationWorker.js:214-224 | A sampled set trades in one direction only: long exactly when the side draw picked the oversold band. |
| Worker.EvaluateFacts | optimizationWorker.js:214-224 | The trade count matches the ledger and the balance is non-negative. The score is the sentinel if and only if the chart is shorter than period + 1. On 22 bars or more it never is. |
| Jobs.ChunksPerCore | xauusd_optimizer.js:40 | The ceiling of 10000 / cores: the cores together cover the quota, and one set fewer each would not. |
| Jobs.PlanJobs | xauusd_optimizer.js:441-495 | The nested loops start exactly the jobs of `JobPlan`, and `totalJobs` counts them. |
| Jobs.JobPlanLength | xauusd_optimizer.js:447-456 | There are exactly cores × (charts with at least 50 bars) jobs. |
| Jobs.JobPlanMembers | xauusd_optimizer.js:447-456 | Every job is for a chart with at least 50 bars and samples `ChunksPerCore` sets. |
| Jobs.NoJobsIff | xauusd_optimizer.js:497-499 | No job is started (the run resolves empty) if and only if there are no cores or no chart has 50 bars. |
| Jobs.ChartPropertyBudget | xauusd_optimizer.js:40 | Per eligible chart, between 10000 and 10000 + cores − 1 sets are sampled. |
| Jobs.ThreeCoresOvershoot | xauusd_optimizer.js:40 | Three cores sample 10002 sets per chart, not 10000. |
| Metrics.ProfitableTrades | xauusd_optimizer.js:532 | There are at most as many winning trades as trades. |
| Metrics.GrossProfit | xauusd_optimizer.js:533 | Gross profit is non-negative. |
| Metrics.GrossLoss | xauusd_optimizer.js:534 | Gross loss is non-negative. |
| Metrics.ProfitFactorOf | xauusd_optimizer.js:536 | The factor is infinite if and only if there is profit and no loss. It is 0 with neither. Otherwise it is the non-negative ratio of profit to loss. |
| Metrics.CalculateMetrics | xauusd_optimizer.js:509-537 | Each trade's running balance is the balance after it. The summary is `MetricsOf` the ledger: none for an empty ledger. |
| Metrics.NetProfitSplits | xauusd_optimizer.js:531-534 | Net profit equals gross profit minus gross loss. |
| Metrics.AllProfitableIff | xauusd_optimizer.js:532 | Every trade counts as profitable if and only if every trade's profit is positive. |
| Metrics.WinRateBounds | xauusd_optimizer.js:535 | The win rate lies in [0, 1]. |
| Metrics.ReplayBalance | xauusd_optimizer.js:514-523 | The replay's final balance is the initial balance plus every profit. |
| Metrics.ReplayPeak | xauusd_optimizer.js:519 | The tracked peak is the highest balance reached (the initial one included) and is attained. |
| Metrics.ReplayDrawdown | xauusd_optimizer.js:520 | The tracked drawdown is non-negative. It bounds every fall from a balance to any later one, and it is attained or zero. |
| Metrics.DrawdownPercentBounds | xauusd_optimizer.js:537 | The peak is at least the initial balance and the drawdown percentage is non-negative. It is at most 100 when the balance never goes negative. |
| Metrics.DrawdownAtMostPeak | xauusd_optimizer.js:520 | With no negative balance, the drawdown never exceeds the peak. |
| Metrics.PercentBounds | xauusd_optimizer.js:537 | A drawdown of at most a positive peak is between 0 and 100 per cent of it. |
| Ranking.AscendingNegationIsDescending | xauusd_optimizer.js:718 | Sorting by ascending negated score is sorting by descending score. |
| Ranking.TopOf | xauusd_optimizer.js:719 | `slice(0, 10)` is a prefix of length min(n, 10). |
| Ranking.RankResults | xauusd_optimizer.js:718-720 | The results end in descending score order, as a permutation of the input. Equal scores keep their arrival order. The top ten are the array's first ten, and the best is the first element (none when empty). |
| Ranking.BestIsMaximum | xauusd_optimizer.js:718-720 | The best set is one of the results and scores at least as high as every result. |
| Ranking.TopDominatesRest | xauusd_optimizer.js:718-719 | Every kept set scores at least as high as every dropped set. |
| Controller.ToLower | controller/xauusd.js:103 | Lower-casing keeps the length and maps each character. |
| Controller.ToLowerIdempotent | controller/xauusd.js:103 | Lower-casing twice is lower-casing once, so the double lower-casing of the trend is harmless. |
| Controller.TrendIgnoresCase | controller/xauusd.js:103-105 | Two trends that differ only in the case of their letters give the same signal. Lower-casing the trend in the handler before the signal function does it again changes nothing. |
| Controller.MixedCaseTrendNames | controller/xauusd.js:103-105 | For instance, "UpTrend" is bullish and "BEARISH" bearish. |
| Controller.GenerateTradingSignal | controller/xauusd.js:101-149 | BUY if and only if bullish, M5 RSI < 30, M15 RSI < 70.16 and a non-zero ATR. SELL if and only if bearish, M5 RSI > 70, M15 RSI > 70.16 and a non-zero ATR. The price-math error occurs if and only if a signal fires with a zero ATR. A deal enters at the ask (BUY) or bid (SELL), has its stop 1.6 × \|ATR\| away, and its target twice that distance on the winning side of the entry. |
| Controller.DealGeometry | controller/xauusd.js:125-131 | With a positive ATR, a BUY has stop < entry < target and a SELL the reverse, with a 2:1 reward to risk. |
| Controller.CalculatePositionSize | controller/xauusd.js:152-168 | Lots lie in [0.01, 0.1]. A zero risk percentage defaults to 1.5. The risk amount is that percentage of the balance. A zero stop distance gives 0.01 lots. Inside the clamp, lots are within 0.005 of risk amount / (stop distance × 100). A raw size below 0.01 gives exactly 0.01 and one above 0.1 exactly 0.1. The lots are whole cents. |
| Controller.ClampEndsAreExact | controller/xauusd.js:165-167 | The clamp ends 0.01 and 0.1 are unchanged by rounding to cents. |
| Controller.RoundedLotInRange | controller/xauusd.js:165-167 | Rounding lots in [0.01, 0.1] to cents keeps them in range. |
| Controller.GetSignal | controller/xauusd.js:17-98 | 400 if and only if the payload is missing or incomplete, with the matching comment. The status is 200, 400 or 500. A 500 only comes from a zero ATR. A deal is a 200 with a volume in [0.01, 0.1]. For a complete payload, with the M15 RSI falling back to the M5 one: 500 if and only if `generateTradingSignal` fails; 200 with no action if and only if it gives no trade; a deal if and only if it gives one. A deal has the signal's direction and the volume `calculatePositionSize` gives for the funds (`balance \|\| equity \|\| 0`). Its stop and target are within 0.00005 of the signal's. |

## Left out

- Reading the tick CSV files, date parsing and the chart keys (the data-loading section of `xauusd_optimizer.js`) are not modelled. Ticks enter as (instant, mid price) values.
- Worker threads, message passing, `terminate`, the progress line (`TOTAL_RUNS`) and the promise plumbing are not modelled. A job is the (chart, set count) pair a worker is started with. The collected results enter the ranking as an array in arrival order.
- The HTML report, the CSV and JSON outputs, console logging and the reason and comment texts are not modelled.
- `Math.random()` is not modelled. Each call becomes an input draw in [0, 1) (`Sampler.Draws`).
- Parsing the timeframe out of the chart key (`parseInt`) is not modelled. The worker receives the timeframe as a number.
- `controller/xauusd1.js` and `index.js` are not part of this model.
- Binary floating point is not modelled. Arithmetic is exact over the reals, and `ToFixed` rounds the exact decimal half away from zero. JavaScript rounds the nearest double, so ties that are not exactly representable can round the other way.
- NaN, Infinity and `isFinite` are not modelled. The `isFinite` guards in `generateTradingSignal` and `calculatePositionSize` can never fire on reals. Non-numeric strings passed to `parseFloat` are outside the model.
- Controller.GetSignal: an ask or bid sent explicitly as `null` is not modelled; the model reads it as the default 0. In the source `parseFloat(null)` is NaN. A BUY entered at a NaN ask then fails the `isFinite` guard and answers 500. With no signal the answer is 200 with no action. A SELL enters at the bid as usual. A falsy bid as well gives 400.
- Controller.GetSignal: payload values are modelled as numbers. A form-encoded body delivers strings, and the string "0" is truthy. An ask and bid of "0" then pass the completeness check, an `rsi_M15` of "0" does not fall back to `rsi_M5`, and a `balance` of "0" is used instead of the equity. The model treats these as the number 0.
- Backtest.RunBacktestOnData: requires a positive pips-per-unit factor and an RSI period of at least 1. The aggregator always produces 100 and the sampler periods of 7 to 21. Other values would divide by zero in the source.
- Rsi.CalculateRsi: requires a period of at least 1, for the same reason.
- Backtest.RunBacktestOnData: the `!bars` null check has no counterpart, since a chart always has a bar sequence. `maxBalance` is updated but never reported, and it is kept only in the state.
- Trade records carry instants as integers, not ISO strings. The direction and status are enumerations, not the strings `'LONG'`/`'SHORT'` and `'SL'`/`'TP'`.
- `toLowerCase` is modelled on ASCII letters only.

Other behaviour the model makes explicit:
- A chart with exactly 50 bars is optimised, although the skip message says more than 50 are needed (`Jobs.JobPlanMembers`).
- A flat RSI window reads about 99.5, not 50 (`Rsi.NonFallingWindowSaturates`).
- The per-chart quota is overshot when the core count does not divide 10000 (`Jobs.ThreeCoresOvershoot`). The progress percentage can then pass 100.
- A negative ATR puts a BUY's stop above its entry. `Controller.DealGeometry` therefore assumes a positive ATR.

## Findings

| source | as written | input that shows it | evidently intended | confidence | as-written member | corrected member |
|---|---|---|---|---|---|---|
| xauusd_optimizer.js:116-146 | When the 10000th bar is pushed, the loop breaks with `currentBar` still naming that bar, and the push after the loop adds it a second time. | Time-sorted ticks spanning more than 10000 buckets, with a positive range in the 10000th bucket. | Stop at 10000 bars, each bucket once, with strictly increasing starts. | not executed | BarAggregation.CappedRunRepeatsLastBar | BarAggregation.ConvertedOnceBarsIncreasing |
