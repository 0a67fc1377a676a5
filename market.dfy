/** Entities and configuration constants of the XAUUSD strategy optimiser
    (the constants at xauusd_optimizer.js:9-40 and the records built by the
    worker in optimizationWorker.js). Prices and money are reals, instants are
    integer milliseconds since the epoch. */
module Market {

  // Simulation and risk constants (xauusd_optimizer.js:17-24).
  const InitialBalance: real := 10.0
  const MaxCollectiveRisk: real := 0.02
  const MinLotSize: real := 0.01
  const MaxLotSize: real := 5.0
  const DollarPerPipPerLot: real := 10.0
  const AverageSpreadPips: real := 2.0
  const CommissionPerLotUsd: real := 7.0

  // Optimisation targets (xauusd_optimizer.js:28-31).
  const Timeframes: seq<int> := [5, 15, 30, 60, 240]
  const PropertiesPerChart: nat := 10000
  const MaxBarsPerChart: nat := 10000

  /** Every chart the aggregator produces uses this price-to-pip factor. */
  const PipsPerPriceUnit: real := 100.0

  /** A raw quote: its instant and the mid of bid and ask. */
  datatype Tick = Tick(timestamp: int, midPrice: real)

  /** An OHLC bar starting at `time`; `atr` is the bar's range in pips. */
  datatype Bar = Bar(time: int, open: real, high: real, low: real, close: real, atr: real)

  /** The bars of one (instrument, timeframe) chart. */
  datatype ChartData = ChartData(bars: seq<Bar>, pipsPerPriceUnit: real)

  /** One sampled parameter set (the object built by generateRandomProperty). */
  datatype StrategyParameters = StrategyParameters(
    instrument: string,
    timeframeMin: int,
    targetRatio: real,          // ew_wave5_target_ratio: take-profit multiple of the stop distance
    pullbackLimit: real,        // ew_wave4_pullback_limit: logged, never used by the simulator
    mtfConfirmPeriodMin: int,
    rsiPeriod: int,
    rsiEntryThreshold: real,
    slAtrMultiplier: real)

  datatype TradeStatus = StopLossHit | TakeProfitHit

  /** One closed trade of a backtest's ledger; prices and money as rounded by the worker. */
  datatype TradeRecord = TradeRecord(
    isLong: bool,
    lots: real,
    entryTime: int,
    exitTime: int,
    entryPrice: real,
    exitPrice: real,
    pnl: real,
    status: TradeStatus)

  /** What run_backtest_on_data returns. */
  datatype BacktestResult = BacktestResult(
    coreScore: real,
    finalBalance: real,
    maxDrawdownPercent: real,
    totalTrades: nat,
    tradeHistory: seq<TradeRecord>)

  /** A parameter set with its simulated outcome, as a worker sends it back. */
  datatype ScoredProperty = ScoredProperty(
    params: StrategyParameters,
    simulatedFinalBalance: real,
    simulatedTotalTrades: nat,
    optimizationScore: real,
    tradeHistory: seq<TradeRecord>)
}
