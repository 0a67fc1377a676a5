/** The worker's main loop (optimizationWorker.js:214-224): for each of the
    chunk's `propCount` iterations it samples a parameter set, backtests it on
    the chart and returns the set with its simulated balance, trade count,
    score and ledger. The random draws of iteration i are `draws[i]`. */
module Worker {
  import opened Market
  import opened Sampler
  import opened Backtest
  import Rsi

  /** One iteration of the worker's loop. */
  function Evaluate(instrument: string, timeframe: int, u: Draws, data: ChartData): ScoredProperty
    requires ValidDraws(u) && data.pipsPerPriceUnit > 0.0
  {
    var prop := GenerateRandomProperty(instrument, timeframe, u);
    var metrics := BacktestSpec(prop, data);
    ScoredProperty(prop, metrics.finalBalance, metrics.totalTrades, metrics.coreScore, metrics.tradeHistory)
  }

  /** The worker's loop: exactly `propCount` scored parameter sets, the i-th
      sampled from the i-th draws, in order. */
  method RunChunk(instrument: string, timeframe: int, propCount: nat, chartData: ChartData, draws: seq<Draws>)
    returns (results: seq<ScoredProperty>)
    requires |draws| == propCount && chartData.pipsPerPriceUnit > 0.0
    requires forall k :: 0 <= k < |draws| ==> ValidDraws(draws[k])
    ensures |results| == propCount
    ensures forall k :: 0 <= k < propCount ==> results[k] == Evaluate(instrument, timeframe, draws[k], chartData)
  {
    results := [];
    for i := 0 to propCount
      invariant |results| == i
      invariant forall k :: 0 <= k < i ==> results[k] == Evaluate(instrument, timeframe, draws[k], chartData)
    {
      var prop := GenerateRandomProperty(instrument, timeframe, draws[i]);
      var backtestMetrics := RunBacktestOnData(prop, chartData);
      results := results + [ScoredProperty(
        prop, backtestMetrics.finalBalance, backtestMetrics.totalTrades,
        backtestMetrics.coreScore, backtestMetrics.tradeHistory)];
    }
  }

  /** Every scored parameter set trades in one direction only, fixed by the
      side draw: a threshold drawn from the overbought band (side < 0.5) only
      ever sells, one from the oversold band only ever buys. */
  lemma EvaluateTradesOneSide(instrument: string, timeframe: int, u: Draws, data: ChartData)
    requires ValidDraws(u) && data.pipsPerPriceUnit > 0.0
    ensures forall t :: t in Evaluate(instrument, timeframe, u, data).tradeHistory ==> (t.isLong <==> u.side >= 0.5)
  {
    var prop := GenerateRandomProperty(instrument, timeframe, u);
    BacktestResultFacts(prop, data);
  }

  /** What the main thread receives for each parameter set: the trade count
      matches the ledger, the balance is not negative, and the score is the
      sentinel exactly when the chart is shorter than the sampled RSI period
      plus one, which never happens for charts of 22 bars or more. */
  lemma EvaluateFacts(instrument: string, timeframe: int, u: Draws, data: ChartData)
    requires ValidDraws(u) && data.pipsPerPriceUnit > 0.0
    ensures var r := Evaluate(instrument, timeframe, u, data);
      && r.simulatedTotalTrades == |r.tradeHistory|
      && r.simulatedFinalBalance >= 0.0
      && (r.optimizationScore == SentinelScore <==> |data.bars| < r.params.rsiPeriod + 1)
      && (|data.bars| >= 22 ==> r.optimizationScore > SentinelScore)
  {
    var prop := GenerateRandomProperty(instrument, timeframe, u);
    BacktestResultFacts(prop, data);
    if |data.bars| >= 22 {
      var bars := data.bars;
      var rsi := Rsi.RsiSeries(bars, prop.rsiPeriod);
      RunConsistent(bars, rsi, prop, data.pipsPerPriceUnit, |bars|);
      var s := Run(bars, rsi, prop, data.pipsPerPriceUnit, |bars|);
      CoreScoreFloor(s.balance, s.totalTrades);
    }
  }
}
