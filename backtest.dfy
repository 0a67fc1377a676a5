/** The bar-by-bar trade simulator (`run_backtest_on_data`,
    optimizationWorker.js:66-207) and the worker's per-chunk loop
    (optimizationWorker.js:214-224).

    The simulator's state is `SimState`, one field per local variable of the
    worker's loop. `BarStep` is one iteration (exit check, then entry check),
    `Run` the fold over the bars, and `BacktestSpec` the returned metrics.
    The method `RunBacktestOnData` runs the worker's loop over mutable locals
    and is proved to return `BacktestSpec`. */
module Backtest {
  import opened Numeric
  import opened Market
  import opened Rsi
  import opened Sampler

  /** The score returned when there are too few bars for the RSI look-back. */
  const SentinelScore: real := -99999.0

  /** A closed trade leaves the account ruined when the balance is at most this. */
  const RuinBalance: real := 0.01

  /** The worker's loop variables. `ruined` records the `break` taken when a
      closed trade leaves the balance at or below one cent. */
  datatype SimState = SimState(
    balance: real,
    maxBalance: real,
    totalTrades: nat,
    inTrade: bool,
    isLong: bool,
    entryPrice: real,
    stopLoss: real,
    takeProfit: real,
    tradeLots: real,
    entryTime: int,
    history: seq<TradeRecord>,
    ruined: bool)

  function Init(): SimState
  {
    SimState(InitialBalance, InitialBalance, 0, false, false, 0.0, 0.0, 0.0, 0.0, 0, [], false)
  }

  /** Half the average spread in price units: added to a long's entry and
      taken from its exit, the other way round for a short. */
  function HalfSpread(pipsPerPriceUnit: real): (h: real)
    requires pipsPerPriceUnit > 0.0
    ensures h > 0.0
  {
    AverageSpreadPips / pipsPerPriceUnit / 2.0
  }

  datatype Signal = NoSignal | LongSignal | ShortSignal

  /** The entry rule on the previous bar's RSI: long below a threshold under
      50, short above a threshold over 50. */
  function EntrySignal(prevRsi: real, threshold: real): (sig: Signal)
    ensures sig == LongSignal <==> prevRsi < threshold && threshold < 50.0
    ensures sig == ShortSignal <==> prevRsi > threshold && threshold > 50.0
  {
    if prevRsi < threshold && threshold < 50.0 then LongSignal
    else if prevRsi > threshold && threshold > 50.0 then ShortSignal
    else NoSignal
  }

  /** The lot size risking 2% of the balance over `lossPips`, clamped to
      [0.01, 5]. Inside the clamp the loss at the stop is exactly that 2%. */
  function LotSize(balance: real, lossPips: real): (lots: real)
    requires lossPips > 0.0
    ensures MinLotSize <= lots <= MaxLotSize
    ensures var raw := balance * MaxCollectiveRisk / (lossPips * DollarPerPipPerLot);
      && (MinLotSize <= raw <= MaxLotSize ==> lots * lossPips * DollarPerPipPerLot == balance * MaxCollectiveRisk)
      && (raw < MinLotSize ==> lots == MinLotSize)
      && (raw > MaxLotSize ==> lots == MaxLotSize)
  {
    Clamp(balance * MaxCollectiveRisk / (lossPips * DollarPerPipPerLot), MinLotSize, MaxLotSize)
  }

  datatype Exit = NoExit | Exit(status: TradeStatus, price: real)

  /** Whether the open trade closes on `bar`, and at which level. A long stops
      out when the low reaches the stop and takes profit when the high reaches
      the target; a short the other way round. The stop is checked first, so
      a bar that reaches both closes at the stop. */
  function ExitHit(s: SimState, bar: Bar): (e: Exit)
    ensures e.Exit? <==>
      if s.isLong then bar.low <= s.stopLoss || bar.high >= s.takeProfit
      else bar.high >= s.stopLoss || bar.low <= s.takeProfit
    ensures (e.Exit? && e.status == StopLossHit) <==>
      if s.isLong then bar.low <= s.stopLoss else bar.high >= s.stopLoss
    ensures e.Exit? ==> e.price == if e.status == StopLossHit then s.stopLoss else s.takeProfit
  {
    if s.isLong then
      if bar.low <= s.stopLoss then Exit(StopLossHit, s.stopLoss)
      else if bar.high >= s.takeProfit then Exit(TakeProfitHit, s.takeProfit)
      else NoExit
    else
      if bar.high >= s.stopLoss then Exit(StopLossHit, s.stopLoss)
      else if bar.low <= s.takeProfit then Exit(TakeProfitHit, s.takeProfit)
      else NoExit
  }

  /** The price a trade is closed at: its exit level less half the spread for
      a long, plus half the spread for a short. */
  function ClosePrice(isLong: bool, exitLevel: real, pipsPerPriceUnit: real): real
    requires pipsPerPriceUnit > 0.0
  {
    if isLong then exitLevel - HalfSpread(pipsPerPriceUnit)
    else exitLevel + HalfSpread(pipsPerPriceUnit)
  }

  /** The trade's profit in price units, signed for its direction. */
  function PriceMove(isLong: bool, entryPrice: real, closePrice: real): real
  {
    if isLong then closePrice - entryPrice else entryPrice - closePrice
  }

  /** Profit of a closed trade in dollars: the move in pips times the lots
      times the pip value, less the round-turn commission. */
  function TradePnl(move: real, pipsPerPriceUnit: real, lots: real): real
  {
    move * pipsPerPriceUnit * lots * DollarPerPipPerLot - Abs(lots) * CommissionPerLotUsd
  }

  /** Closes the open trade on `bar` at `e`: books the profit, counts the trade,
      appends its rounded record to the ledger, updates the balance peak and
      marks the account ruined (balance 0) at or below one cent. */
  function CloseTrade(s: SimState, bar: Bar, e: Exit, pipsPerPriceUnit: real): SimState
    requires e.Exit? && pipsPerPriceUnit > 0.0
  {
    var closePrice := ClosePrice(s.isLong, e.price, pipsPerPriceUnit);
    var pnl := TradePnl(PriceMove(s.isLong, s.entryPrice, closePrice), pipsPerPriceUnit, s.tradeLots);
    var balance := s.balance + pnl;
    var record := TradeRecord(
      s.isLong, ToFixed(s.tradeLots, 2), s.entryTime, bar.time,
      ToFixed(s.entryPrice, 5), ToFixed(closePrice, 5), ToFixed(pnl, 2), e.status);
    var ruined := balance <= RuinBalance;
    s.(balance := if ruined then 0.0 else balance,
       maxBalance := Max(s.maxBalance, balance),
       totalTrades := s.totalTrades + 1,
       inTrade := false,
       history := s.history + [record],
       ruined := ruined)
  }

  /** Step 1 of an iteration: the exit check of an open trade. */
  function ExitPhase(s: SimState, bar: Bar, pipsPerPriceUnit: real): SimState
    requires pipsPerPriceUnit > 0.0
  {
    if !s.inTrade then s
    else
      var e := ExitHit(s, bar);
      if e.NoExit? then s else CloseTrade(s, bar, e, pipsPerPriceUnit)
  }

  /** The stop distance in pips: the ATR multiple of the bar's range. */
  function LossPips(prop: StrategyParameters, bar: Bar): real
  {
    prop.slAtrMultiplier * bar.atr
  }

  /** A trade is entered at the bar's open plus half the spread for a long,
      minus half the spread for a short. */
  function EntryPrice(isLong: bool, open: real, pipsPerPriceUnit: real): real
    requires pipsPerPriceUnit > 0.0
  {
    if isLong then open + HalfSpread(pipsPerPriceUnit) else open - HalfSpread(pipsPerPriceUnit)
  }

  /** The stop lies `lossPips` from the entry, below it for a long. */
  function StopLevel(isLong: bool, entry: real, lossPips: real, pipsPerPriceUnit: real): real
    requires pipsPerPriceUnit > 0.0
  {
    if isLong then entry - lossPips / pipsPerPriceUnit else entry + lossPips / pipsPerPriceUnit
  }

  /** The target lies `ratio` times the stop distance from the entry, above it
      for a long. */
  function TargetLevel(isLong: bool, entry: real, lossPips: real, ratio: real, pipsPerPriceUnit: real): real
    requires pipsPerPriceUnit > 0.0
  {
    if isLong then entry + lossPips * ratio / pipsPerPriceUnit
    else entry - lossPips * ratio / pipsPerPriceUnit
  }

  /** Opens a trade on `bar` in the given direction. */
  function OpenTrade(s: SimState, bar: Bar, isLong: bool, lossPips: real, ratio: real, pipsPerPriceUnit: real): SimState
    requires pipsPerPriceUnit > 0.0
  {
    var entry := EntryPrice(isLong, bar.open, pipsPerPriceUnit);
    s.(inTrade := true,
       entryTime := bar.time,
       isLong := isLong,
       entryPrice := entry,
       stopLoss := StopLevel(isLong, entry, lossPips, pipsPerPriceUnit),
       takeProfit := TargetLevel(isLong, entry, lossPips, ratio, pipsPerPriceUnit))
  }

  /** Step 2 of an iteration: the entry check once the RSI look-back has
      passed. A non-positive stop distance skips the bar; otherwise the lot
      size is computed (and kept even when no signal fires). */
  function EntryPhase(s: SimState, bar: Bar, i: int, prevRsi: real, prop: StrategyParameters, pipsPerPriceUnit: real): SimState
    requires pipsPerPriceUnit > 0.0
  {
    if s.inTrade || i < prop.rsiPeriod then s
    else
      var lossPips := LossPips(prop, bar);
      if lossPips <= 0.0 then s
      else
        var lots := LotSize(s.balance, lossPips);
        var sig := EntrySignal(prevRsi, prop.rsiEntryThreshold);
        if sig != NoSignal && lots >= MinLotSize then
          OpenTrade(s.(tradeLots := lots), bar, sig == LongSignal, lossPips, prop.targetRatio, pipsPerPriceUnit)
        else s.(tradeLots := lots)
  }

  /** One iteration of the worker's loop, at bar i. */
  function BarStep(s: SimState, bars: seq<Bar>, rsi: seq<real>, i: int, prop: StrategyParameters, pipsPerPriceUnit: real): SimState
    requires 1 <= i < |bars| && |rsi| == |bars| && pipsPerPriceUnit > 0.0
  {
    var s1 := ExitPhase(s, bars[i], pipsPerPriceUnit);
    if s1.ruined then s1 else EntryPhase(s1, bars[i], i, rsi[i - 1], prop, pipsPerPriceUnit)
  }

  /** The state before the iteration at bar k; once ruined it no longer changes. */
  function Run(bars: seq<Bar>, rsi: seq<real>, prop: StrategyParameters, pipsPerPriceUnit: real, k: int): SimState
    requires 1 <= k <= |bars| && |rsi| == |bars| && pipsPerPriceUnit > 0.0
  {
    if k == 1 then Init()
    else
      var s := Run(bars, rsi, prop, pipsPerPriceUnit, k - 1);
      if s.ruined then s else BarStep(s, bars, rsi, k - 1, prop, pipsPerPriceUnit)
  }

  /** The optimisation score: half the net profit plus ten per trade, to cents. */
  function CoreScore(balance: real, totalTrades: nat): real
  {
    ToFixed((balance - InitialBalance) * 0.5 + totalTrades as real * 10.0, 2)
  }

  /** What `run_backtest_on_data` returns for `prop` on `data`. */
  function BacktestSpec(prop: StrategyParameters, data: ChartData): BacktestResult
    requires data.pipsPerPriceUnit > 0.0 && prop.rsiPeriod >= 1
  {
    var bars := data.bars;
    if |bars| < prop.rsiPeriod + 1 then
      BacktestResult(SentinelScore, InitialBalance, 0.0, 0, [])
    else
      var s := Run(bars, RsiSeries(bars, prop.rsiPeriod), prop, data.pipsPerPriceUnit, |bars|);
      BacktestResult(CoreScore(s.balance, s.totalTrades), ToFixed(s.balance, 2), 0.0, s.totalTrades, s.history)
  }

  /** `run_backtest_on_data(prop, data)`. The loop's local variables are
      kept together in one `SimState`; each iteration runs the exit check and,
      unless the account was just ruined (the worker's `break`), the entry check. */
  method RunBacktestOnData(prop: StrategyParameters, data: ChartData) returns (result: BacktestResult)
    requires data.pipsPerPriceUnit > 0.0 && prop.rsiPeriod >= 1
    ensures result == BacktestSpec(prop, data)
  {
    var bars := data.bars;
    var pipsPerPriceUnit := data.pipsPerPriceUnit;
    if |bars| < prop.rsiPeriod + 1 {
      return BacktestResult(SentinelScore, InitialBalance, 0.0, 0, []);
    }
    var rsiValues := CalculateRsi(bars, prop.rsiPeriod);
    var state := SimulateBars(bars, rsiValues, prop, pipsPerPriceUnit);
    var netProfit := state.balance - InitialBalance;
    var finalScore := netProfit * 0.5 + state.totalTrades as real * 10.0;
    result := BacktestResult(ToFixed(finalScore, 2), ToFixed(state.balance, 2), 0.0, state.totalTrades, state.history);
  }

  /** The worker's bar loop from bar 1: the exit check, then (unless the
      account was just ruined, when the loop breaks) the entry check. */
  method SimulateBars(bars: seq<Bar>, rsiValues: seq<real>, prop: StrategyParameters, pipsPerPriceUnit: real)
    returns (state: SimState)
    requires 1 <= |bars| && |rsiValues| == |bars| && pipsPerPriceUnit > 0.0
    ensures state == Run(bars, rsiValues, prop, pipsPerPriceUnit, |bars|)
  {
    state := Init();
    var i := 1;
    while i < |bars|
      invariant 1 <= i <= |bars|
      invariant state == Run(bars, rsiValues, prop, pipsPerPriceUnit, i)
      invariant !state.ruined
    {
      ghost var before := state;
      state := CheckExit(state, bars[i], pipsPerPriceUnit);
      if state.ruined {
        assert state == BarStep(before, bars, rsiValues, i, prop, pipsPerPriceUnit);
        RuinIsFinal(bars, rsiValues, prop, pipsPerPriceUnit, i + 1, |bars|);
        return;
      }
      state := CheckEntry(state, bars[i], i, rsiValues[i - 1], prop, pipsPerPriceUnit);
      assert state == BarStep(before, bars, rsiValues, i, prop, pipsPerPriceUnit);
      i := i + 1;
    }
  }

  /** Step 1 of the worker's loop body: closes an open trade whose stop or
      target `bar` reaches. */
  method CheckExit(s: SimState, currentBar: Bar, pipsPerPriceUnit: real) returns (next: SimState)
    requires pipsPerPriceUnit > 0.0 && !s.ruined
    ensures next == ExitPhase(s, currentBar, pipsPerPriceUnit)
  {
    next := s;
    if !s.inTrade {
      return;
    }
    var exitPrice := 0.0;
    var tradeClosed := false;
    var status := StopLossHit;
    if s.isLong {
      if currentBar.low <= s.stopLoss {
        exitPrice, tradeClosed, status := s.stopLoss, true, StopLossHit;
      } else if currentBar.high >= s.takeProfit {
        exitPrice, tradeClosed, status := s.takeProfit, true, TakeProfitHit;
      }
    } else {
      if currentBar.high >= s.stopLoss {
        exitPrice, tradeClosed, status := s.stopLoss, true, StopLossHit;
      } else if currentBar.low <= s.takeProfit {
        exitPrice, tradeClosed, status := s.takeProfit, true, TakeProfitHit;
      }
    }
    if !tradeClosed {
      return;
    }
    var finalPriceForClose := ClosePrice(s.isLong, exitPrice, pipsPerPriceUnit);
    var priceMove := PriceMove(s.isLong, s.entryPrice, finalPriceForClose);
    var pnl := TradePnl(priceMove, pipsPerPriceUnit, s.tradeLots);
    var balance := s.balance + pnl;
    var record := TradeRecord(
      s.isLong, ToFixed(s.tradeLots, 2), s.entryTime, currentBar.time,
      ToFixed(s.entryPrice, 5), ToFixed(finalPriceForClose, 5), ToFixed(pnl, 2), status);
    next := s.(balance := balance, totalTrades := s.totalTrades + 1,
               history := s.history + [record], inTrade := false,
               maxBalance := Max(s.maxBalance, balance));
    if balance <= RuinBalance {
      next := next.(balance := 0.0, ruined := true);
    }
  }

  /** Step 2 of the worker's loop body: once past the RSI look-back and out
      of the market, sizes a position and opens it when the signal fires. */
  method CheckEntry(s: SimState, currentBar: Bar, i: int, prevRsi: real, prop: StrategyParameters,
                    pipsPerPriceUnit: real) returns (next: SimState)
    requires pipsPerPriceUnit > 0.0
    ensures next == EntryPhase(s, currentBar, i, prevRsi, prop, pipsPerPriceUnit)
  {
    next := s;
    if s.inTrade || i < prop.rsiPeriod {
      return;
    }
    var lossPips := LossPips(prop, currentBar);
    if lossPips <= 0.0 {
      return;
    }
    next := next.(tradeLots := LotSize(s.balance, lossPips));
    var signal := NoSignal;
    if prevRsi < prop.rsiEntryThreshold && prop.rsiEntryThreshold < 50.0 {
      signal := LongSignal;
    } else if prevRsi > prop.rsiEntryThreshold && prop.rsiEntryThreshold > 50.0 {
      signal := ShortSignal;
    }
    if signal != NoSignal && next.tradeLots >= MinLotSize {
      var isLong := signal == LongSignal;
      var entryPrice := EntryPrice(isLong, currentBar.open, pipsPerPriceUnit);
      next := next.(inTrade := true, entryTime := currentBar.time, isLong := isLong,
                    entryPrice := entryPrice,
                    stopLoss := StopLevel(isLong, entryPrice, lossPips, pipsPerPriceUnit),
                    takeProfit := TargetLevel(isLong, entryPrice, lossPips, prop.targetRatio, pipsPerPriceUnit));
    }
  }

  /** Once the account is ruined the run stops: later states equal it. */
  lemma {:induction false} RuinIsFinal(bars: seq<Bar>, rsi: seq<real>, prop: StrategyParameters, pipsPerPriceUnit: real, k: int, m: int)
    requires 1 <= k <= m <= |bars| && |rsi| == |bars| && pipsPerPriceUnit > 0.0
    requires Run(bars, rsi, prop, pipsPerPriceUnit, k).ruined
    ensures Run(bars, rsi, prop, pipsPerPriceUnit, m) == Run(bars, rsi, prop, pipsPerPriceUnit, k)
    decreases m - k
  {
    if m > k {
      RuinIsFinal(bars, rsi, prop, pipsPerPriceUnit, k, m - 1);
    }
  }

  // ---------------------------------------------------------------------
  // What every state of a run satisfies

  /** An open position: lots within the clamp, the stop on the losing side of
      the entry, the target on the winning side when the target ratio is
      positive, and the direction the threshold allows (long only for a
      threshold under 50). */
  predicate OpenPosition(s: SimState, prop: StrategyParameters)
  {
    MinLotSize <= s.tradeLots <= MaxLotSize
    && (s.isLong ==> s.stopLoss < s.entryPrice)
    && (!s.isLong ==> s.stopLoss > s.entryPrice)
    && (prop.targetRatio > 0.0 ==>
          (s.isLong ==> s.takeProfit > s.entryPrice) && (!s.isLong ==> s.takeProfit < s.entryPrice))
    && (s.isLong <==> prop.rsiEntryThreshold < 50.0)
  }

  /** A ledger entry: rounded lots within the clamp, a stop-loss exit never
      books a profit, and the direction the threshold allows. */
  predicate Booked(r: TradeRecord, prop: StrategyParameters)
  {
    MinLotSize <= r.lots <= MaxLotSize
    && (r.status == StopLossHit ==> r.pnl <= 0.0)
    && (r.isLong <==> prop.rsiEntryThreshold < 50.0)
  }

  /** The invariant of the worker's loop. */
  predicate Consistent(s: SimState, prop: StrategyParameters)
  {
    s.totalTrades == |s.history|
    && (s.ruined ==> s.balance == 0.0 && !s.inTrade)
    && (!s.ruined ==> s.balance > RuinBalance)
    && s.maxBalance >= InitialBalance && s.maxBalance >= s.balance
    && (s.inTrade ==> OpenPosition(s, prop))
    && forall r :: r in s.history ==> Booked(r, prop)
  }

  lemma PositiveQuotient(a: real, b: real)
    requires a > 0.0 && b > 0.0
    ensures a / b > 0.0
  {
  }

  lemma PositiveProduct(a: real, b: real)
    requires a > 0.0 && b > 0.0
    ensures a * b > 0.0
  {
    MulMonotone(0.0, a, b);
  }

  /** Closing a position at a loss in price terms loses money. */
  lemma NegativeMoveLoses(move: real, pipsPerPriceUnit: real, lots: real)
    requires move < 0.0 && pipsPerPriceUnit > 0.0 && lots > 0.0
    ensures TradePnl(move, pipsPerPriceUnit, lots) < 0.0
  {
    PositiveProduct(-move, pipsPerPriceUnit);
    PositiveProduct(-move * pipsPerPriceUnit, lots);
    assert move * pipsPerPriceUnit * lots == -((-move * pipsPerPriceUnit) * lots);
  }

  /** A stopped-out trade is closed beyond its stop, on the losing side of
      the entry, so its profit is negative. */
  lemma StopLossLoses(s: SimState, bar: Bar, e: Exit, prop: StrategyParameters, pipsPerPriceUnit: real)
    requires e.Exit? && e.status == StopLossHit && e.price == s.stopLoss
    requires pipsPerPriceUnit > 0.0 && OpenPosition(s, prop)
    ensures TradePnl(PriceMove(s.isLong, s.entryPrice, ClosePrice(s.isLong, e.price, pipsPerPriceUnit)),
                     pipsPerPriceUnit, s.tradeLots) < 0.0
  {
    var move := PriceMove(s.isLong, s.entryPrice, ClosePrice(s.isLong, e.price, pipsPerPriceUnit));
    assert move < 0.0;
    NegativeMoveLoses(move, pipsPerPriceUnit, s.tradeLots);
  }

  /** Rounding lots to cents keeps them within the clamp. */
  lemma RoundedLotsInRange(lots: real)
    requires MinLotSize <= lots <= MaxLotSize
    ensures MinLotSize <= ToFixed(lots, 2) <= MaxLotSize
  {
    ToFixedExact(1, 2);
    ToFixedExact(500, 2);
    ToFixedMonotone(MinLotSize, lots, 2);
    ToFixedMonotone(lots, MaxLotSize, 2);
  }

  lemma CloseTradeConsistent(s: SimState, bar: Bar, e: Exit, prop: StrategyParameters, pipsPerPriceUnit: real)
    requires e.Exit? && pipsPerPriceUnit > 0.0
    requires e.price == if e.status == StopLossHit then s.stopLoss else s.takeProfit
    requires Consistent(s, prop) && s.inTrade
    ensures Consistent(CloseTrade(s, bar, e, pipsPerPriceUnit), prop)
  {
    var closePrice := ClosePrice(s.isLong, e.price, pipsPerPriceUnit);
    var pnl := TradePnl(PriceMove(s.isLong, s.entryPrice, closePrice), pipsPerPriceUnit, s.tradeLots);
    RoundedLotsInRange(s.tradeLots);
    if e.status == StopLossHit {
      StopLossLoses(s, bar, e, prop, pipsPerPriceUnit);
      ToFixedSign(pnl, 2);
    }
    var r := CloseTrade(s, bar, e, pipsPerPriceUnit);
    assert Booked(r.history[|r.history| - 1], prop);
    assert forall x :: x in r.history ==> x in s.history || x == r.history[|r.history| - 1];
  }

  lemma OpenTradeConsistent(s: SimState, bar: Bar, isLong: bool, lossPips: real, prop: StrategyParameters, pipsPerPriceUnit: real)
    requires pipsPerPriceUnit > 0.0 && lossPips > 0.0
    requires Consistent(s, prop) && !s.ruined
    requires MinLotSize <= s.tradeLots <= MaxLotSize
    requires isLong <==> prop.rsiEntryThreshold < 50.0
    ensures Consistent(OpenTrade(s, bar, isLong, lossPips, prop.targetRatio, pipsPerPriceUnit), prop)
  {
    PositiveQuotient(lossPips, pipsPerPriceUnit);
    if prop.targetRatio > 0.0 {
      PositiveProduct(lossPips, prop.targetRatio);
      PositiveQuotient(lossPips * prop.targetRatio, pipsPerPriceUnit);
    }
  }

  lemma EntryPhaseConsistent(s: SimState, bar: Bar, i: int, prevRsi: real, prop: StrategyParameters, pipsPerPriceUnit: real)
    requires pipsPerPriceUnit > 0.0 && Consistent(s, prop) && !s.ruined
    ensures Consistent(EntryPhase(s, bar, i, prevRsi, prop, pipsPerPriceUnit), prop)
  {
    if !s.inTrade && i >= prop.rsiPeriod {
      var lossPips := LossPips(prop, bar);
      if lossPips > 0.0 {
        var sized := s.(tradeLots := LotSize(s.balance, lossPips));
        var sig := EntrySignal(prevRsi, prop.rsiEntryThreshold);
        if sig != NoSignal {
          OpenTradeConsistent(sized, bar, sig == LongSignal, lossPips, prop, pipsPerPriceUnit);
        }
      }
    }
  }

  /** One iteration keeps the loop invariant. */
  lemma BarStepConsistent(s: SimState, bars: seq<Bar>, rsi: seq<real>, i: int, prop: StrategyParameters, pipsPerPriceUnit: real)
    requires 1 <= i < |bars| && |rsi| == |bars| && pipsPerPriceUnit > 0.0
    requires Consistent(s, prop) && !s.ruined
    ensures Consistent(BarStep(s, bars, rsi, i, prop, pipsPerPriceUnit), prop)
  {
    var s1 := ExitPhase(s, bars[i], pipsPerPriceUnit);
    if s.inTrade {
      var e := ExitHit(s, bars[i]);
      if e.Exit? {
        CloseTradeConsistent(s, bars[i], e, prop, pipsPerPriceUnit);
      }
    }
    if !s1.ruined {
      EntryPhaseConsistent(s1, bars[i], i, rsi[i - 1], prop, pipsPerPriceUnit);
    }
  }

  /** A bar that closes a trade can open the next one: the exit check runs
      first, and when it leaves the account alive the entry check of the same
      bar may enter again, at that bar's time. */
  lemma CloseThenReopen(s: SimState, bars: seq<Bar>, rsi: seq<real>, i: int, prop: StrategyParameters, pipsPerPriceUnit: real)
    requires 1 <= i < |bars| && |rsi| == |bars| && pipsPerPriceUnit > 0.0
    requires s.inTrade && ExitHit(s, bars[i]).Exit?
    ensures var closed := CloseTrade(s, bars[i], ExitHit(s, bars[i]), pipsPerPriceUnit);
      var n := BarStep(s, bars, rsi, i, prop, pipsPerPriceUnit);
      && |n.history| == |s.history| + 1
      && n.history[|s.history|].exitTime == bars[i].time
      && (n.inTrade <==>
            && !closed.ruined
            && i >= prop.rsiPeriod
            && LossPips(prop, bars[i]) > 0.0
            && EntrySignal(rsi[i - 1], prop.rsiEntryThreshold) != NoSignal)
      && (n.inTrade ==> n.entryTime == bars[i].time && n.totalTrades == s.totalTrades + 1)
  {
  }

  /** Every state of a run satisfies the loop invariant. */
  lemma {:induction false} RunConsistent(bars: seq<Bar>, rsi: seq<real>, prop: StrategyParameters, pipsPerPriceUnit: real, k: int)
    requires 1 <= k <= |bars| && |rsi| == |bars| && pipsPerPriceUnit > 0.0
    ensures Consistent(Run(bars, rsi, prop, pipsPerPriceUnit, k), prop)
  {
    if k > 1 {
      RunConsistent(bars, rsi, prop, pipsPerPriceUnit, k - 1);
      var s := Run(bars, rsi, prop, pipsPerPriceUnit, k - 1);
      if !s.ruined {
        BarStepConsistent(s, bars, rsi, k - 1, prop, pipsPerPriceUnit);
      }
    }
  }

  /** The ledger only grows: an earlier state's trades are a prefix of a later
      state's, with at most one trade closed per bar. */
  lemma {:induction false} HistoryGrows(bars: seq<Bar>, rsi: seq<real>, prop: StrategyParameters, pipsPerPriceUnit: real, k: int, m: int)
    requires 1 <= k <= m <= |bars| && |rsi| == |bars| && pipsPerPriceUnit > 0.0
    ensures Run(bars, rsi, prop, pipsPerPriceUnit, k).history <= Run(bars, rsi, prop, pipsPerPriceUnit, m).history
    ensures |Run(bars, rsi, prop, pipsPerPriceUnit, m).history| <= |Run(bars, rsi, prop, pipsPerPriceUnit, k).history| + (m - k)
    decreases m - k
  {
    if m > k {
      HistoryGrows(bars, rsi, prop, pipsPerPriceUnit, k, m - 1);
      var s := Run(bars, rsi, prop, pipsPerPriceUnit, m - 1);
      if !s.ruined {
        BarStepHistory(s, bars, rsi, m - 1, prop, pipsPerPriceUnit);
      }
    }
  }

  /** One bar appends at most one record to the ledger. */
  lemma BarStepHistory(s: SimState, bars: seq<Bar>, rsi: seq<real>, i: int, prop: StrategyParameters, pipsPerPriceUnit: real)
    requires 1 <= i < |bars| && |rsi| == |bars| && pipsPerPriceUnit > 0.0
    ensures var n := BarStep(s, bars, rsi, i, prop, pipsPerPriceUnit);
      s.history <= n.history && |n.history| <= |s.history| + 1
  {
  }

  // ---------------------------------------------------------------------
  // The returned metrics

  /** The score only grows with the final balance and the number of trades. */
  lemma CoreScoreMonotone(b1: real, n1: nat, b2: real, n2: nat)
    requires b1 <= b2 && n1 <= n2
    ensures CoreScore(b1, n1) <= CoreScore(b2, n2)
  {
    var x1 := (b1 - InitialBalance) * 0.5 + n1 as real * 10.0;
    var x2 := (b2 - InitialBalance) * 0.5 + n2 as real * 10.0;
    ToFixedMonotone(x1, x2, 2);
  }

  /** A run that takes place scores at least -5 (a ruined account without
      trades), far above the sentinel. */
  lemma CoreScoreFloor(balance: real, totalTrades: nat)
    requires balance >= 0.0
    ensures CoreScore(balance, totalTrades) >= -5.0 > SentinelScore
  {
    ToFixedExact(-500, 2);
    CoreScoreMonotone(0.0, 0, balance, totalTrades);
  }

  /** What `run_backtest_on_data` promises its caller: the sentinel score
      exactly when there are too few bars for the look-back; a trade count
      equal to the ledger's length; a non-negative final balance; no drawdown
      reported; every ledger entry well formed. */
  lemma BacktestResultFacts(prop: StrategyParameters, data: ChartData)
    requires data.pipsPerPriceUnit > 0.0 && prop.rsiPeriod >= 1
    ensures var r := BacktestSpec(prop, data);
      && (r.coreScore == SentinelScore <==> |data.bars| < prop.rsiPeriod + 1)
      && r.totalTrades == |r.tradeHistory|
      && r.finalBalance >= 0.0
      && r.maxDrawdownPercent == 0.0
      && (forall t :: t in r.tradeHistory ==> Booked(t, prop))
  {
    var bars := data.bars;
    if |bars| >= prop.rsiPeriod + 1 {
      var rsi := RsiSeries(bars, prop.rsiPeriod);
      RunConsistent(bars, rsi, prop, data.pipsPerPriceUnit, |bars|);
      var s := Run(bars, rsi, prop, data.pipsPerPriceUnit, |bars|);
      CoreScoreFloor(s.balance, s.totalTrades);
      ToFixedSign(s.balance, 2);
    }
  }
}
