/** The performance summary of the best parameter set
    (`calculateMetricsAndSaveHistory`, xauusd_optimizer.js:509-537). The
    ledger's rounded profits are replayed from the initial balance, tracking
    the running balance, its peak and the largest fall from a peak; the
    other figures are reductions over the ledger. Formatting the figures as
    text, the date strings and the CSV file are not modelled. */
module Metrics {
  import opened Wrappers
  import opened Numeric
  import opened Market

  /** The replay's running variables: balance, peak balance, largest drawdown. */
  datatype Curve = Curve(balance: real, peak: real, drawdown: real)

  /** The replay after the whole ledger (a left fold over the trades). */
  function Replay(history: seq<TradeRecord>): Curve
  {
    if history == [] then Curve(InitialBalance, InitialBalance, 0.0)
    else
      var c := Replay(history[..|history| - 1]);
      var balance := c.balance + history[|history| - 1].pnl;
      var peak := Max(c.peak, balance);
      Curve(balance, peak, Max(c.drawdown, peak - balance))
  }

  /** Sum of the ledger's profits. */
  function SumPnl(history: seq<TradeRecord>): real
  {
    if history == [] then 0.0 else SumPnl(history[..|history| - 1]) + history[|history| - 1].pnl
  }

  /** The balance after the first j trades. */
  function BalanceAt(history: seq<TradeRecord>, j: nat): real
    requires j <= |history|
  {
    InitialBalance + SumPnl(history[..j])
  }

  /** Number of trades with a positive profit. */
  function ProfitableTrades(history: seq<TradeRecord>): (n: nat)
    ensures n <= |history|
  {
    if history == [] then 0
    else ProfitableTrades(history[..|history| - 1]) + (if history[|history| - 1].pnl > 0.0 then 1 else 0)
  }

  /** Sum of the positive profits. */
  function GrossProfit(history: seq<TradeRecord>): (r: real)
    ensures r >= 0.0
  {
    if history == [] then 0.0
    else GrossProfit(history[..|history| - 1]) + (if history[|history| - 1].pnl > 0.0 then history[|history| - 1].pnl else 0.0)
  }

  /** Sum of the magnitudes of the negative profits. */
  function GrossLoss(history: seq<TradeRecord>): (r: real)
    ensures r >= 0.0
  {
    if history == [] then 0.0
    else GrossLoss(history[..|history| - 1]) + (if history[|history| - 1].pnl < 0.0 then Abs(history[|history| - 1].pnl) else 0.0)
  }

  datatype ProfitFactor = Finite(value: real) | Infinite

  /** Gross profit over gross loss; infinite with profits and no loss, zero
      with neither. */
  function ProfitFactorOf(grossProfit: real, grossLoss: real): (r: ProfitFactor)
    requires grossProfit >= 0.0 && grossLoss >= 0.0
    ensures r.Infinite? <==> grossLoss == 0.0 && grossProfit > 0.0
    ensures r.Finite? ==> r.value >= 0.0
    ensures r.Finite? && grossLoss > 0.0 ==> r.value * grossLoss == grossProfit
    ensures grossLoss == 0.0 && grossProfit == 0.0 ==> r == Finite(0.0)
  {
    if grossLoss > 0.0 then Finite(grossProfit / grossLoss)
    else if grossProfit > 0.0 then Infinite
    else Finite(0.0)
  }

  /** The largest drawdown as a percentage of the peak balance (0 for a
      non-positive peak). */
  function DrawdownPercent(drawdown: real, peak: real): real
  {
    if peak > 0.0 then drawdown / peak * 100.0 else 0.0
  }

  datatype Report = Report(
    totalTrades: nat,
    finalBalance: real,
    netProfit: real,
    profitableTrades: nat,
    grossProfit: real,
    grossLoss: real,
    winRate: real,
    profitFactor: ProfitFactor,
    maxDrawdownUsd: real,
    maxDrawdownPercent: real,
    firstExitTime: int,
    lastExitTime: int)

  /** The figures reported for a ledger; none for an empty ledger. */
  function MetricsOf(history: seq<TradeRecord>): Option<Report>
  {
    if history == [] then None
    else
      var c := Replay(history);
      var n := |history|;
      Some(Report(
        n, c.balance, c.balance - InitialBalance,
        ProfitableTrades(history), GrossProfit(history), GrossLoss(history),
        ProfitableTrades(history) as real / n as real,
        ProfitFactorOf(GrossProfit(history), GrossLoss(history)),
        c.drawdown, DrawdownPercent(c.drawdown, c.peak),
        history[0].exitTime, history[n - 1].exitTime))
  }

  /** `calculateMetricsAndSaveHistory`: replays the ledger, giving every trade
      its running balance, then computes the summary from the replay and the
      ledger (none for an empty ledger). */
  method CalculateMetrics(tradeHistory: seq<TradeRecord>) returns (runningBalances: seq<real>, metrics: Option<Report>)
    ensures |runningBalances| == |tradeHistory|
    ensures forall k :: 0 <= k < |tradeHistory| ==> runningBalances[k] == BalanceAt(tradeHistory, k + 1)
    ensures metrics == MetricsOf(tradeHistory)
  {
    var balance := InitialBalance;
    var maxBalance := InitialBalance;
    var maxDrawdownUsd := 0.0;
    runningBalances := [];
    for k := 0 to |tradeHistory|
      invariant Curve(balance, maxBalance, maxDrawdownUsd) == Replay(tradeHistory[..k])
      invariant balance == BalanceAt(tradeHistory, k)
      invariant |runningBalances| == k
      invariant forall q :: 0 <= q < k ==> runningBalances[q] == BalanceAt(tradeHistory, q + 1)
    {
      assert tradeHistory[..k + 1][..k] == tradeHistory[..k];
      var pnl := tradeHistory[k].pnl;
      balance := balance + pnl;
      maxBalance := Max(maxBalance, balance);
      maxDrawdownUsd := Max(maxDrawdownUsd, maxBalance - balance);
      runningBalances := runningBalances + [balance];
    }
    assert tradeHistory[..|tradeHistory|] == tradeHistory;
    if |tradeHistory| == 0 {
      return runningBalances, None;
    }
    var totalTrades := |tradeHistory|;
    var profitableTrades := ProfitableTrades(tradeHistory);
    var grossProfit := GrossProfit(tradeHistory);
    var grossLoss := GrossLoss(tradeHistory);
    var winRate := profitableTrades as real / totalTrades as real;
    var profitFactor := ProfitFactorOf(grossProfit, grossLoss);
    var maxDrawdownPercent := if maxBalance > 0.0 then maxDrawdownUsd / maxBalance * 100.0 else 0.0;
    metrics := Some(Report(
      totalTrades, balance, balance - InitialBalance, profitableTrades, grossProfit, grossLoss,
      winRate, profitFactor, maxDrawdownUsd, maxDrawdownPercent,
      tradeHistory[0].exitTime, tradeHistory[totalTrades - 1].exitTime));
  }

  // ---------------------------------------------------------------------
  // Properties of the replay and the reductions

  /** The net profit splits into gross profit less gross loss. */
  lemma {:induction false} NetProfitSplits(history: seq<TradeRecord>)
    ensures SumPnl(history) == GrossProfit(history) - GrossLoss(history)
  {
    if history != [] {
      NetProfitSplits(history[..|history| - 1]);
    }
  }

  /** Every trade wins exactly when the win rate's numerator is the trade count. */
  lemma {:induction false} AllProfitableIff(history: seq<TradeRecord>)
    ensures ProfitableTrades(history) == |history| <==> forall t :: t in history ==> t.pnl > 0.0
  {
    if history != [] {
      var init := history[..|history| - 1];
      AllProfitableIff(init);
      assert history == init + [history[|history| - 1]];
      assert forall t :: t in history <==> t in init || t == history[|history| - 1];
    }
  }

  /** The win rate is a fraction. */
  lemma WinRateBounds(history: seq<TradeRecord>)
    requires history != []
    ensures 0.0 <= MetricsOf(history).value.winRate <= 1.0
  {
    var p := ProfitableTrades(history) as real;
    var n := |history| as real;
    DivMonotone(p, n, n);
  }

  lemma {:induction false} ReplayBalance(history: seq<TradeRecord>)
    ensures Replay(history).balance == BalanceAt(history, |history|)
  {
    if history != [] {
      ReplayBalance(history[..|history| - 1]);
      assert history[..|history|] == history;
      assert history[..|history| - 1][..|history| - 1] == history[..|history| - 1];
    }
  }

  /** The first j trades' balances are the same in a longer ledger. */
  lemma PrefixBalance(history: seq<TradeRecord>, j: nat)
    requires history != [] && j < |history|
    ensures BalanceAt(history, j) == BalanceAt(history[..|history| - 1], j)
  {
    assert history[..j] == history[..|history| - 1][..j];
  }

  /** The replay's peak is the highest balance reached, the initial balance included. */
  lemma {:induction false} ReplayPeak(history: seq<TradeRecord>)
    ensures forall j :: 0 <= j <= |history| ==> BalanceAt(history, j) <= Replay(history).peak
    ensures exists j :: 0 <= j <= |history| && BalanceAt(history, j) == Replay(history).peak
  {
    if history == [] {
      assert BalanceAt(history, 0) == InitialBalance;
    } else {
      var init := history[..|history| - 1];
      var n := |history|;
      ReplayPeak(init);
      ReplayBalance(history);
      ReplayBalance(init);
      forall j | 0 <= j < n
        ensures BalanceAt(history, j) == BalanceAt(init, j)
      {
        PrefixBalance(history, j);
      }
      var c := Replay(init);
      var w :| 0 <= w <= |init| && BalanceAt(init, w) == c.peak;
      if Replay(history).peak == c.peak {
        assert BalanceAt(history, w) == Replay(history).peak;
      } else {
        assert BalanceAt(history, n) == Replay(history).peak;
      }
    }
  }

  /** The replay's drawdown is the largest fall from an earlier (or the same)
      balance to a later one, and it is attained (or zero). */
  lemma {:induction false} ReplayDrawdown(history: seq<TradeRecord>)
    ensures Replay(history).drawdown >= 0.0
    ensures forall i, j :: 0 <= i <= j <= |history| ==>
      BalanceAt(history, i) - BalanceAt(history, j) <= Replay(history).drawdown
    ensures Replay(history).drawdown == 0.0
      || exists i, j :: 0 <= i <= j <= |history|
           && BalanceAt(history, i) - BalanceAt(history, j) == Replay(history).drawdown
  {
    if history != [] {
      var init := history[..|history| - 1];
      var n := |history|;
      ReplayDrawdown(init);
      ReplayPeak(history);
      ReplayBalance(history);
      forall j | 0 <= j < n
        ensures BalanceAt(history, j) == BalanceAt(init, j)
      {
        PrefixBalance(history, j);
      }
      var c := Replay(history);
      if c.drawdown != 0.0 {
        if c.drawdown == Replay(init).drawdown {
          var i, j :| 0 <= i <= j <= |init| && BalanceAt(init, i) - BalanceAt(init, j) == Replay(init).drawdown;
          assert BalanceAt(history, i) - BalanceAt(history, j) == c.drawdown;
        } else {
          var w :| 0 <= w <= n && BalanceAt(history, w) == c.peak;
          assert BalanceAt(history, w) - BalanceAt(history, n) == c.drawdown;
        }
      }
    }
  }

  /** The peak never falls below the initial balance, so the drawdown
      percentage is never negative; it is at most 100 when the running
      balance never goes negative. */
  lemma DrawdownPercentBounds(history: seq<TradeRecord>)
    ensures Replay(history).peak >= InitialBalance
    ensures DrawdownPercent(Replay(history).drawdown, Replay(history).peak) >= 0.0
    ensures (forall j :: 0 <= j <= |history| ==> BalanceAt(history, j) >= 0.0) ==>
      DrawdownPercent(Replay(history).drawdown, Replay(history).peak) <= 100.0
  {
    var c := Replay(history);
    ReplayPeak(history);
    ReplayDrawdown(history);
    assert BalanceAt(history, 0) == InitialBalance by {
      assert history[..0] == [];
    }
    PercentBounds(c.drawdown, c.peak);
    if forall j :: 0 <= j <= |history| ==> BalanceAt(history, j) >= 0.0 {
      DrawdownAtMostPeak(history);
    }
  }

  lemma DrawdownAtMostPeak(history: seq<TradeRecord>)
    requires forall j :: 0 <= j <= |history| ==> BalanceAt(history, j) >= 0.0
    ensures Replay(history).drawdown <= Replay(history).peak
  {
    ReplayPeak(history);
    ReplayDrawdown(history);
  }

  lemma PercentBounds(drawdown: real, peak: real)
    requires drawdown >= 0.0 && peak > 0.0
    ensures DrawdownPercent(drawdown, peak) >= 0.0
    ensures drawdown <= peak ==> DrawdownPercent(drawdown, peak) <= 100.0
  {
    DivMonotone(0.0, drawdown, peak);
    if drawdown <= peak {
      DivMonotone(drawdown, peak, peak);
    }
  }
}
