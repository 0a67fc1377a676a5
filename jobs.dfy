/** How the optimiser splits the work among worker threads
    (xauusd_optimizer.js:38-40 and 441-499): every chart with at least 50 bars
    gets one job per core, each job sampling `ChunksPerCore` parameter sets.
    Spawning the threads and collecting their messages is not modelled; a job
    is the (chart, count) pair a worker is started with. */
module Jobs {
  import opened Market

  /** Charts with fewer bars than this are skipped. */
  const MinChartBars: nat := 50

  /** `Math.ceil(PROPERTIES_PER_CHART / NUM_CORES)`: the fewest sets per job
      for which the cores together cover the chart's quota. */
  function ChunksPerCore(numCores: nat): (r: nat)
    requires numCores >= 1
    ensures r * numCores >= PropertiesPerChart
    ensures (r - 1) * numCores < PropertiesPerChart
  {
    var r := (PropertiesPerChart + numCores - 1) / numCores;
    CeilDivision(PropertiesPerChart, numCores);
    r
  }

  lemma CeilDivision(a: nat, n: nat)
    requires n >= 1
    ensures ((a + n - 1) / n) * n >= a
    ensures ((a + n - 1) / n - 1) * n < a
  {
    var q := (a + n - 1) / n;
    var m := (a + n - 1) % n;
    assert a + n - 1 == q * n + m;
    assert (q - 1) * n == q * n - n;
  }

  /** A worker started for chart `chart` with `propCount` sets to sample. */
  datatype Job = Job(chart: nat, propCount: nat)

  /** The jobs started for one chart, in core order. */
  function ChartJobs(chart: nat, barCount: nat, numCores: nat): (r: seq<Job>)
  {
    if barCount < MinChartBars || numCores == 0 then []
    else seq(numCores, _ => Job(chart, ChunksPerCore(numCores)))
  }

  /** The jobs started for the charts with the given bar counts (one per
      timeframe, in configuration order). */
  function JobPlan(barCounts: seq<nat>, numCores: nat): seq<Job>
  {
    if barCounts == [] then []
    else JobPlan(barCounts[..|barCounts| - 1], numCores)
         + ChartJobs(|barCounts| - 1, barCounts[|barCounts| - 1], numCores)
  }

  /** How many charts have enough bars to be optimised. */
  function EligibleCharts(barCounts: seq<nat>): (n: nat)
    ensures n <= |barCounts|
  {
    if barCounts == [] then 0
    else EligibleCharts(barCounts[..|barCounts| - 1])
         + (if barCounts[|barCounts| - 1] >= MinChartBars then 1 else 0)
  }

  /** The orchestrator's two nested loops: a chart under 50 bars is skipped,
      every other chart gets one job per core, and the number of jobs is
      counted as they are started. */
  method PlanJobs(barCounts: seq<nat>, numCores: nat) returns (jobs: seq<Job>, totalJobs: nat)
    ensures jobs == JobPlan(barCounts, numCores)
    ensures totalJobs == |jobs|
  {
    jobs := [];
    totalJobs := 0;
    var chunksPerCore := if numCores >= 1 then ChunksPerCore(numCores) else 0;
    for c := 0 to |barCounts|
      invariant jobs == JobPlan(barCounts[..c], numCores)
      invariant totalJobs == |jobs|
    {
      assert barCounts[..c + 1][..c] == barCounts[..c];
      if barCounts[c] < MinChartBars {
        continue;
      }
      for i := 0 to numCores
        invariant jobs == JobPlan(barCounts[..c], numCores) + seq(i, _ => Job(c, chunksPerCore))
        invariant totalJobs == |jobs|
      {
        var propCount := chunksPerCore;
        if propCount > 0 {
          totalJobs := totalJobs + 1;
          jobs := jobs + [Job(c, propCount)];
        }
      }
    }
    assert barCounts[..|barCounts|] == barCounts;
  }

  /** There are exactly `numCores` jobs per eligible chart. */
  lemma {:induction false} JobPlanLength(barCounts: seq<nat>, numCores: nat)
    ensures |JobPlan(barCounts, numCores)| == numCores * EligibleCharts(barCounts)
  {
    if barCounts != [] {
      var init := barCounts[..|barCounts| - 1];
      var last := barCounts[|barCounts| - 1];
      JobPlanLength(init, numCores);
      var bit := if last >= MinChartBars then 1 else 0;
      assert |ChartJobs(|barCounts| - 1, last, numCores)| == numCores * bit;
      assert numCores * (EligibleCharts(init) + bit) == numCores * EligibleCharts(init) + numCores * bit;
    }
  }

  /** Every job belongs to an eligible chart and samples `ChunksPerCore` sets. */
  lemma {:induction false} JobPlanMembers(barCounts: seq<nat>, numCores: nat)
    ensures forall j :: j in JobPlan(barCounts, numCores) ==>
      numCores >= 1 && j.chart < |barCounts| && barCounts[j.chart] >= MinChartBars
      && j.propCount == ChunksPerCore(numCores)
  {
    if barCounts != [] {
      var init := barCounts[..|barCounts| - 1];
      JobPlanMembers(init, numCores);
      forall j | j in JobPlan(barCounts, numCores)
        ensures numCores >= 1 && j.chart < |barCounts| && barCounts[j.chart] >= MinChartBars
                && j.propCount == ChunksPerCore(numCores)
      {
        if j in JobPlan(init, numCores) {
          assert barCounts[j.chart] == init[j.chart];
        }
      }
    }
  }

  /** No worker is started (and the run resolves with no results) exactly
      when there are no cores or no chart has 50 bars. */
  lemma {:induction false} NoJobsIff(barCounts: seq<nat>, numCores: nat)
    ensures JobPlan(barCounts, numCores) == [] <==> numCores == 0 || EligibleCharts(barCounts) == 0
  {
    JobPlanLength(barCounts, numCores);
  }

  /** The cores of an eligible chart together sample at least the chart's
      quota of 10000 sets and fewer than 10000 + numCores. */
  lemma ChartPropertyBudget(numCores: nat)
    requires numCores >= 1
    ensures PropertiesPerChart <= numCores * ChunksPerCore(numCores) < PropertiesPerChart + numCores
  {
    var r := ChunksPerCore(numCores);
    assert (r - 1) * numCores == r * numCores - numCores;
  }

  /** The quota is overshot when the core count does not divide 10000: three
      cores sample 3 x 3334 = 10002 sets per chart. */
  lemma ThreeCoresOvershoot()
    ensures 3 * ChunksPerCore(3) == 10002
  {
    assert (PropertiesPerChart + 3 - 1) / 3 == 3334;
  }
}
