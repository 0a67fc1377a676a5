/** The parameter sampler (`generateRandomProperty`, optimizationWorker.js:15-34).
    Each `Math.random()` call is an input draw in [0, 1), so the sampler is a
    pure function of its draws. */
module Sampler {
  import opened Numeric
  import opened Market

  /** Canonical take-profit multiples. */
  const FibRatios: seq<real> := [0.382, 0.5, 0.618, 0.786, 1.0, 1.272, 1.618, 2.618]

  /** Logged pull-back limits. */
  const PullbackLimits: seq<real> := [0.382, 0.5, 0.618]

  /** The values `Math.random()` returns to one call of the sampler, named by
      the field they decide. The `mtf` draw is only taken when at least one
      timeframe qualifies. */
  datatype Draws = Draws(
    mtf: real,
    rsiPeriod: real,
    overbought: real,
    oversold: real,
    slMultiplier: real,
    targetRatio: real,
    pullback: real,
    side: real)

  predicate Unit(u: real)
  {
    0.0 <= u < 1.0
  }

  predicate ValidDraws(u: Draws)
  {
    Unit(u.mtf) && Unit(u.rsiPeriod) && Unit(u.overbought) && Unit(u.oversold)
    && Unit(u.slMultiplier) && Unit(u.targetRatio) && Unit(u.pullback) && Unit(u.side)
  }

  /** `TIMEFRAMES.filter(t => t >= timeframe)` */
  function AtLeast(s: seq<int>, timeframe: int): (r: seq<int>)
    ensures forall x :: x in r <==> x in s && x >= timeframe
  {
    if s == [] then []
    else (if s[0] >= timeframe then [s[0]] else []) + AtLeast(s[1..], timeframe)
  }

  lemma NoneAtLeast(s: seq<int>, timeframe: int)
    requires forall k :: 0 <= k < |s| ==> s[k] < timeframe
    ensures AtLeast(s, timeframe) == []
  {
    if s != [] {
      NoneAtLeast(s[1..], timeframe);
    }
  }

  /** `Math.floor(u * n)` for a draw u: an index into a list of n entries. */
  function PickIndex(u: real, n: nat): (k: nat)
    requires Unit(u) && n > 0
    ensures k < n
  {
    MulMonotone(0.0, u, n as real);
    MulBelow(u, n as real);
    (u * n as real).Floor
  }

  lemma MulBelow(u: real, n: real)
    requires 0.0 <= u < 1.0 && n > 0.0
    ensures u * n < n
  {
    assert n - u * n == (1.0 - u) * n;
  }

  /** `parseFloat((u * (hi - lo) + lo).toFixed(digits))` lies in [lo, hi]
      when both ends are unchanged by the rounding. */
  lemma RoundedDrawInRange(x: real, lo: real, hi: real, digits: nat)
    requires digits <= 5 && lo <= x <= hi
    requires ToFixed(lo, digits) == lo && ToFixed(hi, digits) == hi
    ensures lo <= ToFixed(x, digits) <= hi
  {
    ToFixedMonotone(lo, x, digits);
    ToFixedMonotone(x, hi, digits);
  }

  /** `u * w + lo` lies in [lo, lo + w) for a draw u and a width w > 0. */
  lemma LinearDrawInRange(u: real, lo: real, w: real)
    requires Unit(u) && w > 0.0
    ensures lo <= u * w + lo < lo + w
  {
    MulMonotone(0.0, u, w);
    MulBelow(u, w);
  }

  lemma BandEndsAreExact()
    ensures ToFixed(70.0, 2) == 70.0 && ToFixed(85.0, 2) == 85.0
    ensures ToFixed(15.0, 2) == 15.0 && ToFixed(30.0, 2) == 30.0
    ensures ToFixed(1.5, 1) == 1.5 && ToFixed(3.5, 1) == 3.5
  {
    ToFixedExact(7000, 2);
    ToFixedExact(8500, 2);
    ToFixedExact(1500, 2);
    ToFixedExact(3000, 2);
    ToFixedExact(15, 1);
    ToFixedExact(35, 1);
  }

  /** `generateRandomProperty(instrument, timeframe)`. Every field lies in its
      documented domain: the multi-timeframe period is a configured timeframe
      not shorter than `timeframe` (or `timeframe` itself when none is), the
      RSI period an integer in [7, 21], the entry threshold in the overbought
      band [70, 85] or the oversold band [15, 30] as the side draw decides, the
      stop multiplier in [1.5, 3.5], and the two ratios members of their lists. */
  function GenerateRandomProperty(instrument: string, timeframe: int, u: Draws): (p: StrategyParameters)
    requires ValidDraws(u)
    ensures p.instrument == instrument && p.timeframeMin == timeframe
    ensures p.mtfConfirmPeriodMin >= timeframe
    ensures timeframe <= 240 ==> p.mtfConfirmPeriodMin in Timeframes
    ensures timeframe > 240 ==> p.mtfConfirmPeriodMin == timeframe
    ensures 7 <= p.rsiPeriod <= 21
    ensures u.side < 0.5 ==> 70.0 <= p.rsiEntryThreshold <= 85.0
    ensures u.side >= 0.5 ==> 15.0 <= p.rsiEntryThreshold <= 30.0
    ensures 1.5 <= p.slAtrMultiplier <= 3.5
    ensures p.targetRatio in FibRatios && p.targetRatio > 0.0
    ensures p.pullbackLimit in PullbackLimits
  {
    var validMtfPeriods := AtLeast(Timeframes, timeframe);
    assert timeframe <= 240 ==> 240 in validMtfPeriods;
    assert timeframe > 240 ==> validMtfPeriods == [] by {
      if timeframe > 240 {
        NoneAtLeast(Timeframes, timeframe);
      }
    }
    var mtfPeriod := if |validMtfPeriods| > 0 then validMtfPeriods[PickIndex(u.mtf, |validMtfPeriods|)] else timeframe;
    assert mtfPeriod >= timeframe && (validMtfPeriods != [] ==> mtfPeriod in Timeframes) by {
      if validMtfPeriods != [] {
        assert mtfPeriod in validMtfPeriods;
      }
    }
    var rsiPeriod := PickIndex(u.rsiPeriod, 21 - 7 + 1) + 7;
    var rsiOverbought := ToFixed(u.overbought * (85.0 - 70.0) + 70.0, 2);
    var rsiOversold := ToFixed(u.oversold * (30.0 - 15.0) + 15.0, 2);
    var stopLossAtrMultiplier := ToFixed(u.slMultiplier * (3.5 - 1.5) + 1.5, 1);
    BandEndsAreExact();
    LinearDrawInRange(u.overbought, 70.0, 85.0 - 70.0);
    LinearDrawInRange(u.oversold, 15.0, 30.0 - 15.0);
    LinearDrawInRange(u.slMultiplier, 1.5, 3.5 - 1.5);
    RoundedDrawInRange(u.overbought * (85.0 - 70.0) + 70.0, 70.0, 85.0, 2);
    RoundedDrawInRange(u.oversold * (30.0 - 15.0) + 15.0, 15.0, 30.0, 2);
    RoundedDrawInRange(u.slMultiplier * (3.5 - 1.5) + 1.5, 1.5, 3.5, 1);
    StrategyParameters(
      instrument,
      timeframe,
      FibRatios[PickIndex(u.targetRatio, |FibRatios|)],
      PullbackLimits[PickIndex(u.pullback, 3)],
      mtfPeriod,
      rsiPeriod,
      if u.side < 0.5 then rsiOverbought else rsiOversold,
      stopLossAtrMultiplier)
  }
}
