/** Aggregation of raw ticks into fixed-interval OHLC bars
    (`tickToBarConversion`, xauusd_optimizer.js:96-149).

    The conversion is a left fold over the time-sorted ticks: `Feed` is one
    iteration of the source's loop, `FeedAll` the loop so far, `Flush` the
    push of the bar still open after the loop and `Positive` the final
    `filter(b => b.atr > 0)`. The method `TickToBarConversion` runs the loop
    imperatively and is proved to compute exactly that fold. */
module BarAggregation {
  import opened Wrappers
  import opened Numeric
  import opened Market
  import Sorting

  /** `timeframeMinutes * 60 * 1000` */
  function BarDurationMillis(timeframeMinutes: int): int
  {
    timeframeMinutes * 60 * 1000
  }

  /** `Math.floor(t / d) * d`: the start of the bucket that holds instant t
      (Dafny's `/` with a positive divisor rounds down, like `Math.floor`). */
  function BucketStart(t: int, d: int): (b: int)
    requires d > 0
    ensures b <= t < b + d
    ensures b / d == t / d
    ensures b % d == 0
  {
    DivOfMultiple(t / d, d);
    (t / d) * d
  }

  lemma MulNonNegative(a: int, b: int)
    requires a >= 0 && b >= 0
    ensures a * b >= 0
  {
  }

  /** Dividing a multiple of d by d gives back the multiplier, with no remainder. */
  lemma DivOfMultiple(q: int, d: int)
    requires d > 0
    ensures (q * d) / d == q && (q * d) % d == 0
  {
    var x := q * d;
    var k, r := x / d, x % d;
    assert x == k * d + r && 0 <= r < d;
    var m := q - k;
    assert m * d == q * d - k * d;
    assert m * d == r;
    if m >= 1 {
      MulNonNegative(m - 1, d);
    } else if m <= -1 {
      MulNonNegative(-m - 1, d);
    }
  }

  /** Bucketing preserves the order of instants. */
  lemma BucketStartMonotone(t1: int, t2: int, d: int)
    requires d > 0 && t1 <= t2
    ensures BucketStart(t1, d) <= BucketStart(t2, d)
  {
    var q1, q2 := t1 / d, t2 / d;
    if q1 > q2 {
      MulNonNegative(q1 - q2 - 1, d);
    }
  }

  function TickTime(t: Tick): real
  {
    t.timestamp as real
  }

  /** The bar's range in pips, rounded to two decimals (`toFixed(2)`). */
  function RangeAtr(b: Bar): real
  {
    ToFixed(Abs(b.high - b.low) * PipsPerPriceUnit, 2)
  }

  /** Sets the bar's `atr` when it is emitted: its range in pips to within
      half a hundredth, never negative, and zero for a flat bar (which the
      final filter then drops). */
  function Finalize(b: Bar): (r: Bar)
    ensures r.atr == RangeAtr(b)
    ensures r == b.(atr := r.atr)
    ensures r.atr >= 0.0
    ensures Abs(r.atr - Abs(b.high - b.low) * PipsPerPriceUnit) <= 0.005
    ensures b.high == b.low ==> r.atr == 0.0
  {
    var range := Abs(b.high - b.low) * PipsPerPriceUnit;
    ToFixedSign(range, 2);
    ToFixedError(range, 2);
    ToFixedExact(0, 2);
    b.(atr := RangeAtr(b))
  }

  /** A fresh bar seeded by one tick's mid price. */
  function OpenBar(midPrice: real, start: int): Bar
  {
    Bar(start, midPrice, midPrice, midPrice, midPrice, 0.0)
  }

  /** A later tick in the same bucket: raise high, lower low, overwrite close. */
  function Extend(b: Bar, midPrice: real): Bar
  {
    b.(high := Max(b.high, midPrice), low := Min(b.low, midPrice), close := midPrice)
  }

  /** The loop's variables: the emitted bars, `currentBar`,
      `currentBarStartTimeMillis`, and whether the loop broke at the cap. */
  datatype AggState = AggState(bars: seq<Bar>, current: Option<Bar>, currentStart: int, capped: bool)

  const Start := AggState([], None, 0, false)

  /** One iteration of the tick loop. Once capped, the loop has exited and
      later ticks change nothing. */
  function Feed(s: AggState, t: Tick, d: int): AggState
    requires d > 0
  {
    if s.capped then s
    else
      var snapped := BucketStart(t.timestamp, d);
      if s.current.None? || snapped > s.currentStart then
        if s.current.Some? then
          var closed := Finalize(s.current.value);
          var bars := s.bars + [closed];
          if |bars| >= MaxBarsPerChart then AggState(bars, Some(closed), s.currentStart, true)
          else AggState(bars, Some(OpenBar(t.midPrice, snapped)), snapped, false)
        else AggState(s.bars, Some(OpenBar(t.midPrice, snapped)), snapped, false)
      else AggState(s.bars, Some(Extend(s.current.value, t.midPrice)), s.currentStart, false)
  }

  /** The loop run over `ticks` in order. */
  function FeedAll(ticks: seq<Tick>, d: int): AggState
    requires d > 0
  {
    if ticks == [] then Start else Feed(FeedAll(ticks[..|ticks| - 1], d), ticks[|ticks| - 1], d)
  }

  /** After the loop: the bar still referenced by `currentBar` is finalised and pushed. */
  function Flush(s: AggState): seq<Bar>
  {
    if s.current.Some? then s.bars + [Finalize(s.current.value)] else s.bars
  }

  /** `bars.filter(b => b.atr > 0)` */
  function Positive(bars: seq<Bar>): (r: seq<Bar>)
    ensures |r| <= |bars|
    ensures forall k :: 0 <= k < |r| ==> r[k] in bars && r[k].atr > 0.0
    ensures forall k :: 0 <= k < |bars| && bars[k].atr > 0.0 ==> bars[k] in r
  {
    if bars == [] then []
    else (if bars[0].atr > 0.0 then [bars[0]] else []) + Positive(bars[1..])
  }

  /** The conversion of an already time-sorted, non-empty tick list. */
  function ConvertSorted(ticks: seq<Tick>, timeframeMinutes: int): ChartData
    requires timeframeMinutes > 0
  {
    if ticks == [] then ChartData([], PipsPerPriceUnit)
    else ChartData(Positive(Flush(FeedAll(ticks, BarDurationMillis(timeframeMinutes)))), PipsPerPriceUnit)
  }

  /** `tickToBarConversion(symbol, ticks, timeframeMinutes)`. The symbol is
      unused by the source. An empty list is returned as it is; otherwise the
      ticks are sorted by timestamp in place, stably (ticks with the same
      timestamp keep their order, which fixes the open and close of their
      bar), and folded into bars. */
  method TickToBarConversion(symbol: string, ticks: array<Tick>, timeframeMinutes: int)
    returns (data: ChartData)
    requires timeframeMinutes > 0
    modifies ticks
    ensures ticks.Length == 0 ==> data == ChartData([], PipsPerPriceUnit)
    ensures Sorting.SortedBy(ticks[..], TickTime)
    ensures multiset(ticks[..]) == multiset(old(ticks[..]))
    ensures Sorting.SameKeyClasses(ticks[..], old(ticks[..]), TickTime)
    ensures data == ConvertSorted(ticks[..], timeframeMinutes)
  {
    if ticks.Length == 0 {
      return ChartData([], PipsPerPriceUnit);
    }
    Sorting.InsertionSortBy(ticks, TickTime);

    var pipsPerPriceUnit := PipsPerPriceUnit;
    var barDurationMillis := timeframeMinutes * 60 * 1000;
    var bars: seq<Bar> := [];
    var currentBar: Option<Bar> := None;
    var currentBarStartTimeMillis := 0;
    ghost var capped := false;

    var i := 0;
    while i < ticks.Length
      invariant 0 <= i <= ticks.Length
      invariant FeedAll(ticks[..i], barDurationMillis) == AggState(bars, currentBar, currentBarStartTimeMillis, false)
    {
      var tick := ticks[i];
      assert ticks[..i + 1][..i] == ticks[..i];
      var snappedEpochMillis := (tick.timestamp / barDurationMillis) * barDurationMillis;
      if currentBar.None? || snappedEpochMillis > currentBarStartTimeMillis {
        if currentBar.Some? {
          currentBar := Some(Finalize(currentBar.value));
          bars := bars + [currentBar.value];
          if |bars| >= MaxBarsPerChart {
            capped := true;
            CappedIsFinal(ticks[..], i + 1, barDurationMillis);
            assert ticks[..] == ticks[..ticks.Length];
            break;
          }
        }
        currentBarStartTimeMillis := snappedEpochMillis;
        currentBar := Some(OpenBar(tick.midPrice, snappedEpochMillis));
      } else {
        var b := currentBar.value;
        currentBar := Some(b.(high := Max(b.high, tick.midPrice), low := Min(b.low, tick.midPrice), close := tick.midPrice));
      }
      i := i + 1;
    }
    assert !capped ==> ticks[..i] == ticks[..];
    assert FeedAll(ticks[..], barDurationMillis) == AggState(bars, currentBar, currentBarStartTimeMillis, capped);

    if currentBar.Some? {
      currentBar := Some(Finalize(currentBar.value));
      bars := bars + [currentBar.value];
    }
    data := ChartData(Positive(bars), pipsPerPriceUnit);
  }

  /** Once the cap is hit, the rest of the ticks are never looked at. */
  lemma {:induction false} CappedIsFinal(ticks: seq<Tick>, n: nat, d: int)
    requires d > 0 && n <= |ticks|
    requires FeedAll(ticks[..n], d).capped
    ensures FeedAll(ticks, d) == FeedAll(ticks[..n], d)
  {
    if n < |ticks| {
      var m := |ticks| - 1;
      assert ticks[..m][..n] == ticks[..n];
      CappedIsFinal(ticks[..m], n, d);
    } else {
      assert ticks[..n] == ticks;
    }
  }

  // ---------------------------------------------------------------------------
  // Properties of the conversion

  predicate OhlcConsistent(b: Bar)
  {
    b.low <= b.open <= b.high && b.low <= b.close <= b.high
  }

  /** What every pushed bar satisfies: consistent prices, a start on the
      bucket grid, and an atr computed from its own range. */
  predicate Emitted(b: Bar, d: int)
    requires d > 0
  {
    OhlcConsistent(b) && b.time % d == 0 && b.atr == RangeAtr(b)
  }

  predicate StrictlyIncreasingTimes(bars: seq<Bar>)
  {
    forall p, q :: 0 <= p < q < |bars| ==> bars[p].time < bars[q].time
  }

  /** Invariant of the loop state, for any tick order. */
  ghost predicate Inv(s: AggState, d: int)
    requires d > 0
  {
    && (forall k :: 0 <= k < |s.bars| ==> Emitted(s.bars[k], d))
    && (s.current.Some? ==>
          OhlcConsistent(s.current.value) && s.current.value.time == s.currentStart && s.currentStart % d == 0)
    && (s.capped ==> |s.bars| == MaxBarsPerChart && s.current == Some(s.bars[|s.bars| - 1]))
    && (!s.capped ==> |s.bars| < MaxBarsPerChart)
    && (s.bars != [] ==> s.current.Some?)
  }

  /** Invariant of the loop state for time-sorted ticks: emitted bars have
      strictly increasing starts, all before the open bar's start. */
  ghost predicate Ordered(s: AggState)
  {
    && StrictlyIncreasingTimes(s.bars)
    && (!s.capped && s.current.Some? ==> forall k :: 0 <= k < |s.bars| ==> s.bars[k].time < s.currentStart)
  }

  /** Until the cap, the open bar is the last tick's bucket and closes at its mid. */
  ghost predicate Tracks(s: AggState, last: Tick, d: int)
    requires d > 0
  {
    !s.capped ==>
      s.current.Some? && s.currentStart == BucketStart(last.timestamp, d) && s.current.value.close == last.midPrice
  }

  lemma FeedStep(s: AggState, t: Tick, d: int)
    requires d > 0 && Inv(s, d)
    ensures Inv(Feed(s, t, d), d)
    ensures Feed(s, t, d).current.Some?
    ensures !s.capped && (s.current.Some? ==> s.currentStart <= BucketStart(t.timestamp, d))
            ==> Tracks(Feed(s, t, d), t, d)
    ensures Ordered(s) && (s.current.Some? && !s.capped ==> s.currentStart <= BucketStart(t.timestamp, d))
            ==> Ordered(Feed(s, t, d))
  {
    if !s.capped && s.current.Some? && BucketStart(t.timestamp, d) > s.currentStart {
      FeedCloses(s, t, d);
    } else if !s.capped && s.current.Some? {
      var b := s.current.value;
      assert OhlcConsistent(Extend(b, t.midPrice));
    }
  }

  /** The case of Feed that closes the open bar. */
  lemma FeedCloses(s: AggState, t: Tick, d: int)
    requires d > 0 && Inv(s, d)
    requires !s.capped && s.current.Some? && BucketStart(t.timestamp, d) > s.currentStart
    ensures Inv(Feed(s, t, d), d)
    ensures Tracks(Feed(s, t, d), t, d)
    ensures Ordered(s) ==> Ordered(Feed(s, t, d))
  {
    var s' := Feed(s, t, d);
    var closed := Finalize(s.current.value);
    assert RangeAtr(closed) == RangeAtr(s.current.value);
    assert Emitted(closed, d);
    assert s'.bars == s.bars + [closed];
    assert forall k :: 0 <= k < |s'.bars| ==> Emitted(s'.bars[k], d) by {
      forall k | 0 <= k < |s'.bars|
        ensures Emitted(s'.bars[k], d)
      {
        if k < |s.bars| {
          assert s'.bars[k] == s.bars[k];
        }
      }
    }
    if Ordered(s) {
      assert closed.time == s.currentStart;
      assert StrictlyIncreasingTimes(s'.bars) by {
        forall p, q | 0 <= p < q < |s'.bars|
          ensures s'.bars[p].time < s'.bars[q].time
        {
          if q < |s.bars| {
            assert s'.bars[p] == s.bars[p] && s'.bars[q] == s.bars[q];
          } else {
            assert s'.bars[p] == s.bars[p];
          }
        }
      }
    }
  }

  /** The facts the loop keeps, established for every prefix of the ticks. */
  lemma {:induction false} FeedAllFacts(ticks: seq<Tick>, d: int)
    requires d > 0
    ensures Inv(FeedAll(ticks, d), d)
    ensures ticks != [] ==> FeedAll(ticks, d).current.Some?
    ensures Sorting.SortedBy(ticks, TickTime) ==>
      Ordered(FeedAll(ticks, d)) && (ticks != [] ==> Tracks(FeedAll(ticks, d), ticks[|ticks| - 1], d))
  {
    if ticks != [] {
      var n := |ticks| - 1;
      var prefix := ticks[..n];
      var t := ticks[n];
      FeedAllFacts(prefix, d);
      var s := FeedAll(prefix, d);
      FeedStep(s, t, d);
      if Sorting.SortedBy(ticks, TickTime) {
        assert Sorting.SortedBy(prefix, TickTime);
        if prefix != [] && !s.capped {
          var prev := prefix[n - 1];
          assert TickTime(prev) <= TickTime(t);
          BucketStartMonotone(prev.timestamp, t.timestamp, d);
        }
      }
    }
  }

  lemma FlushEmitted(s: AggState, d: int)
    requires d > 0 && Inv(s, d)
    ensures forall k :: 0 <= k < |Flush(s)| ==> Emitted(Flush(s)[k], d)
    ensures |Flush(s)| <= MaxBarsPerChart + 1
  {
    if s.current.Some? {
      assert Emitted(Finalize(s.current.value), d);
    }
  }

  /** Every returned bar has consistent prices (low <= open, close <= high),
      starts on a multiple of the bar duration, and has a positive atr equal to
      its rounded range in pips, so its high is strictly above its low. At most
      MaxBarsPerChart + 1 bars are returned. */
  lemma ConvertedBarsWellFormed(ticks: seq<Tick>, timeframeMinutes: int)
    requires timeframeMinutes > 0
    ensures var r := ConvertSorted(ticks, timeframeMinutes);
      && r.pipsPerPriceUnit == PipsPerPriceUnit
      && |r.bars| <= MaxBarsPerChart + 1
      && forall k :: 0 <= k < |r.bars| ==>
           && OhlcConsistent(r.bars[k])
           && r.bars[k].time % BarDurationMillis(timeframeMinutes) == 0
           && r.bars[k].atr == RangeAtr(r.bars[k]) > 0.0
           && r.bars[k].low < r.bars[k].high
  {
    var d := BarDurationMillis(timeframeMinutes);
    if ticks != [] {
      FeedAllFacts(ticks, d);
      var u := Flush(FeedAll(ticks, d));
      FlushEmitted(FeedAll(ticks, d), d);
      var r := Positive(u);
      forall k | 0 <= k < |r|
        ensures r[k].low < r[k].high
      {
        var b := r[k];
        assert b in u;
        ToFixedPositive(Abs(b.high - b.low) * PipsPerPriceUnit, 2);
      }
    }
  }

  lemma {:induction false} PositiveKeepsLowerBound(bars: seq<Bar>, x: int)
    requires forall k :: 0 <= k < |bars| ==> bars[k].time > x
    ensures forall k :: 0 <= k < |Positive(bars)| ==> Positive(bars)[k].time > x
  {
    if bars != [] {
      PositiveKeepsLowerBound(bars[1..], x);
    }
  }

  lemma {:induction false} PositiveKeepsOrder(bars: seq<Bar>)
    requires StrictlyIncreasingTimes(bars)
    ensures StrictlyIncreasingTimes(Positive(bars))
  {
    if bars != [] {
      var tail := bars[1..];
      PositiveKeepsOrder(tail);
      var rest := Positive(tail);
      if bars[0].atr > 0.0 {
        PositiveKeepsLowerBound(tail, bars[0].time);
        ConsKeepsOrder(bars[0], rest);
      }
    }
  }

  lemma ConsKeepsOrder(b: Bar, rest: seq<Bar>)
    requires StrictlyIncreasingTimes(rest)
    requires forall k :: 0 <= k < |rest| ==> rest[k].time > b.time
    ensures StrictlyIncreasingTimes([b] + rest)
  {
    var r := [b] + rest;
    forall p, q | 0 <= p < q < |r|
      ensures r[p].time < r[q].time
    {
      assert r[q] == rest[q - 1];
      if p > 0 {
        assert r[p] == rest[p - 1];
      }
    }
  }

  lemma {:induction false} PositiveAppend(a: seq<Bar>, b: seq<Bar>)
    ensures Positive(a + b) == Positive(a) + Positive(b)
  {
    if a == [] {
      assert a + b == b;
    } else {
      assert (a + b)[1..] == a[1..] + b;
      PositiveAppend(a[1..], b);
    }
  }

  /** For time-sorted ticks whose run does not reach the cap, the returned
      bars have strictly increasing start times. */
  lemma ConvertedBarsIncreasing(ticks: seq<Tick>, timeframeMinutes: int)
    requires timeframeMinutes > 0
    requires Sorting.SortedBy(ticks, TickTime)
    requires !FeedAll(ticks, BarDurationMillis(timeframeMinutes)).capped
    ensures StrictlyIncreasingTimes(ConvertSorted(ticks, timeframeMinutes).bars)
  {
    var d := BarDurationMillis(timeframeMinutes);
    FeedAllFacts(ticks, d);
    var u := Flush(FeedAll(ticks, d));
    assert StrictlyIncreasingTimes(u);
    PositiveKeepsOrder(u);
  }

  /** For time-sorted ticks, the last bar before filtering is the bucket of
      the last tick and closes at that tick's mid price (when the run does not
      reach the cap). */
  lemma LastBarHoldsLastTick(ticks: seq<Tick>, timeframeMinutes: int)
    requires timeframeMinutes > 0 && ticks != []
    requires Sorting.SortedBy(ticks, TickTime)
    requires !FeedAll(ticks, BarDurationMillis(timeframeMinutes)).capped
    ensures var u := Flush(FeedAll(ticks, BarDurationMillis(timeframeMinutes)));
      var last := ticks[|ticks| - 1];
      && u != []
      && u[|u| - 1].time == BucketStart(last.timestamp, BarDurationMillis(timeframeMinutes))
      && u[|u| - 1].close == last.midPrice
  {
    FeedAllFacts(ticks, BarDurationMillis(timeframeMinutes));
  }

  // ---------------------------------------------------------------------------
  // Each bar summarises the ticks of its bucket

  /** Bar b summarises the ticks `ticks[lo..hi]`: they all fall in b's bucket,
      b opens at the first one's mid price and closes at the last one's, and
      its high and low are the largest and smallest of their mid prices. */
  ghost predicate Summarises(b: Bar, ticks: seq<Tick>, lo: int, hi: int, d: int)
    requires d > 0
  {
    && 0 <= lo < hi <= |ticks|
    && (forall j :: lo <= j < hi ==> BucketStart(ticks[j].timestamp, d) == b.time)
    && b.open == ticks[lo].midPrice
    && b.close == ticks[hi - 1].midPrice
    && (forall j :: lo <= j < hi ==> b.low <= ticks[j].midPrice <= b.high)
    && (exists j :: lo <= j < hi && ticks[j].midPrice == b.high)
    && (exists j :: lo <= j < hi && ticks[j].midPrice == b.low)
  }

  /** ... and `ticks[lo..hi]` is a whole run of b's bucket: the ticks just
      before and just after it lie in other buckets. */
  ghost predicate WholeBucket(b: Bar, ticks: seq<Tick>, lo: int, hi: int, d: int)
    requires d > 0
  {
    && Summarises(b, ticks, lo, hi, d)
    && (lo > 0 ==> BucketStart(ticks[lo - 1].timestamp, d) != b.time)
    && (hi < |ticks| ==> BucketStart(ticks[hi].timestamp, d) != b.time)
  }

  /** What the loop state says about the ticks read so far, with `cuts` the
      boundaries of the runs: pushed bar k summarises the whole run
      `ticks[cuts[k]..cuts[k+1]]`, the first run starts at the first tick,
      each run starts where the previous one ends, and until the cap the open
      bar summarises the run from the last boundary to the last tick read. */
  ghost predicate Covers(s: AggState, ticks: seq<Tick>, cuts: seq<int>, d: int)
    requires d > 0
  {
    && |cuts| == |s.bars| + 1
    && cuts[0] == 0
    && (forall k :: 0 <= k < |s.bars| ==> RunAt(s.bars, ticks, cuts, k, d))
    && (!s.capped && s.current.Some? ==> WholeBucket(s.current.value, ticks, cuts[|s.bars|], |ticks|, d))
    && (!s.capped && s.current.None? ==> cuts[|s.bars|] == |ticks|)
  }

  /** A run that ended before the last tick read stays a whole run when more
      ticks are read. */
  /** Bar k summarises the whole run between boundaries k and k + 1, which
      ends before the last tick read. */
  ghost predicate RunAt(bars: seq<Bar>, ticks: seq<Tick>, cuts: seq<int>, k: int, d: int)
    requires d > 0 && 0 <= k < |bars| && |cuts| == |bars| + 1
  {
    cuts[k + 1] < |ticks| && WholeBucket(bars[k], ticks, cuts[k], cuts[k + 1], d)
  }

  lemma WholeBucketExtends(b: Bar, p: seq<Tick>, q: seq<Tick>, lo: int, hi: int, d: int)
    requires d > 0 && p <= q && hi < |p|
    requires WholeBucket(b, p, lo, hi, d)
    ensures WholeBucket(b, q, lo, hi, d)
  {
    var jh :| lo <= jh < hi && p[jh].midPrice == b.high;
    var jl :| lo <= jl < hi && p[jl].midPrice == b.low;
    assert q[jh] == p[jh] && q[jl] == p[jl];
  }

  lemma KeepPushed(bars: seq<Bar>, p: seq<Tick>, q: seq<Tick>, cuts: seq<int>, d: int)
    requires d > 0 && p <= q && |cuts| == |bars| + 1
    requires forall k :: 0 <= k < |bars| ==> RunAt(bars, p, cuts, k, d)
    ensures forall k :: 0 <= k < |bars| ==> RunAt(bars, q, cuts, k, d)
  {
    forall k | 0 <= k < |bars|
      ensures RunAt(bars, q, cuts, k, d)
    {
      assert RunAt(bars, p, cuts, k, d);
      WholeBucketExtends(bars[k], p, q, cuts[k], cuts[k + 1], d);
    }
  }

  /** A tick in a new bucket opens a bar that summarises it alone. */
  lemma OpenBarWhole(p: seq<Tick>, t: Tick, d: int)
    requires d > 0
    requires p != [] ==> BucketStart(p[|p| - 1].timestamp, d) != BucketStart(t.timestamp, d)
    ensures WholeBucket(OpenBar(t.midPrice, BucketStart(t.timestamp, d)), p + [t], |p|, |p| + 1, d)
  {
    var q := p + [t];
    assert q[|p|] == t;
    if p != [] {
      assert q[|p| - 1] == p[|p| - 1];
    }
  }

  /** A tick in the open bar's bucket extends the run the bar summarises. */
  lemma ExtendWhole(b: Bar, p: seq<Tick>, t: Tick, lo: int, d: int)
    requires d > 0 && WholeBucket(b, p, lo, |p|, d)
    requires BucketStart(t.timestamp, d) == b.time
    ensures WholeBucket(Extend(b, t.midPrice), p + [t], lo, |p| + 1, d)
  {
    var q := p + [t];
    var e := Extend(b, t.midPrice);
    assert q[|p|] == t;
    assert forall j :: 0 <= j < |p| ==> q[j] == p[j];
    var jh :| lo <= jh < |p| && p[jh].midPrice == b.high;
    var jl :| lo <= jl < |p| && p[jl].midPrice == b.low;
    assert exists j :: lo <= j < |q| && q[j].midPrice == e.high by {
      if t.midPrice >= b.high { assert q[|p|].midPrice == e.high; } else { assert q[jh].midPrice == e.high; }
    }
    assert exists j :: lo <= j < |q| && q[j].midPrice == e.low by {
      if t.midPrice <= b.low { assert q[|p|].midPrice == e.low; } else { assert q[jl].midPrice == e.low; }
    }
  }

  /** A tick in another bucket ends the run of the open bar, which is pushed. */
  lemma CloseWhole(b: Bar, p: seq<Tick>, t: Tick, lo: int, d: int)
    requires d > 0 && WholeBucket(b, p, lo, |p|, d)
    requires BucketStart(t.timestamp, d) != b.time
    ensures WholeBucket(Finalize(b), p + [t], lo, |p|, d)
  {
    var q := p + [t];
    assert q[|p|] == t;
    assert forall j :: 0 <= j < |p| ==> q[j] == p[j];
    var jh :| lo <= jh < |p| && p[jh].midPrice == b.high;
    var jl :| lo <= jl < |p| && p[jl].midPrice == b.low;
    assert q[jh] == p[jh] && q[jl] == p[jl];
  }

  /** One tick of sorted input keeps `Covers`: a tick in the open bar's
      bucket extends its run, and a tick in a later bucket ends it (a new
      boundary) and starts the next run. */
  lemma CoversStep(s: AggState, p: seq<Tick>, t: Tick, cuts: seq<int>, d: int) returns (cuts': seq<int>)
    requires d > 0 && Inv(s, d) && Covers(s, p, cuts, d)
    requires p == [] ==> s == Start
    requires p != [] ==> s.current.Some? && Tracks(s, p[|p| - 1], d)
    requires !s.capped && s.current.Some? ==> s.currentStart <= BucketStart(t.timestamp, d)
    ensures Covers(Feed(s, t, d), p + [t], cuts', d)
  {
    var q := p + [t];
    var s' := Feed(s, t, d);
    var n := |s.bars|;
    KeepPushed(s.bars, p, q, cuts, d);
    cuts' := cuts;
    if s.capped {
    } else if s.current.None? {
      OpenBarWhole(p, t, d);
    } else {
      var b := s.current.value;
      if BucketStart(t.timestamp, d) > s.currentStart {
        CloseWhole(b, p, t, cuts[n], d);
        cuts' := cuts + [|p|];
        assert s'.bars == s.bars + [Finalize(b)];
        forall k | 0 <= k < |s'.bars|
          ensures RunAt(s'.bars, q, cuts', k, d)
        {
          if k < n {
            assert RunAt(s.bars, q, cuts, k, d);
            assert s'.bars[k] == s.bars[k] && cuts'[k] == cuts[k] && cuts'[k + 1] == cuts[k + 1];
          }
        }
        if !s'.capped {
          OpenBarWhole(p, t, d);
        }
      } else {
        ExtendWhole(b, p, t, cuts[n], d);
      }
    }
  }

  /** For time-sorted ticks, `Covers` holds after every prefix, for some
      boundaries. */
  lemma {:induction false} FeedAllCovers(ticks: seq<Tick>, d: int) returns (cuts: seq<int>)
    requires d > 0 && Sorting.SortedBy(ticks, TickTime)
    ensures Covers(FeedAll(ticks, d), ticks, cuts, d)
  {
    if ticks == [] {
      cuts := [0];
    } else {
      var n := |ticks| - 1;
      var prefix := ticks[..n];
      var t := ticks[n];
      assert Sorting.SortedBy(prefix, TickTime);
      var c := FeedAllCovers(prefix, d);
      FeedAllFacts(prefix, d);
      var s := FeedAll(prefix, d);
      if prefix != [] && !s.capped {
        assert TickTime(prefix[n - 1]) <= TickTime(t);
        BucketStartMonotone(prefix[n - 1].timestamp, t.timestamp, d);
      }
      cuts := CoversStep(s, prefix, t, c, d);
      assert prefix + [t] == ticks;
    }
  }

  /** The bars before filtering split the time-sorted ticks into consecutive
      whole runs, one per bucket: bar k summarises `ticks[cuts[k]..cuts[k+1]]`,
      the first run starts at the first tick, each run starts where the
      previous one ends, and the last run ends with the last tick. When the
      loop broke at the cap, the runs end before the tick that broke it and
      the final push repeats the last bar. */
  lemma ConvertedBarsPartitionTicks(ticks: seq<Tick>, d: int) returns (cuts: seq<int>)
    requires d > 0 && ticks != [] && Sorting.SortedBy(ticks, TickTime)
    ensures var s := FeedAll(ticks, d);
      var u := Flush(s);
      var n := if s.capped then |u| - 1 else |u|;
      && 1 <= n <= |u|
      && |cuts| == n + 1
      && cuts[0] == 0
      && (forall k :: 0 <= k < n ==> WholeBucket(u[k], ticks, cuts[k], cuts[k + 1], d))
      && (!s.capped ==> cuts[n] == |ticks|)
      && (s.capped ==> cuts[n] < |ticks| && u[n] == u[n - 1])
  {
    FeedAllFacts(ticks, d);
    var c := FeedAllCovers(ticks, d);
    var s := FeedAll(ticks, d);
    var u := Flush(s);
    var b := Finalize(s.current.value);
    assert u == s.bars + [b];
    forall k | 0 <= k < |s.bars|
      ensures WholeBucket(u[k], ticks, c[k], c[k + 1], d)
    {
      assert RunAt(s.bars, ticks, c, k, d);
      assert u[k] == s.bars[k];
    }
    if s.capped {
      var last := s.bars[|s.bars| - 1];
      assert Emitted(last, d);
      assert b == Finalize(last) == last;
      assert RunAt(s.bars, ticks, c, |s.bars| - 1, d);
      cuts := c;
    } else {
      cuts := c + [|ticks|];
      assert WholeBucket(u[|s.bars|], ticks, cuts[|s.bars|], cuts[|s.bars| + 1], d);
      assert forall k :: 0 <= k <= |s.bars| ==> cuts[k] == c[k];
    }
  }

  /** Boundaries starting at or below j and ending above it have a run that
      holds j. */
  lemma {:induction false} FindRun(cuts: seq<int>, j: int) returns (k: int)
    requires |cuts| >= 1 && cuts[0] <= j < cuts[|cuts| - 1]
    ensures 0 <= k < |cuts| - 1 && cuts[k] <= j < cuts[k + 1]
    decreases |cuts|
  {
    var m := |cuts| - 2;
    if cuts[m] <= j {
      k := m;
    } else {
      k := FindRun(cuts[..m + 1], j);
    }
  }

  /** Tick j lies in the run of one of the bars. */
  ghost predicate InSomeRun(bars: seq<Bar>, ticks: seq<Tick>, j: int, d: int)
    requires d > 0
  {
    exists k, lo, hi :: 0 <= k < |bars| && lo <= j < hi && WholeBucket(bars[k], ticks, lo, hi, d)
  }

  /** No tick is lost: when the loop does not break at the cap, every
      time-sorted tick lies in the run of one of the bars before filtering. */
  lemma ConvertedBarsCoverTicks(ticks: seq<Tick>, d: int)
    requires d > 0 && Sorting.SortedBy(ticks, TickTime)
    requires !FeedAll(ticks, d).capped
    ensures forall j :: 0 <= j < |ticks| ==> InSomeRun(Flush(FeedAll(ticks, d)), ticks, j, d)
  {
    if ticks != [] {
      var cuts := ConvertedBarsPartitionTicks(ticks, d);
      var u := Flush(FeedAll(ticks, d));
      forall j | 0 <= j < |ticks|
        ensures InSomeRun(u, ticks, j, d)
      {
        var k := FindRun(cuts, j);
        assert WholeBucket(u[k], ticks, cuts[k], cuts[k + 1], d);
      }
    }
  }

  /** Every returned bar is the summary of a whole bucket of the time-sorted
      ticks: its start is the bucket of a run `ticks[lo..hi]` bounded by ticks
      of other buckets; it opens at the mid price of the run's first tick,
      closes at its last tick's, and its high and low are the largest and
      smallest mid prices of the run. */
  lemma ConvertedBarsSummariseBuckets(ticks: seq<Tick>, timeframeMinutes: int)
    requires timeframeMinutes > 0
    requires Sorting.SortedBy(ticks, TickTime)
    ensures forall b :: b in ConvertSorted(ticks, timeframeMinutes).bars ==>
      exists lo, hi :: WholeBucket(b, ticks, lo, hi, BarDurationMillis(timeframeMinutes))
  {
    var d := BarDurationMillis(timeframeMinutes);
    if ticks != [] {
      var cuts := ConvertedBarsPartitionTicks(ticks, d);
      var s := FeedAll(ticks, d);
      var u := Flush(s);
      var n := if s.capped then |u| - 1 else |u|;
      forall b | b in ConvertSorted(ticks, timeframeMinutes).bars
        ensures exists lo, hi :: WholeBucket(b, ticks, lo, hi, d)
      {
        assert b in u;
        var k :| 0 <= k < |u| && u[k] == b;
        if k == n {
          k := n - 1;
        }
        assert WholeBucket(u[k], ticks, cuts[k], cuts[k + 1], d);
      }
    }
  }

  /** When the emitted count reaches the cap, the loop breaks with `currentBar`
      still naming the bar just pushed, and the flush pushes it a second time:
      the bars before filtering end with the same bar twice, and so does the
      result whenever that bar's atr is positive. */
  lemma CappedRunRepeatsLastBar(ticks: seq<Tick>, timeframeMinutes: int)
    requires timeframeMinutes > 0
    requires FeedAll(ticks, BarDurationMillis(timeframeMinutes)).capped
    ensures var u := Flush(FeedAll(ticks, BarDurationMillis(timeframeMinutes)));
      && |u| == MaxBarsPerChart + 1
      && u[|u| - 1] == u[|u| - 2]
    ensures var u := Flush(FeedAll(ticks, BarDurationMillis(timeframeMinutes)));
      var r := ConvertSorted(ticks, timeframeMinutes).bars;
      u[|u| - 1].atr > 0.0 ==>
        |r| >= 2 && r[|r| - 1] == r[|r| - 2] && !StrictlyIncreasingTimes(r)
  {
    var d := BarDurationMillis(timeframeMinutes);
    FeedAllFacts(ticks, d);
    var s := FeedAll(ticks, d);
    var b := s.bars[|s.bars| - 1];
    CappedFlushRepeats(s, d);
    RepeatedBarSurvivesFilter(s.bars[..|s.bars| - 1], b);
  }

  lemma CappedFlushRepeats(s: AggState, d: int)
    requires d > 0 && Inv(s, d) && s.capped
    ensures Flush(s) == s.bars[..|s.bars| - 1] + [s.bars[|s.bars| - 1], s.bars[|s.bars| - 1]]
  {
    var b := s.bars[|s.bars| - 1];
    assert Emitted(b, d);
    assert Finalize(b) == b;
    assert s.bars == s.bars[..|s.bars| - 1] + [b];
  }

  lemma RepeatedBarSurvivesFilter(prefix: seq<Bar>, b: Bar)
    ensures var r := Positive(prefix + [b, b]);
      b.atr > 0.0 ==> |r| >= 2 && r[|r| - 1] == b && r[|r| - 2] == b
  {
    if b.atr > 0.0 {
      PositiveAppend(prefix, [b, b]);
      assert Positive([b]) == [b] by {
        assert [b][1..] == [];
      }
      assert Positive([b, b]) == [b] + Positive([b]) by {
        assert [b, b][1..] == [b];
      }
    }
  }

  // ---------------------------------------------------------------------------
  // The same conversion with the post-loop flush skipped after a capped run

  /** Pushes the open bar only when the loop was not stopped by the cap. */
  function FlushOnce(s: AggState): seq<Bar>
  {
    if s.capped then s.bars else Flush(s)
  }

  function ConvertSortedOnce(ticks: seq<Tick>, timeframeMinutes: int): ChartData
    requires timeframeMinutes > 0
  {
    if ticks == [] then ChartData([], PipsPerPriceUnit)
    else ChartData(Positive(FlushOnce(FeedAll(ticks, BarDurationMillis(timeframeMinutes)))), PipsPerPriceUnit)
  }

  /** With the flush skipped after the cap, time-sorted ticks always give
      strictly increasing bar starts, and at most MaxBarsPerChart bars. */
  lemma ConvertedOnceBarsIncreasing(ticks: seq<Tick>, timeframeMinutes: int)
    requires timeframeMinutes > 0
    requires Sorting.SortedBy(ticks, TickTime)
    ensures StrictlyIncreasingTimes(ConvertSortedOnce(ticks, timeframeMinutes).bars)
    ensures |ConvertSortedOnce(ticks, timeframeMinutes).bars| <= MaxBarsPerChart
  {
    var d := BarDurationMillis(timeframeMinutes);
    FeedAllFacts(ticks, d);
    if ticks != [] {
      var u := FlushOnce(FeedAll(ticks, d));
      assert StrictlyIncreasingTimes(u);
      PositiveKeepsOrder(u);
    }
  }
}
