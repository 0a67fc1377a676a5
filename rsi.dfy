/** The worker's simple-average RSI (`calculateRsi`, optimizationWorker.js:36-64).
    `RsiSeries` defines the value at every bar index; the method
    `CalculateRsi` runs the worker's two nested loops and the final
    `unshift` loop and is proved to produce exactly that series. */
module Rsi {
  import opened Numeric
  import opened Market

  /** The RSI reported while the look-back window is not yet full. */
  const Neutral: real := 50.0

  /** The ratio assumed when the window has no loss at all. */
  const SaturatedRs: real := 200.0

  /** 100 - 100 / (1 + 200): the RSI of a window without a falling close. */
  const Saturated: real := 20000.0 / 201.0

  /** The close-to-close change that bar j contributes. */
  function Change(bars: seq<Bar>, j: int): real
    requires 1 <= j < |bars|
  {
    bars[j].close - bars[j - 1].close
  }

  /** A rise counts as gain; anything else (a fall or no move) as loss. */
  function Gain(c: real): (g: real)
    ensures g >= 0.0 && (g > 0.0 <==> c > 0.0)
  {
    if c > 0.0 then c else 0.0
  }

  function Loss(c: real): (l: real)
    ensures l >= 0.0 && (l > 0.0 <==> c < 0.0)
  {
    if c > 0.0 then 0.0 else Abs(c)
  }

  /** Total gain over the changes of bars lo .. hi-1. */
  function GainSum(bars: seq<Bar>, lo: int, hi: int): (r: real)
    requires 1 <= lo <= hi <= |bars|
    ensures r >= 0.0
    decreases hi - lo
  {
    if hi == lo then 0.0 else GainSum(bars, lo, hi - 1) + Gain(Change(bars, hi - 1))
  }

  /** Total loss over the changes of bars lo .. hi-1. */
  function LossSum(bars: seq<Bar>, lo: int, hi: int): (r: real)
    requires 1 <= lo <= hi <= |bars|
    ensures r >= 0.0
    decreases hi - lo
  {
    if hi == lo then 0.0 else LossSum(bars, lo, hi - 1) + Loss(Change(bars, hi - 1))
  }

  /** The RSI of one window from its summed gain and loss. It lies in [0, 100);
      a window without loss saturates at 100 - 100/201. */
  function RsiFromSums(gain: real, loss: real, period: int): (rsi: real)
    requires gain >= 0.0 && loss >= 0.0 && period >= 1
    ensures 0.0 <= rsi < 100.0
    ensures loss == 0.0 ==> rsi == Saturated
  {
    var avgGain := gain / period as real;
    var avgLoss := loss / period as real;
    var rs := if avgLoss == 0.0 then SaturatedRs else avgGain / avgLoss;
    RsBounds(gain, loss, period);
    InverseBounds(1.0 + rs);
    100.0 - 100.0 / (1.0 + rs)
  }

  lemma RsBounds(gain: real, loss: real, period: int)
    requires gain >= 0.0 && loss >= 0.0 && period >= 1
    ensures (loss / period as real == 0.0) <==> loss == 0.0
    ensures loss > 0.0 ==> (gain / period as real) / (loss / period as real) >= 0.0
  {
  }

  /** 100 / x lies in (0, 100] for x >= 1. */
  lemma InverseBounds(x: real)
    requires x >= 1.0
    ensures 0.0 < 100.0 / x <= 100.0
  {
    var q := 100.0 / x;
    assert q * x == 100.0;
    MulMonotone(1.0, x, q);
  }

  /** The value `calculateRsi` reports at bar i. */
  function RsiAt(bars: seq<Bar>, period: int, i: int): real
    requires period >= 1 && 0 <= i < |bars|
  {
    if i <= period then Neutral
    else RsiFromSums(GainSum(bars, i - period + 1, i + 1), LossSum(bars, i - period + 1, i + 1), period)
  }

  /** One RSI value per bar, neutral over the first `period` + 1 bars and in
      [0, 100) everywhere. */
  function RsiSeries(bars: seq<Bar>, period: int): (r: seq<real>)
    requires period >= 1
    ensures |r| == |bars|
    ensures forall i :: 0 <= i < |r| && i <= period ==> r[i] == Neutral
    ensures forall i :: 0 <= i < |r| ==> 0.0 <= r[i] < 100.0
  {
    seq(|bars|, i requires 0 <= i < |bars| => RsiAt(bars, period, i))
  }

  /** `calculateRsi(bars, period)`: for every bar after the first, either a
      neutral 50 or the RSI of the `period` closes ending at that bar, then a
      50 put in front so that there is one value per bar. */
  method CalculateRsi(bars: seq<Bar>, period: int) returns (rsiValues: seq<real>)
    requires period >= 1
    ensures rsiValues == RsiSeries(bars, period)
  {
    rsiValues := [];
    var i := 1;
    while i < |bars|
      invariant 1 <= i <= if |bars| == 0 then 1 else |bars|
      invariant |rsiValues| == i - 1
      invariant forall k :: 0 <= k < |rsiValues| ==> k + 1 < |bars| && rsiValues[k] == RsiAt(bars, period, k + 1)
    {
      if i <= period {
        rsiValues := rsiValues + [Neutral];
        i := i + 1;
        continue;
      }
      var rsi := WindowRsi(bars, period, i);
      rsiValues := rsiValues + [rsi];
      i := i + 1;
    }
    while |rsiValues| < |bars|
      invariant |bars| - 1 <= |rsiValues| <= |bars|
      invariant forall k :: 0 <= k < |rsiValues| ==>
        rsiValues[k] == RsiAt(bars, period, k + |bars| - |rsiValues|)
    {
      rsiValues := [Neutral] + rsiValues;
    }
  }

  /** The body of the worker's outer loop past the warm-up: sums the gains
      and losses of the `period` changes ending at bar i and turns them into
      the RSI of that window. */
  method WindowRsi(bars: seq<Bar>, period: int, i: int) returns (rsi: real)
    requires period >= 1 && period < i < |bars|
    ensures rsi == RsiAt(bars, period, i)
  {
    var avgGain := 0.0;
    var avgLoss := 0.0;
    var j := i - period + 1;
    while j <= i
      invariant i - period + 1 <= j <= i + 1
      invariant avgGain == GainSum(bars, i - period + 1, j)
      invariant avgLoss == LossSum(bars, i - period + 1, j)
    {
      var change := bars[j].close - bars[j - 1].close;
      if change > 0.0 {
        avgGain := avgGain + change;
      } else {
        avgLoss := avgLoss + Abs(change);
      }
      j := j + 1;
    }
    RsBounds(avgGain, avgLoss, period);
    avgGain := avgGain / period as real;
    avgLoss := avgLoss / period as real;
    var rs := if avgLoss == 0.0 then SaturatedRs else avgGain / avgLoss;
    rsi := 100.0 - 100.0 / (1.0 + rs);
  }

  /** A window has no loss exactly when none of its closes falls below the
      previous close. */
  lemma {:induction false} NoLossIffNoDecline(bars: seq<Bar>, lo: int, hi: int)
    requires 1 <= lo <= hi <= |bars|
    ensures LossSum(bars, lo, hi) == 0.0 <==>
      forall j :: lo <= j < hi ==> bars[j].close >= bars[j - 1].close
    decreases hi - lo
  {
    if hi > lo {
      NoLossIffNoDecline(bars, lo, hi - 1);
    }
  }

  /** A window has no gain exactly when none of its closes rises above the
      previous close. */
  lemma {:induction false} NoGainIffNoRise(bars: seq<Bar>, lo: int, hi: int)
    requires 1 <= lo <= hi <= |bars|
    ensures GainSum(bars, lo, hi) == 0.0 <==>
      forall j :: lo <= j < hi ==> bars[j].close <= bars[j - 1].close
    decreases hi - lo
  {
    if hi > lo {
      NoGainIffNoRise(bars, lo, hi - 1);
    }
  }

  /** Past the warm-up, a window whose closes never fall reports the saturated
      value 100 - 100/201 (about 99.5), flat prices included, never 50. */
  lemma NonFallingWindowSaturates(bars: seq<Bar>, period: int, i: int)
    requires period >= 1 && period < i < |bars|
    requires forall j :: i - period + 1 <= j <= i ==> bars[j].close >= bars[j - 1].close
    ensures RsiAt(bars, period, i) == Saturated
  {
    NoLossIffNoDecline(bars, i - period + 1, i + 1);
  }

  /** Past the warm-up, the RSI is 0 exactly when the window has a fall and
      no rise. */
  lemma RsiZeroIff(bars: seq<Bar>, period: int, i: int)
    requires period >= 1 && period < i < |bars|
    ensures RsiAt(bars, period, i) == 0.0 <==>
      (forall j :: i - period + 1 <= j <= i ==> bars[j].close <= bars[j - 1].close)
      && (exists j :: i - period + 1 <= j <= i && bars[j].close < bars[j - 1].close)
  {
    var lo, hi := i - period + 1, i + 1;
    var gain, loss := GainSum(bars, lo, hi), LossSum(bars, lo, hi);
    NoGainIffNoRise(bars, lo, hi);
    NoLossIffNoDecline(bars, lo, hi);
    RsBounds(gain, loss, period);
    if RsiAt(bars, period, i) == 0.0 {
      ZeroRsiMeansZeroRs(gain, loss, period);
    } else if gain == 0.0 && loss > 0.0 {
      ZeroGainGivesZeroRsi(loss, period);
    }
  }

  lemma ZeroRsiMeansZeroRs(gain: real, loss: real, period: int)
    requires gain >= 0.0 && loss >= 0.0 && period >= 1
    requires RsiFromSums(gain, loss, period) == 0.0
    ensures gain == 0.0 && loss > 0.0
  {
    RsBounds(gain, loss, period);
    var avgGain := gain / period as real;
    var avgLoss := loss / period as real;
    var rs := if avgLoss == 0.0 then SaturatedRs else avgGain / avgLoss;
    assert 100.0 / (1.0 + rs) == 100.0;
    assert rs == 0.0;
    assert avgGain == rs * avgLoss;
  }

  lemma ZeroGainGivesZeroRsi(loss: real, period: int)
    requires loss > 0.0 && period >= 1
    ensures RsiFromSums(0.0, loss, period) == 0.0
  {
    RsBounds(0.0, loss, period);
  }
}
