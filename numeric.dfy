/** Numeric helpers shared by the optimiser and the live controller:
    absolute value, clamping, powers of ten and JavaScript's `toFixed`
    rounding read back as a number (`parseFloat(x.toFixed(n))`). */
module Numeric {

  function Abs(x: real): (r: real)
    ensures r >= 0.0 && (r == x || r == -x)
  {
    if x < 0.0 then -x else x
  }

  function Max(a: real, b: real): (r: real)
    ensures r >= a && r >= b && (r == a || r == b)
  {
    if a >= b then a else b
  }

  function Min(a: real, b: real): (r: real)
    ensures r <= a && r <= b && (r == a || r == b)
  {
    if a <= b then a else b
  }

  /** `Math.max(Math.min(x, hi), lo)`: the upper bound is applied first. */
  function Clamp(x: real, lo: real, hi: real): (r: real)
    requires lo <= hi
    ensures lo <= r <= hi
    ensures lo <= x <= hi ==> r == x
    ensures x < lo ==> r == lo
    ensures x > hi ==> r == hi
  {
    Max(Min(x, hi), lo)
  }

  /** 10^digits for the decimal counts the system rounds to (at most five). */
  function Pow10(digits: nat): (r: real)
    requires digits <= 5
    ensures r >= 1.0
  {
    if digits == 0 then 1.0
    else if digits == 1 then 10.0
    else if digits == 2 then 100.0
    else if digits == 3 then 1000.0
    else if digits == 4 then 10000.0
    else 100000.0
  }

  /** Rounds p to the nearest integer, ties away from zero. */
  function RoundHalfAway(p: real): (n: int)
    ensures p - 0.5 <= n as real <= p + 0.5
    ensures p >= 0.0 ==> n >= 0
    ensures p <= 0.0 ==> n <= 0
  {
    if p < 0.0 then -((-p + 0.5).Floor) else (p + 0.5).Floor
  }

  /** `parseFloat(x.toFixed(digits))`: the multiple of 10^-digits nearest to x,
      ties away from zero (toFixed works on the magnitude and re-attaches the sign). */
  function ToFixed(x: real, digits: nat): real
    requires digits <= 5
  {
    RoundAt(x, Pow10(digits))
  }

  /** x rounded to the nearest multiple of 1/s, ties away from zero. */
  function RoundAt(x: real, s: real): real
    requires s > 0.0
  {
    RoundHalfAway(x * s) as real / s
  }

  lemma RoundMonotone(p: real, q: real)
    requires p <= q
    ensures RoundHalfAway(p) <= RoundHalfAway(q)
  {
    if p < 0.0 && q < 0.0 {
      assert (-q + 0.5).Floor <= (-p + 0.5).Floor;
    } else if 0.0 <= p {
      assert (p + 0.5).Floor <= (q + 0.5).Floor;
    }
  }

  lemma MulMonotone(x: real, y: real, s: real)
    requires x <= y && s > 0.0
    ensures x * s <= y * s
  {
    assert y * s - x * s == (y - x) * s;
  }

  lemma DivMonotone(a: real, b: real, s: real)
    requires a <= b && s > 0.0
    ensures a / s <= b / s
  {
    assert b / s - a / s == (b - a) / s;
  }

  lemma ScaledRoundMonotone(x: real, y: real, s: real)
    requires x <= y && s > 0.0
    ensures RoundAt(x, s) <= RoundAt(y, s)
  {
    MulMonotone(x, y, s);
    RoundMonotone(x * s, y * s);
    DivMonotone(RoundHalfAway(x * s) as real, RoundHalfAway(y * s) as real, s);
  }

  /** Rounding never reverses the order of two numbers. */
  lemma ToFixedMonotone(x: real, y: real, digits: nat)
    requires digits <= 5
    requires x <= y
    ensures ToFixed(x, digits) <= ToFixed(y, digits)
  {
    ScaledRoundMonotone(x, y, Pow10(digits));
  }

  /** Rounding keeps the sign: negative numbers round to at most zero and
      non-negative numbers to at least zero. */
  lemma ToFixedSign(x: real, digits: nat)
    requires digits <= 5
    ensures x < 0.0 ==> ToFixed(x, digits) <= 0.0
    ensures x >= 0.0 ==> ToFixed(x, digits) >= 0.0
  {
    var s := Pow10(digits);
    if x < 0.0 {
      MulMonotone(x, 0.0, s);
      DivMonotone(RoundHalfAway(x * s) as real, 0.0, s);
    } else {
      MulMonotone(0.0, x, s);
      DivMonotone(0.0, RoundHalfAway(x * s) as real, s);
    }
  }

  /** A number that already has at most `digits` decimals is left unchanged. */
  lemma ToFixedExact(k: int, digits: nat)
    requires digits <= 5
    ensures ToFixed(k as real / Pow10(digits), digits) == k as real / Pow10(digits)
  {
    var s := Pow10(digits);
    var x := k as real / s;
    assert x * s == k as real;
    assert RoundHalfAway(k as real) == k;
  }

  /** A positive rounded value comes from a positive number. */
  lemma ToFixedPositive(x: real, digits: nat)
    requires digits <= 5
    requires ToFixed(x, digits) > 0.0
    ensures x > 0.0
  {
    var s := Pow10(digits);
    var n := RoundHalfAway(x * s);
    if n <= 0 {
      DivMonotone(n as real, 0.0, s);
    }
    assert x * s > 0.0;
    if x <= 0.0 {
      MulMonotone(x, 0.0, s);
    }
  }

  /** Rounding moves a number by at most half a unit in the last kept place. */
  lemma ToFixedError(x: real, digits: nat)
    requires digits <= 5
    ensures Abs(ToFixed(x, digits) - x) <= 0.5 / Pow10(digits)
  {
    var s := Pow10(digits);
    var p := x * s;
    var n := RoundHalfAway(p) as real;
    assert ToFixed(x, digits) == n / s;
    assert p / s == x;
    assert (n - p) / s == n / s - p / s;
    DivMonotone(n - p, 0.5, s);
    DivMonotone(-0.5, n - p, s);
  }

  /** Rounding an already rounded number changes nothing. */
  lemma ToFixedIdempotent(x: real, digits: nat)
    requires digits <= 5
    ensures ToFixed(ToFixed(x, digits), digits) == ToFixed(x, digits)
  {
    ToFixedExact(RoundHalfAway(x * Pow10(digits)), digits);
  }
}
