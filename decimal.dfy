/** Exact decimal rounding as pandas `Series.round(d)` performs it: the value
    is scaled by 10^d, rounded to the nearest integer with ties going to the
    even neighbour, and scaled back. Values are exact reals, not floats. */
module Decimal {

  function Pow10(d: nat): (p: nat)
    ensures p >= 1
  {
    if d == 0 then 1 else 10 * Pow10(d - 1)
  }

  /** 10^d as a real: one unit of the d-th decimal place is 1 / Scale(d). */
  function Scale(d: nat): (s: real)
    ensures s >= 1.0
  {
    Pow10(d) as real
  }

  /** The integer nearest to y; at an exact half the even one is taken. */
  function RoundHalfEven(y: real): (n: int)
    ensures -0.5 <= y - n as real <= 0.5
    ensures (y - n as real == 0.5 || y - n as real == -0.5) ==> n % 2 == 0
  {
    var f := y.Floor;
    var frac := y - f as real;
    if frac < 0.5 then f
    else if frac > 0.5 then f + 1
    else if f % 2 == 0 then f else f + 1
  }

  /** The two properties of RoundHalfEven single out one integer: any m that
      is within one half of y, and even at a tie, is the rounded value. */
  lemma RoundHalfEvenUnique(y: real, m: int)
    requires -0.5 <= y - m as real <= 0.5
    requires (y - m as real == 0.5 || y - m as real == -0.5) ==> m % 2 == 0
    ensures RoundHalfEven(y) == m
  {
    var n := RoundHalfEven(y);
    assert -1 <= n - m <= 1;
  }

  /** `round(x, d)` on an exact value. */
  function Round(x: real, d: nat): real
  {
    RoundHalfEven(x * Scale(d)) as real / Scale(d)
  }

  lemma RoundScaled(x: real, d: nat)
    ensures Round(x, d) * Scale(d) == RoundHalfEven(x * Scale(d)) as real
  {
  }

  /** The rounded value has at most d decimals and lies within half a unit
      of the d-th decimal place of x. */
  lemma RoundIsNearest(x: real, d: nat)
    ensures (Round(x, d) * Scale(d)).Floor as real == Round(x, d) * Scale(d)
    ensures -0.5 <= x * Scale(d) - Round(x, d) * Scale(d) <= 0.5
  {
    RoundScaled(x, d);
  }

  /** Rounding moves a value by at most half a unit of the d-th decimal. */
  lemma RoundError(x: real, d: nat)
    ensures -0.5 / Scale(d) <= Round(x, d) - x <= 0.5 / Scale(d)
  {
    RoundIsNearest(x, d);
    var e := Round(x, d) - x;
    assert e * Scale(d) == Round(x, d) * Scale(d) - x * Scale(d);
    ScaledBound(e, Scale(d));
  }

  lemma ScaledBound(e: real, s: real)
    requires s > 0.0 && -0.5 <= e * s <= 0.5
    ensures -0.5 / s <= e <= 0.5 / s
  {
    assert e == (e * s) / s;
  }

  /** Round(x, d) depends on x only through x * 10^d. */
  lemma RoundAt(x: real, d: nat, y: real)
    requires x * Scale(d) == y
    ensures Round(x, d) == RoundHalfEven(y) as real / Scale(d)
  {
  }

  /** The sign of round(x, d) is decided by x at half a unit of the d-th
      decimal: anything within that band, the two ends included, rounds to 0. */
  lemma RoundSign(x: real, d: nat)
    ensures Round(x, d) > 0.0 <==> x * Scale(d) > 0.5
    ensures Round(x, d) == 0.0 <==> -0.5 <= x * Scale(d) <= 0.5
    ensures Round(x, d) < 0.0 <==> x * Scale(d) < -0.5
  {
    var y := x * Scale(d);
    var n := RoundHalfEven(y);
    RoundScaled(x, d);
    if -0.5 <= y <= 0.5 {
      RoundHalfEvenUnique(y, 0);
    }
    assert Round(x, d) > 0.0 <==> n > 0;
    assert Round(x, d) < 0.0 <==> n < 0;
  }
}
