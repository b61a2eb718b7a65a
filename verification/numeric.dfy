/**
 * Numeric conversions the scouting pipeline relies on, stated over exact reals:
 * Python's `int(x)` (truncation toward zero), `round(x, 2)` (round half to even
 * at the hundredths) and the `max`/`min` clamps.
 */
module Numeric {

  function Max(a: real, b: real): (m: real)
    ensures m >= a && m >= b
    ensures m == a || m == b
  {
    if a >= b then a else b
  }

  function Min(a: real, b: real): (m: real)
    ensures m <= a && m <= b
    ensures m == a || m == b
  {
    if a <= b then a else b
  }

  /** Python's `int(x)` on a float: drops the fractional part, toward zero. */
  function Trunc(x: real): (n: int)
    ensures 0.0 <= x ==> 0.0 <= n as real <= x < n as real + 1.0
    ensures x < 0.0 ==> n as real - 1.0 < x <= n as real <= 0.0
  {
    if x >= 0.0 then x.Floor else -((-x).Floor)
  }

  lemma TruncMonotone(x: real, y: real)
    requires x <= y
    ensures Trunc(x) <= Trunc(y)
  {
  }

  /** On a non-negative value, truncation is the floor. */
  lemma TruncOfNonNegative(x: real)
    requires 0.0 <= x
    ensures Trunc(x) == x.Floor
  {
  }

  /** Rounds to the nearest integer; an exact tie goes to the even neighbour. */
  function RoundHalfEven(x: real): (n: int)
    ensures x - 0.5 <= n as real <= x + 0.5
    ensures (n as real == x + 0.5 || n as real == x - 0.5) ==> n % 2 == 0
  {
    var f := x.Floor;
    var d := x - f as real;
    if d < 0.5 then f
    else if d > 0.5 then f + 1
    else if f % 2 == 0 then f
    else f + 1
  }

  /** The nearest integer is unique: no integer is strictly closer to x. */
  lemma RoundHalfEvenNearest(x: real, k: int)
    ensures RoundHalfEven(x) as real - x <= (if k as real >= x then k as real - x else x - k as real)
    ensures x - RoundHalfEven(x) as real <= (if k as real >= x then k as real - x else x - k as real)
  {
    var n := RoundHalfEven(x);
    var f := x.Floor;
    assert n == f || n == f + 1;
    if k <= f - 1 {
    } else if k >= f + 2 {
    }
  }

  lemma RoundHalfEvenMonotone(x: real, y: real)
    requires x <= y
    ensures RoundHalfEven(x) <= RoundHalfEven(y)
  {
  }

  /**
   * Python's `round(x, 2)` on an exact value: a whole number of hundredths,
   * within half a hundredth of x, and on an exact tie the even hundredth.
   * These three facts determine the result.
   */
  function Round2(x: real): (r: real)
    ensures (r * 100.0).Floor as real == r * 100.0
    ensures x - 0.005 <= r <= x + 0.005
    ensures (r == x + 0.005 || r == x - 0.005) ==> (r * 100.0).Floor % 2 == 0
  {
    RoundHalfEven(x * 100.0) as real / 100.0
  }

  /** No whole number of hundredths is strictly closer to x than `round(x, 2)`. */
  lemma Round2Nearest(x: real, k: int)
    ensures var r, h := Round2(x), k as real / 100.0;
      (if r >= x then r - x else x - r) <= (if h >= x then h - x else x - h)
  {
    RoundHalfEvenNearest(x * 100.0, k);
  }

  /** A value that already has at most two decimals is left unchanged. */
  lemma Round2Exact(k: int)
    ensures Round2(k as real / 100.0) == k as real / 100.0
  {
  }

  lemma Round2Monotone(x: real, y: real)
    requires x <= y
    ensures Round2(x) <= Round2(y)
  {
    RoundHalfEvenMonotone(x * 100.0, y * 100.0);
  }

  /** Rounding keeps a value inside any range whose ends are hundredths. */
  lemma Round2Within(x: real, lo: int, hi: int)
    requires lo as real / 100.0 <= x <= hi as real / 100.0
    ensures lo as real / 100.0 <= Round2(x) <= hi as real / 100.0
  {
    Round2Monotone(lo as real / 100.0, x);
    Round2Monotone(x, hi as real / 100.0);
    Round2Exact(lo);
    Round2Exact(hi);
  }
}
