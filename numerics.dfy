/** Python's numeric built-ins used by the core, on exact reals. */
module Numerics {

  /** Python's `max(a, b)` on two numbers. */
  function Max(a: real, b: real): (r: real)
    ensures r >= a && r >= b
    ensures r == a || r == b
  {
    if b > a then b else a
  }

  /** Python's `round(x)`: the nearest integer, ties to the even neighbour. */
  function RoundHalfEven(x: real): (n: int)
    ensures x.Floor <= n <= x.Floor + 1
    ensures -0.5 <= n as real - x <= 0.5
    ensures x - (x.Floor as real) < 0.5 ==> n == x.Floor
    ensures x - (x.Floor as real) > 0.5 ==> n == x.Floor + 1
    ensures x - (x.Floor as real) == 0.5 ==> n % 2 == 0
  {
    var f := x.Floor;
    var frac := x - f as real;
    if frac < 0.5 then f
    else if frac > 0.5 then f + 1
    else if f % 2 == 0 then f
    else f + 1
  }

  /** Python's `round(x, 2)` on the exact value of `x`: the nearest multiple of 0.01, ties to even hundredths. */
  function Round2(x: real): (r: real)
    ensures -0.005 <= r - x <= 0.005
  {
    RoundHalfEven(x * 100.0) as real / 100.0
  }

  /** Python's `round(x, 1)` on the exact value of `x`: the nearest multiple of 0.1, ties to even tenths. */
  function Round1(x: real): (r: real)
    ensures -0.05 <= r - x <= 0.05
  {
    RoundHalfEven(x * 10.0) as real / 10.0
  }

  /** Rounding to the nearest integer never reverses the order of two numbers. */
  lemma RoundHalfEvenMonotone(x: real, y: real)
    requires x <= y
    ensures RoundHalfEven(x) <= RoundHalfEven(y)
  {
  }

  /** `round(x, 2)` is monotone. */
  lemma Round2Monotone(x: real, y: real)
    requires x <= y
    ensures Round2(x) <= Round2(y)
  {
    RoundHalfEvenMonotone(x * 100.0, y * 100.0);
  }

  /** `round(x, 1)` is monotone. */
  lemma Round1Monotone(x: real, y: real)
    requires x <= y
    ensures Round1(x) <= Round1(y)
  {
    RoundHalfEvenMonotone(x * 10.0, y * 10.0);
  }

  /** A value already on the hundredths grid is left unchanged by `round(x, 2)`. */
  lemma Round2OfHundredths(k: int)
    ensures Round2(k as real / 100.0) == k as real / 100.0
  {
    assert (k as real / 100.0) * 100.0 == k as real;
  }

  /** `round(x, 2)` maps 0.0 to 0.0 and keeps every value of at least 0.1 at or above 0.1. */
  lemma Round2KeepsDryingBounds(x: real)
    ensures x == 0.0 ==> Round2(x) == 0.0
    ensures x >= 0.1 ==> Round2(x) >= 0.1
  {
    Round2OfHundredths(0);
    Round2OfHundredths(10);
    if x >= 0.1 {
      Round2Monotone(0.1, x);
    }
  }

  /** Scaling by a non-negative factor keeps order. */
  lemma ScaleMonotone(a: real, b: real, c: real)
    requires a <= b && c >= 0.0
    ensures a * c <= b * c
  {
  }
}
