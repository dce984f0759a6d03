/** Real-number helpers shared by the face service model: the `abs`, `min`
    and `max` built-ins, and Python 3's `round(x, n)` taken on exact reals. */
module Numerics {

  function Abs(x: real): (r: real)
    ensures r >= 0.0 && (r == x || r == -x)
  {
    if x < 0.0 then -x else x
  }

  function Min(a: real, b: real): (r: real)
    ensures r <= a && r <= b && (r == a || r == b)
  {
    if a <= b then a else b
  }

  function Max(a: real, b: real): (r: real)
    ensures r >= a && r >= b && (r == a || r == b)
  {
    if a >= b then a else b
  }

  /** Distance from `x` to the integer `m`. */
  function Gap(x: real, m: int): real
  {
    Abs(x - m as real)
  }

  /** Nearest integer to `x`; a tie between two neighbours goes to the even one
      (the rounding rule of Python 3's `round`). */
  function RoundHalfEven(x: real): (n: int)
    ensures Gap(x, n) <= 0.5
    ensures Gap(x, n) == 0.5 ==> n % 2 == 0
  {
    var f := x.Floor;
    var frac := x - f as real;
    if frac < 0.5 then f
    else if frac > 0.5 then f + 1
    else if f % 2 == 0 then f else f + 1
  }

  /** No integer is closer to `x` than its rounding. */
  lemma RoundHalfEvenIsNearest(x: real, m: int)
    ensures Gap(x, RoundHalfEven(x)) <= Gap(x, m)
  {
    var f := x.Floor;
    assert f as real <= x < f as real + 1.0;
    if m <= f {
      assert Gap(x, m) >= x - f as real;
    } else {
      assert Gap(x, m) >= f as real + 1.0 - x;
    }
  }

  /** `round(x, 2)`: the nearest multiple of 0.01, ties to the even multiple. */
  function RoundHundredths(x: real): (r: real)
    ensures Abs(r - x) <= 0.005
    ensures (r * 100.0).Floor as real == r * 100.0
    ensures Abs(r - x) == 0.005 ==> (r * 100.0).Floor % 2 == 0
  {
    var n := RoundHalfEven(x * 100.0);
    assert n as real / 100.0 * 100.0 == n as real;
    assert (n as real).Floor == n;
    n as real / 100.0
  }

  /** `round(x, 4)`: the nearest multiple of 0.0001, ties to the even multiple. */
  function RoundTenThousandths(x: real): (r: real)
    ensures Abs(r - x) <= 0.00005
    ensures (r * 10000.0).Floor as real == r * 10000.0
    ensures Abs(r - x) == 0.00005 ==> (r * 10000.0).Floor % 2 == 0
  {
    var n := RoundHalfEven(x * 10000.0);
    assert n as real / 10000.0 * 10000.0 == n as real;
    assert (n as real).Floor == n;
    n as real / 10000.0
  }

  lemma RoundHalfEvenMonotone(x: real, y: real)
    requires x <= y
    ensures RoundHalfEven(x) <= RoundHalfEven(y)
  {
  }

  lemma RoundHalfEvenOfInteger(k: int)
    ensures RoundHalfEven(k as real) == k
  {
  }

  /** Rounding to hundredths keeps the order of its inputs. */
  lemma RoundHundredthsMonotone(x: real, y: real)
    requires x <= y
    ensures RoundHundredths(x) <= RoundHundredths(y)
  {
    RoundHalfEvenMonotone(x * 100.0, y * 100.0);
  }

  /** A whole number is its own rounding. */
  lemma RoundHundredthsOfInteger(k: int)
    ensures RoundHundredths(k as real) == k as real
  {
    assert k as real * 100.0 == (k * 100) as real;
    RoundHalfEvenOfInteger(k * 100);
  }
}
