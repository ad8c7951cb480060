/** Python's `round(x, n)` for one and two decimal places, on exact decimal
    values: the nearest multiple of 10^-n, with halves going to the even
    neighbour, as Python rounds. */
module Rounding {

  /** Round to the nearest integer, halves to the even one. */
  function RoundHalfEven(x: real): int {
    var f := x.Floor;
    var d := x - f as real;
    if d < 0.5 then f
    else if d > 0.5 then f + 1
    else if f % 2 == 0 then f
    else f + 1
  }

  /** The rounded value is within one half of `x`, and a tie goes to an even
      integer. */
  lemma RoundHalfEvenNearest(x: real)
    ensures x - 0.5 <= RoundHalfEven(x) as real <= x + 0.5
    ensures RoundHalfEven(x) as real - x == 0.5 || x - RoundHalfEven(x) as real == 0.5
      ==> RoundHalfEven(x) % 2 == 0
  {
  }

  /** No integer is nearer to `x`, so the rounding is the nearest integer. */
  lemma RoundHalfEvenBest(x: real, n: int)
    ensures Abs(RoundHalfEven(x) as real - x) <= Abs(n as real - x)
  {
    var f := x.Floor;
    assert f as real <= x < f as real + 1.0;
    if n <= f - 1 {
      assert n as real <= f as real - 1.0;
    } else if n >= f + 2 {
      assert n as real >= f as real + 2.0;
    }
  }

  /** Rounding an integer leaves it unchanged. */
  lemma RoundHalfEvenOfInt(n: int)
    ensures RoundHalfEven(n as real) == n
  {
  }

  /** Rounding preserves order. */
  lemma RoundHalfEvenMonotone(x: real, y: real)
    requires x <= y
    ensures RoundHalfEven(x) <= RoundHalfEven(y)
  {
    RoundHalfEvenNearest(x);
    RoundHalfEvenNearest(y);
    if x < y {
      assert RoundHalfEven(x) < RoundHalfEven(y) + 1;
    }
  }

  function Abs(x: real): real {
    if x < 0.0 then -x else x
  }

  /** `round(x, 1)`. */
  function Round1(x: real): real {
    RoundHalfEven(x * 10.0) as real / 10.0
  }

  /** `round(x, 2)`. */
  function Round2(x: real): real {
    RoundHalfEven(x * 100.0) as real / 100.0
  }

  /** `round(x, 2)` is off by at most half a hundredth. */
  lemma Round2Near(x: real)
    ensures x - 0.005 <= Round2(x) <= x + 0.005
  {
    RoundHalfEvenNearest(x * 100.0);
  }

  /** `round(x, 1)` is off by at most half a tenth. */
  lemma Round1Near(x: real)
    ensures x - 0.05 <= Round1(x) <= x + 0.05
  {
    RoundHalfEvenNearest(x * 10.0);
  }

  /** A value with at most two decimals is kept by `round(x, 2)`. */
  lemma Round2OfHundredths(n: int)
    ensures Round2(n as real / 100.0) == n as real / 100.0
  {
    assert (n as real / 100.0) * 100.0 == n as real;
    RoundHalfEvenOfInt(n);
  }

  /** A value with at most one decimal is kept by `round(x, 1)`. */
  lemma Round1OfTenths(n: int)
    ensures Round1(n as real / 10.0) == n as real / 10.0
  {
    assert (n as real / 10.0) * 10.0 == n as real;
    RoundHalfEvenOfInt(n);
  }

  /** Rounding to two places keeps a value of an interval with two-decimal
      bounds inside that interval. */
  lemma Round2Within(x: real, lo: int, hi: int)
    requires lo as real / 100.0 <= x <= hi as real / 100.0
    ensures lo as real / 100.0 <= Round2(x) <= hi as real / 100.0
  {
    assert lo as real <= x * 100.0 <= hi as real;
    RoundHalfEvenMonotone(lo as real, x * 100.0);
    RoundHalfEvenMonotone(x * 100.0, hi as real);
    RoundHalfEvenOfInt(lo);
    RoundHalfEvenOfInt(hi);
  }
}
