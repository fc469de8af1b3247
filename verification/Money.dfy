/**
 Fixed-point money and quantity.

 A money amount is an integer number of 1e-8 units and a quantity an integer number of 1e-10
 units.  Prices that have not been quantized yet are reals measured in money units.
 */
module Money {

  type Money = int
  type Qty = int

  /** ROUND_HALF_UP of Python's decimal module: to the nearest integer, ties away from zero. */
  function Round(x: real): int {
    if x >= 0.0 then (x + 0.5).Floor else -((0.5 - x).Floor)
  }

  /** From a figure per quantity unit to one per whole unit. */
  function PerUnit(x: real): real {
    x / 10_000_000_000.0
  }

  /** What `qty` costs at `price`, in money units, before rounding. */
  function Value(qty: Qty, price: real): real {
    PerUnit(qty as real * price)
  }

  /** Rounding moves a number by at most a half, and an exact half moves away from zero;
      these two facts determine the result. */
  lemma RoundNearest(x: real)
    ensures -0.5 <= Round(x) as real - x <= 0.5
    ensures x >= 0.0 ==> Round(x) as real - x > -0.5 && Round(x) >= 0
    ensures x <= 0.0 ==> Round(x) as real - x < 0.5 && Round(x) <= 0
  {
  }

  lemma RoundUnique(x: real, n: int)
    requires -0.5 <= n as real - x <= 0.5
    requires x >= 0.0 ==> n as real - x > -0.5
    requires x <= 0.0 ==> n as real - x < 0.5
    ensures Round(x) == n
  {
    var m := Round(x);
    RoundNearest(x);
    assert -1.0 < (m - n) as real < 1.0;
  }

  lemma RoundInteger(n: int)
    ensures Round(n as real) == n
  {
    RoundUnique(n as real, n);
  }

  lemma RoundMonotone(x: real, y: real)
    requires x <= y
    ensures Round(x) <= Round(y)
  {
    RoundNearest(x);
    RoundNearest(y);
  }

  lemma RoundBetween(lo: int, x: real, hi: int)
    requires lo as real <= x <= hi as real
    ensures lo <= Round(x) <= hi
  {
    RoundInteger(lo);
    RoundInteger(hi);
    RoundMonotone(lo as real, x);
    RoundMonotone(x, hi as real);
  }

  /** Where a non-negative number rounds to, seen from a whole one. */
  lemma RoundAgainst(x: real, n: int)
    requires x >= 0.0
    ensures Round(x) <= n <==> x < n as real + 0.5
    ensures Round(x) >= n <==> x >= n as real - 0.5
  {
  }

  lemma ValueSum(a: Qty, b: Qty, price: real)
    ensures Value(a + b, price) == Value(a, price) + Value(b, price)
  {
    assert (a + b) as real * price == a as real * price + b as real * price;
  }

  lemma ValueNegate(a: Qty, price: real)
    ensures Value(-a, price) == -Value(a, price)
  {
    assert (-a) as real * price == -(a as real * price);
  }

  lemma ValueDifference(a: Qty, price: real, other: real)
    ensures Value(a, price - other) == Value(a, price) - Value(a, other)
  {
    assert a as real * (price - other) == a as real * price - a as real * other;
  }

  lemma ValueNonnegative(a: Qty, price: real)
    requires a >= 0 && price >= 0.0
    ensures Value(a, price) >= 0.0
  {
    assert a as real * price >= 0.0;
  }
}
