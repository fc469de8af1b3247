/** The one-pass maximum drawdown of the backtest metrics. */
module Drawdown {
  import opened Prelude

  /** The highest value so far, the start included. */
  function Peak(start: real, xs: seq<real>): real {
    if |xs| == 0 then start else Max(Peak(start, xs[..|xs| - 1]), xs[|xs| - 1])
  }

  function Drop(peak: real, x: real): real {
    if peak > 0.0 then (peak - x) / peak else 0.0
  }

  /** The largest fractional drop from the running peak. */
  function MaxDrop(start: real, xs: seq<real>): real {
    if |xs| == 0 then 0.0
    else Max(MaxDrop(start, xs[..|xs| - 1]), Drop(Peak(start, xs), xs[|xs| - 1]))
  }

  lemma MaxDropNonnegative(start: real, xs: seq<real>)
    ensures MaxDrop(start, xs) >= 0.0
  {
  }

  method MaxDrawdown(start: real, curve: seq<real>) returns (maxDd: real)
    ensures maxDd == MaxDrop(start, curve)
  {
    var peak := start;
    maxDd := 0.0;
    for i := 0 to |curve|
      invariant peak == Peak(start, curve[..i]) && maxDd == MaxDrop(start, curve[..i])
      invariant maxDd >= 0.0
    {
      assert curve[..i + 1][..i] == curve[..i];
      var e := curve[i];
      if e > peak {
        peak := e;
      }
      if peak > 0.0 {
        var dd := (peak - e) / peak;
        if dd > maxDd {
          maxDd := dd;
        }
      }
    }
    assert curve[..|curve|] == curve;
  }

  lemma {:induction false} PeakIsHighest(start: real, xs: seq<real>)
    ensures forall y :: y in [start] + xs ==> y <= Peak(start, xs)
    ensures Peak(start, xs) in [start] + xs
    decreases |xs|
  {
    if |xs| > 0 {
      var init, last := xs[..|xs| - 1], xs[|xs| - 1];
      PeakIsHighest(start, init);
      assert [start] + xs == ([start] + init) + [last];
    }
  }

  /** The drop from a higher peak is at least that from a lower one exactly when it is to a value that
      is not negative, or the peaks are the same. */
  lemma DropMonotoneIff(low: real, high: real, x: real)
    requires 0.0 < low <= high
    ensures Drop(low, x) <= Drop(high, x) <==> x >= 0.0 || low == high
  {
    DropIs(low, x);
    DropIs(high, x);
    hide Drop;
    QuotientFalls(if x >= 0.0 then x else -x, low, high);
    if x < 0.0 {
      QuotientNegates(x, low);
      QuotientNegates(x, high);
      if low < high {
        QuotientFallsStrictly(-x, low, high);
      }
    }
  }

  lemma QuotientNegates(x: real, d: real)
    requires d > 0.0
    ensures (-x) / d == -(x / d)
  {
    var q := x / d;
    assert q * d == x;
    UniqueQuotient(-x, d, -q);
  }

  lemma QuotientFallsStrictly(x: real, low: real, high: real)
    requires 0.0 < low < high && x > 0.0
    ensures x / high < x / low
  {
    var a, b := x / low, x / high;
    assert a * low == x && b * high == x;
    assert a > 0.0;
    ScaleStrict(a, low, high);
    if b >= a {
      ScaleMonotone(high, a, b);
    }
  }

  lemma DropIs(peak: real, x: real)
    requires peak > 0.0
    ensures Drop(peak, x) == 1.0 - x / peak
  {
    var y := x / peak;
    assert y * peak == x;
    assert (1.0 - y) * peak == peak - x;
    UniqueQuotient(peak - x, peak, 1.0 - y);
  }

  lemma UniqueQuotient(n: real, d: real, q: real)
    requires d > 0.0 && q * d == n
    ensures n / d == q
  {
    var r := n / d;
    assert r * d == n;
    assert (r - q) * d == 0.0;
  }

  lemma QuotientFalls(x: real, low: real, high: real)
    requires 0.0 < low <= high && x >= 0.0
    ensures x / high <= x / low
  {
    var a, b := x / low, x / high;
    assert a * low == x && b * high == x;
    assert a >= 0.0;
    assert a * low <= a * high;
    assert (a - b) * high >= 0.0;
    NonnegativeFactor(high, a - b);
  }

  /** The result is an upper bound of the fractional drop from any earlier positive value (the start
      included) to any later one that is not negative, and from the running peak to any later one. */
  lemma {:induction false} EveryDropIsBounded(start: real, xs: seq<real>, i: nat, j: nat)
    requires i <= j < |xs| && ([start] + xs)[i] > 0.0
    requires xs[j] >= 0.0 || ([start] + xs)[i] == Peak(start, xs[..j + 1])
    ensures Drop(([start] + xs)[i], xs[j]) <= MaxDrop(start, xs)
    decreases |xs|
  {
    var init := xs[..|xs| - 1];
    if j < |xs| - 1 {
      assert ([start] + init)[i] == ([start] + xs)[i] && init[..j + 1] == xs[..j + 1];
      EveryDropIsBounded(start, init, i, j);
    } else {
      assert xs[..j + 1] == xs;
      PeakIsHighest(start, xs);
      assert ([start] + xs)[i] in [start] + xs;
      DropMonotoneIff(([start] + xs)[i], Peak(start, xs), xs[j]);
    }
  }

  predicate NoneNegative(xs: seq<real>) {
    forall x :: x in xs ==> x >= 0.0
  }

  lemma DropWithinOne(peak: real, x: real)
    requires peak > 0.0 && x >= 0.0
    ensures Drop(peak, x) <= 1.0
  {
    DropIs(peak, x);
    hide Drop;
    var q := x / peak;
    assert q * peak == x;
    if q < 0.0 {
      ScaleStrict(peak, q, 0.0);
    }
  }

  /** No drop to a value that is not negative is more than a whole. */
  lemma {:induction false} MaxDropWithinOne(start: real, xs: seq<real>)
    requires NoneNegative(xs)
    ensures MaxDrop(start, xs) <= 1.0
    decreases |xs|
  {
    if |xs| > 0 {
      var init, x, peak := xs[..|xs| - 1], xs[|xs| - 1], Peak(start, xs);
      assert x in xs && forall y :: y in init ==> y in xs;
      MaxDropWithinOne(start, init);
      if peak > 0.0 {
        DropWithinOne(peak, x);
      }
      hide Drop;
    }
  }

  /** A first fall below zero sets the result: the drop to it from the peak so far. */
  lemma FirstFallBelowZero(start: real, init: seq<real>, x: real)
    requires start > 0.0 && NoneNegative(init) && x < 0.0
    ensures Peak(start, init) >= start
    ensures MaxDrop(start, init + [x]) == Drop(Peak(start, init), x)
  {
    var peak := Peak(start, init);
    PeakIsHighest(start, init);
    assert ([start] + init)[0] in [start] + init;
    assert (init + [x])[..|init|] == init;
    MaxDropWithinOne(start, init);
    DropPastZero(peak, x);
    hide Drop;
  }

  /** A drop below zero is more than a whole. */
  lemma DropPastZero(peak: real, x: real)
    requires peak > 0.0 && x < 0.0
    ensures Drop(peak, x) >= 1.0
  {
    DropIs(peak, x);
    hide Drop;
    var q := x / peak;
    assert q * peak == x;
    if q > 0.0 {
      ScaleMonotone(peak, 0.0, q);
    }
  }

  /** The exact condition for the reported drawdown to bound every drop when equity falls below zero:
      no positive value before, the start included, was lower than the peak. */
  lemma ReportedBoundsIff(start: real, init: seq<real>, x: real)
    requires start > 0.0 && NoneNegative(init) && x < 0.0
    ensures (forall v :: v in [start] + init && v > 0.0 ==> Drop(v, x) <= MaxDrop(start, init + [x])) <==>
              forall v :: v in [start] + init && v > 0.0 ==> v == Peak(start, init)
  {
    FirstFallBelowZero(start, init, x);
    PeakIsHighest(start, init);
    hide Drop;
    forall v | v in [start] + init && v > 0.0
      ensures Drop(v, x) <= MaxDrop(start, init + [x]) <==> v == Peak(start, init)
    {
      DropMonotoneIff(v, Peak(start, init), x);
    }
  }

  /** ... and when it is positive it is the drop between two such values. */
  lemma {:induction false} MaxDropIsAttained(start: real, xs: seq<real>)
    requires MaxDrop(start, xs) > 0.0
    ensures exists i, j :: 0 <= i <= j < |xs| && ([start] + xs)[i] > 0.0
                        && Drop(([start] + xs)[i], xs[j]) == MaxDrop(start, xs)
    decreases |xs|
  {
    var init, n := xs[..|xs| - 1], |xs| - 1;
    if MaxDrop(start, init) == MaxDrop(start, xs) {
      MaxDropIsAttained(start, init);
      var i, j :| 0 <= i <= j < |init| && ([start] + init)[i] > 0.0
                  && Drop(([start] + init)[i], init[j]) == MaxDrop(start, init);
      assert ([start] + init)[i] == ([start] + xs)[i] && init[j] == xs[j];
    } else {
      PeakIsHighest(start, xs);
      var i :| 0 <= i < |[start] + xs| && ([start] + xs)[i] == Peak(start, xs);
      assert i != |xs|;
      assert ([start] + xs)[i] > 0.0 && i <= n;
    }
  }
}
