/** What the indicators read: each formula as a law of the values it is read from. */
module Formulas {
  import opened Prelude
  import opened Indicators

  lemma Quotient(a: real, b: real)
    requires b != 0.0
    ensures a / b * b == a
  {
  }

  /** A simple average times its period is the sum of the last values. */
  lemma SmaIs(values: seq<real>, n: int)
    ensures Sma(values, n).Some? <==> 0 < n <= |values|
    ensures 0 < n <= |values| ==> Sma(values, n).value * n as real == Sum(values[|values| - n..])
  {
    if 0 < n <= |values| {
      Quotient(Sum(values[|values| - n..]), n as real);
    }
  }

  lemma BlendScaled(n: int, v: real, e: real)
    requires n > 0
    ensures Blend(SmoothingOf(n), v, e) * (n + 1) as real == 2.0 * v + e * (n - 1) as real
  {
    var k := SmoothingOf(n);
    Quotient(2.0, n as real + 1.0);
    var w := n as real + 1.0;
    assert k * w == 2.0;
    BlendIs(k, v, e);
    hide Blend, SmoothingOf;
    Expand(k, w, v, e);
    assert e * (n - 1) as real == e * (w - 2.0) == w * e - 2.0 * e;
  }

  lemma Expand(k: real, w: real, v: real, e: real)
    requires k * w == 2.0
    ensures (v * k + e * (1.0 - k)) * w == 2.0 * v + w * e - 2.0 * e
  {
    calc {
      (v * k + e * (1.0 - k)) * w;
      v * (k * w) + e * w - e * (k * w);
      2.0 * v + w * e - 2.0 * e;
    }
  }

  /** An exponential average starts as the average of the first `n` values. */
  lemma EmaStarts(values: seq<real>, n: int)
    requires n > 0 && |values| == n
    ensures Ema(values, n).Some? && Ema(values, n).value * n as real == Sum(values)
  {
    assert values[..n] == values && values[n..] == [];
    Quotient(Sum(values), n as real);
  }

  /** Then each value `v` moves it from `e` to `(2 v + (n - 1) e) / (n + 1)`. */
  lemma EmaMoves(values: seq<real>, n: int)
    requires 0 < n < |values|
    ensures var before, after := Ema(values[..|values| - 1], n), Ema(values, n);
            && before.Some? && after.Some?
            && after.value * (n + 1) as real == 2.0 * values[|values| - 1] + before.value * (n - 1) as real
  {
    var m, start, k := |values|, Mean(values[..n]), SmoothingOf(n);
    EmaOfPrefix(values, n, m);
    EmaOfPrefix(values, n, m - 1);
    assert values[..m] == values;
    hide Ema, Mean, SmoothingOf, Blend;
    assert values[n..m][..m - n - 1] == values[n..m - 1];
    var e := Smooth(start, values[n..m - 1], k);
    assert Smooth(start, values[n..m], k) == Blend(k, values[m - 1], e);
    BlendScaled(n, values[m - 1], e);
  }

  /** The rises and the falls of a window: their difference is the net change, none fell in a window that
      never goes down, and none rose in one that never goes up. */
  lemma {:induction false} MovesAre(xs: seq<real>)
    requires |xs| > 0
    ensures Moves(true, xs) - Moves(false, xs) == xs[|xs| - 1] - xs[0]
    ensures Moves(false, xs) == 0.0 <==> forall i :: 0 < i < |xs| ==> xs[i - 1] <= xs[i]
    ensures Moves(true, xs) == 0.0 <==> forall i :: 0 < i < |xs| ==> xs[i - 1] >= xs[i]
  {
    var m := |xs|;
    if m > 1 {
      MovesAre(xs[..m - 1]);
      MovesNonnegative(xs[..m - 1]);
    }
  }

  lemma RsiScaled(gain: real, loss: real)
    requires gain >= 0.0 && loss > 0.0
    ensures RsiOf(gain, loss) * (gain + loss) == 100.0 * gain
  {
    var rs := gain / loss;
    QuotientNonnegative(gain, loss);
    var q := 100.0 / (1.0 + rs);
    Quotient(gain, loss);
    Quotient(100.0, 1.0 + rs);
    assert gain + loss == (1.0 + rs) * loss;
    assert q * (gain + loss) == q * (1.0 + rs) * loss;
  }

  /** The relative strength index is the share of the rises in the last `n` changes, in percent. */
  lemma RsiIs(values: seq<real>, n: int)
    requires n > 0
    ensures Rsi(values, n).Ok? && (Rsi(values, n).value.Some? <==> |values| >= n + 1)
    ensures |values| >= n + 1 ==>
              var window := values[|values| - n - 1..];
              var rises, falls := Moves(true, window), Moves(false, window);
              falls > 0.0 ==> Rsi(values, n).value.value * (rises + falls) == 100.0 * rises
  {
    if |values| >= n + 1 {
      var window := values[|values| - n - 1..];
      var gain, loss := AvgMove(true, window, n), AvgMove(false, window, n);
      var w := n as real;
      Quotient(Moves(true, window), w);
      Quotient(Moves(false, window), w);
      assert gain * w == Moves(true, window) && loss * w == Moves(false, window);
      if Moves(false, window) > 0.0 {
        RsiScaled(gain, loss);
        Rescaled(RsiOf(gain, loss), gain, loss, w);
      }
    }
  }

  lemma Rescaled(r: real, gain: real, loss: real, w: real)
    requires r * (gain + loss) == 100.0 * gain
    ensures r * (gain * w + loss * w) == 100.0 * (gain * w)
  {
    assert r * (gain * w + loss * w) == r * (gain + loss) * w;
  }

  /** The rate of change is the change over `n` bars as a fraction of where it started. */
  lemma RocIs(values: seq<real>, n: int)
    requires n > 0
    ensures Roc(values, n).Ok?
    ensures Roc(values, n).value.Some? <==> |values| > n && values[|values| - 1 - n] != 0.0
    ensures Roc(values, n).value.Some? ==>
              var base := values[|values| - 1 - n];
              Roc(values, n).value.value * base == values[|values| - 1] - base
  {
    if |values| > n && values[|values| - 1 - n] != 0.0 {
      Quotient(values[|values| - 1] - values[|values| - 1 - n], values[|values| - 1 - n]);
    }
  }

  /** The true range of a bar is the distance its price covered, counted from the last close. */
  lemma TrueRangeIs(bar: Bar, prev: Bar)
    requires bar.low <= bar.high
    ensures TrueRange(bar, prev) == Max(bar.high, prev.close) - Min(bar.low, prev.close)
  {
  }

  lemma MeanIs(xs: seq<real>, n: int, mean: real)
    requires |xs| == n > 0 && mean == Mean(xs)
    ensures mean * n as real == Sum(xs)
  {
    Quotient(Sum(xs), n as real);
  }

  lemma RangesCount(bars: seq<Bar>)
    requires |bars| > 0
    ensures |TrueRanges(bars)| == |bars| - 1
  {
    RangesAt(bars);
  }

  lemma AtrIsMean(bars: seq<Bar>, n: int)
    requires 0 < n < |bars| && |TrueRanges(bars)| == |bars| - 1
    ensures Atr(bars, n) == Some(Mean(TrueRanges(bars)[|bars| - 1 - n..]))
  {
    hide TrueRange, Mean;
  }

  /** The average true range times its period is the sum of the last true ranges. */
  lemma AtrIs(bars: seq<Bar>, n: int)
    requires 0 < n < |bars|
    ensures |TrueRanges(bars)| == |bars| - 1 && Atr(bars, n).Some?
    ensures Atr(bars, n).value * n as real == Sum(TrueRanges(bars)[|bars| - 1 - n..])
  {
    hide *;
    RangesCount(bars);
    AtrIsMean(bars, n);
    MeanIs(TrueRanges(bars)[|bars| - 1 - n..], n, Atr(bars, n).value);
  }

  /** Bars with a sensible range and volume, between two prices. */
  predicate Traded(bars: seq<Bar>, lo: real, hi: real) {
    forall i :: 0 <= i < |bars| ==>
      bars[i].volume >= 0.0 && lo <= bars[i].low <= bars[i].close <= bars[i].high <= hi
  }

  predicate Spans(total: real, weight: real, lo: real, hi: real) {
    weight * lo <= total <= weight * hi
  }

  lemma {:induction false} TurnoverWithin(bars: seq<Bar>, lo: real, hi: real)
    requires lo <= hi && Traded(bars, lo, hi)
    ensures Volume(bars) >= 0.0 && Spans(Turnover(bars), Volume(bars), lo, hi)
  {
    assert Spans(0.0, 0.0, lo, hi);
    hide Amount, Spans;
    if |bars| > 0 {
      var last := bars[|bars| - 1];
      TurnoverWithin(bars[..|bars| - 1], lo, hi);
      AmountSpans(last, lo, hi);
      StepWithin(Volume(bars[..|bars| - 1]), Turnover(bars[..|bars| - 1]), last.volume, Amount(last), lo, hi);
    }
  }

  lemma AmountSpans(bar: Bar, lo: real, hi: real)
    requires bar.volume >= 0.0 && lo <= bar.low <= bar.close <= bar.high <= hi
    ensures Spans(Amount(bar), bar.volume, lo, hi)
  {
    assert lo <= Typical(bar) <= hi;
    hide Typical;
    ScaleMonotone(bar.volume, lo, Typical(bar));
    ScaleMonotone(bar.volume, Typical(bar), hi);
  }

  lemma StepWithin(volume: real, turnover: real, v: real, amount: real, lo: real, hi: real)
    requires Spans(turnover, volume, lo, hi) && Spans(amount, v, lo, hi)
    ensures Spans(turnover + amount, volume + v, lo, hi)
  {
    assert (volume + v) * lo == volume * lo + v * lo;
    assert (volume + v) * hi == volume * hi + v * hi;
  }

  /** The volume-weighted price is the turnover at each bar's typical price over the volume; it lies within
      the prices of the bars it is read from, and there is none where nothing was traded. */
  lemma VwapIs(bars: seq<Bar>, n: int, lo: real, hi: real)
    requires 0 < n <= |bars|
    requires Traded(bars[|bars| - n..], lo, hi)
    ensures var window := bars[|bars| - n..];
            && (Vwap(bars, n).Some? <==> Volume(window) > 0.0)
            && (Vwap(bars, n).Some? ==>
                  lo <= Vwap(bars, n).value <= hi && Vwap(bars, n).value * Volume(window) == Turnover(window))
  {
    var window := bars[|bars| - n..];
    assert lo <= window[0].low <= window[0].high <= hi;
    TurnoverWithin(window, lo, hi);
    if Volume(window) > 0.0 {
      RatioSpans(Turnover(window), Volume(window), lo, hi);
    }
    hide Spans, Traded;
  }

  lemma RatioSpans(total: real, weight: real, lo: real, hi: real)
    requires weight > 0.0 && Spans(total, weight, lo, hi)
    ensures lo <= total / weight <= hi && total / weight * weight == total
  {
    Quotient(total, weight);
    DivideBetween(total, weight, lo, hi);
  }

  lemma TypicalIs(bar: Bar)
    ensures Typical(bar) * 3.0 == bar.high + bar.low + bar.close
  {
  }

  lemma {:induction false} SquaresAre(xs: seq<real>, mid: real)
    ensures Squares(xs, mid) == Squares(xs, 0.0) - 2.0 * mid * Sum(xs) + |xs| as real * mid * mid
    decreases |xs|
  {
    if |xs| > 0 {
      var x, rest := xs[|xs| - 1], xs[..|xs| - 1];
      SquaresAre(rest, mid);
      assert (x - mid) * (x - mid) == x * x - 2.0 * mid * x + mid * mid;
      assert 2.0 * mid * Sum(xs) == 2.0 * mid * Sum(rest) + 2.0 * mid * x;
      assert |xs| as real * mid * mid == |rest| as real * mid * mid + mid * mid;
    }
  }

  /** The mean of the squared distances from the mean. */
  function Variance(window: seq<real>): real
    requires |window| > 0
  {
    Squares(window, Mean(window)) / |window| as real
  }

  /** The bands lie `mult` deviations off the mean of the last values, and percent is a half where they meet. */
  lemma BollingerIs(root: real -> real, values: seq<real>, n: int, mult: real)
    requires 0 < n <= |values|
    ensures Bollinger(root, values, n, mult).Some?
    ensures var window, b := values[|values| - n..], Bollinger(root, values, n, mult).value.fields;
            && b["middle"] * n as real == Sum(window)
            && b["upper"] - b["middle"] == b["middle"] - b["lower"] == mult * root(Variance(window))
            && (b["upper"] == b["lower"] ==> b["percent"] == 0.5)
  {
    var window := values[|values| - n..];
    assert window == Tail(values, n);
    MeanIs(window, n, Mean(window));
    hide Mean;
  }

  function Square(x: real): real {
    x * x
  }

  function Squared(xs: seq<real>): (r: seq<real>)
    ensures |r| == |xs| && forall i :: 0 <= i < |xs| ==> r[i] == Square(xs[i])
  {
    seq(|xs|, i requires 0 <= i < |xs| => Square(xs[i]))
  }

  lemma {:induction false} SumOfSquares(xs: seq<real>)
    ensures Squares(xs, 0.0) == Sum(Squared(xs))
    decreases |xs|
  {
    if |xs| > 0 {
      SumOfSquares(xs[..|xs| - 1]);
      assert Squared(xs)[..|xs| - 1] == Squared(xs[..|xs| - 1]);
    }
  }

  /** The variance: the number of values times the sum of their squares, less the square of their sum, over
      the number squared. */
  lemma VarianceIs(window: seq<real>, n: real, sum: real, squares: real)
    requires |window| > 0 && n == |window| as real && sum == Sum(window) && squares == Sum(Squared(window))
    ensures Variance(window) * n * n == n * squares - sum * sum
  {
    hide *;
    var mid, dev := Mean(window), Squares(window, Mean(window));
    DeviationIs(window, n, mid, dev);
    SquaresAre(window, mid);
    SumOfSquares(window);
    SpreadIs(dev, squares, sum, mid, n);
  }

  lemma DeviationIs(window: seq<real>, n: real, mid: real, dev: real)
    requires |window| > 0 && n == |window| as real && mid == Mean(window) && dev == Squares(window, mid)
    ensures mid * n == Sum(window) && Variance(window) * n == dev
  {
    Quotient(Sum(window), n);
    Quotient(dev, n);
  }

  lemma SpreadIs(dev: real, squares: real, sum: real, mid: real, w: real)
    requires mid * w == sum && dev == squares - 2.0 * mid * sum + w * mid * mid
    ensures dev * w == w * squares - sum * sum
  {
    calc {
      dev * w;
      w * squares - 2.0 * (mid * w) * sum + (mid * w) * (mid * w);
      w * squares - sum * sum;
    }
  }

  // ---------------------------------------------------------------- which formula, on which prices

  /** A series holds the named price of every bar. */
  lemma SeriesIs(bars: seq<Bar>, source: string, i: nat)
    requires i < |bars|
    ensures var x := SeriesFrom(bars, source)[i];
            && (source == "close" ==> x == bars[i].close) && (source == "open" ==> x == bars[i].open)
            && (source == "high" ==> x == bars[i].high) && (source == "low" ==> x == bars[i].low)
            && (source == "volume" ==> x == bars[i].volume)
            && (source == "hlc3" ==> x * 3.0 == bars[i].high + bars[i].low + bars[i].close)
  {
    hide SeriesFrom;
    assert SeriesFrom(bars, source)[i] == SourceOf(bars[i], source) by {
      SeriesEntry(bars, source, i);
    }
    TypicalIs(bars[i]);
  }

  lemma SeriesEntry(bars: seq<Bar>, source: string, i: nat)
    requires i < |bars|
    ensures SeriesFrom(bars, source)[i] == SourceOf(bars[i], source)
  {
  }

  /** An unset parameter means its documented default. */
  lemma Defaults(root: real -> real, ind: Indicator, bars: seq<Bar>)
    ensures ind.fn in {"rsi", "atr"} && ind.period.None? ==>
              Compute(root, ind, bars) == Compute(root, ind.(period := Some(14)), bars)
    ensures ind.fn in {"vwap", "bollinger", "bbpercent"} && ind.period.None? ==>
              Compute(root, ind, bars) == Compute(root, ind.(period := Some(20)), bars)
    ensures ind.fn in {"bollinger", "bbpercent"} && ind.mult.None? ==>
              Compute(root, ind, bars) == Compute(root, ind.(mult := Some(2.0)), bars)
    ensures ind.fn == "macd" && ind.fast.None? ==>
              Compute(root, ind, bars) == Compute(root, ind.(fast := Some(12)), bars)
    ensures ind.fn == "macd" && ind.slow.None? ==>
              Compute(root, ind, bars) == Compute(root, ind.(slow := Some(26)), bars)
    ensures ind.fn == "macd" && ind.signal.None? ==>
              Compute(root, ind, bars) == Compute(root, ind.(signal := Some(9)), bars)
  {
    hide Atr, Vwap, Rsi, Bollinger, BbPercent, SeriesFrom;
  }

  /** A scalar reading that times `weight` is `total`. */
  ghost predicate Reads(r: Result<Option<Reading>>, weight: real, total: real) {
    exists x :: r == Ok(Some(Scalar(x))) && x * weight == total
  }

  lemma ReadsWhen(r: Result<Option<Reading>>, x: real, weight: real, total: real)
    requires r == Ok(Some(Scalar(x))) && x * weight == total
    ensures Reads(r, weight, total)
  {
  }

  /** The averages as an indicator of a strategy reads them on the prices of its source. */
  lemma AveragesRead(root: real -> real, ind: Indicator, bars: seq<Bar>, n: int)
    requires ind.source in SOURCES && ind.period == Some(n) && 0 < n <= |bars|
    ensures var xs := SeriesFrom(bars, ind.source);
            && (ind.fn == "sma" ==> Reads(Compute(root, ind, bars), n as real, Sum(xs[|xs| - n..])))
            && (ind.fn == "ema" && |bars| == n ==> Reads(Compute(root, ind, bars), n as real, Sum(xs)))
  {
    var xs := SeriesFrom(bars, ind.source);
    hide Reads, SeriesFrom, Sma, Ema;
    if ind.fn == "sma" {
      SmaIs(xs, n);
      ReadsWhen(Compute(root, ind, bars), Sma(xs, n).value, n as real, Sum(xs[|xs| - n..]));
    }
    if ind.fn == "ema" && |bars| == n {
      EmaStarts(xs, n);
      ReadsWhen(Compute(root, ind, bars), Ema(xs, n).value, n as real, Sum(xs));
    }
  }

  lemma Dispatched(root: real -> real, ind: Indicator, bars: seq<Bar>, n: int)
    requires ind.period == Some(n)
    ensures ind.fn == "atr" ==> Compute(root, ind, bars) == Boxed(Ok(Atr(bars, n)))
    ensures ind.fn == "vwap" ==> Compute(root, ind, bars) == Boxed(Ok(Vwap(bars, n)))
    ensures var xs := SeriesFrom(bars, ind.source);
            ind.source in SOURCES ==>
              && (ind.fn == "ema" ==> Compute(root, ind, bars) == Boxed(Ok(Ema(xs, n))))
              && (ind.fn == "rsi" ==> Compute(root, ind, bars) == Boxed(Rsi(xs, n)))
              && (ind.fn == "roc" ==> Compute(root, ind, bars) == Boxed(Roc(xs, n)))
  {
    hide Rsi, Roc, Atr, Vwap, Ema, SeriesFrom, Boxed;
  }

  lemma BoxedIs(r: Result<Option<real>>)
    requires r.Ok? && r.value.Some?
    ensures Boxed(r) == Ok(Some(Scalar(r.value.value)))
  {
  }

  /** `after` reads the average that `v` moves the reading `before` to. */
  ghost predicate Moved(before: Result<Option<Reading>>, after: Result<Option<Reading>>, n: int, v: real) {
    exists e, e' ::
      && before == Ok(Some(Scalar(e))) && after == Ok(Some(Scalar(e')))
      && e' * (n + 1) as real == 2.0 * v + e * (n - 1) as real
  }

  lemma MovedWhen(before: Result<Option<Reading>>, after: Result<Option<Reading>>, n: int, v: real, e: real, e': real)
    requires before == Ok(Some(Scalar(e))) && after == Ok(Some(Scalar(e')))
    requires e' * (n + 1) as real == 2.0 * v + e * (n - 1) as real
    ensures Moved(before, after, n, v)
  {
  }

  lemma SeriesOfPrefix(bars: seq<Bar>, source: string, m: nat)
    requires m <= |bars|
    ensures SeriesFrom(bars[..m], source) == SeriesFrom(bars, source)[..m]
  {
  }

  /** One more bar moves the exponential average by its price. */
  lemma EmaReads(root: real -> real, ind: Indicator, bars: seq<Bar>, n: int)
    requires ind.fn == "ema" && ind.source in SOURCES && ind.period == Some(n) && 0 < n < |bars|
    ensures Moved(Compute(root, ind, bars[..|bars| - 1]), Compute(root, ind, bars), n,
                  SeriesFrom(bars, ind.source)[|bars| - 1])
  {
    hide *;
    var xs, m := SeriesFrom(bars, ind.source), |bars| - 1;
    Dispatched(root, ind, bars, n);
    Dispatched(root, ind, bars[..m], n);
    SeriesOfPrefix(bars, ind.source, m);
    EmaMoves(xs, n);
    BoxedIs(Ok(Ema(xs, n)));
    BoxedIs(Ok(Ema(xs[..m], n)));
    MovedWhen(Compute(root, ind, bars[..m]), Compute(root, ind, bars), n, xs[m], Ema(xs[..m], n).value,
              Ema(xs, n).value);
  }

  /** The relative strength index likewise, */
  lemma RsiReads(root: real -> real, ind: Indicator, bars: seq<Bar>, n: int)
    requires ind.fn == "rsi" && ind.source in SOURCES && ind.period == Some(n) && 0 < n < |bars|
    ensures var window := SeriesFrom(bars, ind.source)[|bars| - n - 1..];
            Moves(false, window) > 0.0 ==>
              Reads(Compute(root, ind, bars), Moves(true, window) + Moves(false, window), 100.0 * Moves(true, window))
  {
    hide *;
    var xs := SeriesFrom(bars, ind.source);
    var window := xs[|bars| - n - 1..];
    Dispatched(root, ind, bars, n);
    RsiIs(xs, n);
    BoxedIs(Rsi(xs, n));
    if Moves(false, window) > 0.0 {
      ReadsWhen(Compute(root, ind, bars), Rsi(xs, n).value.value,
                Moves(true, window) + Moves(false, window), 100.0 * Moves(true, window));
    }
  }

  /** the rate of change, */
  lemma RocReads(root: real -> real, ind: Indicator, bars: seq<Bar>, n: int)
    requires ind.fn == "roc" && ind.source in SOURCES && ind.period == Some(n) && 0 < n < |bars|
    ensures var xs := SeriesFrom(bars, ind.source);
            var base := xs[|bars| - 1 - n];
            base != 0.0 ==> Reads(Compute(root, ind, bars), base, xs[|bars| - 1] - base)
  {
    hide *;
    var xs := SeriesFrom(bars, ind.source);
    var base := xs[|bars| - 1 - n];
    Dispatched(root, ind, bars, n);
    RocIs(xs, n);
    if base != 0.0 {
      BoxedIs(Roc(xs, n));
      ReadsWhen(Compute(root, ind, bars), Roc(xs, n).value.value, base, xs[|bars| - 1] - base);
    }
  }

  /** and the average true range. */
  lemma AtrReads(root: real -> real, ind: Indicator, bars: seq<Bar>, n: int)
    requires ind.fn == "atr" && ind.period == Some(n) && 0 < n < |bars|
    ensures |TrueRanges(bars)| == |bars| - 1
    ensures Reads(Compute(root, ind, bars), n as real, Sum(TrueRanges(bars)[|bars| - 1 - n..]))
  {
    hide *;
    Dispatched(root, ind, bars, n);
    AtrIs(bars, n);
    BoxedIs(Ok(Atr(bars, n)));
    ReadsWhen(Compute(root, ind, bars), Atr(bars, n).value, n as real, Sum(TrueRanges(bars)[|bars| - 1 - n..]));
  }

  /** The volume-weighted price reads the turnover over the volume. */
  lemma VwapReads(root: real -> real, ind: Indicator, bars: seq<Bar>, n: int, lo: real, hi: real)
    requires ind.fn == "vwap" && ind.period == Some(n) && 0 < n <= |bars|
    requires Traded(bars[|bars| - n..], lo, hi) && Volume(bars[|bars| - n..]) > 0.0
    ensures Reads(Compute(root, ind, bars), Volume(bars[|bars| - n..]), Turnover(bars[|bars| - n..]))
  {
    hide *;
    Dispatched(root, ind, bars, n);
    VwapIs(bars, n, lo, hi);
    BoxedIs(Ok(Vwap(bars, n)));
    ReadsWhen(Compute(root, ind, bars), Vwap(bars, n).value, Volume(bars[|bars| - n..]), Turnover(bars[|bars| - n..]));
  }

  /** The bands read all four fields; percent alone is the field of that name. */
  lemma BandsRead(root: real -> real, ind: Indicator, bars: seq<Bar>, n: int, mult: real)
    requires ind.source in SOURCES && ind.period == Some(n) && ind.mult == Some(mult) && 0 < n <= |bars|
    ensures var xs := SeriesFrom(bars, ind.source);
            && Bollinger(root, xs, n, mult).Some?
            && (ind.fn == "bollinger" ==> Compute(root, ind, bars) == Ok(Bollinger(root, xs, n, mult)))
            && (ind.fn == "bbpercent" ==>
                  Reads(Compute(root, ind, bars), 1.0, Bollinger(root, xs, n, mult).value.fields["percent"]))
  {
    var xs := SeriesFrom(bars, ind.source);
    hide Bands, SeriesFrom, Reads;
    if ind.fn == "bbpercent" {
      var pct := Bollinger(root, xs, n, mult).value.fields["percent"];
      ReadsWhen(Compute(root, ind, bars), pct, 1.0, pct);
    }
  }
}
