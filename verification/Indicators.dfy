/**
 Technical indicators over real numbers.  The square root of the Bollinger bands is a parameter
 of the model.
 */
module Indicators {
  import opened Prelude
  import BarSeries

  /** A price bar, stamped with its opening time. */
  type Bar = BarSeries.Bar

  /** One indicator of a strategy; an unset parameter takes its default when evaluated. */
  datatype Indicator = Indicator(
    id: string, fn: string, source: string, timeframe: Option<string>,
    period: Option<int>, fast: Option<int>, slow: Option<int>, signal: Option<int>, mult: Option<real>)

  /** A scalar indicator or a dict of named fields. */
  datatype Reading = Scalar(number: real) | Fields(fields: map<string, real>)

  // ---------------------------------------------------------------- sums and averages

  function Sum(xs: seq<real>): real {
    if |xs| == 0 then 0.0 else Sum(xs[..|xs| - 1]) + xs[|xs| - 1]
  }

  /** The last `n` entries. */
  function Tail<T>(xs: seq<T>, n: nat): seq<T>
    requires n <= |xs|
  {
    xs[|xs| - n..]
  }

  function Mean(xs: seq<real>): real
    requires |xs| > 0
  {
    Sum(xs) / |xs| as real
  }

  function Sma(values: seq<real>, n: int): Option<real> {
    if n <= 0 || |values| < n then None else Some(Mean(Tail(values, n)))
  }

  /** One smoothing step with weight `k` on the new value. */
  function Blend(k: real, v: real, e: real): real {
    v * k + e * (1.0 - k)
  }

  function Smooth(e: real, vs: seq<real>, k: real): real {
    if |vs| == 0 then e else Blend(k, vs[|vs| - 1], Smooth(e, vs[..|vs| - 1], k))
  }

  function SmoothingOf(n: int): real
    requires n > 0
  {
    2.0 / (n as real + 1.0)
  }

  /** Exponential average, seeded with the simple average of the first `n` values. */
  function Ema(values: seq<real>, n: int): Option<real> {
    if n <= 0 || |values| < n then None
    else Some(Smooth(Mean(values[..n]), values[n..], SmoothingOf(n)))
  }

  method ComputeEma(values: seq<real>, n: int) returns (r: Option<real>)
    ensures r == Ema(values, n)
  {
    if n <= 0 || |values| < n {
      return None;
    }
    var k := 2.0 / (n as real + 1.0);
    var e := Sum(values[..n]) / n as real;
    assert values[n..n] == [] && values[n..|values|] == values[n..];
    hide Mean, Blend;
    for i := n to |values|
      invariant e == Smooth(Mean(values[..n]), values[n..i], k)
    {
      assert values[n..i + 1][..i - n] == values[n..i];
      e := Blend(k, values[i], e);
    }
    return Some(e);
  }

  /** The exponential average of every prefix. */
  function EmaSeries(values: seq<real>, n: int): (r: seq<Option<real>>)
    ensures |r| == |values|
  {
    seq(|values|, i requires 0 <= i < |values| => Ema(values[..i + 1], n))
  }

  lemma EmaOfPrefix(values: seq<real>, n: int, m: nat)
    requires m <= |values|
    ensures Ema(values[..m], n) ==
              if 0 < n <= m then Some(Smooth(Mean(values[..n]), values[n..m], SmoothingOf(n))) else None
  {
    if 0 < n <= m {
      assert values[..m][..n] == values[..n] && values[..m][n..] == values[n..m];
    }
  }

  /** The running series: each entry, and so the last one, is the average of the values up to it. */
  method ComputeEmaSeries(values: seq<real>, n: int) returns (out: seq<Option<real>>)
    ensures out == EmaSeries(values, n)
  {
    hide Mean, Blend, Ema;
    forall j | 0 <= j < |values| && (n <= 0 || j < n - 1) ensures EmaSeries(values, n)[j] == None {
      EmaOfPrefix(values, n, j + 1);
    }
    if n <= 0 || |values| < n {
      return seq(|values|, i => None);
    }
    var k := 2.0 / (n as real + 1.0);
    out := seq(n - 1, i => None);
    var e := Sum(values[..n]) / n as real;
    out := out + [Some(e)];
    SeedIs(values, n);
    for i := n to |values|
      invariant |out| == i
      invariant e == Smooth(Mean(values[..n]), values[n..i], k)
      invariant forall j :: 0 <= j < i ==> out[j] == EmaSeries(values, n)[j]
    {
      assert values[n..i + 1][..i - n] == values[n..i];
      EmaOfPrefix(values, n, i + 1);
      e := Blend(k, values[i], e);
      out := out + [Some(e)];
    }
  }

  lemma SeedIs(values: seq<real>, n: int)
    requires 0 < n <= |values|
    ensures var e := Sum(values[..n]) / n as real;
            Ema(values[..n], n) == Some(e) && e == Smooth(Mean(values[..n]), values[n..n], SmoothingOf(n))
  {
    EmaOfPrefix(values, n, n);
  }

  // ---------------------------------------------------------------- rsi, roc

  /** Total of the rises (of the falls, when not `up`) between neighbours. */
  function Moves(up: bool, xs: seq<real>): real {
    if |xs| <= 1 then 0.0
    else
      var change := xs[|xs| - 1] - xs[|xs| - 2];
      Moves(up, xs[..|xs| - 1]) + if up == (change >= 0.0) then Abs(change) else 0.0
  }

  function RsiOf(avgGain: real, avgLoss: real): real
    requires avgGain >= 0.0 && avgLoss >= 0.0
  {
    if avgLoss == 0.0 then 100.0
    else
      QuotientNonnegative(avgGain, avgLoss);
      100.0 - 100.0 / (1.0 + avgGain / avgLoss)
  }

  /** An average move over `n` steps. */
  function AvgMove(up: bool, window: seq<real>, n: int): (r: real)
    requires n > 0
    ensures r >= 0.0
  {
    MovesNonnegative(window);
    QuotientNonnegative(Moves(up, window), n as real);
    Moves(up, window) / n as real
  }

  /** Raises for a zero period, which divides by zero. */
  function Rsi(values: seq<real>, n: int): Result<Option<real>> {
    if |values| < n + 1 then Ok(None)
    else if n == 0 then Raises
    else if n < 0 then Ok(Some(RsiOf(0.0, 0.0)))
    else
      var window := Tail(values, n + 1);
      Ok(Some(RsiOf(AvgMove(true, window, n), AvgMove(false, window, n))))
  }

  method SumMoves(window: seq<real>) returns (gains: real, losses: real)
    ensures gains == Moves(true, window) && losses == Moves(false, window)
  {
    gains, losses := 0.0, 0.0;
    var i := 1;
    while i < |window|
      invariant |window| <= 1 || 1 <= i <= |window|
      invariant |window| > 1 ==> gains == Moves(true, window[..i]) && losses == Moves(false, window[..i])
      invariant |window| <= 1 ==> gains == losses == 0.0
    {
      assert window[..i + 1][..i] == window[..i];
      var change := window[i] - window[i - 1];
      if change >= 0.0 {
        gains := gains + change;
      } else {
        losses := losses - change;
      }
      i := i + 1;
    }
    assert |window| > 1 ==> window[..i] == window;
  }

  method ComputeRsi(values: seq<real>, n: int) returns (r: Result<Option<real>>)
    ensures r == Rsi(values, n)
  {
    hide RsiOf;
    if |values| < n + 1 {
      return Ok(None);
    }
    var gains, losses := 0.0, 0.0;
    if n > 0 {
      gains, losses := SumMoves(Tail(values, n + 1));
    }
    if n == 0 {
      return Raises;
    }
    var avgGain, avgLoss := gains / n as real, losses / n as real;
    if n > 0 {
      assert avgGain == AvgMove(true, Tail(values, n + 1), n) && avgLoss == AvgMove(false, Tail(values, n + 1), n);
    }
    return Ok(Some(RsiOf(avgGain, avgLoss)));
  }

  lemma {:induction false} MovesNonnegative(xs: seq<real>)
    ensures Moves(true, xs) >= 0.0 && Moves(false, xs) >= 0.0
  {
    if |xs| > 1 {
      MovesNonnegative(xs[..|xs| - 1]);
    }
  }

  lemma QuotientNonnegative(x: real, y: real)
    requires x >= 0.0 && y > 0.0
    ensures x / y >= 0.0
  {
  }

  /** The relative strength index lies between 0 and 100; it is 100 exactly when nothing fell. */
  lemma RsiRange(values: seq<real>, n: int)
    requires n > 0 && |values| >= n + 1
    ensures Rsi(values, n).Ok? && Rsi(values, n).value.Some? && 0.0 <= Rsi(values, n).value.value <= 100.0
    ensures Rsi(values, n).value.value == 100.0 <==> Moves(false, Tail(values, n + 1)) == 0.0
  {
    var window := Tail(values, n + 1);
    var gain, loss := AvgMove(true, window, n), AvgMove(false, window, n);
    assert loss * n as real == Moves(false, window);
    if loss != 0.0 {
      QuotientNonnegative(gain, loss);
      Reciprocal(1.0 + gain / loss);
    }
  }

  lemma Reciprocal(x: real)
    requires x >= 1.0
    ensures 0.0 < 100.0 / x <= 100.0
  {
    var y := 100.0 / x;
    assert y * x == 100.0;
  }

  /** Python indexing: a negative index counts from the end. */
  function At(values: seq<real>, i: int): Option<real> {
    if 0 <= i < |values| then Some(values[i])
    else if -|values| <= i < 0 then Some(values[|values| + i])
    else None
  }

  function Roc(values: seq<real>, n: int): Result<Option<real>> {
    if |values| < n + 1 then Ok(None)
    else
      var base, last := At(values, -n - 1), At(values, -1);
      if base.None? || last.None? then Raises
      else if base.value == 0.0 then Ok(None)
      else Ok(Some((last.value - base.value) / base.value))
  }

  // ---------------------------------------------------------------- macd

  function Difference(a: Option<real>, b: Option<real>): Option<real> {
    if a.Some? && b.Some? then Some(a.value - b.value) else None
  }

  function LineOf(ef: seq<Option<real>>, es: seq<Option<real>>): (r: seq<Option<real>>)
    requires |ef| == |es|
    ensures |r| == |ef|
  {
    seq(|ef|, i requires 0 <= i < |ef| => Difference(ef[i], es[i]))
  }

  /** The entries that are defined, in order. */
  function Defined(xs: seq<Option<real>>): (r: seq<real>)
    ensures |r| <= |xs|
  {
    if |xs| == 0 then []
    else Defined(xs[..|xs| - 1]) + if xs[|xs| - 1].Some? then [xs[|xs| - 1].value] else []
  }

  function MacdLine(values: seq<real>, fast: int, slow: int): seq<real> {
    Defined(LineOf(EmaSeries(values, fast), EmaSeries(values, slow)))
  }

  /** Raises where the last entry of an empty series is taken. */
  function Macd(values: seq<real>, fast: int, slow: int, signal: int): Result<Option<Reading>> {
    if fast >= slow || |values| < slow then Ok(None)
    else
      var valid := MacdLine(values, fast, slow);
      if |valid| < signal then Ok(None)
      else if |valid| == 0 then Raises
      else
        var sig := EmaSeries(valid, signal)[|valid| - 1];
        if sig.None? then Ok(None)
        else
          var last := valid[|valid| - 1];
          Ok(Some(Fields(map["line" := last, "signal" := sig.value, "hist" := last - sig.value])))
  }

  /** The defined part of the line is the difference of the two averages of every prefix that is
      long enough for the slow one. */
  lemma {:induction false} MacdLineIs(values: seq<real>, fast: int, slow: int, m: nat)
    requires 0 < fast < slow && m <= |values|
    ensures var line := LineOf(EmaSeries(values, fast), EmaSeries(values, slow));
            var valid := Defined(line[..m]);
            && |valid| == (if m < slow then 0 else m - slow + 1)
            && forall j :: 0 <= j < |valid| ==>
                 valid[j] == Ema(values[..slow + j], fast).value - Ema(values[..slow + j], slow).value
  {
    var line := LineOf(EmaSeries(values, fast), EmaSeries(values, slow));
    if m > 0 {
      MacdLineIs(values, fast, slow, m - 1);
      assert line[..m][..m - 1] == line[..m - 1];
    }
  }

  lemma EmaDefined(values: seq<real>, n: int)
    ensures Ema(values, n).Some? <==> 0 < n <= |values|
  {
  }

  /** For positive periods with fast < slow, macd is defined exactly when there are at least
      slow + signal - 1 values, and then reads the difference of the two averages, the average of
      that difference, and the gap between them. */
  lemma MacdDefined(values: seq<real>, fast: int, slow: int, signal: int)
    requires 0 < fast < slow && signal > 0
    ensures var r := Macd(values, fast, slow, signal);
            && r.Ok?
            && (r.value.Some? <==> |values| >= slow + signal - 1)
            && (r.value.Some? ==>
                  var line := Ema(values, fast).value - Ema(values, slow).value;
                  var sig := Ema(MacdLine(values, fast, slow), signal).value;
                  r.value.value == Fields(map["line" := line, "signal" := sig, "hist" := line - sig]))
  {
    hide Ema, MacdLine;
    EmaDefined(values, fast);
    EmaDefined(values, slow);
    if |values| >= slow {
      MacdLineWhole(values, fast, slow);
      var valid := MacdLine(values, fast, slow);
      EmaDefined(valid, signal);
      assert valid[..|valid|] == valid;
    }
  }

  lemma MacdLineWhole(values: seq<real>, fast: int, slow: int)
    requires 0 < fast < slow <= |values|
    ensures var valid := MacdLine(values, fast, slow);
            && |valid| == |values| - slow + 1
            && Ema(values, fast).Some? && Ema(values, slow).Some?
            && valid[|valid| - 1] == Ema(values, fast).value - Ema(values, slow).value
  {
    EmaDefined(values, fast);
    EmaDefined(values, slow);
    MacdLineIs(values, fast, slow, |values|);
    var line := LineOf(EmaSeries(values, fast), EmaSeries(values, slow));
    assert line[..|values|] == line && values[..|values|] == values;
    hide Ema, LineOf;
    assert values[..slow + (|values| - slow)] == values;
  }

  // ---------------------------------------------------------------- bands, ranges, volume

  function Squares(xs: seq<real>, mid: real): real {
    if |xs| == 0 then 0.0
    else Squares(xs[..|xs| - 1], mid) + (xs[|xs| - 1] - mid) * (xs[|xs| - 1] - mid)
  }

  /** Mean and deviation bands of a window, and where the last value lies between them. */
  function Bands(root: real -> real, window: seq<real>, mult: real, last: real): Reading
    requires |window| > 0
  {
    var mid := Mean(window);
    var sd := root(Squares(window, mid) / |window| as real);
    var upper, lower := mid + mult * sd, mid - mult * sd;
    var pct := if upper != lower then (last - lower) / (upper - lower) else 0.5;
    Fields(map["upper" := upper, "middle" := mid, "lower" := lower, "percent" := pct])
  }

  function Bollinger(root: real -> real, values: seq<real>, period: int, mult: real): (r: Option<Reading>)
    ensures r.Some? ==> r.value.Fields? && r.value.fields.Keys == {"upper", "middle", "lower", "percent"}
  {
    if period <= 0 || |values| < period then None
    else Some(Bands(root, Tail(values, period), mult, values[|values| - 1]))
  }

  function BbPercent(root: real -> real, values: seq<real>, period: int, mult: real): Option<real> {
    var b := Bollinger(root, values, period, mult);
    if b.Some? then Some(b.value.fields["percent"]) else None
  }

  function TrueRange(bar: Bar, prev: Bar): real {
    Max(Max(bar.high - bar.low, Abs(bar.high - prev.close)), Abs(bar.low - prev.close))
  }

  function TrueRanges(bars: seq<Bar>): (r: seq<real>) {
    if |bars| <= 1 then []
    else TrueRanges(bars[..|bars| - 1]) + [TrueRange(bars[|bars| - 1], bars[|bars| - 2])]
  }

  function Atr(bars: seq<Bar>, period: int): Option<real> {
    if period <= 0 || |bars| < period + 1 then None
    else
      RangesAt(bars);
      Some(Mean(Tail(TrueRanges(bars), period)))
  }

  lemma {:induction false} RangesAt(bars: seq<Bar>)
    requires |bars| > 0
    ensures |TrueRanges(bars)| == |bars| - 1
    ensures forall i :: 0 <= i < |bars| - 1 ==> TrueRanges(bars)[i] == TrueRange(bars[i + 1], bars[i])
  {
    if |bars| > 1 {
      RangesAt(bars[..|bars| - 1]);
    }
  }

  method ComputeAtr(bars: seq<Bar>, period: int) returns (r: Option<real>)
    ensures r == Atr(bars, period)
  {
    hide TrueRange;
    if period <= 0 || |bars| < period + 1 {
      return None;
    }
    var trs: seq<real> := [];
    for i := 1 to |bars|
      invariant trs == TrueRanges(bars[..i]) && |trs| == i - 1
    {
      assert bars[..i + 1][..i] == bars[..i];
      trs := trs + [TrueRange(bars[i], bars[i - 1])];
    }
    assert bars[..|bars|] == bars;
    if |trs| < period {
      return None;
    }
    return Some(Sum(Tail(trs, period)) / period as real);
  }

  function Typical(bar: Bar): real {
    (bar.high + bar.low + bar.close) / 3.0
  }

  function Amount(bar: Bar): real {
    Typical(bar) * bar.volume
  }

  function Turnover(bars: seq<Bar>): real {
    if |bars| == 0 then 0.0 else Turnover(bars[..|bars| - 1]) + Amount(bars[|bars| - 1])
  }

  function Volume(bars: seq<Bar>): real {
    if |bars| == 0 then 0.0 else Volume(bars[..|bars| - 1]) + bars[|bars| - 1].volume
  }

  function Vwap(bars: seq<Bar>, period: int): Option<real> {
    if period <= 0 || |bars| < period then None
    else
      var den := Volume(Tail(bars, period));
      if den == 0.0 then None else Some(Turnover(Tail(bars, period)) / den)
  }

  predicate Within(xs: seq<real>, lo: real, hi: real) {
    forall i :: 0 <= i < |xs| ==> lo <= xs[i] <= hi
  }

  lemma {:induction false} SumWithin(xs: seq<real>, lo: real, hi: real)
    requires Within(xs, lo, hi)
    ensures |xs| as real * lo <= Sum(xs) <= |xs| as real * hi
  {
    if |xs| > 0 {
      SumWithin(xs[..|xs| - 1], lo, hi);
      assert |xs| as real * lo == (|xs| - 1) as real * lo + lo;
      assert |xs| as real * hi == (|xs| - 1) as real * hi + hi;
    }
  }

  lemma MeanWithin(xs: seq<real>, lo: real, hi: real)
    requires |xs| > 0 && Within(xs, lo, hi)
    ensures lo <= Mean(xs) <= hi
  {
    SumWithin(xs, lo, hi);
    DivideBetween(Sum(xs), |xs| as real, lo, hi);
  }

  lemma BlendWithin(k: real, v: real, e: real, lo: real, hi: real)
    requires 0.0 <= k <= 1.0 && lo <= v <= hi && lo <= e <= hi
    ensures lo <= Blend(k, v, e) <= hi
  {
    assert k * (v - lo) >= 0.0 && (1.0 - k) * (e - lo) >= 0.0;
    assert k * (hi - v) >= 0.0 && (1.0 - k) * (hi - e) >= 0.0;
    assert Blend(k, v, e) - lo == k * (v - lo) + (1.0 - k) * (e - lo);
    assert hi - Blend(k, v, e) == k * (hi - v) + (1.0 - k) * (hi - e);
  }

  lemma {:induction false} SmoothWithin(e: real, vs: seq<real>, k: real, lo: real, hi: real)
    requires 0.0 <= k <= 1.0 && lo <= e <= hi && Within(vs, lo, hi)
    ensures lo <= Smooth(e, vs, k) <= hi
  {
    hide Blend;
    if |vs| > 0 {
      SmoothWithin(e, vs[..|vs| - 1], k, lo, hi);
      BlendWithin(k, vs[|vs| - 1], Smooth(e, vs[..|vs| - 1], k), lo, hi);
    }
  }

  lemma SmoothingIsWeight(n: int)
    requires n > 0
    ensures 0.0 < SmoothingOf(n) <= 1.0
  {
    DivideBetween(2.0, n as real + 1.0, 0.0, 1.0);
  }

  /** Simple and exponential averages stay within any bounds of the values they average. */
  lemma AveragesStayWithin(values: seq<real>, n: int, lo: real, hi: real)
    requires Within(values, lo, hi)
    ensures Sma(values, n).Some? ==> lo <= Sma(values, n).value <= hi
    ensures Ema(values, n).Some? ==> lo <= Ema(values, n).value <= hi
  {
    hide Mean, SmoothingOf;
    if 0 < n <= |values| {
      MeanWithin(Tail(values, n), lo, hi);
      MeanWithin(values[..n], lo, hi);
      SmoothingIsWeight(n);
      SmoothWithin(Mean(values[..n]), values[n..], SmoothingOf(n), lo, hi);
    }
  }

  /** The bands enclose the mean, and percent says where the last value lies between them. */
  lemma BandsOrdered(root: real -> real, window: seq<real>, mult: real, last: real)
    requires |window| > 0 && mult >= 0.0
    requires forall x :: x >= 0.0 ==> root(x) >= 0.0
    ensures var b := Bands(root, window, mult, last).fields;
            && b["lower"] <= b["middle"] <= b["upper"] && b["middle"] == Mean(window)
            && (b["lower"] != b["upper"] ==> last == b["lower"] + b["percent"] * (b["upper"] - b["lower"]))
  {
    SquaresNonnegative(window, Mean(window));
    QuotientNonnegative(Squares(window, Mean(window)), |window| as real);
    var sd := root(Squares(window, Mean(window)) / |window| as real);
    hide Mean;
    ProductNonnegative(mult, sd);
    Fraction(last - (Mean(window) - mult * sd), (Mean(window) + mult * sd) - (Mean(window) - mult * sd));
  }

  lemma ProductNonnegative(a: real, b: real)
    requires a >= 0.0 && b >= 0.0
    ensures a * b >= 0.0
  {
  }

  lemma Fraction(n: real, d: real)
    ensures d != 0.0 ==> n / d * d == n
  {
  }

  lemma {:induction false} SquaresNonnegative(xs: seq<real>, mid: real)
    ensures Squares(xs, mid) >= 0.0
  {
    if |xs| > 0 {
      SquaresNonnegative(xs[..|xs| - 1], mid);
      SquareNonnegative(xs[|xs| - 1] - mid);
    }
  }

  lemma SquareNonnegative(x: real)
    ensures x * x >= 0.0
  {
  }

  // ---------------------------------------------------------------- the bar-aware layer

  const SOURCES: set<string> := {"close", "open", "high", "low", "hlc3", "volume"}

  function SourceOf(bar: Bar, source: string): real {
    if source == "hlc3" then Typical(bar)
    else if source == "open" then bar.open
    else if source == "high" then bar.high
    else if source == "low" then bar.low
    else if source == "volume" then bar.volume
    else bar.close
  }

  function SeriesFrom(bars: seq<Bar>, source: string): (r: seq<real>)
    ensures |r| == |bars|
  {
    seq(|bars|, i requires 0 <= i < |bars| => SourceOf(bars[i], source))
  }

  function Boxed(r: Result<Option<real>>): Result<Option<Reading>> {
    match r
    case Raises => Raises
    case Ok(None) => Ok(None)
    case Ok(Some(x)) => Ok(Some(Scalar(x)))
  }

  /** Raises for an unknown source or function, and for a missing required period. */
  function Compute(root: real -> real, ind: Indicator, bars: seq<Bar>): Result<Option<Reading>> {
    var fn := ind.fn;
    if fn == "atr" then Boxed(Ok(Atr(bars, ind.period.GetOr(14))))
    else if fn == "vwap" then Boxed(Ok(Vwap(bars, ind.period.GetOr(20))))
    else if ind.source !in SOURCES && |bars| > 0 then Raises
    else OverSeries(root, ind, SeriesFrom(bars, ind.source))
  }

  function OverSeries(root: real -> real, ind: Indicator, xs: seq<real>): Result<Option<Reading>> {
    var fn := ind.fn;
    if fn == "sma" then if ind.period.Some? then Boxed(Ok(Sma(xs, ind.period.value))) else Raises
    else if fn == "ema" then if ind.period.Some? then Boxed(Ok(Ema(xs, ind.period.value))) else Raises
    else if fn == "rsi" then Boxed(Rsi(xs, ind.period.GetOr(14)))
    else if fn == "roc" then if ind.period.Some? then Boxed(Roc(xs, ind.period.value)) else Raises
    else if fn == "macd" then Macd(xs, ind.fast.GetOr(12), ind.slow.GetOr(26), ind.signal.GetOr(9))
    else if fn == "bollinger" then Ok(Bollinger(root, xs, ind.period.GetOr(20), ind.mult.GetOr(2.0)))
    else if fn == "bbpercent" then Boxed(Ok(BbPercent(root, xs, ind.period.GetOr(20), ind.mult.GetOr(2.0))))
    else Raises
  }

  /** A dict reading needs a field; a missing one reads as undefined. */
  function ScalarValue(reading: Option<Reading>, field: Option<string>): Option<real> {
    match reading
    case None => None
    case Some(Scalar(x)) => Some(x)
    case Some(Fields(m)) => if field.Some? && field.value in m then Some(m[field.value]) else None
  }

  // ---------------------------------------------------------------- bounded memory

  predicate UnboundedMemory(fn: string) {
    fn == "ema" || fn == "macd"
  }

  predicate PositivePeriod(ind: Indicator) {
    ind.period.Some? ==> ind.period.value > 0
  }

  /** How many of the newest bars an indicator of bounded memory looks at. */
  function Need(ind: Indicator): (n: nat)
    requires PositivePeriod(ind)
    ensures n > 0
  {
    if ind.fn == "rsi" || ind.fn == "atr" then ind.period.GetOr(14) + 1
    else if ind.fn == "roc" then ind.period.GetOr(1) + 1
    else if ind.fn == "sma" then ind.period.GetOr(1)
    else ind.period.GetOr(20)
  }

  lemma TailOfSuffix<T>(pre: seq<T>, suf: seq<T>, n: nat)
    requires n <= |suf|
    ensures Tail(pre + suf, n) == Tail(suf, n)
  {
  }

  lemma SeriesAppend(pre: seq<Bar>, suf: seq<Bar>, source: string)
    ensures SeriesFrom(pre + suf, source) == SeriesFrom(pre, source) + SeriesFrom(suf, source)
  {
  }

  lemma RangesOfSuffix(pre: seq<Bar>, suf: seq<Bar>, n: nat)
    requires n < |suf|
    ensures |TrueRanges(suf)| >= n && |TrueRanges(pre + suf)| >= n
    ensures Tail(TrueRanges(pre + suf), n) == Tail(TrueRanges(suf), n)
  {
    RangesAt(suf);
    RangesAt(pre + suf);
    var all, part := TrueRanges(pre + suf), TrueRanges(suf);
    forall i | 0 <= i < n ensures Tail(all, n)[i] == Tail(part, n)[i] {
      assert all[|all| - n + i] == TrueRange((pre + suf)[|pre + suf| - n + i], (pre + suf)[|pre + suf| - n + i - 1]);
    }
  }

  lemma RocOfSuffix(pre: seq<real>, suf: seq<real>, n: int)
    requires 0 < n < |suf|
    ensures Roc(pre + suf, n) == Roc(suf, n)
  {
  }

  lemma BandsOfSuffix(root: real -> real, pre: seq<real>, suf: seq<real>, n: int, mult: real)
    requires 0 < n <= |suf|
    ensures Bollinger(root, pre + suf, n, mult) == Bollinger(root, suf, n, mult)
  {
    TailOfSuffix(pre, suf, n);
    hide Bands;
    assert (pre + suf)[|pre + suf| - 1] == suf[|suf| - 1];
  }

  /** Bounded memory: every indicator but ema and macd reads the same on the whole history as on
      any suffix that holds the bars it needs. */
  lemma BoundedMemory(root: real -> real, ind: Indicator, pre: seq<Bar>, suf: seq<Bar>)
    requires !UnboundedMemory(ind.fn) && PositivePeriod(ind) && |suf| >= Need(ind)
    ensures Compute(root, ind, pre + suf) == Compute(root, ind, suf)
  {
    hide Mean, RsiOf, Bollinger, Roc;
    var xs, ys := SeriesFrom(pre, ind.source), SeriesFrom(suf, ind.source);
    SeriesAppend(pre, suf, ind.source);
    var fn := ind.fn;
    if fn == "atr" {
      RangesOfSuffix(pre, suf, ind.period.GetOr(14));
    } else if fn == "vwap" {
      TailOfSuffix(pre, suf, ind.period.GetOr(20));
    } else if fn == "sma" {
      if ind.period.Some? {
        TailOfSuffix(xs, ys, ind.period.value);
      }
    } else if fn == "rsi" {
      TailOfSuffix(xs, ys, ind.period.GetOr(14) + 1);
    } else if fn == "roc" {
      if ind.period.Some? {
        RocOfSuffix(xs, ys, ind.period.value);
      }
    } else if fn == "bollinger" || fn == "bbpercent" {
      BandsOfSuffix(root, xs, ys, ind.period.GetOr(20), ind.mult.GetOr(2.0));
    }
  }

  /** The exponential average remembers everything: dropping the oldest value changes it. */
  lemma EmaRemembers()
    ensures Ema([9.0, 1.0, 1.0], 2) == Some(7.0 / 3.0) && Ema([1.0, 1.0], 2) == Some(1.0)
  {
    SumOfTwo(9.0, 1.0);
    SumOfTwo(1.0, 1.0);
    hide Blend;
    assert Blend(2.0 / 3.0, 1.0, 5.0) == 7.0 / 3.0 by {
      BlendIs(2.0 / 3.0, 1.0, 5.0);
    }
    assert [9.0, 1.0, 1.0][..2] == [9.0, 1.0] && [9.0, 1.0, 1.0][2..] == [1.0] && [1.0][..0] == [];
    assert [1.0, 1.0][..2] == [1.0, 1.0] && [1.0, 1.0][2..] == [];
    assert Smooth(5.0, [1.0], 2.0 / 3.0) == Blend(2.0 / 3.0, 1.0, Smooth(5.0, [], 2.0 / 3.0));
  }

  lemma BlendIs(k: real, v: real, e: real)
    ensures Blend(k, v, e) == v * k + e * (1.0 - k)
  {
  }

  lemma SumOfTwo(x: real, y: real)
    ensures Sum([x, y]) == x + y
  {
    assert Sum([x]) == x;
    assert [x, y][..|[x, y]| - 1] == [x];
  }
}
