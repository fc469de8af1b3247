/** A composed strategy's backtest: its signals at every base bar, replayed through the book. */
module StrategyInterface {
  import opened Prelude
  import opened Matching
  import opened Indicators
  import opened StrategySpec
  import opened Signals
  import opened Composed
  import opened ComposedProofs
  import opened EdgeTriggers
  import opened Backtest

  /** Closes in money units. */
  function PricesOf(bars: seq<Bar>): (r: seq<real>)
    ensures |r| == |bars|
  {
    seq(|bars|, i requires 0 <= i < |bars| => bars[i].close * USD)
  }

  /** The action taken on each base bar: none during the warmup. */
  function ActionsOf(root: real -> real, spec: Spec, series: Loaded): (r: seq<Option<Action>>)
    ensures |r| == |BaseOf(spec, series)|
  {
    seq(|BaseOf(spec, series)|, i requires 0 <= i < |BaseOf(spec, series)| =>
      if i + 1 < WARMUP then None else Some(ActionAt(root, spec, series, i)))
  }

  function EquityCurve(root: real -> real, spec: Spec, series: Loaded, c: Config): (r: seq<real>)
    ensures |r| == |BaseOf(spec, series)|
  {
    Curve(c, PricesOf(BaseOf(spec, series)), ActionsOf(root, spec, series))
  }

  /** Evaluating step `i` after the warmup raises. */
  predicate RaisesAt(root: real -> real, spec: Spec, series: Loaded, i: nat)
    requires i < |BaseOf(spec, series)|
  {
    i + 1 >= WARMUP && Evaluate(root, spec, StepSeries(spec, series, i)).Raises?
  }

  /** The action of one bar: none during the warmup, then the signal on the base bars up to it and
      the other series whole. */
  method ActionOn(root: real -> real, spec: Spec, series: Loaded, base: seq<Bar>, i: nat)
    returns (r: Result<Option<Action>>)
    requires base == BaseOf(spec, series) && i < |base|
    ensures r.Raises? <==> RaisesAt(root, spec, series, i)
    ensures r.Ok? ==> r.value == ActionsOf(root, spec, series)[i]
  {
    hide Evaluate;
    if i + 1 < WARMUP {
      return Ok(None);
    }
    var window := series[BaseTimeframe(spec) := base[..i + 1]];
    var signal := EvaluateComposed(root, spec, window);
    return if signal.Raises? then Raises else Ok(Some(signal.value.action));
  }

  /** The backtest steps through the base bars, evaluating at each, and replays the actions; it
      raises exactly when some evaluation does, or where the replay does. */
  method BacktestStrategy(root: real -> real, spec: Spec, series: Loaded, c: Config) returns (m: Option<Metrics>)
    ensures m ==
              if exists i :: 0 <= i < |BaseOf(spec, series)| && RaisesAt(root, spec, series, i) then None
              else MetricsOf(c, PricesOf(BaseOf(spec, series)), ActionsOf(root, spec, series))
  {
    hide RaisesAt;
    var base := BarsOf(series, BaseTimeframe(spec));
    var actions: seq<Option<Action>> := [];
    for i := 0 to |base|
      invariant actions == ActionsOf(root, spec, series)[..i]
      invariant forall j :: 0 <= j < i ==> !RaisesAt(root, spec, series, j)
    {
      var action := ActionOn(root, spec, series, base, i);
      if action.Raises? {
        return None;
      }
      actions := actions + [action.value];
    }
    assert ActionsOf(root, spec, series)[..|base|] == ActionsOf(root, spec, series);
    m := Replay(c, PricesOf(base), actions);
  }

  /** An accepted spec never raises on the way. */
  lemma AcceptedNeverRaises(root: real -> real, spec: Spec, series: Loaded, i: nat)
    requires ValidSpec(spec) && i < |BaseOf(spec, series)|
    ensures !RaisesAt(root, spec, series, i)
  {
    AcceptedEvaluates(root, spec, StepSeries(spec, series, i));
  }

  /** No lookahead in the track record: bars that close after base bar `i`, in any timeframe, change
      neither the actions up to step `i` nor the equity curve up to it. */
  lemma CurveHasNoLookahead(root: real -> real, spec: Spec, a: Loaded, b: Loaded, c: Config, i: nat)
    requires Ascending(BaseOf(spec, a)) && Ascending(BaseOf(spec, b))
    requires i < |BaseOf(spec, a)| && SameClosed(a, b, InstantOf(spec, a, i))
    ensures i < |BaseOf(spec, b)|
    ensures ActionsOf(root, spec, a)[..i + 1] == ActionsOf(root, spec, b)[..i + 1]
    ensures EquityCurve(root, spec, a, c)[..i + 1] == EquityCurve(root, spec, b, c)[..i + 1]
  {
    hide SameClosed, Evaluate, Ascending;
    SameBasePrefix(spec, a, b, i);
    var n := i + 1;
    var pa, pb := PricesOf(BaseOf(spec, a)), PricesOf(BaseOf(spec, b));
    var xa, xb := ActionsOf(root, spec, a), ActionsOf(root, spec, b);
    forall j | 0 <= j < n ensures xa[j] == xb[j] {
      NoLookahead(root, spec, a, b, i, j);
    }
    forall j | 0 <= j < n ensures pa[j] == pb[j] {
      assert BaseOf(spec, a)[..n][j] == BaseOf(spec, b)[..n][j];
    }
    assert xa[..n] == xb[..n] && pa[..n] == pb[..n];
    CurvePrefix(c, pa, xa, n);
    CurvePrefix(c, pb, xb, n);
  }

  /** In a replayed strategy a long is opened by a rising edge of buy_when and nothing else; nothing is done
      before the 35th bar. */
  lemma LongsComeFromEdges(root: real -> real, spec: Spec, series: Loaded, i: nat)
    requires ValidSpec(spec) && Ascending(BaseOf(spec, series)) && i < |BaseOf(spec, series)|
    ensures ActionsOf(root, spec, series)[i] == Some(Action.Buy) <==>
              i + 1 >= 35 && Rises(root, spec, series, spec.buyWhen, i)
    ensures ActionsOf(root, spec, series)[i].None? <==> i + 1 < 35
  {
    hide Rises, ActionAt;
    if i + 1 >= WARMUP {
      ActionsAreEdges(root, spec, series, i);
    }
  }

  /** The book of the replay after base bar `i`. */
  ghost function BookAfter(root: real -> real, spec: Spec, series: Loaded, c: Config, i: nat): BookState
    requires i < |BaseOf(spec, series)|
  {
    Backtest.Run(c, PricesOf(BaseOf(spec, series))[..i + 1], ActionsOf(root, spec, series)[..i + 1])
  }

  ghost function BookBefore(root: real -> real, spec: Spec, series: Loaded, c: Config, i: nat): BookState
    requires i < |BaseOf(spec, series)|
  {
    Backtest.Run(c, PricesOf(BaseOf(spec, series))[..i], ActionsOf(root, spec, series)[..i])
  }

  lemma BookStep(root: real -> real, spec: Spec, series: Loaded, c: Config, i: nat)
    requires i < |BaseOf(spec, series)|
    ensures BookAfter(root, spec, series, c, i) ==
              OnBar(c, BookBefore(root, spec, series, c, i), PricesOf(BaseOf(spec, series))[i],
                    ActionsOf(root, spec, series)[i])
  {
    hide OnBar, ActionsOf, PricesOf, BaseOf;
    var prices, actions := PricesOf(BaseOf(spec, series)), ActionsOf(root, spec, series);
    assert prices[..i + 1][..i] == prices[..i] && actions[..i + 1][..i] == actions[..i];
  }

  /** What the rules do to the book: after the warmup an unmasked rising edge of exit_when leaves no
      long, one of cover_when no short, whatever was held; and one of buy_when (short_when) on a book
      that the bar's exit levels leave flat opens a long (a short) when something can be opened. */
  lemma EdgesMoveTheBook(root: real -> real, spec: Spec, series: Loaded, c: Config, i: nat)
    requires ValidSpec(spec) && Ascending(BaseOf(spec, series))
    requires 35 <= i + 1 <= |BaseOf(spec, series)| && BaseOf(spec, series)[i].close > 0.0
    ensures var price := PricesOf(BaseOf(spec, series))[i];
            var settled := SettleExit(c, BookBefore(root, spec, series, c, i), price);
            var after := BookAfter(root, spec, series, c, i);
            var buy := Rises(root, spec, series, spec.buyWhen, i);
            var exit := Rises(root, spec, series, spec.exitWhen, i) && !buy;
            var cover := Rises(root, spec, series, spec.coverWhen, i) && !exit && !buy;
            var short := Rises(root, spec, series, spec.shortWhen, i) && !cover && !exit && !buy;
            && (exit ==> after.pos.qty <= 0)
            && (cover ==> after.pos.qty >= 0)
            && (buy && settled.pos.qty == 0 && CanOpen(c, settled, Portfolio.Side.Buy, price) ==> after.pos.qty > 0)
            && (short && settled.pos.qty == 0 && CanOpen(c, settled, Portfolio.Side.Sell, price) ==> after.pos.qty < 0)
            && (!buy && !exit && !cover && !short ==> after == settled)
  {
    ActionsAreEdges(root, spec, series, i);
    BookStep(root, spec, series, c, i);
    var price, action := PricesOf(BaseOf(spec, series))[i], ActionAt(root, spec, series, i);
    assert price > 0.0 && ActionsOf(root, spec, series)[i] == Some(action);
    hide PricesOf, ActionsOf, ActionAt, Rises, ValidSpec, SettleExit, OnBar, CanOpen, BookAfter, BookBefore, BaseOf;
    BarActs(c, BookBefore(root, spec, series, c, i), price, action);
  }

  // ---------------------------------------------------------------- truncated history

  predicate IsSuffix(kept: seq<Bar>, full: seq<Bar>) {
    |kept| <= |full| && full[|full| - |kept|..] == kept
  }

  /** Every series of `kept` is the newest part of the one in `full`. */
  ghost predicate Truncates(kept: Loaded, full: Loaded) {
    forall tf :: IsSuffix(BarsOf(kept, tf), BarsOf(full, tf))
  }

  /** The earliest of the three evaluation instants. */
  function EarliestCutoff(base: seq<Bar>, tf: string): int
    requires |base| > 0
  {
    CloseTime(base[if |base| > 3 then |base| - 3 else 0], tf)
  }

  /** The base keeps its three newest bars, and each series keeps, closed by the earliest instant,
      as many bars as its indicators look at. */
  ghost predicate KeepsEnough(spec: Spec, kept: Loaded, full: Loaded)
    requires ValidIndicators(spec.indicators)
  {
    var base := BaseOf(spec, kept);
    && (|base| >= 3 || base == BaseOf(spec, full))
    && (|base| > 0 ==>
          forall i :: 0 <= i < |spec.indicators| ==>
            Holding(spec, spec.indicators[i], kept, EarliestCutoff(base, BaseTimeframe(spec))))
  }

  predicate Holding(spec: Spec, ind: Indicator, kept: Loaded, instant: int)
    requires PositivePeriod(ind)
  {
    var tf := TimeframeOf(spec, ind);
    |AsOf(BarsOf(kept, tf), tf, instant)| >= Need(ind)
  }

  lemma {:induction false} AsOfShorter(bars: seq<Bar>, tf: string, cutoff: int)
    ensures |AsOf(bars, tf, cutoff)| <= |bars|
    decreases |bars|
  {
    if |bars| > 0 {
      AsOfShorter(bars[..|bars| - 1], tf, cutoff);
    }
  }

  lemma ReadTruncated(root: real -> real, spec: Spec, ind: Indicator, kept: Loaded, full: Loaded, earliest: int,
                      cutoff: int)
    requires PositivePeriod(ind) && !UnboundedMemory(ind.fn) && earliest <= cutoff
    requires Truncates(kept, full) && Holding(spec, ind, kept, earliest)
    ensures ReadAt(root, spec, ind, kept, Some(cutoff)) == ReadAt(root, spec, ind, full, Some(cutoff))
  {
    hide Compute, Need;
    var tf := TimeframeOf(spec, ind);
    var k, f := BarsOf(kept, tf), BarsOf(full, tf);
    assert IsSuffix(k, f);
    var pre := f[..|f| - |k|];
    assert f == pre + k;
    AsOfConcat(pre, k, tf, cutoff);
    AsOfEarlier(k, tf, earliest, cutoff);
    AsOfShorter(AsOf(k, tf, cutoff), tf, earliest);
    BoundedMemory(root, ind, AsOf(pre, tf, cutoff), AsOf(k, tf, cutoff));
  }

  lemma SameCutoffs(kept: seq<Bar>, full: seq<Bar>, tf: string)
    requires IsSuffix(kept, full) && (|kept| >= 3 || kept == full) && Ascending(full)
    ensures forall k: nat :: k < 3 ==> Cutoff(kept, tf, k) == Cutoff(full, tf, k)
    ensures |kept| > 0 ==>
              forall k: nat :: k < 3 && Cutoff(kept, tf, k).Some? ==>
                EarliestCutoff(kept, tf) <= Cutoff(kept, tf, k).value
  {
    hide Span;
    forall k: nat | k < 3 ensures Cutoff(kept, tf, k) == Cutoff(full, tf, k) {
      if |kept| >= k + 1 {
        assert kept[|kept| - 1 - k] == full[|full| - |kept|..][|kept| - 1 - k];
      }
    }
    forall k: nat | |kept| > 0 && k < 3 && Cutoff(kept, tf, k).Some?
      ensures EarliestCutoff(kept, tf) <= Cutoff(kept, tf, k).value
    {
      var e := if |kept| > 3 then |kept| - 3 else 0;
      assert kept[e] == full[|full| - |kept| + e] && kept[|kept| - 1 - k] == full[|full| - 1 - k];
    }
  }

  lemma {:induction false} RawTruncated(root: real -> real, spec: Spec, kept: Loaded, full: Loaded, n: nat)
    requires ValidIndicators(spec.indicators) && n <= |spec.indicators|
    requires forall i :: 0 <= i < |spec.indicators| ==> !UnboundedMemory(spec.indicators[i].fn)
    requires Truncates(kept, full) && KeepsEnough(spec, kept, full) && Ascending(BaseOf(spec, full))
    requires |BaseOf(spec, kept)| > 0
    ensures RawOf(root, spec, kept, BaseOf(spec, kept), n) == RawOf(root, spec, full, BaseOf(spec, full), n)
  {
    hide ReadAt, Recorded, Shadowed, Cutoff, KeepsEnough, Truncates, ValidIndicators, Ascending, BaseOf;
    if n > 0 {
      RawTruncated(root, spec, kept, full, n - 1);
      LagTruncated(root, spec, kept, full, n - 1, 0);
      LagTruncated(root, spec, kept, full, n - 1, 1);
      LagTruncated(root, spec, kept, full, n - 1, 2);
      OneMoreSame(root, spec, kept, BaseOf(spec, kept), full, BaseOf(spec, full), n);
    }
  }

  lemma LagTruncated(root: real -> real, spec: Spec, kept: Loaded, full: Loaded, i: nat, k: nat)
    requires ValidIndicators(spec.indicators) && i < |spec.indicators| && k < 3
    requires !UnboundedMemory(spec.indicators[i].fn)
    requires Truncates(kept, full) && KeepsEnough(spec, kept, full) && Ascending(BaseOf(spec, full))
    requires |BaseOf(spec, kept)| > 0
    ensures ReadAt(root, spec, spec.indicators[i], kept, Cutoff(BaseOf(spec, kept), BaseTimeframe(spec), k))
              == ReadAt(root, spec, spec.indicators[i], full, Cutoff(BaseOf(spec, full), BaseTimeframe(spec), k))
  {
    var tf := BaseTimeframe(spec);
    assert IsSuffix(BarsOf(kept, tf), BarsOf(full, tf));
    SameCutoffs(BaseOf(spec, kept), BaseOf(spec, full), tf);
    var cutoff := Cutoff(BaseOf(spec, kept), tf, k);
    if cutoff.Some? {
      ReadTruncated(root, spec, spec.indicators[i], kept, full, EarliestCutoff(BaseOf(spec, kept), tf), cutoff.value);
    }
  }

  /** Bounded memory of whole strategies: a spec without ema or macd evaluates the same on truncated
      and on full history, as long as every series keeps enough closed bars. */
  lemma TruncatedHistory(root: real -> real, spec: Spec, kept: Loaded, full: Loaded)
    requires ValidSpec(spec)
    requires forall i :: 0 <= i < |spec.indicators| ==> !UnboundedMemory(spec.indicators[i].fn)
    requires Truncates(kept, full) && KeepsEnough(spec, kept, full) && Ascending(BaseOf(spec, full))
    ensures Evaluate(root, spec, kept) == Evaluate(root, spec, full)
  {
    hide FirstFired, RawOf, Holding;
    assert IsSuffix(BaseOf(spec, kept), BaseOf(spec, full)) by {
      assert IsSuffix(BarsOf(kept, BaseTimeframe(spec)), BarsOf(full, BaseTimeframe(spec)));
    }
    if |BaseOf(spec, kept)| > 0 {
      RawTruncated(root, spec, kept, full, |spec.indicators|);
    }
  }
}
