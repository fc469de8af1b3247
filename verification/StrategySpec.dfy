/** The composed-strategy grammar: specs as they arrive, and the fail-closed validator. */
module StrategySpec {
  import opened Prelude
  import opened Indicators

  /** A condition as a JSON object: each known key may be missing, `extra` are the other keys. */
  datatype Cond = Cond(
    indicator: Option<string>, field: Option<string>, op: Option<string>, cross: Option<string>,
    value: Option<real>, other: Option<string>, otherField: Option<string>, extra: set<string>)

  /** A rule node: a state name, a JSON object with any group keys next to condition keys, or some
      other JSON value. */
  datatype Node = StateName(name: string) | Object(groups: seq<Group>, cond: Cond) | OtherValue

  datatype Group = All(items: seq<Node>) | Any(items: seq<Node>) | Not(item: Node)

  datatype StrengthMap = StrengthMap(from: Option<string>, field: Option<string>, ends: seq<real>)

  datatype Spec = Spec(
    archetype: Option<string>, baseTf: Option<string>, indicators: seq<Indicator>, states: map<string, Cond>,
    buyWhen: Option<Node>, exitWhen: Option<Node>, shortWhen: Option<Node>, coverWhen: Option<Node>,
    strength: map<string, StrengthMap>)

  const NO_KEYS := Cond(None, None, None, None, None, None, None, {})

  const KNOWN_FNS: set<string> :=
    {"sma", "ema", "rsi", "roc", "macd", "bollinger", "bbpercent", "atr", "vwap"}
  const ALLOWED_TIMEFRAMES: set<string> := {"1m", "5m", "1h", "1d"}
  const OPS: set<string> := {"<", "<=", ">", ">=", "==", "!="}
  const CROSSES: set<string> := {"above", "below"}
  const ARCHETYPES: set<string> :=
    {"trend", "mean_reversion", "momentum", "breakout", "trend_pullback", "custom"}
  const SIDES: set<string> := {"buy", "exit", "short", "cover"}

  /** The fields of a dict-valued indicator; none for a scalar one. */
  function DictFields(fn: string): set<string> {
    if fn == "macd" then {"line", "signal", "hist"}
    else if fn == "bollinger" then {"upper", "middle", "lower", "percent"}
    else {}
  }

  // ---------------------------------------------------------------- timeframes

  function TfSeconds(tf: string): (s: int)
    ensures s > 0
  {
    if tf == "5m" then 300 else if tf == "1h" then 3600 else if tf == "1d" then 86400 else 60
  }

  /** Python truth of an optional string. */
  predicate IsGiven(s: Option<string>) {
    s.Some? && s.value != ""
  }

  function IndicatorTimeframes(inds: seq<Indicator>): seq<string> {
    if |inds| == 0 then []
    else
      var n := |inds| - 1;
      IndicatorTimeframes(inds[..n]) + if IsGiven(inds[n].timeframe) then [inds[n].timeframe.value] else []
  }

  /** The first of the timeframes with the fewest seconds. */
  function Fastest(tfs: seq<string>): (r: string)
    requires |tfs| > 0
    ensures r in tfs && forall tf :: tf in tfs ==> TfSeconds(r) <= TfSeconds(tf)
  {
    if |tfs| == 1 then tfs[0]
    else
      var n := |tfs| - 1;
      var r := Fastest(tfs[..n]);
      assert tfs == tfs[..n] + [tfs[n]];
      if TfSeconds(tfs[n]) < TfSeconds(r) then tfs[n] else r
  }

  function BaseTimeframe(spec: Spec): string {
    var tfs := IndicatorTimeframes(spec.indicators);
    if IsGiven(spec.baseTf) then spec.baseTf.value else if |tfs| > 0 then Fastest(tfs) else "1m"
  }

  /** The timeframe an indicator is computed on. */
  function TimeframeOf(spec: Spec, ind: Indicator): string {
    if IsGiven(ind.timeframe) then ind.timeframe.value else BaseTimeframe(spec)
  }

  function RequiredTimeframes(spec: Spec): set<string> {
    (set tf | tf in IndicatorTimeframes(spec.indicators)) + {BaseTimeframe(spec)}
  }

  lemma {:induction false} TimeframesOfPrefix(inds: seq<Indicator>, ind: Indicator)
    requires ind in inds && IsGiven(ind.timeframe)
    ensures ind.timeframe.value in IndicatorTimeframes(inds)
  {
    var n := |inds| - 1;
    if ind in inds[..n] {
      TimeframesOfPrefix(inds[..n], ind);
    } else {
      assert inds == inds[..n] + [inds[n]];
    }
  }

  /** Every series an indicator is computed on is among those the spec asks to be loaded, and
      without an explicit base no indicator is faster than the evaluation cadence. */
  lemma RequiredIsEnough(spec: Spec, ind: Indicator)
    requires ind in spec.indicators
    ensures TimeframeOf(spec, ind) in RequiredTimeframes(spec)
    ensures !IsGiven(spec.baseTf) ==> TfSeconds(BaseTimeframe(spec)) <= TfSeconds(TimeframeOf(spec, ind))
  {
    if IsGiven(ind.timeframe) {
      TimeframesOfPrefix(spec.indicators, ind);
    }
  }

  // ---------------------------------------------------------------- the validator

  predicate PositiveIfSet(p: Option<int>) {
    p.Some? ==> p.value > 0
  }

  predicate ValidIndicator(ind: Indicator) {
    && ind.fn in KNOWN_FNS && ind.source in SOURCES
    && (ind.timeframe.Some? ==> ind.timeframe.value in ALLOWED_TIMEFRAMES)
    && PositiveIfSet(ind.period) && PositiveIfSet(ind.fast) && PositiveIfSet(ind.slow) && PositiveIfSet(ind.signal)
    && (ind.fn == "macd" && ind.fast.Some? && ind.slow.Some? ==> ind.fast.value < ind.slow.value)
    && (ind.fn in {"sma", "ema", "roc"} ==> ind.period.Some?)
  }

  predicate Known(inds: seq<Indicator>, id: string) {
    exists i :: 0 <= i < |inds| && inds[i].id == id
  }

  /** The index of the indicator an id names: the last one that carries it. */
  function IndexOf(inds: seq<Indicator>, id: string): (i: nat)
    requires Known(inds, id)
    ensures i < |inds| && inds[i].id == id && forall j :: i < j < |inds| ==> inds[j].id != id
  {
    var n := |inds| - 1;
    if inds[n].id == id then n
    else
      assert Known(inds[..n], id) by {
        var i :| 0 <= i < |inds| && inds[i].id == id;
        assert inds[..n][i].id == id;
      }
      IndexOf(inds[..n], id)
  }

  function FnOf(inds: seq<Indicator>, id: string): string
    requires Known(inds, id)
  {
    inds[IndexOf(inds, id)].fn
  }

  predicate ValidCond(inds: seq<Indicator>, c: Cond) {
    && c.indicator.Some? && Known(inds, c.indicator.value)
    && ValidField(FnOf(inds, c.indicator.value), c.field)
    && c.op.Some? != c.cross.Some?
    && (c.op.Some? ==> c.op.value in OPS)
    && (c.cross.Some? ==> c.cross.value in CROSSES)
    && c.value.Some? != c.other.Some?
    && (c.other.Some? ==>
          && Known(inds, c.other.value)
          && (DictFields(FnOf(inds, c.other.value)) != {} ==>
                c.otherField.Some? && c.otherField.value in DictFields(FnOf(inds, c.other.value))))
    && c.extra == {}
  }

  /** A dict-valued indicator needs one of its fields, a scalar one takes none. */
  predicate ValidField(fn: string, field: Option<string>) {
    if DictFields(fn) != {} then field.Some? && field.value in DictFields(fn) else field.None?
  }

  predicate ValidNode(spec: Spec, node: Node)
    decreases node
  {
    match node
    case StateName(n) => n in spec.states
    case OtherValue => false
    case Object(groups, cond) =>
      if |groups| == 0 then ValidCond(spec.indicators, cond)
      else |groups| == 1 && cond == NO_KEYS && ValidGroup(spec, groups[0])
  }

  predicate ValidGroup(spec: Spec, g: Group)
    decreases g
  {
    match g
    case Not(x) => ValidNode(spec, x)
    case All(items) => |items| > 0 && forall i :: 0 <= i < |items| ==> ValidNode(spec, items[i])
    case Any(items) => |items| > 0 && forall i :: 0 <= i < |items| ==> ValidNode(spec, items[i])
  }

  /** A rule that is present and not an empty object. */
  predicate Truthy(group: Option<Node>) {
    group.Some? && group.value != Object([], NO_KEYS)
  }

  predicate ValidRule(spec: Spec, group: Option<Node>) {
    && (group.Some? ==> group.value.Object?)
    && (Truthy(group) ==> ValidNode(spec, group.value))
  }

  predicate ValidStrength(spec: Spec) {
    forall side :: side in spec.strength ==>
      && side in SIDES
      && spec.strength[side].from.Some? && Known(spec.indicators, spec.strength[side].from.value)
      && |spec.strength[side].ends| == 2
  }

  predicate ValidIndicators(inds: seq<Indicator>) {
    && |inds| > 0
    && (forall i :: 0 <= i < |inds| ==> ValidIndicator(inds[i]))
    && (forall i, j :: 0 <= i < j < |inds| ==> inds[i].id != inds[j].id)
  }

  predicate ValidStates(spec: Spec) {
    forall name :: name in spec.states ==> ValidCond(spec.indicators, spec.states[name])
  }

  /** validate_spec accepts exactly these. */
  predicate ValidSpec(spec: Spec) {
    && ValidIndicators(spec.indicators)
    && (spec.archetype.Some? ==> spec.archetype.value in ARCHETYPES)
    && (IsGiven(spec.baseTf) ==> spec.baseTf.value in ALLOWED_TIMEFRAMES)
    && ValidStates(spec)
    && (Truthy(spec.buyWhen) || Truthy(spec.exitWhen) || Truthy(spec.shortWhen) || Truthy(spec.coverWhen))
    && ValidRule(spec, spec.buyWhen) && ValidRule(spec, spec.exitWhen)
    && ValidRule(spec, spec.shortWhen) && ValidRule(spec, spec.coverWhen)
    && ValidStrength(spec)
  }

  // ---------------------------------------------------------------- what accepted indicators compute

  /** The reading has the shape its function promises. */
  predicate Shaped(fn: string, reading: Option<Reading>) {
    match reading
    case None => true
    case Some(Scalar(_)) => DictFields(fn) == {}
    case Some(Fields(m)) => DictFields(fn) != {} && m.Keys == DictFields(fn)
  }

  lemma MacdShape(values: seq<real>, fast: int, slow: int, signal: int)
    requires signal > 0
    ensures Macd(values, fast, slow, signal).Ok? && Shaped("macd", Macd(values, fast, slow, signal).value)
  {
    hide MacdLine, EmaSeries;
  }

  /** An accepted indicator computes without raising, and its reading is a dict with exactly the
      fields of its function, or a scalar. */
  lemma AcceptedComputes(root: real -> real, ind: Indicator, bars: seq<Bar>)
    requires ValidIndicator(ind)
    ensures Compute(root, ind, bars).Ok? && Shaped(ind.fn, Compute(root, ind, bars).value)
  {
    hide Shaped, Boxed, Macd, Bollinger, BbPercent, Sma, Ema, Rsi, Roc, Atr, Vwap, SeriesFrom, DictFields;
    var fn, xs := ind.fn, SeriesFrom(bars, ind.source);
    if fn == "macd" {
      MacdShape(xs, ind.fast.GetOr(12), ind.slow.GetOr(26), ind.signal.GetOr(9));
    } else if fn == "bollinger" {
      BollingerShape(root, xs, ind.period.GetOr(20), ind.mult.GetOr(2.0));
    } else if fn == "atr" {
      BoxedShape(fn, Ok(Atr(bars, ind.period.GetOr(14))));
    } else if fn == "vwap" {
      BoxedShape(fn, Ok(Vwap(bars, ind.period.GetOr(20))));
    } else if fn == "rsi" {
      RsiComputes(xs, ind.period.GetOr(14));
      BoxedShape(fn, Rsi(xs, ind.period.GetOr(14)));
    } else if fn == "bbpercent" {
      BoxedShape(fn, Ok(BbPercent(root, xs, ind.period.GetOr(20), ind.mult.GetOr(2.0))));
    } else if fn == "sma" {
      BoxedShape(fn, Ok(Sma(xs, ind.period.value)));
    } else if fn == "ema" {
      BoxedShape(fn, Ok(Ema(xs, ind.period.value)));
    } else {
      RocComputes(xs, ind.period.value);
      BoxedShape(fn, Roc(xs, ind.period.value));
    }
  }

  lemma BoxedShape(fn: string, r: Result<Option<real>>)
    requires fn != "macd" && fn != "bollinger" && r.Ok?
    ensures Boxed(r).Ok? && Shaped(fn, Boxed(r).value)
  {
  }

  lemma BollingerShape(root: real -> real, values: seq<real>, period: int, mult: real)
    ensures Shaped("bollinger", Bollinger(root, values, period, mult))
  {
  }

  lemma RsiComputes(xs: seq<real>, n: int)
    requires n > 0
    ensures Rsi(xs, n).Ok?
  {
  }

  lemma RocComputes(xs: seq<real>, n: int)
    requires n > 0
    ensures Roc(xs, n).Ok?
  {
  }

  const MACD_30 :=
    Indicator("m", "macd", "close", None, None, Some(30), None, None, None)

  /** The check of fast against slow compares only given values: fast = 30 with the default slow of
      26 is accepted, and then never reads anything. */
  lemma AcceptedButNeverReads(root: real -> real, bars: seq<Bar>)
    ensures ValidIndicator(MACD_30)
    ensures Compute(root, MACD_30, bars) == Ok(None)
  {
  }

  /** An accepted macd can read something on long enough series exactly when its fast period, with
      defaults filled in, is below its slow one. */
  lemma AcceptedMacdReads(root: real -> real, ind: Indicator, bars: seq<Bar>)
    requires ValidIndicator(ind) && ind.fn == "macd"
    ensures var fast, slow, signal := ind.fast.GetOr(12), ind.slow.GetOr(26), ind.signal.GetOr(9);
            Compute(root, ind, bars) != Ok(None) <==> fast < slow && |bars| >= slow + signal - 1
  {
    hide MacdLine, EmaSeries, Ema;
    var xs := SeriesFrom(bars, ind.source);
    if ind.fast.GetOr(12) < ind.slow.GetOr(26) {
      MacdDefined(xs, ind.fast.GetOr(12), ind.slow.GetOr(26), ind.signal.GetOr(9));
    }
  }
}
