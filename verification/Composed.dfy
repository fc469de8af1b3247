/**
 The multi-timeframe strategy evaluator: every indicator sees only the bars that had closed at the
 evaluation instant, and a rule group fires on its false-to-true transition at the base resolution.
 */
module Composed {
  import opened Prelude
  import opened Indicators
  import opened StrategySpec
  import opened Signals

  /** The series loaded for each timeframe. */
  type Loaded = map<string, seq<Bar>>

  /** Readings by indicator id and lag: 0 is now, 1 and 2 are one and two base bars ago. */
  type Raw = map<(string, int), Option<Reading>>

  datatype Signal = Signal(action: Action, strength: real, features: map<string, Option<Reading>>)

  const HOLD := Signal(Action.Hold, 0.0, map[])

  function BarsOf(series: Loaded, tf: string): seq<Bar> {
    if tf in series then series[tf] else []
  }

  // ---------------------------------------------------------------- as-of windows

  /** Length of a bar; times are in microseconds. */
  function Span(tf: string): (r: int)
    ensures r > 0
  {
    TfSeconds(tf) * 1_000_000
  }

  /** Bars are stamped at their open. */
  function CloseTime(bar: Bar, tf: string): int {
    bar.ts + Span(tf)
  }

  predicate ClosedBy(bar: Bar, tf: string, cutoff: int) {
    CloseTime(bar, tf) <= cutoff
  }

  /** The bars that had closed at the cutoff, in order. */
  function AsOf(bars: seq<Bar>, tf: string, cutoff: int): seq<Bar> {
    if |bars| == 0 then []
    else
      var n := |bars| - 1;
      AsOf(bars[..n], tf, cutoff) + if ClosedBy(bars[n], tf, cutoff) then [bars[n]] else []
  }

  /** The close of the k-th newest base bar. */
  function Cutoff(base: seq<Bar>, tf: string, k: nat): Option<int> {
    if |base| >= k + 1 then Some(CloseTime(base[|base| - 1 - k], tf)) else None
  }

  /** What an indicator reads at an instant. */
  function ReadAt(root: real -> real, spec: Spec, ind: Indicator, series: Loaded, cutoff: Option<int>)
    : Result<Option<Reading>>
  {
    var tf := TimeframeOf(spec, ind);
    if cutoff.None? then Ok(None)
    else
      var window := AsOf(BarsOf(series, tf), tf, cutoff.value);
      if |window| > 0 then Compute(root, ind, window) else Ok(None)
  }

  /** A later indicator of the same id replaces this one. */
  predicate Shadowed(inds: seq<Indicator>, i: nat)
    requires i < |inds|
  {
    exists j :: i < j < |inds| && inds[j].id == inds[i].id
  }

  function Recorded(raw: Raw, id: string, r0: Option<Reading>, r1: Option<Reading>, r2: Option<Reading>): Raw {
    raw[(id, 0) := r0][(id, 1) := r1][(id, 2) := r2]
  }

  /** The readings of the first `n` indicators at the three instants. */
  function RawOf(root: real -> real, spec: Spec, series: Loaded, base: seq<Bar>, n: nat): Result<Raw>
    requires n <= |spec.indicators|
  {
    if n == 0 then Ok(map[])
    else
      var before := RawOf(root, spec, series, base, n - 1);
      if before.Raises? || Shadowed(spec.indicators, n - 1) then before
      else
        var ind, tf := spec.indicators[n - 1], BaseTimeframe(spec);
        var r0 := ReadAt(root, spec, ind, series, Cutoff(base, tf, 0));
        var r1 := ReadAt(root, spec, ind, series, Cutoff(base, tf, 1));
        var r2 := ReadAt(root, spec, ind, series, Cutoff(base, tf, 2));
        if r0.Raises? || r1.Raises? || r2.Raises? then Raises
        else Ok(Recorded(before.value, ind.id, r0.value, r1.value, r2.value))
  }

  // ---------------------------------------------------------------- conditions and rules

  function Lookup(raw: Raw, id: string, k: int): Option<Reading> {
    if (id, k) in raw then raw[(id, k)] else None
  }

  /** Raises for a condition without a threshold. */
  function Threshold(raw: Raw, c: Cond, k: int): Result<Option<real>> {
    if c.other.Some? then Ok(ScalarValue(Lookup(raw, c.other.value, k), c.otherField))
    else if c.value.Some? then Ok(Some(c.value.value))
    else Raises
  }

  predicate Compare(op: string, a: real, b: real) {
    if op == "<" then a < b
    else if op == "<=" then a <= b
    else if op == ">" then a > b
    else if op == ">=" then a >= b
    else if op == "==" then a == b
    else a != b
  }

  predicate Crossed(cross: string, prev: real, xPrev: real, now: real, xNow: real) {
    if cross == "above" then prev <= xPrev && now > xNow else prev >= xPrev && now < xNow
  }

  /** Raises for a missing indicator, threshold or operator key; an undefined operand makes the
      condition false. */
  function CondTrue(raw: Raw, c: Cond, k: int): Result<bool> {
    if c.indicator.None? then Raises
    else
      var now := ScalarValue(Lookup(raw, c.indicator.value, k), c.field);
      if now.None? then Ok(false)
      else if c.cross.Some? then
        if k + 1 >= 3 then Ok(false)
        else
          var prev := ScalarValue(Lookup(raw, c.indicator.value, k + 1), c.field);
          var xNow, xPrev := Threshold(raw, c, k), Threshold(raw, c, k + 1);
          if xNow.Raises? || xPrev.Raises? then Raises
          else if prev.None? || xNow.value.None? || xPrev.value.None? then Ok(false)
          else Ok(Crossed(c.cross.value, prev.value, xPrev.value.value, now.value, xNow.value.value))
      else
        var x := Threshold(raw, c, k);
        if x.Raises? then Raises
        else if x.value.None? then Ok(false)
        else if c.op.Some? && c.op.value in OPS then Ok(Compare(c.op.value, now.value, x.value.value))
        else Raises
  }

  function Priority(g: Group): nat {
    if g.All? then 0 else if g.Any? then 1 else 2
  }

  /** Which group key is looked at first: all, then any, then not. */
  function FirstGroup(groups: seq<Group>): (i: nat)
    requires |groups| > 0
    ensures i < |groups| && forall j :: 0 <= j < |groups| ==> Priority(groups[i]) <= Priority(groups[j])
  {
    var n := |groups| - 1;
    if n == 0 then 0
    else
      var i := FirstGroup(groups[..n]);
      assert forall j :: 0 <= j < n ==> groups[..n][j] == groups[j];
      if Priority(groups[n]) < Priority(groups[i]) then n else i
  }

  function NodeTrue(states: map<string, Cond>, raw: Raw, node: Node, k: int): Result<bool>
    decreases node
  {
    match node
    case StateName(n) => if n in states then CondTrue(raw, states[n], k) else Raises
    case OtherValue => Raises
    case Object(groups, cond) =>
      if |groups| == 0 then CondTrue(raw, cond, k) else GroupTrue(states, raw, groups[FirstGroup(groups)], k)
  }

  function GroupTrue(states: map<string, Cond>, raw: Raw, g: Group, k: int): Result<bool>
    decreases g
  {
    match g
    case All(items) => Scan(states, raw, items, true, k)
    case Any(items) => Scan(states, raw, items, false, k)
    case Not(x) =>
      var r := NodeTrue(states, raw, x, k);
      if r.Raises? then Raises else Ok(!r.value)
  }

  /** Left to right while the items equal `want`; the first other value, or exception, decides. */
  function Scan(states: map<string, Cond>, raw: Raw, items: seq<Node>, want: bool, k: int): Result<bool>
    decreases items
  {
    if |items| == 0 then Ok(want)
    else
      var r := NodeTrue(states, raw, items[0], k);
      if r == Ok(want) then Scan(states, raw, items[1..], want, k) else r
  }

  function Fired(spec: Spec, raw: Raw, group: Option<Node>): Result<bool> {
    if !Truthy(group) then Ok(false)
    else
      var now := NodeTrue(spec.states, raw, group.value, 0);
      if now != Ok(true) then now
      else
        var prev := NodeTrue(spec.states, raw, group.value, 1);
        if prev.Raises? then Raises else Ok(!prev.value)
  }

  function StrengthOf(spec: Spec, side: string, raw: Raw): Result<real> {
    if side !in spec.strength || spec.strength[side] == StrengthMap(None, None, []) then Ok(0.6)
    else
      var sp := spec.strength[side];
      if sp.from.None? then Raises
      else
        var v := ScalarValue(Lookup(raw, sp.from.value, 0), sp.field);
        if v.None? then Ok(0.6)
        else if |sp.ends| < 2 then Raises
        else if sp.ends[0] == sp.ends[1] then Ok(0.6)
        else Ok(Max(0.0, Min(1.0, (v.value - sp.ends[0]) / (sp.ends[1] - sp.ends[0]))))
  }

  function Features(spec: Spec, raw: Raw): map<string, Option<Reading>> {
    map i | 0 <= i < |spec.indicators| :: spec.indicators[i].id := Lookup(raw, spec.indicators[i].id, 0)
  }

  datatype Rule = Rule(group: Option<Node>, action: Action, side: string)

  /** The rule groups in order of precedence. */
  function RulesOf(spec: Spec): (r: seq<Rule>)
    ensures |r| == 4
  {
    [Rule(spec.buyWhen, Action.Buy, "buy"), Rule(spec.exitWhen, Action.Exit, "exit"),
     Rule(spec.coverWhen, Action.Cover, "cover"), Rule(spec.shortWhen, Action.Short, "short")]
  }

  function Emit(spec: Spec, raw: Raw, rule: Rule): Result<Signal> {
    var s := StrengthOf(spec, rule.side, raw);
    if s.Raises? then Raises else Ok(Signal(rule.action, s.value, Features(spec, raw)))
  }

  /** The signal of the first rule that fired. */
  function FirstFired(spec: Spec, raw: Raw, rules: seq<Rule>): Result<Signal> {
    if |rules| == 0 then Ok(HOLD)
    else
      var f := Fired(spec, raw, rules[0].group);
      if f.Raises? then Raises
      else if f.value then Emit(spec, raw, rules[0])
      else FirstFired(spec, raw, rules[1..])
  }

  function Readings(root: real -> real, spec: Spec, series: Loaded): Result<Raw> {
    RawOf(root, spec, series, BarsOf(series, BaseTimeframe(spec)), |spec.indicators|)
  }

  function Evaluate(root: real -> real, spec: Spec, series: Loaded): Result<Signal> {
    if |BarsOf(series, BaseTimeframe(spec))| < 2 then Ok(HOLD)
    else
      var raw := Readings(root, spec, series);
      if raw.Raises? then Raises else FirstFired(spec, raw.value, RulesOf(spec))
  }

  // ---------------------------------------------------------------- the evaluator as the program runs it

  method EvaluateComposed(root: real -> real, spec: Spec, series: Loaded) returns (r: Result<Signal>)
    ensures r == Evaluate(root, spec, series)
  {
    hide Compute, CondTrue, Shadowed, Recorded;
    var baseTf := BaseTimeframe(spec);
    var base := BarsOf(series, baseTf);
    if |base| < 2 {
      return Ok(HOLD);
    }
    var cutoffs: seq<Option<int>> := [];
    for k := 0 to 3
      invariant |cutoffs| == k && forall j :: 0 <= j < k ==> cutoffs[j] == Cutoff(base, baseTf, j)
    {
      cutoffs := cutoffs + [if |base| >= k + 1 then Some(base[|base| - 1 - k].ts + Span(baseTf)) else None];
    }
    var raw: Raw := map[];
    for i := 0 to |spec.indicators|
      invariant RawOf(root, spec, series, base, i) == Ok(raw)
    {
      if !Shadowed(spec.indicators, i) {
        var ind := spec.indicators[i];
        var lags := ReadLags(root, spec, ind, series, cutoffs);
        if lags.Raises? {
          RaisesForGood(root, spec, series, base, i + 1, |spec.indicators|);
          return Raises;
        }
        raw := Recorded(raw, ind.id, lags.value[0], lags.value[1], lags.value[2]);
      }
    }
    var rules := RulesOf(spec);
    for j := 0 to 4
      invariant FirstFired(spec, raw, rules) == FirstFired(spec, raw, rules[j..])
    {
      var f := Fired(spec, raw, rules[j].group);
      if f.Raises? {
        return Raises;
      }
      if f.value {
        return Emit(spec, raw, rules[j]);
      }
      assert rules[j..][1..] == rules[j + 1..];
    }
    return Ok(HOLD);
  }

  method ReadLags(root: real -> real, spec: Spec, ind: Indicator, series: Loaded, cutoffs: seq<Option<int>>)
    returns (r: Result<seq<Option<Reading>>>)
    requires |cutoffs| == 3
    ensures r.Raises? <==> exists k :: 0 <= k < 3 && ReadAt(root, spec, ind, series, cutoffs[k]).Raises?
    ensures r.Ok? ==> |r.value| == 3
    ensures r.Ok? ==> forall k :: 0 <= k < 3 ==> ReadAt(root, spec, ind, series, cutoffs[k]) == Ok(r.value[k])
  {
    hide Compute;
    var tf := TimeframeOf(spec, ind);
    var bars := BarsOf(series, tf);
    var out: seq<Option<Reading>> := [];
    for k := 0 to 3
      invariant |out| == k
      invariant forall j :: 0 <= j < k ==> ReadAt(root, spec, ind, series, cutoffs[j]) == Ok(out[j])
    {
      var reading: Result<Option<Reading>> := Ok(None);
      if cutoffs[k].Some? {
        var window := AsOf(bars, tf, cutoffs[k].value);
        if |window| > 0 {
          reading := Compute(root, ind, window);
        }
      }
      assert reading == ReadAt(root, spec, ind, series, cutoffs[k]);
      if reading.Raises? {
        return Raises;
      }
      out := out + [reading.value];
    }
    return Ok(out);
  }

  /** Once reading the indicators has raised, it stays so. */
  lemma {:induction false} RaisesForGood(root: real -> real, spec: Spec, series: Loaded, base: seq<Bar>, m: nat,
                                         n: nat)
    requires m <= n <= |spec.indicators|
    ensures RawOf(root, spec, series, base, m).Raises? ==> RawOf(root, spec, series, base, n).Raises?
  {
    hide ReadAt, Recorded, Shadowed;
    if m < n {
      RaisesForGood(root, spec, series, base, m, n - 1);
    }
  }
}
