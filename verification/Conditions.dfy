/** What a condition of a strategy says about the numbers its indicators read, at an instant and over a run. */
module Conditions {
  import opened Prelude
  import opened Indicators
  import opened StrategySpec
  import opened Composed
  import opened ComposedProofs
  import opened EdgeTriggers

  /** `x` is the number a reading gives: itself when it is scalar, one of its fields otherwise. */
  ghost predicate GivesNumber(reading: Reading, field: Option<string>, x: real) {
    match reading
    case Scalar(y) => y == x
    case Fields(m) => field.Some? && field.value in m && m[field.value] == x
  }

  ghost predicate IsNumber(raw: Raw, id: string, k: int, field: Option<string>, x: real) {
    (id, k) in raw && raw[(id, k)].Some? && GivesNumber(raw[(id, k)].value, field, x)
  }

  /** At lag `k` the condition weighs `x` against `t`: another indicator's number, or its own constant. */
  ghost predicate Weighs(raw: Raw, c: Cond, k: int, x: real, t: real) {
    && c.indicator.Some? && IsNumber(raw, c.indicator.value, k, c.field, x)
    && if c.other.Some? then IsNumber(raw, c.other.value, k, c.otherField, t) else c.value == Some(t)
  }

  ghost predicate Weighed(raw: Raw, c: Cond, k: int) {
    exists x, t :: Weighs(raw, c, k, x, t)
  }

  /** The condition has the keys the validator asks for. */
  predicate Complete(c: Cond) {
    c.indicator.Some? && (c.other.Some? || c.value.Some?) && (c.cross.Some? || (c.op.Some? && c.op.value in OPS))
  }

  lemma NumberIs(raw: Raw, id: string, k: int, field: Option<string>, x: real)
    ensures IsNumber(raw, id, k, field, x) <==> ScalarValue(Lookup(raw, id, k), field) == Some(x)
  {
  }

  lemma WeighsIs(raw: Raw, c: Cond, k: int, x: real, t: real)
    requires c.indicator.Some? && (c.other.Some? || c.value.Some?)
    ensures Weighs(raw, c, k, x, t) <==>
              && ScalarValue(Lookup(raw, c.indicator.value, k), c.field) == Some(x)
              && Threshold(raw, c, k) == Ok(Some(t))
    ensures Threshold(raw, c, k).Ok?
  {
    NumberIs(raw, c.indicator.value, k, c.field, x);
    if c.other.Some? {
      NumberIs(raw, c.other.value, k, c.otherField, t);
    }
    hide IsNumber, ScalarValue, Lookup;
  }

  /** A comparison holds exactly when the number compares so with its threshold. */
  lemma OpMeaning(raw: Raw, c: Cond, k: int, x: real, t: real)
    requires c.cross.None? && Weighs(raw, c, k, x, t)
    ensures c.op == Some("<") ==> (CondTrue(raw, c, k) == Ok(true) <==> x < t)
    ensures c.op == Some("<=") ==> (CondTrue(raw, c, k) == Ok(true) <==> x <= t)
    ensures c.op == Some(">") ==> (CondTrue(raw, c, k) == Ok(true) <==> x > t)
    ensures c.op == Some(">=") ==> (CondTrue(raw, c, k) == Ok(true) <==> x >= t)
    ensures c.op == Some("==") ==> (CondTrue(raw, c, k) == Ok(true) <==> x == t)
    ensures c.op == Some("!=") ==> (CondTrue(raw, c, k) == Ok(true) <==> x != t)
    ensures CondTrue(raw, c, k).Raises? <==> c.op.None? || c.op.value !in {"<", "<=", ">", ">=", "==", "!="}
  {
    WeighsIs(raw, c, k, x, t);
    hide Weighs, ScalarValue, Lookup, Threshold;
  }

  /** An undefined operand makes any condition false, and it raises only for a missing key. */
  lemma UndefinedIsFalse(raw: Raw, c: Cond, k: int)
    requires Complete(c)
    ensures CondTrue(raw, c, k).Ok?
    ensures CondTrue(raw, c, k) == Ok(true) ==> Weighed(raw, c, k)
  {
    var x, t := ScalarValue(Lookup(raw, c.indicator.value, k), c.field), Threshold(raw, c, k);
    WeighsIs(raw, c, k, x.GetOr(0.0), t.GetOr(None).GetOr(0.0));
    WeighsIs(raw, c, k + 1, 0.0, 0.0);
    assert x.Some? && t.value.Some? ==> Weighs(raw, c, k, x.value, t.value.value);
    hide Weighs, ScalarValue, Lookup, Threshold, Compare, Crossed;
  }

  /** The comparison a crossing is the start of. */
  function Crossing(c: Cond): Cond
    requires c.cross.Some?
  {
    c.(cross := None, op := Some(if c.cross == Some("above") then ">" else "<"))
  }

  /** The number is above its threshold now and was not one lag earlier; below likewise. */
  ghost predicate Crosses(raw: Raw, c: Cond, k: int)
    requires c.cross.Some?
  {
    exists x, t, x', t' :: CrossesFrom(raw, c, k, x, t, x', t')
  }

  ghost predicate CrossesFrom(raw: Raw, c: Cond, k: int, x: real, t: real, x': real, t': real)
    requires c.cross.Some?
  {
    && Weighs(raw, c, k, x, t) && Weighs(raw, c, k + 1, x', t')
    && if c.cross == Some("above") then x > t && !(x' > t') else x < t && !(x' < t')
  }

  /** A crossing holds at lag 0 or 1 exactly when the number crossed its threshold in the last step;
      further back there is no step to compare with. */
  lemma CrossMeaning(raw: Raw, c: Cond, k: int)
    requires Complete(c) && c.cross.Some?
    ensures k < 2 ==> (CondTrue(raw, c, k) == Ok(true) <==> Crosses(raw, c, k))
    ensures k >= 2 ==> CondTrue(raw, c, k) == Ok(false)
  {
    var id := c.indicator.value;
    var x, x' := ScalarValue(Lookup(raw, id, k), c.field), ScalarValue(Lookup(raw, id, k + 1), c.field);
    var t, t' := Threshold(raw, c, k), Threshold(raw, c, k + 1);
    forall a, b, a', b' ensures CrossesFrom(raw, c, k, a, b, a', b') ==>
        && x == Some(a) && t == Ok(Some(b)) && x' == Some(a') && t' == Ok(Some(b')) {
      WeighsIs(raw, c, k, a, b);
      WeighsIs(raw, c, k + 1, a', b');
    }
    WeighsIs(raw, c, k, x.GetOr(0.0), t.GetOr(None).GetOr(0.0));
    WeighsIs(raw, c, k + 1, x'.GetOr(0.0), t'.GetOr(None).GetOr(0.0));
    hide Weighs, ScalarValue, Lookup, Threshold;
    if CondTrue(raw, c, k) == Ok(true) {
      assert CrossesFrom(raw, c, k, x.value, t.value.value, x'.value, t'.value.value);
    }
  }

  /** So it is the rising edge of the comparison, with all four numbers there. */
  lemma CrossIsEdge(raw: Raw, c: Cond, k: int)
    requires Complete(c) && c.cross.Some? && k < 2
    ensures CondTrue(raw, c, k) == Ok(true) <==>
              && Weighed(raw, c, k) && Weighed(raw, c, k + 1)
              && CondTrue(raw, Crossing(c), k) == Ok(true) && CondTrue(raw, Crossing(c), k + 1) != Ok(true)
  {
    CrossMeaning(raw, c, k);
    hide CondTrue, Complete;
    if Weighed(raw, c, k) && Weighed(raw, c, k + 1) {
      var x, t :| Weighs(raw, c, k, x, t);
      var x', t' :| Weighs(raw, c, k + 1, x', t');
      WeighsOne(raw, c, k);
      WeighsOne(raw, c, k + 1);
      assert Weighs(raw, Crossing(c), k, x, t) && Weighs(raw, Crossing(c), k + 1, x', t');
      OpMeaning(raw, Crossing(c), k, x, t);
      OpMeaning(raw, Crossing(c), k + 1, x', t');
      hide Weighs;
      assert Crosses(raw, c, k) <==> CrossesFrom(raw, c, k, x, t, x', t');
    }
  }

  lemma WeighsOne(raw: Raw, c: Cond, k: int)
    ensures forall x, t, x', t' :: Weighs(raw, c, k, x, t) && Weighs(raw, c, k, x', t') ==> x == x' && t == t'
  {
  }

  // ---------------------------------------------------------------- over a run

  /** What had closed of a timeframe when base bar `i` closed. */
  function ClosedAt(spec: Spec, series: Loaded, tf: string, i: nat): seq<Bar>
    requires i < |BaseOf(spec, series)|
  {
    AsOf(BarsOf(series, tf), tf, InstantOf(spec, series, i))
  }

  /** A number read at step `i` is the indicator's on the bars closed by then. */
  lemma NumberIsComputed(root: real -> real, spec: Spec, series: Loaded, i: nat, id: string, field: Option<string>,
                         x: real)
    requires ValidSpec(spec) && i < |BaseOf(spec, series)| && Ascending(BaseOf(spec, series))
    requires Known(spec.indicators, id)
    ensures var ind := spec.indicators[IndexOf(spec.indicators, id)];
            var bars := ClosedAt(spec, series, TimeframeOf(spec, ind), i);
            IsNumber(ReadingsAt(root, spec, series, i), id, 0, field, x) <==>
              && bars != [] && Compute(root, ind, bars).Ok? && Compute(root, ind, bars).value.Some?
              && GivesNumber(Compute(root, ind, bars).value.value, field, x)
  {
    var m := IndexOf(spec.indicators, id);
    var ind := spec.indicators[m];
    ReadingsHold(root, spec, series, i, m, 0);
    StepSameClosed(spec, series, i);
    assert Cutoff(BaseOf(spec, series)[..i + 1], BaseTimeframe(spec), 0) == Some(InstantOf(spec, series, i));
    var tf := TimeframeOf(spec, ind);
    assert AsOf(BarsOf(StepSeries(spec, series, i), tf), tf, InstantOf(spec, series, i)) ==
           ClosedAt(spec, series, tf, i);
    hide Compute, ReadingsAt, ValidSpec, InstantOf, StepSeries, Ascending;
  }

  /** Over a run a comparison holds at step `i` exactly when the numbers of that step compare so. */
  lemma OpInRun(root: real -> real, spec: Spec, series: Loaded, c: Cond, i: nat, x: real, t: real)
    requires i < |BaseOf(spec, series)| && c.cross.None?
    requires Weighs(ReadingsAt(root, spec, series, i), c, 0, x, t)
    ensures var holds := CondTrue(ReadingsAt(root, spec, series, i), c, 0) == Ok(true);
            && (c.op == Some("<") ==> (holds <==> x < t))
            && (c.op == Some("<=") ==> (holds <==> x <= t))
            && (c.op == Some(">") ==> (holds <==> x > t))
            && (c.op == Some(">=") ==> (holds <==> x >= t))
            && (c.op == Some("==") ==> (holds <==> x == t))
            && (c.op == Some("!=") ==> (holds <==> x != t))
  {
    OpMeaning(ReadingsAt(root, spec, series, i), c, 0, x, t);
  }

  lemma WeighedShift(raw: Raw, before: Raw, c: Cond)
    requires Shifted(raw, before) && c.indicator.Some? && (c.other.Some? || c.value.Some?)
    ensures Weighed(raw, c, 1) <==> Weighed(before, c, 0)
  {
    forall x, t ensures Weighs(raw, c, 1, x, t) <==> Weighs(before, c, 0, x, t) {
      WeighsIs(raw, c, 1, x, t);
      WeighsIs(before, c, 0, x, t);
    }
    hide Weighs;
  }

  lemma CrossOverSteps(now: Raw, before: Raw, c: Cond)
    requires Shifted(now, before) && Complete(c) && c.cross.Some?
    ensures CondTrue(now, c, 0) == Ok(true) <==>
              && Weighed(now, c, 0) && Weighed(before, c, 0)
              && CondTrue(now, Crossing(c), 0) == Ok(true) && CondTrue(before, Crossing(c), 0) != Ok(true)
  {
    CondShift(now, before, Crossing(c));
    WeighedShift(now, before, c);
    CrossIsEdge(now, c, 0);
    hide CondTrue, Weighed, Shifted;
  }

  /** Over a run a crossing holds at step `i` exactly when its comparison holds there and did not hold at
      the step before, with numbers to compare at both. */
  lemma CrossInRun(root: real -> real, spec: Spec, series: Loaded, c: Cond, i: nat)
    requires ValidSpec(spec) && ValidCond(spec.indicators, c) && c.cross.Some?
    requires 0 < i < |BaseOf(spec, series)| && Ascending(BaseOf(spec, series))
    ensures var now, before := ReadingsAt(root, spec, series, i), ReadingsAt(root, spec, series, i - 1);
            CondTrue(now, c, 0) == Ok(true) <==>
              && Weighed(now, c, 0) && Weighed(before, c, 0)
              && CondTrue(now, Crossing(c), 0) == Ok(true) && CondTrue(before, Crossing(c), 0) != Ok(true)
  {
    StepShifts(root, spec, series, i);
    hide ReadingsAt, ValidSpec, Ascending, BaseOf, CondTrue, Weighed, Shifted;
    CrossOverSteps(ReadingsAt(root, spec, series, i), ReadingsAt(root, spec, series, i - 1), c);
  }
}
