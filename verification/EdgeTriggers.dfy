/** Over the steps of a run a rule group fires exactly on its false-to-true transitions. */
module EdgeTriggers {
  import opened Prelude
  import opened Indicators
  import opened StrategySpec
  import opened Signals
  import opened Composed
  import opened ComposedProofs

  // ---------------------------------------------------------------- one step back

  /** The readings of a step, one and two base bars ago, are those of the step before now and one
      bar ago. */
  ghost predicate Shifted(raw: Raw, before: Raw) {
    forall id :: Lookup(raw, id, 1) == Lookup(before, id, 0) && Lookup(raw, id, 2) == Lookup(before, id, 1)
  }

  lemma CondShift(raw: Raw, before: Raw, c: Cond)
    requires Shifted(raw, before)
    ensures CondTrue(raw, c, 1) == CondTrue(before, c, 0)
  {
  }

  lemma {:induction false} NodeShift(states: map<string, Cond>, raw: Raw, before: Raw, node: Node)
    requires Shifted(raw, before)
    ensures NodeTrue(states, raw, node, 1) == NodeTrue(states, before, node, 0)
    decreases node
  {
    hide Shifted, CondTrue;
    match node
    case StateName(n) =>
      if n in states {
        CondShift(raw, before, states[n]);
      }
    case Object(groups, cond) =>
      if |groups| == 0 {
        CondShift(raw, before, cond);
      } else {
        GroupShift(states, raw, before, groups[FirstGroup(groups)]);
      }
    case OtherValue =>
  }

  lemma {:induction false} GroupShift(states: map<string, Cond>, raw: Raw, before: Raw, g: Group)
    requires Shifted(raw, before)
    ensures GroupTrue(states, raw, g, 1) == GroupTrue(states, before, g, 0)
    decreases g
  {
    hide Shifted;
    match g
    case Not(x) => NodeShift(states, raw, before, x);
    case All(items) => ScanShift(states, raw, before, items, true);
    case Any(items) => ScanShift(states, raw, before, items, false);
  }

  lemma {:induction false} ScanShift(states: map<string, Cond>, raw: Raw, before: Raw, items: seq<Node>, want: bool)
    requires Shifted(raw, before)
    ensures Scan(states, raw, items, want, 1) == Scan(states, before, items, want, 0)
    decreases items
  {
    hide Shifted;
    if |items| > 0 {
      NodeShift(states, raw, before, items[0]);
      ScanShift(states, raw, before, items[1..], want);
    }
  }

  /** The readings at step `i` of the run. */
  function ReadingsAt(root: real -> real, spec: Spec, series: Loaded, i: nat): Raw
    requires i < |BaseOf(spec, series)|
  {
    Readings(root, spec, StepSeries(spec, series, i)).GetOr(map[])
  }

  /** A reading one base bar ago is what was read then, whatever arrived since. */
  lemma ReadingShift(root: real -> real, spec: Spec, series: Loaded, i: nat, ind: Indicator, k: nat)
    requires 0 < i < |BaseOf(spec, series)| && Ascending(BaseOf(spec, series)) && k < 2
    ensures var base, tf := BaseOf(spec, series), BaseTimeframe(spec);
            ReadAt(root, spec, ind, StepSeries(spec, series, i), Cutoff(base[..i + 1], tf, k + 1))
              == ReadAt(root, spec, ind, StepSeries(spec, series, i - 1), Cutoff(base[..i], tf, k))
  {
    hide *;
    var base, tf := BaseOf(spec, series), BaseTimeframe(spec);
    var a, b := StepSeries(spec, series, i), StepSeries(spec, series, i - 1);
    var c := InstantOf(spec, series, i - 1);
    CutoffShifts(base, tf, i, k);
    InstantIs(spec, series, i - 1);
    Earlier(spec, series, i - 1, i);
    StepSameClosed(spec, series, i);
    StepSameClosed(spec, series, i - 1);
    SameClosedEarlier(a, series, c, InstantOf(spec, series, i));
    SameClosedSymmetric(b, series, c);
    SameClosedTransitive(a, series, b, c);
    ReadSame(root, spec, ind, a, b, Cutoff(base[..i], tf, k), c);
  }

  lemma InstantIs(spec: Spec, series: Loaded, i: nat)
    requires i < |BaseOf(spec, series)|
    ensures InstantOf(spec, series, i) == CloseTime(BaseOf(spec, series)[i], BaseTimeframe(spec))
  {
  }

  lemma CutoffShifts(base: seq<Bar>, tf: string, i: nat, k: nat)
    requires 0 < i < |base| && Ascending(base)
    ensures Cutoff(base[..i + 1], tf, k + 1) == Cutoff(base[..i], tf, k)
    ensures Until(Cutoff(base[..i], tf, k), CloseTime(base[i - 1], tf))
  {
  }

  /** Only indicator ids are recorded. */
  lemma {:induction false} RawKeys(root: real -> real, spec: Spec, series: Loaded, base: seq<Bar>, n: nat, id: string,
                                   k: int)
    requires n <= |spec.indicators| && RawOf(root, spec, series, base, n).Ok?
    requires (id, k) in RawOf(root, spec, series, base, n).value
    ensures exists i :: 0 <= i < n && spec.indicators[i].id == id
  {
    hide ReadAt;
    if n > 0 && spec.indicators[n - 1].id != id {
      RawKeys(root, spec, series, base, n - 1, id, k);
    }
  }

  lemma ReadingsHold(root: real -> real, spec: Spec, series: Loaded, i: nat, m: nat, k: nat)
    requires ValidSpec(spec) && i < |BaseOf(spec, series)| && m < |spec.indicators| && k < 3
    ensures Readings(root, spec, StepSeries(spec, series, i)).Ok?
    ensures Ok(Lookup(ReadingsAt(root, spec, series, i), spec.indicators[m].id, k)) ==
              ReadAt(root, spec, spec.indicators[m], StepSeries(spec, series, i),
                     Cutoff(BaseOf(spec, series)[..i + 1], BaseTimeframe(spec), k))
  {
    hide ReadAt, Cutoff;
    var s := StepSeries(spec, series, i);
    RawContents(root, spec, s, BaseOf(spec, s), |spec.indicators|);
    assert Reads(root, spec, s, BaseOf(spec, s), ReadingsAt(root, spec, series, i), spec.indicators[m], k);
  }

  lemma UnknownReadsNothing(root: real -> real, spec: Spec, series: Loaded, i: nat, id: string, k: int)
    requires i < |BaseOf(spec, series)| && !Known(spec.indicators, id)
    ensures Lookup(ReadingsAt(root, spec, series, i), id, k) == None
  {
    hide ReadAt;
    var s := StepSeries(spec, series, i);
    if (id, k) in ReadingsAt(root, spec, series, i) {
      RawKeys(root, spec, s, BaseOf(spec, s), |spec.indicators|, id, k);
      assert false;
    }
  }

  lemma IdShifts(root: real -> real, spec: Spec, series: Loaded, i: nat, id: string, k: nat)
    requires ValidSpec(spec) && 0 < i < |BaseOf(spec, series)| && Ascending(BaseOf(spec, series)) && k < 2
    ensures Lookup(ReadingsAt(root, spec, series, i), id, k + 1)
              == Lookup(ReadingsAt(root, spec, series, i - 1), id, k)
  {
    hide ValidSpec, ReadAt, ReadingsAt, Cutoff, StepSeries, Lookup, Readings, Ascending;
    if Known(spec.indicators, id) {
      var m := IndexOf(spec.indicators, id);
      ReadingsHold(root, spec, series, i, m, k + 1);
      ReadingsHold(root, spec, series, i - 1, m, k);
      ReadingShift(root, spec, series, i, spec.indicators[m], k);
    } else {
      UnknownReadsNothing(root, spec, series, i, id, k + 1);
      UnknownReadsNothing(root, spec, series, i - 1, id, k);
    }
  }

  lemma StepShifts(root: real -> real, spec: Spec, series: Loaded, i: nat)
    requires ValidSpec(spec) && 0 < i < |BaseOf(spec, series)| && Ascending(BaseOf(spec, series))
    ensures Shifted(ReadingsAt(root, spec, series, i), ReadingsAt(root, spec, series, i - 1))
  {
    hide ValidSpec, ReadingsAt, Lookup, Ascending, BaseOf;
    var now, before := ReadingsAt(root, spec, series, i), ReadingsAt(root, spec, series, i - 1);
    forall id ensures Lookup(now, id, 1) == Lookup(before, id, 0) && Lookup(now, id, 2) == Lookup(before, id, 1) {
      IdShifts(root, spec, series, i, id, 0);
      IdShifts(root, spec, series, i, id, 1);
    }
  }

  // ---------------------------------------------------------------- runs

  /** The group holds at step `i`. */
  predicate Holds(root: real -> real, spec: Spec, series: Loaded, group: Option<Node>, i: nat)
    requires i < |BaseOf(spec, series)|
  {
    Truthy(group) && NodeTrue(spec.states, ReadingsAt(root, spec, series, i), group.value, 0) == Ok(true)
  }

  /** Edge-trigger coherence: a group's value one step ago, as step `i` sees it, is the value it had
      at step i - 1, crosses included. */
  lemma LagIsPreviousStep(root: real -> real, spec: Spec, series: Loaded, node: Node, i: nat)
    requires ValidSpec(spec) && 0 < i < |BaseOf(spec, series)| && Ascending(BaseOf(spec, series))
    ensures NodeTrue(spec.states, ReadingsAt(root, spec, series, i), node, 1)
              == NodeTrue(spec.states, ReadingsAt(root, spec, series, i - 1), node, 0)
  {
    hide ReadingsAt, ValidSpec;
    StepShifts(root, spec, series, i);
    NodeShift(spec.states, ReadingsAt(root, spec, series, i), ReadingsAt(root, spec, series, i - 1), node);
  }

  predicate Rises(root: real -> real, spec: Spec, series: Loaded, group: Option<Node>, i: nat)
    requires 0 < i < |BaseOf(spec, series)|
  {
    Holds(root, spec, series, group, i) && !Holds(root, spec, series, group, i - 1)
  }

  lemma FiredIffRises(root: real -> real, spec: Spec, series: Loaded, group: Option<Node>, i: nat)
    requires ValidSpec(spec) && ValidRule(spec, group)
    requires 0 < i < |BaseOf(spec, series)| && Ascending(BaseOf(spec, series))
    ensures Fired(spec, ReadingsAt(root, spec, series, i), group) == Ok(Rises(root, spec, series, group, i))
  {
    var now, before := ReadingsAt(root, spec, series, i), ReadingsAt(root, spec, series, i - 1);
    FiredNeverRaises(spec, now, group);
    if Truthy(group) {
      LagIsPreviousStep(root, spec, series, group.value, i);
      NodeNeverRaises(spec, before, group.value, 0);
      NodeNeverRaises(spec, now, group.value, 0);
    }
    hide ReadingsAt, ValidSpec, ValidRule;
  }

  /** The action of step `i`. */
  function ActionAt(root: real -> real, spec: Spec, series: Loaded, i: nat): Action
    requires i < |BaseOf(spec, series)|
  {
    Evaluate(root, spec, StepSeries(spec, series, i)).GetOr(HOLD).action
  }

  lemma ActionIs(root: real -> real, spec: Spec, series: Loaded, i: nat)
    requires ValidSpec(spec) && 0 < i < |BaseOf(spec, series)|
    ensures FirstFired(spec, ReadingsAt(root, spec, series, i), RulesOf(spec)).Ok?
    ensures ActionAt(root, spec, series, i)
              == FirstFired(spec, ReadingsAt(root, spec, series, i), RulesOf(spec)).value.action
  {
    hide RulesOf, FirstFired, ReadAt;
    var s := StepSeries(spec, series, i);
    RawContents(root, spec, s, BaseOf(spec, s), |spec.indicators|);
    FirstFiredWins(spec, ReadingsAt(root, spec, series, i));
  }

  /** Over a whole run "buy" is emitted exactly at the rising edges of buy_when, and each other
      action exactly at the rising edges of its own group that no group of higher precedence
      masks by rising at the same step. */
  lemma ActionsAreEdges(root: real -> real, spec: Spec, series: Loaded, i: nat)
    requires ValidSpec(spec) && 0 < i < |BaseOf(spec, series)| && Ascending(BaseOf(spec, series))
    ensures var buy := Rises(root, spec, series, spec.buyWhen, i);
            var exit := Rises(root, spec, series, spec.exitWhen, i);
            var cover := Rises(root, spec, series, spec.coverWhen, i);
            var short := Rises(root, spec, series, spec.shortWhen, i);
            var action := ActionAt(root, spec, series, i);
            && (action == Action.Buy <==> buy)
            && (action == Action.Exit <==> exit && !buy)
            && (action == Action.Cover <==> cover && !buy && !exit)
            && (action == Action.Short <==> short && !buy && !exit && !cover)
            && (action == Action.Hold <==> !buy && !exit && !cover && !short)
  {
    ActionIs(root, spec, series, i);
    FirstFiredWins(spec, ReadingsAt(root, spec, series, i));
    hide ReadingsAt, ActionAt, Fired, Rises;
    FiredIffRises(root, spec, series, spec.buyWhen, i);
    FiredIffRises(root, spec, series, spec.exitWhen, i);
    FiredIffRises(root, spec, series, spec.coverWhen, i);
    FiredIffRises(root, spec, series, spec.shortWhen, i);
    hide ValidSpec;
  }

  /** The first step has no previous one: it always holds. */
  lemma FirstStepHolds(root: real -> real, spec: Spec, series: Loaded)
    requires |BaseOf(spec, series)| > 0
    ensures ActionAt(root, spec, series, 0) == Action.Hold
  {
  }

  /** A persistent condition fires once: between two buys the group did not hold at some step. */
  lemma {:induction false} NoRepeatedFiring(root: real -> real, spec: Spec, series: Loaded, i: nat, j: nat)
    requires ValidSpec(spec) && Ascending(BaseOf(spec, series))
    requires 0 < i < j < |BaseOf(spec, series)|
    requires ActionAt(root, spec, series, i) == Action.Buy && ActionAt(root, spec, series, j) == Action.Buy
    ensures i + 1 < j && !Holds(root, spec, series, spec.buyWhen, j - 1)
    ensures Holds(root, spec, series, spec.buyWhen, i)
  {
    ActionsAreEdges(root, spec, series, i);
    ActionsAreEdges(root, spec, series, j);
  }
}
