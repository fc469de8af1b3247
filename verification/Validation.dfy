/** What the validator refuses: what would raise, what could never hold or read anything, and what says
    more than the evaluator looks at. */
module Validation {
  import opened Prelude
  import opened Indicators
  import opened StrategySpec
  import opened Composed
  import opened Conditions

  // ---------------------------------------------------------------- indicators

  predicate Positives(ind: Indicator) {
    && (ind.period.Some? ==> ind.period.value >= 1) && (ind.fast.Some? ==> ind.fast.value >= 1)
    && (ind.slow.Some? ==> ind.slow.value >= 1) && (ind.signal.Some? ==> ind.signal.value >= 1)
  }

  /** Given positive periods and an allowed timeframe, an indicator over a series of prices is refused exactly
      when computing it raises, whatever the bars, or when it is a macd whose given periods are the wrong way
      round; one over whole bars only for an unknown source, which it would ignore. */
  lemma IndicatorRefusedIff(root: real -> real, ind: Indicator, bars: seq<Bar>)
    requires |bars| > 0 && Positives(ind)
    requires ind.timeframe.Some? ==> ind.timeframe.value in {"1m", "5m", "1h", "1d"}
    ensures ind.fn in {"atr", "vwap"} ==> (ValidIndicator(ind) <==> ind.source in SOURCES)
    ensures ind.fn !in {"atr", "vwap"} ==>
              (!ValidIndicator(ind) <==>
                 || Compute(root, ind, bars).Raises?
                 || (ind.fn == "macd" && ind.fast.Some? && ind.slow.Some? && ind.fast.value >= ind.slow.value))
  {
    if ValidIndicator(ind) {
      AcceptedComputes(root, ind, bars);
    }
    hide Rsi, Roc, Macd, Sma, Ema, Bollinger, BbPercent, Atr, Vwap, Boxed, Shaped, SeriesFrom;
  }

  /** Bad periods and timeframes are refused, and nothing else beyond that. */
  lemma ParametersRefused(ind: Indicator)
    ensures !Positives(ind) ==> !ValidIndicator(ind)
    ensures ind.timeframe.Some? && ind.timeframe.value !in {"1m", "5m", "1h", "1d"} ==> !ValidIndicator(ind)
  {
  }

  /** A macd with its given periods the wrong way round reads nothing on any bars. */
  lemma WrongWayReadsNothing(root: real -> real, ind: Indicator, bars: seq<Bar>)
    requires ind.fn == "macd" && ind.source in SOURCES
    requires ind.fast.Some? && ind.slow.Some? && ind.fast.value >= ind.slow.value
    ensures Compute(root, ind, bars) == Ok(None)
  {
    hide MacdLine, EmaSeries;
  }

  // ---------------------------------------------------------------- conditions

  /** The id names an indicator, and the field is one of those its function reads, if it reads a dict. */
  predicate Resolves(inds: seq<Indicator>, id: string, field: Option<string>) {
    Known(inds, id) && (DictFields(FnOf(inds, id)) != {} ==> field.Some? && field.value in DictFields(FnOf(inds, id)))
  }

  /** The condition says more than the evaluator looks at: unknown keys, two operators, two thresholds, a field
      of a scalar, or a crossing it would take for one below. */
  predicate Superfluous(inds: seq<Indicator>, c: Cond) {
    || c.extra != {} || (c.op.Some? && c.cross.Some?) || (c.value.Some? && c.other.Some?)
    || (c.cross.Some? && c.cross.value !in {"above", "below"})
    || (c.indicator.Some? && Known(inds, c.indicator.value)
        && DictFields(FnOf(inds, c.indicator.value)) == {} && c.field.Some?)
  }

  /** A condition is accepted exactly when it has its keys, each of which names something that can be read,
      and nothing superfluous. */
  lemma ConditionAcceptedIff(inds: seq<Indicator>, c: Cond)
    ensures ValidCond(inds, c) <==>
              && Complete(c) && !Superfluous(inds, c) && Resolves(inds, c.indicator.value, c.field)
              && (c.other.Some? ==> Resolves(inds, c.other.value, c.otherField))
  {
    hide FnOf, Known, DictFields;
  }

  /** The readings are those of the indicators, in the shape their functions promise. */
  ghost predicate ReadFrom(inds: seq<Indicator>, raw: Raw) {
    forall id, k :: (id, k) in raw ==> Known(inds, id) && Shaped(FnOf(inds, id), raw[(id, k)])
  }

  lemma DanglingReadsNothing(inds: seq<Indicator>, raw: Raw, id: string, k: int, field: Option<string>)
    requires ReadFrom(inds, raw) && !Resolves(inds, id, field)
    ensures ScalarValue(Lookup(raw, id, k), field) == None
  {
    hide FnOf, Known, DictFields;
  }

  /** What is refused for a key that names nothing readable could never hold. */
  lemma DanglingNeverHolds(inds: seq<Indicator>, raw: Raw, c: Cond, k: int)
    requires ReadFrom(inds, raw) && c.indicator.Some?
    requires !Resolves(inds, c.indicator.value, c.field)
             || (c.other.Some? && !Resolves(inds, c.other.value, c.otherField))
    ensures CondTrue(raw, c, k) != Ok(true)
  {
    if !Resolves(inds, c.indicator.value, c.field) {
      DanglingReadsNothing(inds, raw, c.indicator.value, k, c.field);
    } else {
      DanglingReadsNothing(inds, raw, c.other.value, k, c.otherField);
    }
    hide ReadFrom, Resolves, ScalarValue, Lookup;
  }

  // ---------------------------------------------------------------- rules

  /** Refused rules: an unknown state and a value that is no rule raise, an empty all holds whatever is read and
      an empty any never does, and of several keys on one node the evaluator would look at one. */
  lemma RulesRefused(spec: Spec, raw: Raw, name: string, groups: seq<Group>, cond: Cond, k: int)
    ensures name !in spec.states ==>
              !ValidNode(spec, StateName(name)) && NodeTrue(spec.states, raw, StateName(name), k).Raises?
    ensures !ValidNode(spec, OtherValue) && NodeTrue(spec.states, raw, OtherValue, k).Raises?
    ensures !ValidGroup(spec, All([])) && GroupTrue(spec.states, raw, All([]), k) == Ok(true)
    ensures !ValidGroup(spec, Any([])) && GroupTrue(spec.states, raw, Any([]), k) == Ok(false)
    ensures |groups| > 1 || (|groups| == 1 && cond != NO_KEYS) ==>
              && !ValidNode(spec, Object(groups, cond))
              && exists g :: g in groups
                             && NodeTrue(spec.states, raw, Object(groups, cond), k) == GroupTrue(spec.states, raw, g, k)
  {
    if |groups| > 0 {
      assert groups[FirstGroup(groups)] in groups;
    }
  }

  /** The others are accepted: a known state, a condition that is, and a group of at least one rule that are. */
  lemma RulesAccepted(spec: Spec, name: string, cond: Cond, items: seq<Node>, x: Node)
    ensures name in spec.states ==> ValidNode(spec, StateName(name))
    ensures ValidCond(spec.indicators, cond) <==> ValidNode(spec, Object([], cond))
    ensures ValidNode(spec, Object([All(items)], NO_KEYS)) <==>
              items != [] && forall i :: 0 <= i < |items| ==> ValidNode(spec, items[i])
    ensures ValidNode(spec, Object([Any(items)], NO_KEYS)) <==>
              items != [] && forall i :: 0 <= i < |items| ==> ValidNode(spec, items[i])
    ensures ValidNode(spec, Object([Not(x)], NO_KEYS)) <==> ValidNode(spec, x)
  {
    hide ValidCond;
    assert ValidNode(spec, Object([All(items)], NO_KEYS)) == ValidGroup(spec, All(items));
    assert ValidNode(spec, Object([Any(items)], NO_KEYS)) == ValidGroup(spec, Any(items));
  }

  // ---------------------------------------------------------------- whole strategies

  /** One more indicator is accepted exactly when it is valid by itself and its id is new. */
  lemma IndicatorsGrow(inds: seq<Indicator>, ind: Indicator)
    ensures !ValidIndicators([])
    ensures ValidIndicators(inds + [ind]) <==>
              (inds == [] || ValidIndicators(inds)) && ValidIndicator(ind) && forall x :: x in inds ==> x.id != ind.id
  {
    hide ValidIndicator;
    var all := inds + [ind];
    assert all[|inds|] == ind && forall i :: 0 <= i < |inds| ==> all[i] == inds[i];
    if ValidIndicators(all) {
      forall x | x in inds ensures x.id != ind.id {
        var i :| 0 <= i < |inds| && inds[i] == x;
        assert all[i].id != all[|inds|].id;
      }
    }
  }

  predicate IsEmpty(rule: Option<Node>) {
    rule.None? || rule.value == Object([], NO_KEYS)
  }

  /** A strategy needs a rule; with valid indicators and settings, and no strengths or states, it is accepted
      exactly when its rules are, each an object. */
  lemma SpecAcceptedIff(spec: Spec)
    requires ValidIndicators(spec.indicators) && spec.states == map[] && spec.strength == map[]
    requires spec.archetype.Some? ==>
               spec.archetype.value in {"trend", "mean_reversion", "momentum", "breakout", "trend_pullback", "custom"}
    requires spec.baseTf.Some? ==> spec.baseTf.value in {"", "1m", "5m", "1h", "1d"}
    ensures var rules := [spec.buyWhen, spec.exitWhen, spec.shortWhen, spec.coverWhen];
            ValidSpec(spec) <==>
              && (exists r :: r in rules && !IsEmpty(r))
              && forall r :: r in rules && !IsEmpty(r) ==> r.value.Object? && ValidNode(spec, r.value)
  {
    hide ValidIndicators, ValidNode;
    var rules := [spec.buyWhen, spec.exitWhen, spec.shortWhen, spec.coverWhen];
    assert rules[0] in rules && rules[1] in rules && rules[2] in rules && rules[3] in rules;
  }

  /** A strategy names a known archetype and an allowed cadence, if any, and each strength an indicator and two
      ends, for a side there is. */
  lemma SettingsRefused(spec: Spec, side: string)
    ensures ValidSpec(spec) && spec.archetype.Some? ==>
              spec.archetype.value in {"trend", "mean_reversion", "momentum", "breakout", "trend_pullback", "custom"}
    ensures spec.baseTf.Some? && spec.baseTf.value !in {"", "1m", "5m", "1h", "1d"} ==> !ValidSpec(spec)
    ensures side in spec.strength && ValidSpec(spec) ==>
              && side in {"buy", "exit", "short", "cover"} && |spec.strength[side].ends| == 2
              && spec.strength[side].from.Some? && Known(spec.indicators, spec.strength[side].from.value)
  {
    hide ValidIndicators, ValidNode, ValidStates, Known;
  }
}
