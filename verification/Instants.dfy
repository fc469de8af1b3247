/** When the evaluator looks, what it may see then, and what it makes of the rules and the strength map. */
module Instants {
  import opened Prelude
  import opened Indicators
  import opened StrategySpec
  import opened Composed
  import opened ComposedProofs
  import opened Conditions

  // ---------------------------------------------------------------- instants and windows

  /** `span` is the length of a bar of an allowed timeframe, in microseconds. */
  predicate Lasts(tf: string, span: int) {
    || (tf == "1m" && span == 60 * 1_000_000)
    || (tf == "5m" && span == 5 * 60 * 1_000_000)
    || (tf == "1h" && span == 60 * 60 * 1_000_000)
    || (tf == "1d" && span == 24 * 60 * 60 * 1_000_000)
  }

  lemma SpanIs(tf: string, span: int)
    requires Lasts(tf, span)
    ensures Span(tf) == span
  {
  }

  /** The evaluation instants are the closes of the newest three base bars. */
  lemma InstantsAre(base: seq<Bar>, tf: string, span: int, k: nat)
    requires Lasts(tf, span)
    ensures Cutoff(base, tf, k) == if k < |base| then Some(base[|base| - 1 - k].ts + span) else None
  {
    SpanIs(tf, span);
  }

  /** At an instant exactly the bars that had closed by then are seen: those opened a bar's length before. */
  lemma {:induction false} SeenAre(bars: seq<Bar>, tf: string, span: int, instant: int, bar: Bar)
    requires Lasts(tf, span)
    ensures bar in AsOf(bars, tf, instant) <==> bar in bars && bar.ts + span <= instant
    decreases |bars|
  {
    SpanIs(tf, span);
    if |bars| > 0 {
      SeenAre(bars[..|bars| - 1], tf, span, instant, bar);
      assert bars == bars[..|bars| - 1] + [bars[|bars| - 1]];
    }
  }

  /** Exactly the first `n` bars had closed. */
  predicate ClosedFirst(bars: seq<Bar>, span: int, instant: int, n: nat) {
    n <= |bars| && forall i :: 0 <= i < |bars| ==> (i < n <==> bars[i].ts + span <= instant)
  }

  lemma ClosedNext(bars: seq<Bar>, span: int, instant: int, n: nat)
    requires |bars| > 0 && Ascending(bars) && ClosedFirst(bars[..|bars| - 1], span, instant, n)
    ensures var m := |bars| - 1;
            if bars[m].ts + span <= instant then n == m && ClosedFirst(bars, span, instant, m + 1)
            else ClosedFirst(bars, span, instant, n)
  {
    var m := |bars| - 1;
    assert forall i :: 0 <= i < m ==> bars[..m][i] == bars[i] && bars[i].ts < bars[m].ts;
    assert n < m ==> bars[..m][n].ts + span > instant;
  }

  /** Of an ascending series they are the oldest ones, up to the first that had not closed. */
  lemma {:induction false} SeenIsPrefix(bars: seq<Bar>, tf: string, span: int, instant: int) returns (n: nat)
    requires Lasts(tf, span) && Ascending(bars)
    ensures ClosedFirst(bars, span, instant, n) && AsOf(bars, tf, instant) == bars[..n]
    decreases |bars|
  {
    SpanIs(tf, span);
    n := 0;
    if |bars| > 0 {
      var m := |bars| - 1;
      assert Ascending(bars[..m]);
      n := SeenIsPrefix(bars[..m], tf, span, instant);
      ClosedNext(bars, span, instant, n);
      hide ClosedFirst, Ascending, Lasts;
      if ClosedBy(bars[m], tf, instant) {
        assert bars[..m][..m] + [bars[m]] == bars[..m + 1];
        n := m + 1;
      } else {
        assert bars[..m][..n] == bars[..n];
      }
    }
  }

  /** The cadence of a strategy: the base timeframe it names, else the fastest its indicators name, else a
      minute. */
  lemma CadenceIs(spec: Spec)
    ensures spec.baseTf.Some? && spec.baseTf.value != "" ==> BaseTimeframe(spec) == spec.baseTf.value
    ensures !(spec.baseTf.Some? && spec.baseTf.value != "") ==>
              if exists ind :: ind in spec.indicators && Named(ind) then
                && (exists ind :: ind in spec.indicators && Named(ind) && ind.timeframe == Some(BaseTimeframe(spec)))
                && (forall ind :: ind in spec.indicators && Named(ind) ==>
                      TfSeconds(BaseTimeframe(spec)) <= TfSeconds(ind.timeframe.value))
              else BaseTimeframe(spec) == "1m"
  {
    hide TfSeconds;
    forall ind | ind in spec.indicators && Named(ind)
      ensures ind.timeframe.value in IndicatorTimeframes(spec.indicators)
    {
      TimeframesOfPrefix(spec.indicators, ind);
    }
    var tfs := IndicatorTimeframes(spec.indicators);
    if |tfs| > 0 {
      var ind := NamedBy(spec.indicators, Fastest(tfs));
    }
  }

  predicate Named(ind: Indicator) {
    ind.timeframe.Some? && ind.timeframe.value != ""
  }

  lemma {:induction false} NamedBy(inds: seq<Indicator>, tf: string) returns (ind: Indicator)
    requires tf in IndicatorTimeframes(inds)
    ensures ind in inds && Named(ind) && ind.timeframe.value == tf
    decreases |inds|
  {
    var n := |inds| - 1;
    if tf in IndicatorTimeframes(inds[..n]) {
      ind := NamedBy(inds[..n], tf);
    } else {
      ind := inds[n];
    }
  }

  // ---------------------------------------------------------------- rules and strengths

  /** A rule that is missing or empty never fires; an accepted one fires exactly when it holds now and did
      not at the step before. */
  lemma FiresMeaning(spec: Spec, raw: Raw, node: Node)
    requires ValidStates(spec) && ValidNode(spec, node)
    ensures Fired(spec, raw, Some(node)) == Ok(true) <==>
              NodeTrue(spec.states, raw, node, 0) == Ok(true) && NodeTrue(spec.states, raw, node, 1) == Ok(false)
    ensures Fired(spec, raw, None) == Fired(spec, raw, Some(Object([], NO_KEYS))) == Ok(false)
  {
    NodeNeverRaises(spec, raw, node, 0);
    NodeNeverRaises(spec, raw, node, 1);
    TwoValued(NodeTrue(spec.states, raw, node, 1));
    hide NodeTrue;
  }

  /** How far along its map the number is: nothing up to the first end, everything from the second on, in
      proportion between them, whichever end is larger. */
  lemma StrengthIs(spec: Spec, side: string, raw: Raw, v: real)
    requires side in spec.strength && spec.strength[side].from.Some? && |spec.strength[side].ends| == 2
    requires IsNumber(raw, spec.strength[side].from.value, 0, spec.strength[side].field, v)
    ensures var first, second := spec.strength[side].ends[0], spec.strength[side].ends[1];
            StrengthOf(spec, side, raw) == Ok(if first == second then 0.6
                                              else if first < second then Along(v, first, second)
                                              else Along(-v, -first, -second))
  {
    NumberIs(raw, spec.strength[side].from.value, 0, spec.strength[side].field, v);
    var first, second := spec.strength[side].ends[0], spec.strength[side].ends[1];
    hide IsNumber, ScalarValue, Lookup;
    if first < second {
      AlongIs(v, first, second);
    } else if second < first {
      AlongIs(-v, -first, -second);
      Flipped(v - first, second - first);
    }
  }

  /** The fraction of the way from `lo` to `hi`, kept between 0 and 1. */
  function Along(v: real, lo: real, hi: real): (r: real)
    requires lo < hi
    ensures if v <= lo then r == 0.0 else if v >= hi then r == 1.0 else r * (hi - lo) == v - lo
  {
    if v <= lo then 0.0 else if v >= hi then 1.0 else (v - lo) / (hi - lo)
  }

  lemma AlongIs(v: real, lo: real, hi: real)
    requires lo < hi
    ensures Max(0.0, Min(1.0, (v - lo) / (hi - lo))) == Along(v, lo, hi)
  {
    var q := (v - lo) / (hi - lo);
    assert q * (hi - lo) == v - lo;
    if v <= lo {
      DivideBetween(v - lo, hi - lo, q, 0.0);
    } else if v >= hi {
      DivideBetween(v - lo, hi - lo, 1.0, q);
    } else {
      DivideBetween(v - lo, hi - lo, 0.0, 1.0);
    }
  }

  lemma Flipped(n: real, d: real)
    requires d != 0.0
    ensures n / d == (-n) / (-d)
  {
    var q := n / d;
    assert q * d == n;
    assert q * -d == -n;
  }

  /** Without a map, or without a number for it, the strength is 0.6. */
  lemma DefaultStrength(spec: Spec, side: string, raw: Raw)
    requires ValidSpec(spec)
    requires side in spec.strength ==>
               forall v :: !IsNumber(raw, spec.strength[side].from.value, 0, spec.strength[side].field, v)
    ensures StrengthOf(spec, side, raw) == Ok(0.6)
  {
    if side in spec.strength {
      var sp := spec.strength[side];
      var v := ScalarValue(Lookup(raw, sp.from.value, 0), sp.field);
      NumberIs(raw, sp.from.value, 0, sp.field, v.GetOr(0.0));
    }
    hide IsNumber, ScalarValue, Lookup;
  }

  /** The features of a signal: for each indicator what it reads now. */
  ghost predicate Reports(spec: Spec, raw: Raw, features: map<string, Option<Reading>>) {
    forall id :: (id in features <==> exists ind :: ind in spec.indicators && ind.id == id)
                 && (id in features ==> features[id] == if (id, 0) in raw then raw[(id, 0)] else None)
  }

  lemma FeaturesReport(spec: Spec, raw: Raw)
    ensures Reports(spec, raw, Features(spec, raw))
  {
  }

  /** Whichever rule fires, its signal carries the strength of its side and the readings; a hold carries none. */
  lemma {:induction false} SignalCarries(spec: Spec, raw: Raw, rules: seq<Rule>)
    requires FirstFired(spec, raw, rules).Ok?
    ensures var signal := FirstFired(spec, raw, rules).value;
            || signal == HOLD
            || exists j :: 0 <= j < |rules| && signal.action == rules[j].action
                           && StrengthOf(spec, rules[j].side, raw) == Ok(signal.strength)
                           && Reports(spec, raw, signal.features)
    decreases |rules|
  {
    hide Fired, StrengthOf, Features, Reports;
    if |rules| > 0 {
      FeaturesReport(spec, raw);
      if Fired(spec, raw, rules[0].group) == Ok(false) {
        SignalCarries(spec, raw, rules[1..]);
        var signal := FirstFired(spec, raw, rules[1..]).value;
        if signal != HOLD {
          var j :| 0 <= j < |rules[1..]| && signal.action == rules[1..][j].action
                   && StrengthOf(spec, rules[1..][j].side, raw) == Ok(signal.strength)
                   && Reports(spec, raw, signal.features);
          assert rules[j + 1] == rules[1..][j];
        }
      }
    }
  }

  // ---------------------------------------------------------------- conditions that raise

  lemma CompleteNeverRaises(raw: Raw, c: Cond, k: int)
    requires Complete(c)
    ensures CondTrue(raw, c, k).Ok?
  {
    UndefinedIsFalse(raw, c, k);
  }

  /** Some reading makes a condition raise exactly when it misses a key: the indicator, the operator or the
      crossing, or what to compare with. */
  lemma RaisesIff(c: Cond)
    ensures (exists raw, k :: CondTrue(raw, c, k).Raises?) <==> !Complete(c)
  {
    if Complete(c) {
      forall raw, k ensures CondTrue(raw, c, k).Ok? {
        CompleteNeverRaises(raw, c, k);
      }
    } else if c.indicator.None? {
      assert CondTrue(map[], c, 0).Raises?;
    } else if c.other.None? && c.value.None? {
      var raw: Raw := map[(c.indicator.value, 0) := Some(Scalar(1.0))];
      assert CondTrue(raw, c, 0).Raises?;
    } else {
      var raw: Raw := map[(c.indicator.value, 0) := Some(Scalar(1.0))];
      if c.other.Some? && c.other != c.indicator {
        raw := raw[(c.other.value, 0) := Some(Scalar(1.0))];
      }
      assert CondTrue(raw, c, 0).Raises?;
    }
  }
}
