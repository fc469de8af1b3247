/** No lookahead, edge-triggered firing, and what the validator promises the evaluator. */
module ComposedProofs {
  import opened Prelude
  import opened Indicators
  import opened StrategySpec
  import opened Signals
  import opened Composed

  // ---------------------------------------------------------------- accepted specs never raise

  /** A rule of an accepted spec never meets a missing state, indicator key, threshold or operator,
      whatever was read. */
  lemma {:induction false} NodeNeverRaises(spec: Spec, raw: Raw, node: Node, k: int)
    requires ValidNode(spec, node)
    requires ValidStates(spec)
    ensures NodeTrue(spec.states, raw, node, k).Ok?
    decreases node
  {
    match node
    case StateName(n) => CondNeverRaises(spec, raw, spec.states[n], k);
    case Object(groups, cond) =>
      if |groups| == 0 {
        CondNeverRaises(spec, raw, cond, k);
      } else {
        GroupNeverRaises(spec, raw, groups[0], k);
      }
  }

  lemma {:induction false} GroupNeverRaises(spec: Spec, raw: Raw, g: Group, k: int)
    requires ValidGroup(spec, g)
    requires ValidStates(spec)
    ensures GroupTrue(spec.states, raw, g, k).Ok?
    decreases g
  {
    match g
    case Not(x) => NodeNeverRaises(spec, raw, x, k);
    case All(items) => ScanNeverRaises(spec, raw, items, true, k);
    case Any(items) => ScanNeverRaises(spec, raw, items, false, k);
  }

  lemma {:induction false} ScanNeverRaises(spec: Spec, raw: Raw, items: seq<Node>, want: bool, k: int)
    requires forall i :: 0 <= i < |items| ==> ValidNode(spec, items[i])
    requires ValidStates(spec)
    ensures Scan(spec.states, raw, items, want, k).Ok?
    decreases items
  {
    if |items| > 0 {
      NodeNeverRaises(spec, raw, items[0], k);
      ScanNeverRaises(spec, raw, items[1..], want, k);
    }
  }

  /** Rules mean what they say: over an accepted spec `all` holds exactly when every item does and
      `any` exactly when some item does, although items after the deciding one are not evaluated. */
  lemma {:induction false} ScanMeaning(spec: Spec, raw: Raw, items: seq<Node>, want: bool, k: int)
    requires forall i :: 0 <= i < |items| ==> ValidNode(spec, items[i])
    requires ValidStates(spec)
    ensures Scan(spec.states, raw, items, want, k) == Ok(want) <==>
              forall i :: 0 <= i < |items| ==> NodeTrue(spec.states, raw, items[i], k) == Ok(want)
    decreases items
  {
    if |items| > 0 {
      NodeNeverRaises(spec, raw, items[0], k);
      ScanMeaning(spec, raw, items[1..], want, k);
      assert items == [items[0]] + items[1..];
    }
  }

  lemma GroupMeaning(spec: Spec, raw: Raw, g: Group, k: int)
    requires ValidGroup(spec, g) && ValidStates(spec)
    ensures GroupTrue(spec.states, raw, g, k) == Ok(true) <==>
              match g {
                case All(items) => forall i :: 0 <= i < |items| ==> NodeTrue(spec.states, raw, items[i], k) == Ok(true)
                case Any(items) => exists i :: 0 <= i < |items| && NodeTrue(spec.states, raw, items[i], k) == Ok(true)
                case Not(x) => NodeTrue(spec.states, raw, x, k) == Ok(false)
              }
  {
    match g
    case All(items) => ScanMeaning(spec, raw, items, true, k);
    case Any(items) => AnyMeaning(spec, raw, items, k);
    case Not(x) =>
      NodeNeverRaises(spec, raw, x, k);
      TwoValued(NodeTrue(spec.states, raw, x, k));
  }

  lemma TwoValued(r: Result<bool>)
    requires r.Ok?
    ensures r == Ok(true) || r == Ok(false)
  {
    match r
    case Ok(b) => assert b == true || b == false;
  }

  lemma AnyMeaning(spec: Spec, raw: Raw, items: seq<Node>, k: int)
    requires forall i :: 0 <= i < |items| ==> ValidNode(spec, items[i])
    requires ValidStates(spec)
    ensures Scan(spec.states, raw, items, false, k) == Ok(true) <==>
              exists i :: 0 <= i < |items| && NodeTrue(spec.states, raw, items[i], k) == Ok(true)
  {
    ScanMeaning(spec, raw, items, false, k);
    ScanNeverRaises(spec, raw, items, false, k);
    TwoValued(Scan(spec.states, raw, items, false, k));
    if Scan(spec.states, raw, items, false, k) != Ok(false) {
      var i :| 0 <= i < |items| && NodeTrue(spec.states, raw, items[i], k) != Ok(false);
      NodeNeverRaises(spec, raw, items[i], k);
      TwoValued(NodeTrue(spec.states, raw, items[i], k));
    }
  }

  lemma CondNeverRaises(spec: Spec, raw: Raw, c: Cond, k: int)
    requires ValidCond(spec.indicators, c)
    ensures CondTrue(raw, c, k).Ok?
  {
  }

  /** `raw` holds what the indicator reads at lag `k`. */
  ghost predicate Reads(root: real -> real, spec: Spec, series: Loaded, base: seq<Bar>, raw: Raw, ind: Indicator,
                        k: nat)
  {
    && (ind.id, k) in raw
    && ReadAt(root, spec, ind, series, Cutoff(base, BaseTimeframe(spec), k)) == Ok(raw[(ind.id, k)])
  }

  /** Readings of accepted indicators: they never raise, and each id reads what its indicator
      computes at each of the three instants. */
  lemma {:induction false} RawContents(root: real -> real, spec: Spec, series: Loaded, base: seq<Bar>, n: nat)
    requires ValidIndicators(spec.indicators) && n <= |spec.indicators|
    ensures RawOf(root, spec, series, base, n).Ok?
    ensures forall i, k: nat :: 0 <= i < n && k < 3 ==>
              Reads(root, spec, series, base, RawOf(root, spec, series, base, n).value, spec.indicators[i], k)
  {
    if n > 0 {
      RawContents(root, spec, series, base, n - 1);
      OneMoreReads(root, spec, series, base, n);
      hide Reads, ReadAt, Recorded;
    }
  }

  lemma OneMoreReads(root: real -> real, spec: Spec, series: Loaded, base: seq<Bar>, n: nat)
    requires ValidIndicators(spec.indicators) && 0 < n <= |spec.indicators|
    requires RawOf(root, spec, series, base, n - 1).Ok?
    ensures RawOf(root, spec, series, base, n).Ok?
    ensures forall i, k: nat :: 0 <= i < n && k < 3 ==>
              (i < n - 1 ==>
                 Reads(root, spec, series, base, RawOf(root, spec, series, base, n - 1).value,
                       spec.indicators[i], k)) ==>
              Reads(root, spec, series, base, RawOf(root, spec, series, base, n).value, spec.indicators[i], k)
  {
    hide *;
    RawStep(root, spec, series, base, n);
    var raw := RawOf(root, spec, series, base, n - 1).value;
    forall i, k: nat | 0 <= i < n && k < 3
                       && (i < n - 1 ==> Reads(root, spec, series, base, raw, spec.indicators[i], k))
      ensures Reads(root, spec, series, base, RawOf(root, spec, series, base, n).value, spec.indicators[i], k)
    {
      ReadsAfter(root, spec, series, base, raw, n, i, k);
    }
  }

  /** What the n-th indicator reads at lag `k`. */
  function ReadLag(root: real -> real, spec: Spec, series: Loaded, base: seq<Bar>, n: nat, k: nat)
    : Result<Option<Reading>>
    requires 0 < n <= |spec.indicators|
  {
    ReadAt(root, spec, spec.indicators[n - 1], series, Cutoff(base, BaseTimeframe(spec), k))
  }

  /** The readings with those of the n-th indicator. */
  function WithNext(root: real -> real, spec: Spec, series: Loaded, base: seq<Bar>, raw: Raw, n: nat): Raw
    requires 0 < n <= |spec.indicators|
  {
    Recorded(raw, spec.indicators[n - 1].id, ReadLag(root, spec, series, base, n, 0).GetOr(None),
             ReadLag(root, spec, series, base, n, 1).GetOr(None), ReadLag(root, spec, series, base, n, 2).GetOr(None))
  }

  lemma RawStep(root: real -> real, spec: Spec, series: Loaded, base: seq<Bar>, n: nat)
    requires ValidIndicators(spec.indicators) && 0 < n <= |spec.indicators|
    requires RawOf(root, spec, series, base, n - 1).Ok?
    ensures var raw := RawOf(root, spec, series, base, n - 1).value;
            RawOf(root, spec, series, base, n) == Ok(WithNext(root, spec, series, base, raw, n))
  {
    var ind, tf := spec.indicators[n - 1], BaseTimeframe(spec);
    ReadsShaped(root, spec, ind, series, Cutoff(base, tf, 0));
    ReadsShaped(root, spec, ind, series, Cutoff(base, tf, 1));
    ReadsShaped(root, spec, ind, series, Cutoff(base, tf, 2));
    hide ReadAt, ValidIndicator, Cutoff, BaseTimeframe, Recorded, Shaped;
  }

  lemma IndicatorsAre(inds: seq<Indicator>, i: nat, j: nat)
    requires ValidIndicators(inds) && i <= j < |inds|
    ensures ValidIndicator(inds[j]) && (i < j ==> inds[i].id != inds[j].id)
  {
    hide ValidIndicator;
  }

  lemma ReadsAfter(root: real -> real, spec: Spec, series: Loaded, base: seq<Bar>, raw: Raw, n: nat, i: nat, k: nat)
    requires ValidIndicators(spec.indicators) && i < n <= |spec.indicators| && k < 3
    requires i < n - 1 ==> Reads(root, spec, series, base, raw, spec.indicators[i], k)
    ensures Reads(root, spec, series, base, WithNext(root, spec, series, base, raw, n), spec.indicators[i], k)
  {
    var ind, tf := spec.indicators[n - 1], BaseTimeframe(spec);
    IndicatorsAre(spec.indicators, i, n - 1);
    hide ReadAt, ValidIndicator, ValidIndicators, Cutoff, BaseTimeframe, Recorded, Shaped;
    ReadsShaped(root, spec, ind, series, Cutoff(base, tf, k));
    RecordedAt(raw, ind.id, ReadLag(root, spec, series, base, n, 0).GetOr(None),
               ReadLag(root, spec, series, base, n, 1).GetOr(None), ReadLag(root, spec, series, base, n, 2).GetOr(None),
               spec.indicators[i].id, k);
  }

  lemma RecordedAt(raw: Raw, id: string, r0: Option<Reading>, r1: Option<Reading>, r2: Option<Reading>,
                   other: string, k: nat)
    requires k < 3
    ensures var after := Recorded(raw, id, r0, r1, r2);
            if other == id then (id, k) in after && after[(id, k)] == (if k == 0 then r0 else if k == 1 then r1 else r2)
            else (other, k) in raw ==> (other, k) in after && after[(other, k)] == raw[(other, k)]
  {
  }

  lemma ReadsShaped(root: real -> real, spec: Spec, ind: Indicator, series: Loaded, cutoff: Option<int>)
    requires ValidIndicator(ind)
    ensures ReadAt(root, spec, ind, series, cutoff).Ok?
    ensures Shaped(ind.fn, ReadAt(root, spec, ind, series, cutoff).value)
  {
    var tf := TimeframeOf(spec, ind);
    if cutoff.Some? {
      AcceptedComputes(root, ind, AsOf(BarsOf(series, tf), tf, cutoff.value));
    }
  }

  /** A field the validator accepted selects a number from every reading the indicator can give. */
  lemma FieldSelects(fn: string, reading: Option<Reading>, field: Option<string>)
    requires Shaped(fn, reading)
    requires DictFields(fn) != {} ==> field.Some? && field.value in DictFields(fn)
    ensures ScalarValue(reading, field).None? <==> reading.None?
  {
  }

  /** An operand of an accepted condition is undefined only when the indicator itself computed
      nothing at that instant: both the tested indicator and the one it is compared with. */
  lemma OperandsComeFromCompute(root: real -> real, spec: Spec, series: Loaded, c: Cond, k: nat)
    requires ValidSpec(spec) && ValidCond(spec.indicators, c) && k < 3
    ensures Readings(root, spec, series).Ok?
    ensures var raw := Readings(root, spec, series).value;
            var cutoff := Cutoff(BarsOf(series, BaseTimeframe(spec)), BaseTimeframe(spec), k);
            var inds := spec.indicators;
            && (ScalarValue(Lookup(raw, c.indicator.value, k), c.field).None? <==>
                  ReadAt(root, spec, inds[IndexOf(inds, c.indicator.value)], series, cutoff) == Ok(None))
            && (c.other.Some? ==>
                  (ScalarValue(Lookup(raw, c.other.value, k), c.otherField).None? <==>
                     ReadAt(root, spec, inds[IndexOf(inds, c.other.value)], series, cutoff) == Ok(None)))
  {
    hide ReadAt, Shaped, ValidIndicator;
    var inds := spec.indicators;
    var base := BarsOf(series, BaseTimeframe(spec));
    var cutoff := Cutoff(base, BaseTimeframe(spec), k);
    RawContents(root, spec, series, base, |inds|);
    var raw := Readings(root, spec, series).value;
    var i := IndexOf(inds, c.indicator.value);
    assert Reads(root, spec, series, base, raw, inds[i], k);
    ReadsShaped(root, spec, inds[i], series, cutoff);
    FieldSelects(inds[i].fn, Lookup(raw, c.indicator.value, k), c.field);
    if c.other.Some? {
      var j := IndexOf(inds, c.other.value);
      assert Reads(root, spec, series, base, raw, inds[j], k);
      ReadsShaped(root, spec, inds[j], series, cutoff);
      FieldSelects(inds[j].fn, Lookup(raw, c.other.value, k), c.otherField);
    }
  }

  lemma FiredNeverRaises(spec: Spec, raw: Raw, group: Option<Node>)
    requires ValidSpec(spec) && ValidRule(spec, group)
    ensures Fired(spec, raw, group).Ok?
    ensures Fired(spec, raw, group).value <==>
              && Truthy(group)
              && NodeTrue(spec.states, raw, group.value, 0) == Ok(true)
              && NodeTrue(spec.states, raw, group.value, 1) == Ok(false)
  {
    if Truthy(group) {
      NodeNeverRaises(spec, raw, group.value, 0);
      NodeNeverRaises(spec, raw, group.value, 1);
    }
  }

  /** The strength of an accepted spec is a number between 0 and 1. */
  lemma StrengthInUnit(spec: Spec, side: string, raw: Raw)
    requires ValidSpec(spec)
    ensures StrengthOf(spec, side, raw).Ok? && 0.0 <= StrengthOf(spec, side, raw).value <= 1.0
  {
  }

  /** The map's first end reads 0 and its second end 1, whichever is larger. */
  lemma StrengthAtEnds(spec: Spec, side: string, raw: Raw)
    requires ValidSpec(spec) && side in spec.strength && spec.strength[side].ends[0] != spec.strength[side].ends[1]
    ensures var sp := spec.strength[side];
            var v := ScalarValue(Lookup(raw, sp.from.value, 0), sp.field);
            && (v == Some(sp.ends[0]) ==> StrengthOf(spec, side, raw) == Ok(0.0))
            && (v == Some(sp.ends[1]) ==> StrengthOf(spec, side, raw) == Ok(1.0))
  {
    var sp := spec.strength[side];
    var d := sp.ends[1] - sp.ends[0];
    assert 0.0 / d == 0.0 && d / d == 1.0;
  }

  ghost predicate FiredAt(spec: Spec, raw: Raw, j: nat)
    requires j < 4
  {
    Fired(spec, raw, RulesOf(spec)[j].group) == Ok(true)
  }

  /** Precedence: the signal is that of the first fired rule of buy, exit, cover, short, and a hold
      when none fired; it never raises. */
  lemma FirstFiredWins(spec: Spec, raw: Raw)
    requires ValidSpec(spec)
    ensures var r := FirstFired(spec, raw, RulesOf(spec));
            && r.Ok? && 0.0 <= r.value.strength <= 1.0
            && (r.value.action == Action.Buy <==> FiredAt(spec, raw, 0))
            && (r.value.action == Action.Exit <==> FiredAt(spec, raw, 1) && !FiredAt(spec, raw, 0))
            && (r.value.action == Action.Cover <==>
                  FiredAt(spec, raw, 2) && !FiredAt(spec, raw, 0) && !FiredAt(spec, raw, 1))
            && (r.value.action == Action.Short <==>
                  FiredAt(spec, raw, 3) && !FiredAt(spec, raw, 0) && !FiredAt(spec, raw, 1) && !FiredAt(spec, raw, 2))
            && r.value.action != Action.Sell
  {
    RulesNeverRaise(spec, raw);
    hide Fired, Emit, ValidSpec;
    Unrolled(spec, raw, RulesOf(spec));
  }

  lemma RulesNeverRaise(spec: Spec, raw: Raw)
    requires ValidSpec(spec)
    ensures forall j :: 0 <= j < 4 ==>
              && Fired(spec, raw, RulesOf(spec)[j].group).Ok? && Emit(spec, raw, RulesOf(spec)[j]).Ok?
              && Emit(spec, raw, RulesOf(spec)[j]).value.action == RulesOf(spec)[j].action
              && 0.0 <= Emit(spec, raw, RulesOf(spec)[j]).value.strength <= 1.0
  {
    hide Fired, StrengthOf, Features;
    FiredNeverRaises(spec, raw, spec.buyWhen);
    FiredNeverRaises(spec, raw, spec.exitWhen);
    FiredNeverRaises(spec, raw, spec.coverWhen);
    FiredNeverRaises(spec, raw, spec.shortWhen);
    forall j | 0 <= j < 4
      ensures Emit(spec, raw, RulesOf(spec)[j]).Ok? && 0.0 <= Emit(spec, raw, RulesOf(spec)[j]).value.strength <= 1.0
    {
      StrengthInUnit(spec, RulesOf(spec)[j].side, raw);
    }
  }

  /** The scan of the four rules, written out. */
  lemma Unrolled(spec: Spec, raw: Raw, rules: seq<Rule>)
    requires |rules| == 4
    requires forall j :: 0 <= j < 4 ==> Fired(spec, raw, rules[j].group).Ok?
    ensures FirstFired(spec, raw, rules) ==
              if Fired(spec, raw, rules[0].group).value then Emit(spec, raw, rules[0])
              else if Fired(spec, raw, rules[1].group).value then Emit(spec, raw, rules[1])
              else if Fired(spec, raw, rules[2].group).value then Emit(spec, raw, rules[2])
              else if Fired(spec, raw, rules[3].group).value then Emit(spec, raw, rules[3])
              else Ok(HOLD)
  {
    hide Fired, Emit;
    assert rules[3..][1..] == [] && rules[2..][1..] == rules[3..] && rules[1..][1..] == rules[2..];
    UnrolledOnce(spec, raw, rules[3..]);
    UnrolledOnce(spec, raw, rules[2..]);
    UnrolledOnce(spec, raw, rules[1..]);
    UnrolledOnce(spec, raw, []);
  }

  lemma UnrolledOnce(spec: Spec, raw: Raw, rules: seq<Rule>)
    requires |rules| > 0 ==> Fired(spec, raw, rules[0].group).Ok?
    ensures FirstFired(spec, raw, rules) ==
              if |rules| == 0 then Ok(HOLD)
              else if Fired(spec, raw, rules[0].group).value then Emit(spec, raw, rules[0])
              else FirstFired(spec, raw, rules[1..])
  {
  }

  /** Validator soundness: an accepted spec evaluates without raising on any bars, to a signal of
      strength between 0 and 1. */
  lemma AcceptedEvaluates(root: real -> real, spec: Spec, series: Loaded)
    requires ValidSpec(spec)
    ensures Evaluate(root, spec, series).Ok? && 0.0 <= Evaluate(root, spec, series).value.strength <= 1.0
  {
    RawContents(root, spec, series, BarsOf(series, BaseTimeframe(spec)), |spec.indicators|);
    FirstFiredWins(spec, Readings(root, spec, series).GetOr(map[]));
  }

  // ---------------------------------------------------------------- as-of windows

  /** Bars are in strictly ascending time order. */
  predicate Ascending(bars: seq<Bar>) {
    forall i, j :: 0 <= i < j < |bars| ==> bars[i].ts < bars[j].ts
  }

  lemma {:induction false} AsOfConcat(a: seq<Bar>, b: seq<Bar>, tf: string, cutoff: int)
    ensures AsOf(a + b, tf, cutoff) == AsOf(a, tf, cutoff) + AsOf(b, tf, cutoff)
    decreases |b|
  {
    if |b| == 0 {
      assert a + b == a;
    } else {
      AsOfConcat(a, b[..|b| - 1], tf, cutoff);
      assert (a + b)[..|a + b| - 1] == a + b[..|b| - 1];
    }
  }

  /** What had closed at an earlier instant can be told from what has closed at a later one. */
  lemma {:induction false} AsOfEarlier(bars: seq<Bar>, tf: string, earlier: int, later: int)
    requires earlier <= later
    ensures AsOf(AsOf(bars, tf, later), tf, earlier) == AsOf(bars, tf, earlier)
    decreases |bars|
  {
    if |bars| > 0 {
      var init, last := bars[..|bars| - 1], bars[|bars| - 1];
      AsOfEarlier(init, tf, earlier, later);
      var closed := if ClosedBy(last, tf, later) then [last] else [];
      AsOfConcat(AsOf(init, tf, later), closed, tf, earlier);
      AsOfOne(last, tf, earlier);
    }
  }

  lemma AsOfOne(bar: Bar, tf: string, cutoff: int)
    ensures AsOf([bar], tf, cutoff) == if ClosedBy(bar, tf, cutoff) then [bar] else []
    ensures AsOf([], tf, cutoff) == []
  {
    assert [bar][..0] == [];
  }

  /** Of an ascending series exactly the bars up to one had closed when that one closed. */
  lemma {:induction false} AsOfOwnClose(bars: seq<Bar>, tf: string, i: nat)
    requires Ascending(bars) && i < |bars|
    ensures AsOf(bars, tf, CloseTime(bars[i], tf)) == bars[..i + 1]
    decreases |bars|
  {
    var n, c := |bars| - 1, CloseTime(bars[i], tf);
    if i < n {
      AsOfOwnClose(bars[..n], tf, i);
      assert bars[..n][..i + 1] == bars[..i + 1];
    } else {
      AllClosed(bars[..n], tf, c);
      assert bars == bars[..n] + [bars[n]];
    }
  }

  lemma {:induction false} AllClosed(bars: seq<Bar>, tf: string, cutoff: int)
    requires forall j :: 0 <= j < |bars| ==> ClosedBy(bars[j], tf, cutoff)
    ensures AsOf(bars, tf, cutoff) == bars
    decreases |bars|
  {
    hide ClosedBy;
    if |bars| > 0 {
      AllClosed(bars[..|bars| - 1], tf, cutoff);
    }
  }

  /** The two sets of series agree, in every timeframe, on the bars closed by an instant. */
  ghost predicate SameClosed(a: Loaded, b: Loaded, cutoff: int) {
    forall tf :: AsOf(BarsOf(a, tf), tf, cutoff) == AsOf(BarsOf(b, tf), tf, cutoff)
  }

  lemma SameClosedEarlier(a: Loaded, b: Loaded, earlier: int, later: int)
    requires SameClosed(a, b, later) && earlier <= later
    ensures SameClosed(a, b, earlier)
  {
    forall tf ensures AsOf(BarsOf(a, tf), tf, earlier) == AsOf(BarsOf(b, tf), tf, earlier) {
      AsOfEarlier(BarsOf(a, tf), tf, earlier, later);
      AsOfEarlier(BarsOf(b, tf), tf, earlier, later);
    }
  }

  predicate Until(cutoff: Option<int>, instant: int) {
    cutoff.Some? ==> cutoff.value <= instant
  }

  lemma ReadSame(root: real -> real, spec: Spec, ind: Indicator, a: Loaded, b: Loaded, cutoff: Option<int>,
                 instant: int)
    requires SameClosed(a, b, instant) && Until(cutoff, instant)
    ensures ReadAt(root, spec, ind, a, cutoff) == ReadAt(root, spec, ind, b, cutoff)
  {
    hide Compute;
    if cutoff.Some? {
      SameClosedEarlier(a, b, cutoff.value, instant);
    }
  }

  /** Readings depend only on the bars closed by the newest instant. */
  lemma {:induction false} RawSame(root: real -> real, spec: Spec, a: Loaded, b: Loaded, base: seq<Bar>, instant: int,
                                   n: nat)
    requires SameClosed(a, b, instant) && n <= |spec.indicators|
    requires forall k: nat :: k < 3 ==> Until(Cutoff(base, BaseTimeframe(spec), k), instant)
    ensures RawOf(root, spec, a, base, n) == RawOf(root, spec, b, base, n)
  {
    hide ReadAt, SameClosed, Cutoff, Shadowed, Recorded;
    if n > 0 {
      RawSame(root, spec, a, b, base, instant, n - 1);
      var ind, tf := spec.indicators[n - 1], BaseTimeframe(spec);
      ReadSame(root, spec, ind, a, b, Cutoff(base, tf, 0), instant);
      ReadSame(root, spec, ind, a, b, Cutoff(base, tf, 1), instant);
      ReadSame(root, spec, ind, a, b, Cutoff(base, tf, 2), instant);
      OneMoreSame(root, spec, a, base, b, base, n);
    }
  }

  lemma OneMoreSame(root: real -> real, spec: Spec, a: Loaded, baseA: seq<Bar>, b: Loaded, baseB: seq<Bar>, n: nat)
    requires 0 < n <= |spec.indicators|
    requires RawOf(root, spec, a, baseA, n - 1) == RawOf(root, spec, b, baseB, n - 1)
    requires var ind, tf := spec.indicators[n - 1], BaseTimeframe(spec);
             && ReadAt(root, spec, ind, a, Cutoff(baseA, tf, 0)) == ReadAt(root, spec, ind, b, Cutoff(baseB, tf, 0))
             && ReadAt(root, spec, ind, a, Cutoff(baseA, tf, 1)) == ReadAt(root, spec, ind, b, Cutoff(baseB, tf, 1))
             && ReadAt(root, spec, ind, a, Cutoff(baseA, tf, 2)) == ReadAt(root, spec, ind, b, Cutoff(baseB, tf, 2))
    ensures RawOf(root, spec, a, baseA, n) == RawOf(root, spec, b, baseB, n)
  {
    hide ReadAt, Shadowed, Recorded, Cutoff, BaseTimeframe;
  }

  // ---------------------------------------------------------------- the backtest's steps

  /** What the backtest evaluates at step `i`: the base series up to bar i, the others whole. */
  function Upto(series: Loaded, tf: string, i: nat): Loaded
    requires i < |BarsOf(series, tf)|
  {
    series[tf := BarsOf(series, tf)[..i + 1]]
  }

  function BaseOf(spec: Spec, series: Loaded): seq<Bar> {
    BarsOf(series, BaseTimeframe(spec))
  }

  function StepSeries(spec: Spec, series: Loaded, i: nat): Loaded
    requires i < |BaseOf(spec, series)|
  {
    Upto(series, BaseTimeframe(spec), i)
  }

  /** When base bar `i` closes. */
  function InstantOf(spec: Spec, series: Loaded, i: nat): int
    requires i < |BaseOf(spec, series)|
  {
    CloseTime(BaseOf(spec, series)[i], BaseTimeframe(spec))
  }

  /** The series as they could be seen when base bar `i` closed. */
  function ClosedOnly(series: Loaded, instant: int): Loaded {
    map tf | tf in series :: AsOf(series[tf], tf, instant)
  }

  lemma CutoffsUntil(base: seq<Bar>, tf: string)
    requires Ascending(base) && |base| > 0
    ensures forall k: nat :: k < 3 ==> Until(Cutoff(base, tf, k), CloseTime(base[|base| - 1], tf))
  {
  }

  /** Two sets of series with the same base bars evaluate the same when they agree on what had
      closed by the last base bar. */
  lemma EvaluateSame(root: real -> real, spec: Spec, a: Loaded, b: Loaded)
    requires BaseOf(spec, a) == BaseOf(spec, b) && Ascending(BaseOf(spec, a))
    requires |BaseOf(spec, a)| > 0 ==>
               SameClosed(a, b, CloseTime(BaseOf(spec, a)[|BaseOf(spec, a)| - 1], BaseTimeframe(spec)))
    ensures Evaluate(root, spec, a) == Evaluate(root, spec, b)
  {
    hide SameClosed, FirstFired;
    var base := BaseOf(spec, a);
    if |base| > 0 {
      CutoffsUntil(base, BaseTimeframe(spec));
      RawSame(root, spec, a, b, base, CloseTime(base[|base| - 1], BaseTimeframe(spec)), |spec.indicators|);
    }
  }

  lemma StepSameClosed(spec: Spec, series: Loaded, i: nat)
    requires i < |BaseOf(spec, series)| && Ascending(BaseOf(spec, series))
    ensures SameClosed(StepSeries(spec, series, i), series, InstantOf(spec, series, i))
    ensures SameClosed(ClosedOnly(series, InstantOf(spec, series, i)), series, InstantOf(spec, series, i))
    ensures BaseOf(spec, ClosedOnly(series, InstantOf(spec, series, i))) == BaseOf(spec, series)[..i + 1]
  {
    var base, baseTf, c := BaseOf(spec, series), BaseTimeframe(spec), InstantOf(spec, series, i);
    AsOfOwnClose(base, baseTf, i);
    AsOfEarlier(base, baseTf, c, c);
    forall tf ensures AsOf(BarsOf(StepSeries(spec, series, i), tf), tf, c) == AsOf(BarsOf(series, tf), tf, c) {
    }
    forall tf ensures AsOf(BarsOf(ClosedOnly(series, c), tf), tf, c) == AsOf(BarsOf(series, tf), tf, c) {
      AsOfEarlier(BarsOf(series, tf), tf, c, c);
    }
  }

  lemma SameClosedTransitive(a: Loaded, b: Loaded, c: Loaded, instant: int)
    requires SameClosed(a, b, instant) && SameClosed(b, c, instant)
    ensures SameClosed(a, c, instant)
  {
    forall tf ensures AsOf(BarsOf(a, tf), tf, instant) == AsOf(BarsOf(c, tf), tf, instant) {
      assert AsOf(BarsOf(a, tf), tf, instant) == AsOf(BarsOf(b, tf), tf, instant);
    }
  }

  lemma SameClosedSymmetric(a: Loaded, b: Loaded, instant: int)
    requires SameClosed(a, b, instant)
    ensures SameClosed(b, a, instant)
  {
  }

  /** Passing the higher series whole is the same as passing only what had closed at that moment. */
  lemma WholeEqualsClosed(root: real -> real, spec: Spec, series: Loaded, i: nat)
    requires i < |BaseOf(spec, series)| && Ascending(BaseOf(spec, series))
    ensures Evaluate(root, spec, StepSeries(spec, series, i))
              == Evaluate(root, spec, ClosedOnly(series, InstantOf(spec, series, i)))
  {
    hide Evaluate, SameClosed;
    var c := InstantOf(spec, series, i);
    var a, b := StepSeries(spec, series, i), ClosedOnly(series, c);
    StepSameClosed(spec, series, i);
    SameClosedSymmetric(b, series, c);
    SameClosedTransitive(a, series, b, c);
    EvaluateSame(root, spec, a, b);
  }

  /** No lookahead: series that agree on every bar closed by the close of base bar `i` give the same
      signal at every step up to `i`, however they differ in later bars of any timeframe. */
  lemma NoLookahead(root: real -> real, spec: Spec, a: Loaded, b: Loaded, i: nat, j: nat)
    requires Ascending(BaseOf(spec, a)) && Ascending(BaseOf(spec, b))
    requires j <= i < |BaseOf(spec, a)| && SameClosed(a, b, InstantOf(spec, a, i))
    ensures j < |BaseOf(spec, b)| && BaseOf(spec, a)[..j + 1] == BaseOf(spec, b)[..j + 1]
    ensures Evaluate(root, spec, StepSeries(spec, a, j)) == Evaluate(root, spec, StepSeries(spec, b, j))
  {
    hide Evaluate, SameClosed, Ascending;
    SameBasePrefix(spec, a, b, i);
    var d := InstantOf(spec, a, j);
    assert BaseOf(spec, a)[..j + 1] == BaseOf(spec, a)[..i + 1][..j + 1];
    assert BaseOf(spec, b)[..j + 1] == BaseOf(spec, b)[..i + 1][..j + 1];
    assert BaseOf(spec, b)[j] == BaseOf(spec, b)[..j + 1][j] == BaseOf(spec, a)[..j + 1][j];
    Earlier(spec, a, j, i);
    SameClosedEarlier(a, b, d, InstantOf(spec, a, i));
    StepsAgree(root, spec, a, b, j);
  }

  lemma Earlier(spec: Spec, series: Loaded, j: nat, i: nat)
    requires j <= i < |BaseOf(spec, series)| && Ascending(BaseOf(spec, series))
    ensures InstantOf(spec, series, j) <= InstantOf(spec, series, i)
  {
  }

  lemma SameBasePrefix(spec: Spec, a: Loaded, b: Loaded, i: nat)
    requires Ascending(BaseOf(spec, a)) && Ascending(BaseOf(spec, b))
    requires i < |BaseOf(spec, a)| && SameClosed(a, b, InstantOf(spec, a, i))
    ensures i < |BaseOf(spec, b)| && BaseOf(spec, a)[..i + 1] == BaseOf(spec, b)[..i + 1]
  {
    var tf, c := BaseTimeframe(spec), InstantOf(spec, a, i);
    AsOfOwnClose(BaseOf(spec, a), tf, i);
    AsOfIsPrefix(BaseOf(spec, b), tf, c);
    hide BaseTimeframe, InstantOf;
    assert BaseOf(spec, a)[..i + 1] == AsOf(BaseOf(spec, b), tf, c);
  }

  lemma StepsAgree(root: real -> real, spec: Spec, a: Loaded, b: Loaded, j: nat)
    requires Ascending(BaseOf(spec, a)) && Ascending(BaseOf(spec, b))
    requires j < |BaseOf(spec, a)| && j < |BaseOf(spec, b)| && BaseOf(spec, a)[..j + 1] == BaseOf(spec, b)[..j + 1]
    requires SameClosed(a, b, InstantOf(spec, a, j))
    ensures Evaluate(root, spec, StepSeries(spec, a, j)) == Evaluate(root, spec, StepSeries(spec, b, j))
  {
    hide Evaluate, SameClosed, BaseTimeframe, Span;
    var d := InstantOf(spec, a, j);
    assert BaseOf(spec, b)[j] == BaseOf(spec, b)[..j + 1][j] == BaseOf(spec, a)[..j + 1][j];
    StepSameClosed(spec, a, j);
    StepSameClosed(spec, b, j);
    SameClosedSymmetric(StepSeries(spec, b, j), b, d);
    SameClosedTransitive(StepSeries(spec, a, j), a, b, d);
    SameClosedTransitive(StepSeries(spec, a, j), b, StepSeries(spec, b, j), d);
    EvaluateSame(root, spec, StepSeries(spec, a, j), StepSeries(spec, b, j));
  }

  /** The closed bars of an ascending series are a prefix of it. */
  lemma {:induction false} AsOfIsPrefix(bars: seq<Bar>, tf: string, cutoff: int)
    requires Ascending(bars)
    ensures AsOf(bars, tf, cutoff) <= bars
    decreases |bars|
  {
    if |bars| > 0 {
      var n := |bars| - 1;
      if ClosedBy(bars[n], tf, cutoff) {
        AllClosed(bars, tf, cutoff);
      } else {
        AsOfIsPrefix(bars[..n], tf, cutoff);
      }
    }
  }
}
