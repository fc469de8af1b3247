/** The signals an agent decides on: merging, filtering and enriching them. */
module AgentContext {
  import opened Prelude
  import opened Signals
  import opened Guardrails
  import opened Verdicts

  datatype Emitted = Emitted(symbol: string, action: Action, strength: real)

  datatype Evaluation = Evaluation(strategyId: int, signals: seq<Emitted>)

  datatype Source = Source(strategyId: int, action: Action, strength: real)

  // ---------------------------------------------------------------- merging

  /** The non-hold signals of one strategy for a symbol, in order. */
  function FromSignals(sid: int, sigs: seq<Emitted>, symbol: string): seq<Source> {
    if |sigs| == 0 then []
    else
      var n := |sigs| - 1;
      FromSignals(sid, sigs[..n], symbol)
      + if sigs[n].symbol == symbol && sigs[n].action != Action.Hold
        then [Source(sid, sigs[n].action, sigs[n].strength)] else []
  }

  /** Every contributing signal for a symbol, in the order the strategies were evaluated. */
  function Contributions(evals: seq<Evaluation>, symbol: string): seq<Source> {
    if |evals| == 0 then []
    else
      var n := |evals| - 1;
      Contributions(evals[..n], symbol) + FromSignals(evals[n].strategyId, evals[n].signals, symbol)
  }

  lemma {:induction false} FromConcat(sid: int, s: seq<Emitted>, t: seq<Emitted>, symbol: string)
    ensures FromSignals(sid, s + t, symbol) == FromSignals(sid, s, symbol) + FromSignals(sid, t, symbol)
    decreases |t|
  {
    if |t| == 0 {
      assert s + t == s;
    } else {
      FromConcat(sid, s, t[..|t| - 1], symbol);
      assert (s + t)[..|s + t| - 1] == s + t[..|t| - 1];
    }
  }

  /** The sources of a symbol: one more signal, evaluated last, adds itself at the end when it is of the symbol
      and not a hold, and nothing otherwise. */
  lemma SourcesGrow(evals: seq<Evaluation>, sid: int, sigs: seq<Emitted>, e: Emitted, symbol: string)
    ensures var before := evals + [Evaluation(sid, sigs)];
            var after := evals + [Evaluation(sid, sigs + [e])];
            Contributions(after, symbol) == Contributions(before, symbol)
              + if e.symbol == symbol && !e.action.Hold? then [Source(sid, e.action, e.strength)] else []
    ensures Contributions(evals + [Evaluation(sid, [])], symbol) == Contributions(evals, symbol)
    ensures Contributions([], symbol) == []
  {
    FromConcat(sid, sigs, [e], symbol);
    assert [e][..0] == [];
    assert (evals + [Evaluation(sid, sigs)])[..|evals|] == evals;
    assert (evals + [Evaluation(sid, sigs + [e])])[..|evals|] == evals;
    assert (evals + [Evaluation(sid, [])])[..|evals|] == evals;
  }

  /** The earliest of the strongest. */
  ghost predicate IsWinner(xs: seq<Source>, w: Source) {
    exists i: nat :: WinsAt(xs, w, i)
  }

  ghost predicate WinsAt(xs: seq<Source>, w: Source, i: nat) {
    && i < |xs| && xs[i] == w
    && (forall j :: 0 <= j < |xs| ==> xs[j].strength <= w.strength)
    && (forall j :: 0 <= j < i ==> xs[j].strength < w.strength)
  }

  ghost predicate Merged(primary: map<string, Source>, sources: map<string, seq<Source>>, symbol: string,
                         xs: seq<Source>)
  {
    && (symbol in sources <==> xs != []) && (symbol in primary <==> xs != [])
    && (xs != [] ==> sources[symbol] == xs && IsWinner(xs, primary[symbol]))
  }

  /** The winner is unique. */
  lemma OneWinner(xs: seq<Source>, a: Source, b: Source)
    requires IsWinner(xs, a) && IsWinner(xs, b)
    ensures a == b
  {
    var i: nat :| WinsAt(xs, a, i);
    var j: nat :| WinsAt(xs, b, j);
    assert xs[i].strength <= b.strength && xs[j].strength <= a.strength;
  }

  lemma WinnerAppend(xs: seq<Source>, w: Source, x: Source)
    requires IsWinner(xs, w)
    ensures IsWinner(xs + [x], if x.strength > w.strength then x else w)
  {
    var i: nat :| WinsAt(xs, w, i);
    if x.strength > w.strength {
      assert WinsAt(xs + [x], x, |xs|);
    } else {
      assert WinsAt(xs + [x], w, i);
    }
  }

  lemma FirstWins(x: Source)
    ensures IsWinner([x], x)
  {
    assert WinsAt([x], x, 0);
  }

  /** For every symbol the sources are all its contributing signals in order and the primary is the
      strongest of them, the earliest on a tie. */
  method MergeSignals(evals: seq<Evaluation>)
    returns (primary: map<string, Source>, sources: map<string, seq<Source>>)
    ensures forall symbol :: Merged(primary, sources, symbol, Contributions(evals, symbol))
  {
    primary, sources := map[], map[];
    for i := 0 to |evals|
      invariant forall symbol :: Merged(primary, sources, symbol, Contributions(evals[..i], symbol))
    {
      assert evals[..i + 1][..i] == evals[..i];
      primary, sources := MergeOne(evals, i, primary, sources);
    }
    assert evals[..|evals|] == evals;
  }

  method MergeOne(evals: seq<Evaluation>, i: nat, primary: map<string, Source>, sources: map<string, seq<Source>>)
    returns (primary': map<string, Source>, sources': map<string, seq<Source>>)
    requires i < |evals|
    requires forall symbol :: Merged(primary, sources, symbol, Contributions(evals[..i], symbol))
    ensures forall symbol :: Merged(primary', sources', symbol,
              Contributions(evals[..i], symbol) + FromSignals(evals[i].strategyId, evals[i].signals, symbol))
  {
    hide Merged;
    primary', sources' := primary, sources;
    var sid, sigs := evals[i].strategyId, evals[i].signals;
    ghost var before := evals[..i];
    forall symbol
      ensures Merged(primary', sources', symbol, Contributions(before, symbol) + FromSignals(sid, sigs[..0], symbol))
    {
      assert Contributions(before, symbol) + FromSignals(sid, sigs[..0], symbol) == Contributions(before, symbol);
    }
    for j := 0 to |sigs|
      invariant forall symbol :: Merged(primary', sources', symbol,
                  Contributions(before, symbol) + FromSignals(sid, sigs[..j], symbol))
    {
      assert sigs[..j + 1][..j] == sigs[..j];
      ghost var p, s := primary', sources';
      if sigs[j].action != Action.Hold {
        primary', sources' := AddSource(primary', sources', sigs[j].symbol,
                                        Source(sid, sigs[j].action, sigs[j].strength),
                                        Contributions(before, sigs[j].symbol)
                                        + FromSignals(sid, sigs[..j], sigs[j].symbol));
      }
      forall symbol ensures Merged(primary', sources', symbol,
                              Contributions(before, symbol) + FromSignals(sid, sigs[..j + 1], symbol)) {
        var xs := Contributions(before, symbol) + FromSignals(sid, sigs[..j], symbol);
        if sigs[j].symbol == symbol && sigs[j].action != Action.Hold {
          assert Contributions(before, symbol) + FromSignals(sid, sigs[..j + 1], symbol)
              == xs + [Source(sid, sigs[j].action, sigs[j].strength)];
        } else {
          assert Contributions(before, symbol) + FromSignals(sid, sigs[..j + 1], symbol) == xs;
          assert Merged(p, s, symbol, xs);
          SameEntry(p, s, primary', sources', symbol, xs);
        }
      }
    }
    assert sigs[..|sigs|] == sigs;
  }

  lemma SameEntry(p: map<string, Source>, s: map<string, seq<Source>>, p': map<string, Source>,
                  s': map<string, seq<Source>>, symbol: string, xs: seq<Source>)
    requires Merged(p, s, symbol, xs)
    requires (symbol in p' <==> symbol in p) && (symbol in p ==> p'[symbol] == p[symbol])
    requires (symbol in s' <==> symbol in s) && (symbol in s ==> s'[symbol] == s[symbol])
    ensures Merged(p', s', symbol, xs)
  {
  }

  method AddSource(primary: map<string, Source>, sources: map<string, seq<Source>>, symbol: string, x: Source,
                   ghost xs: seq<Source>)
    returns (primary': map<string, Source>, sources': map<string, seq<Source>>)
    requires Merged(primary, sources, symbol, xs)
    ensures Merged(primary', sources', symbol, xs + [x])
    ensures sources'.Keys == sources.Keys + {symbol} && primary'.Keys == primary.Keys + {symbol}
    ensures forall other :: other in sources && other != symbol ==> sources'[other] == sources[other]
    ensures forall other :: other in primary && other != symbol ==> primary'[other] == primary[other]
  {
    hide IsWinner;
    sources' := sources[symbol := (if symbol in sources then sources[symbol] else []) + [x]];
    primary' := primary;
    if symbol !in primary || x.strength > primary[symbol].strength {
      primary' := primary[symbol := x];
    }
    assert primary'.Keys == primary.Keys + {symbol};
    if xs == [] {
      FirstWins(x);
      assert xs + [x] == [x];
    } else {
      WinnerAppend(xs, primary[symbol], x);
    }
  }

  // ---------------------------------------------------------------- filtering

  function QtyOf(positions: map<string, real>, symbol: string): real {
    if symbol in positions then positions[symbol] else 0.0
  }

  /** Would the signal change something, given the holdings? */
  predicate Actionable(action: Action, qty: real, value: real, cap: real) {
    match action
    case Buy => value < cap
    case Short => Abs(Min(0.0, value)) < cap
    case Exit => qty > 0.0
    case Sell => qty > 0.0
    case Cover => qty < 0.0
    case Hold => false
  }

  function ActionableSignals(signals: map<string, Source>, positions: map<string, real>,
                             values: map<string, real>, equity: real, maxPositionPct: real): map<string, Source>
  {
    map s | s in signals
            && Actionable(signals[s].action, QtyOf(positions, s), ValueOf(values, s), Share(maxPositionPct, equity))
      :: signals[s]
  }

  method FilterActionable(signals: map<string, Source>, positions: map<string, real>,
                          values: map<string, real>, equity: real, maxPositionPct: real)
    returns (out: map<string, Source>)
    ensures out == ActionableSignals(signals, positions, values, equity, maxPositionPct)
  {
    var cap := Share(maxPositionPct, equity);
    out := map[];
    var rest := signals.Keys;
    while rest != {}
      invariant rest <= signals.Keys
      invariant forall s :: s in out <==>
                  && s in signals && s !in rest
                  && Actionable(signals[s].action, QtyOf(positions, s), ValueOf(values, s), cap)
      invariant forall s :: s in out ==> out[s] == signals[s]
      decreases rest
    {
      var symbol :| symbol in rest;
      var qty, val := QtyOf(positions, symbol), ValueOf(values, symbol);
      match signals[symbol].action {
        case Buy => if val < cap { out := out[symbol := signals[symbol]]; }
        case Short => if Abs(Min(0.0, val)) < cap { out := out[symbol := signals[symbol]]; }
        case Exit => if qty > 0.0 { out := out[symbol := signals[symbol]]; }
        case Sell => if qty > 0.0 { out := out[symbol := signals[symbol]]; }
        case Cover => if qty < 0.0 { out := out[symbol := signals[symbol]]; }
        case Hold =>
      }
      rest := rest - {symbol};
    }
  }

  /** With the equity market closed only crypto signals are kept. */
  function MarketFilter(signals: map<string, Source>, equityOpen: bool): map<string, Source> {
    if equityOpen then signals else map s | s in signals && IsCrypto(s) :: signals[s]
  }

  function ActionsOf(signals: map<string, Source>): map<string, Action> {
    map s | s in signals :: signals[s].action
  }

  /** The guardrail context with other signals. */
  function WithSignals(ctx: Context, signals: map<string, Source>): Context {
    ctx.(signals := ActionsOf(signals))
  }

  /** What the agent is shown: the market filter, then the actionability filter. */
  function Shown(ctx: Context, signals: map<string, Source>): map<string, Source> {
    ActionableSignals(MarketFilter(signals, ctx.equityOpen), ctx.positions, ctx.positionValues, ctx.equity,
                      ctx.maxPositionPct)
  }

  /** One proposal is accepted, with the same result, whether or not the signals were filtered. */
  lemma FilterIsTransparentFor(ctx: Context, signals: map<string, Source>, a: Proposal)
    ensures var full, shown := Judge(WithSignals(ctx, signals), a), Judge(WithSignals(ctx, Shown(ctx, signals)), a);
            if full.Accept? then shown == full else shown.Reject?
  {
    var shown := Shown(ctx, signals);
    var cf, cs := WithSignals(ctx, signals), WithSignals(ctx, shown);
    if a.kind == Some("order") && a.side == Some("buy") {
      BuyAcceptedIff(cf, a);
      BuyAcceptedIff(cs, a);
      CappedIgnoresSignals(ctx, signals, shown, "buy", a);
      if Tradable(ctx, a.symbol) {
        ShownOpens(ctx, signals, a.symbol);
      }
      hide Judge, Capped, PassOpen, Share, Shown, Backed;
    } else if a.kind == Some("order") && a.side == Some("short") {
      ShortAcceptedIff(cf, a);
      ShortAcceptedIff(cs, a);
      CappedIgnoresSignals(ctx, signals, shown, "short", a);
      if Tradable(ctx, a.symbol) {
        ShownOpens(ctx, signals, a.symbol);
      }
      hide Judge, Capped, PassOpen, Share, Backing, Shown, Backed;
    } else {
      hide JudgeBuy, JudgeShort, Shown;
    }
  }

  /** On a tradable symbol an open signal is shown exactly when there is room for it. */
  lemma ShownOpens(ctx: Context, signals: map<string, Source>, symbol: string)
    requires Tradable(ctx, symbol)
    ensures var cf, cs := WithSignals(ctx, signals), WithSignals(ctx, Shown(ctx, signals));
            && (Backed(cs, symbol, Action.Buy) <==>
                  Backed(cf, symbol, Action.Buy) && ValueOf(ctx.positionValues, symbol) < PositionCap(ctx))
            && (Backed(cs, symbol, Action.Short) <==>
                  Backed(cf, symbol, Action.Short) && ShortValue(ctx, symbol) < PositionCap(ctx))
  {
    hide Share;
  }

  lemma CappedIgnoresSignals(ctx: Context, x: map<string, Source>, y: map<string, Source>, side: string, a: Proposal)
    ensures Capped(WithSignals(ctx, x), side, a.symbol, a.notional.GetOr(0.0))
              == Capped(WithSignals(ctx, y), side, a.symbol, a.notional.GetOr(0.0))
  {
    hide Share, Backing;
  }

  /** The filters are transparent: for any list of actions the guardrails accept the identical list
      with filtered and with unfiltered signals. */
  lemma {:induction false} FiltersAreTransparent(ctx: Context, signals: map<string, Source>, actions: seq<Proposal>)
    ensures Valid(actions, WithSignals(ctx, signals)) == Valid(actions, WithSignals(ctx, Shown(ctx, signals)))
  {
    hide Judge, WithSignals, Shown;
    if |actions| > 0 {
      var n := |actions| - 1;
      FiltersAreTransparent(ctx, signals, actions[..n]);
      FilterIsTransparentFor(ctx, signals, actions[n]);
    }
  }

  /** A proposal in the direction of a signal; closing ones may be a generic close. */
  predicate Follows(a: Proposal, symbol: string, action: Action) {
    && a.symbol == symbol
    && match action
       case Buy => a.kind == Some("order") && a.side == Some("buy")
       case Short => a.kind == Some("order") && a.side == Some("short")
       case Exit => a.kind == Some("close") || (a.kind == Some("order") && a.side == Some("sell"))
       case Sell => a.kind == Some("close") || (a.kind == Some("order") && a.side == Some("sell"))
       case Cover => a.kind == Some("close") || (a.kind == Some("order") && a.side == Some("cover"))
       case Hold => false
  }

  /** Whatever is asked for, some proposal in the direction of the signal is accepted. */
  ghost predicate AcceptsSome(ctx: Context, symbol: string, action: Action) {
    exists a :: Follows(a, symbol, action) && Judge(ctx, a).Accept?
  }

  /** Which signals are shown: those the market is open for and that holdings leave something to do - room
      under the concentration cap on their side for an open, a held long to sell or exit, a held short to
      cover. */
  lemma ShownIff(ctx: Context, signals: map<string, Source>, symbol: string, cap: real)
    requires cap == ctx.maxPositionPct * ctx.equity
    ensures symbol in Shown(ctx, signals) <==>
              && symbol in signals && (ctx.equityOpen || '/' in symbol)
              && var value := MarketValue(ctx, symbol);
              match signals[symbol].action {
                case Buy => value < cap
                case Short => 0.0 < cap && -value < cap
                case Exit => Quantity(ctx, symbol) > 0.0
                case Sell => Quantity(ctx, symbol) > 0.0
                case Cover => Quantity(ctx, symbol) < 0.0
                case Hold => false
              }
    ensures symbol in Shown(ctx, signals) ==> Shown(ctx, signals)[symbol] == signals[symbol]
  {
    CapsAre(ctx, symbol);
    hide Share;
  }

  /** What the guardrails ask of a context before any proposal is made, and the filter does not: the
      other side not held, a slot, and something left of each cap but concentration. */
  predicate HasRoom(ctx: Context, symbol: string, action: Action) {
    match action
    case Buy => symbol !in Shorts(ctx) && SlotFree(ctx, symbol) && TickCap(ctx) > 0.0 && ctx.cash > 0.0
    case Short => symbol !in Longs(ctx) && SlotFree(ctx, symbol) && TickCap(ctx) > 0.0 && CollateralRoom(ctx) > 0.0
    case _ => true
  }

  function Sample(symbol: string, kind: string, side: Option<string>): Proposal {
    Proposal(Some(kind), symbol, side, Some(1.0), Some(0.1), None, None, "")
  }

  lemma BuyFollowedIff(ctx: Context, signals: map<string, Source>, symbol: string)
    requires symbol in Shown(ctx, signals) && Tradable(ctx, symbol) && signals[symbol].action == Action.Buy
    ensures AcceptsSome(WithSignals(ctx, Shown(ctx, signals)), symbol, Action.Buy) <==> HasRoom(ctx, symbol, Action.Buy)
  {
    var cs := WithSignals(ctx, Shown(ctx, signals));
    ShownOpens(ctx, signals, symbol);
    forall a | Follows(a, symbol, Action.Buy) ensures Judge(cs, a).Accept? ==> HasRoom(ctx, symbol, Action.Buy) {
      BuyAcceptedIff(cs, a);
    }
    BuyAcceptedIff(cs, Sample(symbol, "order", Some("buy")));
    assert Follows(Sample(symbol, "order", Some("buy")), symbol, Action.Buy);
    hide Judge, Share;
  }

  lemma ShortFollowedIff(ctx: Context, signals: map<string, Source>, symbol: string)
    requires symbol in Shown(ctx, signals) && Tradable(ctx, symbol) && signals[symbol].action == Action.Short
    ensures AcceptsSome(WithSignals(ctx, Shown(ctx, signals)), symbol, Action.Short) <==>
              HasRoom(ctx, symbol, Action.Short)
  {
    var cs := WithSignals(ctx, Shown(ctx, signals));
    ShownOpens(ctx, signals, symbol);
    forall a | Follows(a, symbol, Action.Short) ensures Judge(cs, a).Accept? ==> HasRoom(ctx, symbol, Action.Short) {
      ShortAcceptedIff(cs, a);
    }
    ShortAcceptedIff(cs, Sample(symbol, "order", Some("short")));
    assert Follows(Sample(symbol, "order", Some("short")), symbol, Action.Short);
    hide Judge, Share, Backing;
  }

  lemma ShownCloses(ctx: Context, signals: map<string, Source>, symbol: string)
    requires symbol in Shown(ctx, signals) && Tradable(ctx, symbol)
    requires signals[symbol].action != Action.Buy && signals[symbol].action != Action.Short
    ensures AcceptsSome(WithSignals(ctx, Shown(ctx, signals)), symbol, signals[symbol].action)
  {
    var close := Sample(symbol, "close", None);
    assert signals[symbol].action != Action.Hold && symbol in HeldSymbols(ctx);
    assert Follows(close, symbol, signals[symbol].action);
    assert Judge(WithSignals(ctx, Shown(ctx, signals)), close).Accept?;
  }

  /** The filter promises to mirror what the guardrails accept.  It does exactly when the context has
      room: on a tradable symbol a shown signal can be followed if and only if it has. */
  lemma ShownAcceptedIff(ctx: Context, signals: map<string, Source>, symbol: string)
    requires symbol in Shown(ctx, signals) && Tradable(ctx, symbol)
    ensures AcceptsSome(WithSignals(ctx, Shown(ctx, signals)), symbol, signals[symbol].action) <==>
              HasRoom(ctx, symbol, signals[symbol].action)
  {
    hide WithSignals, AcceptsSome, Tradable;
    if signals[symbol].action == Action.Buy {
      BuyFollowedIff(ctx, signals, symbol);
    } else if signals[symbol].action == Action.Short {
      ShortFollowedIff(ctx, signals, symbol);
    } else {
      ShownCloses(ctx, signals, symbol);
    }
  }

  /** Nothing that could be followed is hidden: on a tradable symbol a signal to open can be followed,
      with all signals in view, exactly when it is shown and there is room. */
  lemma FollowedIff(ctx: Context, signals: map<string, Source>, symbol: string)
    requires symbol in signals && Tradable(ctx, symbol)
    requires signals[symbol].action == Action.Buy || signals[symbol].action == Action.Short
    ensures AcceptsSome(WithSignals(ctx, signals), symbol, signals[symbol].action) <==>
              symbol in Shown(ctx, signals) && HasRoom(ctx, symbol, signals[symbol].action)
  {
    var action := signals[symbol].action;
    forall a | Follows(a, symbol, action)
      ensures Judge(WithSignals(ctx, signals), a).Accept? <==> Judge(WithSignals(ctx, Shown(ctx, signals)), a).Accept?
      ensures symbol !in Shown(ctx, signals) ==> !Judge(WithSignals(ctx, Shown(ctx, signals)), a).Accept?
    {
      FilterIsTransparentFor(ctx, signals, a);
    }
    hide Judge, Shown, WithSignals, HasRoom, Follows;
    if symbol in Shown(ctx, signals) {
      ShownAcceptedIff(ctx, signals, symbol);
    }
  }

  /** It does not always have: a buy signal on a symbol held short is shown, although every buy of it
      is then refused... */
  lemma ShownButRefused(ctx: Context, signals: map<string, Source>, symbol: string, a: Proposal)
    requires symbol in signals && signals[symbol].action == Action.Buy && Tradable(ctx, symbol)
    requires symbol in Shorts(ctx) && ValueOf(ctx.positionValues, symbol) < PositionCap(ctx)
    requires a.symbol == symbol && a.kind == Some("order") && a.side == Some("buy")
    ensures symbol in Shown(ctx, signals)
    ensures Judge(WithSignals(ctx, Shown(ctx, signals)), a) == Reject(CoverFirst)
  {
    hide Share;
  }

  /** ... and one on a symbol not held is shown when every slot is taken. */
  lemma ShownWithoutSlot(ctx: Context, signals: map<string, Source>, symbol: string, a: Proposal)
    requires symbol in signals && signals[symbol].action == Action.Buy && Tradable(ctx, symbol)
    requires !SlotFree(ctx, symbol) && ValueOf(ctx.positionValues, symbol) < PositionCap(ctx)
    requires a.symbol == symbol && a.kind == Some("order") && a.side == Some("buy")
    ensures symbol in Shown(ctx, signals)
    ensures Judge(WithSignals(ctx, Shown(ctx, signals)), a) == Reject(TooManyPositions)
  {
    hide Share;
  }

  // ---------------------------------------------------------------- enriching

  datatype Enriched = Enriched(signal: Source, sources: seq<Source>, conflict: bool)

  function ActionSet(sources: seq<Source>): set<Action> {
    set i | 0 <= i < |sources| :: sources[i].action
  }

  function Enrich(signal: Source, sources: seq<Source>): Enriched {
    Enriched(signal, sources, |ActionSet(sources)| > 1)
  }

  /** The conflict flag is set exactly when two strategies disagree on the action. */
  lemma ConflictIff(signal: Source, sources: seq<Source>)
    ensures Enrich(signal, sources).conflict <==>
              exists i, j :: 0 <= i < j < |sources| && sources[i].action != sources[j].action
  {
    var acts := ActionSet(sources);
    if i, j :| 0 <= i < j < |sources| && sources[i].action != sources[j].action {
      assert {sources[i].action, sources[j].action} <= acts;
      SubsetSize({sources[i].action, sources[j].action}, acts);
    } else if |sources| > 0 {
      forall x | x in acts ensures x == sources[0].action {
      }
      assert acts == {sources[0].action};
    }
  }

  method EnrichActionable(signals: map<string, Source>, sources: map<string, seq<Source>>)
    returns (out: map<string, Enriched>)
    ensures out == map s | s in signals :: Enrich(signals[s], if s in sources then sources[s] else [])
  {
    out := map[];
    var rest := signals.Keys;
    while rest != {}
      invariant rest <= signals.Keys && out.Keys == signals.Keys - rest
      invariant forall s :: s in out ==> out[s] == Enrich(signals[s], if s in sources then sources[s] else [])
      decreases rest
    {
      var symbol :| symbol in rest;
      var srcs := if symbol in sources then sources[symbol] else [];
      out := out[symbol := Enrich(signals[symbol], srcs)];
      rest := rest - {symbol};
    }
  }
}
