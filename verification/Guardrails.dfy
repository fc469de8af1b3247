/**
 The deterministic layer between the language model's proposals and the broker: a batch of actions
 in, the accepted ones (with capped notionals) and the rejected ones (with a reason) out.
 */
module Guardrails {
  import opened Prelude
  import opened Signals

  /** A proposed action; every key but the symbol may be missing. */
  datatype Proposal = Proposal(
    kind: Option<string>, symbol: string, side: Option<string>, notional: Option<real>,
    stopLoss: Option<real>, takeProfit: Option<real>, trailing: Option<real>, rationale: string)

  datatype Opening = Opening(
    symbol: string, side: string, notional: real, stopLoss: Option<real>, takeProfit: Option<real>,
    trailing: Option<real>, rationale: string)

  /** What is passed on: a generic close, a sell or cover as proposed, or a capped opening. */
  datatype Accepted = Close(symbol: string, rationale: string) | AsProposed(action: Proposal) | Open(opening: Opening)

  datatype Reason =
    | NotInUniverse | MarketClosed | NothingToClose | UnknownType | NoOpenLong | NoOpenShort
    | CoverFirst | CloseFirst | NotSignalBacked | TooManyPositions | NotionalNotPositive | NoStopLoss | NoRoom
    | UnknownSide

  datatype Verdict = Accept(accepted: Accepted) | Reject(reason: Reason)

  datatype Rejection = Rejection(action: Proposal, reason: Reason)

  /** Positions are signed quantities and signed market values; amounts are in dollars. */
  datatype Context = Context(
    equity: real, cash: real, positions: map<string, real>, positionValues: map<string, real>,
    signals: map<string, Action>, universe: set<string>, equityOpen: bool, buyingPower: real,
    maxPositionPct: real, perTickPct: real, maxPositions: int, shortMult: real)

  predicate IsCrypto(symbol: string) {
    '/' in symbol
  }

  function Longs(ctx: Context): set<string> {
    set s | s in ctx.positions && ctx.positions[s] > 0.0
  }

  function Shorts(ctx: Context): set<string> {
    set s | s in ctx.positions && ctx.positions[s] < 0.0
  }

  function HeldSymbols(ctx: Context): set<string> {
    Longs(ctx) + Shorts(ctx)
  }

  function ValueOf(values: map<string, real>, symbol: string): real {
    if symbol in values then values[symbol] else 0.0
  }

  function Share(pct: real, equity: real): real {
    pct * equity
  }

  function PositionCap(ctx: Context): real {
    Share(ctx.maxPositionPct, ctx.equity)
  }

  function TickCap(ctx: Context): real {
    Share(ctx.perTickPct, ctx.equity)
  }

  function ShortValue(ctx: Context, symbol: string): real {
    Abs(Min(0.0, ValueOf(ctx.positionValues, symbol)))
  }

  function LongRoom(ctx: Context, symbol: string): real {
    Max(0.0, PositionCap(ctx) - ValueOf(ctx.positionValues, symbol))
  }

  function ShortRoom(ctx: Context, symbol: string): real {
    Max(0.0, PositionCap(ctx) - ShortValue(ctx, symbol))
  }

  /** The largest amount whose collateral fits the buying power. */
  function Backing(power: real, mult: real): real {
    if mult != 0.0 then power / mult else 0.0
  }

  function CollateralRoom(ctx: Context): real {
    Backing(ctx.buyingPower, ctx.shortMult)
  }

  function Capped(ctx: Context, side: string, symbol: string, notional: real): real {
    if side == "buy" then Min(Min(Min(notional, TickCap(ctx)), LongRoom(ctx, symbol)), ctx.cash)
    else Min(Min(Min(notional, TickCap(ctx)), ShortRoom(ctx, symbol)), CollateralRoom(ctx))
  }

  function PassOpen(action: Proposal, side: string, notional: real): Accepted {
    Open(Opening(action.symbol, side, RoundCents(notional), action.stopLoss, action.takeProfit, action.trailing,
                 action.rationale))
  }

  function JudgeBuy(ctx: Context, a: Proposal): Verdict {
    if a.symbol in Shorts(ctx) then Reject(CoverFirst)
    else if a.symbol !in ctx.signals || ctx.signals[a.symbol] != Action.Buy then Reject(NotSignalBacked)
    else if a.symbol !in HeldSymbols(ctx) && |HeldSymbols(ctx)| >= ctx.maxPositions then Reject(TooManyPositions)
    else if a.notional.GetOr(0.0) <= 0.0 then Reject(NotionalNotPositive)
    else
      var capped := Capped(ctx, "buy", a.symbol, a.notional.value);
      if capped <= 0.0 then Reject(NoRoom) else Accept(PassOpen(a, "buy", capped))
  }

  function JudgeShort(ctx: Context, a: Proposal): Verdict {
    if a.symbol in Longs(ctx) then Reject(CloseFirst)
    else if a.symbol !in ctx.signals || ctx.signals[a.symbol] != Action.Short then Reject(NotSignalBacked)
    else if a.symbol !in HeldSymbols(ctx) && |HeldSymbols(ctx)| >= ctx.maxPositions then Reject(TooManyPositions)
    else if a.stopLoss.None? then Reject(NoStopLoss)
    else if a.notional.GetOr(0.0) <= 0.0 then Reject(NotionalNotPositive)
    else
      var capped := Capped(ctx, "short", a.symbol, a.notional.value);
      if capped <= 0.0 then Reject(NoRoom) else Accept(PassOpen(a, "short", capped))
  }

  function Judge(ctx: Context, a: Proposal): Verdict {
    if a.symbol !in ctx.universe then Reject(NotInUniverse)
    else if !ctx.equityOpen && !IsCrypto(a.symbol) then Reject(MarketClosed)
    else if a.kind == Some("close") then
      if a.symbol !in HeldSymbols(ctx) then Reject(NothingToClose) else Accept(Close(a.symbol, a.rationale))
    else if a.kind != Some("order") then Reject(UnknownType)
    else if a.side == Some("sell") then
      if a.symbol !in Longs(ctx) then Reject(NoOpenLong) else Accept(AsProposed(a))
    else if a.side == Some("cover") then
      if a.symbol !in Shorts(ctx) then Reject(NoOpenShort) else Accept(AsProposed(a))
    else if a.side == Some("buy") then JudgeBuy(ctx, a)
    else if a.side == Some("short") then JudgeShort(ctx, a)
    else Reject(UnknownSide)
  }

  /** The accepted actions, in the order proposed. */
  function Valid(actions: seq<Proposal>, ctx: Context): (r: seq<Accepted>)
    ensures |r| <= |actions|
  {
    if |actions| == 0 then []
    else
      var n := |actions| - 1;
      var v := Judge(ctx, actions[n]);
      Valid(actions[..n], ctx) + if v.Accept? then [v.accepted] else []
  }

  function Rejected(actions: seq<Proposal>, ctx: Context): (r: seq<Rejection>)
    ensures |r| == |actions| - |Valid(actions, ctx)|
  {
    if |actions| == 0 then []
    else
      var n := |actions| - 1;
      var v := Judge(ctx, actions[n]);
      Rejected(actions[..n], ctx) + if v.Reject? then [Rejection(actions[n], v.reason)] else []
  }

  method Validate(actions: seq<Proposal>, ctx: Context) returns (valid: seq<Accepted>, rejected: seq<Rejection>)
    ensures valid == Valid(actions, ctx) && rejected == Rejected(actions, ctx)
  {
    hide JudgeBuy, JudgeShort, IsCrypto;
    valid, rejected := [], [];
    var longs, shorts := Longs(ctx), Shorts(ctx);
    var held := longs + shorts;
    for i := 0 to |actions|
      invariant valid == Valid(actions[..i], ctx) && rejected == Rejected(actions[..i], ctx)
    {
      assert actions[..i + 1][..i] == actions[..i];
      var a := actions[i];
      if a.symbol !in ctx.universe {
        rejected := rejected + [Rejection(a, NotInUniverse)];
        continue;
      }
      if !ctx.equityOpen && !IsCrypto(a.symbol) {
        rejected := rejected + [Rejection(a, MarketClosed)];
        continue;
      }
      if a.kind == Some("close") {
        if a.symbol !in held {
          rejected := rejected + [Rejection(a, NothingToClose)];
          continue;
        }
        valid := valid + [Close(a.symbol, a.rationale)];
        continue;
      }
      if a.kind != Some("order") {
        rejected := rejected + [Rejection(a, UnknownType)];
        continue;
      }
      if a.side == Some("sell") {
        if a.symbol !in longs {
          rejected := rejected + [Rejection(a, NoOpenLong)];
          continue;
        }
        valid := valid + [AsProposed(a)];
        continue;
      }
      if a.side == Some("cover") {
        if a.symbol !in shorts {
          rejected := rejected + [Rejection(a, NoOpenShort)];
          continue;
        }
        valid := valid + [AsProposed(a)];
        continue;
      }
      var verdict := Reject(UnknownSide);
      if a.side == Some("buy") {
        verdict := OpenLong(ctx, a, longs, shorts);
      } else if a.side == Some("short") {
        verdict := OpenShort(ctx, a, longs, shorts);
      }
      if verdict.Accept? {
        valid := valid + [verdict.accepted];
      } else {
        rejected := rejected + [Rejection(a, verdict.reason)];
      }
    }
    assert actions[..|actions|] == actions;
  }

  /** Open or add to a long: signal-backed, capped per tick, by concentration and by cash. */
  method OpenLong(ctx: Context, a: Proposal, longs: set<string>, shorts: set<string>) returns (v: Verdict)
    requires longs == Longs(ctx) && shorts == Shorts(ctx)
    ensures v == JudgeBuy(ctx, a)
  {
    hide PassOpen, PositionCap, TickCap;
    if a.symbol in shorts {
      return Reject(CoverFirst);
    }
    if a.symbol !in ctx.signals || ctx.signals[a.symbol] != Action.Buy {
      return Reject(NotSignalBacked);
    }
    if a.symbol !in longs + shorts && |longs + shorts| >= ctx.maxPositions {
      return Reject(TooManyPositions);
    }
    var notional := a.notional.GetOr(0.0);
    if notional <= 0.0 {
      return Reject(NotionalNotPositive);
    }
    var room := Max(0.0, PositionCap(ctx) - ValueOf(ctx.positionValues, a.symbol));
    var capped := Min(Min(Min(notional, TickCap(ctx)), room), ctx.cash);
    if capped <= 0.0 {
      return Reject(NoRoom);
    }
    return Accept(PassOpen(a, "buy", capped));
  }

  /** Open or add to a short: signal-backed, with a stop, capped by concentration and collateral. */
  method OpenShort(ctx: Context, a: Proposal, longs: set<string>, shorts: set<string>) returns (v: Verdict)
    requires longs == Longs(ctx) && shorts == Shorts(ctx)
    ensures v == JudgeShort(ctx, a)
  {
    hide PassOpen, PositionCap, TickCap, CollateralRoom;
    if a.symbol in longs {
      return Reject(CloseFirst);
    }
    if a.symbol !in ctx.signals || ctx.signals[a.symbol] != Action.Short {
      return Reject(NotSignalBacked);
    }
    if a.symbol !in longs + shorts && |longs + shorts| >= ctx.maxPositions {
      return Reject(TooManyPositions);
    }
    if a.stopLoss.None? {
      return Reject(NoStopLoss);
    }
    var notional := a.notional.GetOr(0.0);
    if notional <= 0.0 {
      return Reject(NotionalNotPositive);
    }
    var existingShort := Abs(Min(0.0, ValueOf(ctx.positionValues, a.symbol)));
    var room := Max(0.0, PositionCap(ctx) - existingShort);
    var capped := Min(Min(Min(notional, TickCap(ctx)), room), CollateralRoom(ctx));
    if capped <= 0.0 {
      return Reject(NoRoom);
    }
    return Accept(PassOpen(a, "short", capped));
  }

  // ---------------------------------------------------------------- what acceptance means

  /** Every accepted entry comes from a proposal that was judged acceptable, in the same order. */
  lemma {:induction false} ValidComesFrom(actions: seq<Proposal>, ctx: Context, k: nat)
    requires k < |Valid(actions, ctx)|
    ensures exists i :: 0 <= i < |actions| && Judge(ctx, actions[i]) == Accept(Valid(actions, ctx)[k])
                     && k <= i && k == |Valid(actions[..i], ctx)|
  {
    hide Judge;
    var n := |actions| - 1;
    if k < |Valid(actions[..n], ctx)| {
      ValidComesFrom(actions[..n], ctx, k);
      var i :| 0 <= i < n && Judge(ctx, actions[..n][i]) == Accept(Valid(actions[..n], ctx)[k])
               && k <= i && k == |Valid(actions[..n][..i], ctx)|;
      assert actions[..n][..i] == actions[..i] && actions[..n][i] == actions[i];
    }
  }

  predicate Tradable(ctx: Context, symbol: string) {
    symbol in ctx.universe && (ctx.equityOpen || IsCrypto(symbol))
  }

  predicate SlotFree(ctx: Context, symbol: string) {
    symbol in HeldSymbols(ctx) || |HeldSymbols(ctx)| < ctx.maxPositions
  }

  predicate Backed(ctx: Context, symbol: string, action: Action) {
    symbol in ctx.signals && ctx.signals[symbol] == action
  }

  /** The safety of every accepted entry: closes have a position of the right sign behind them, and
      opens are signal-backed, never against an existing position, within the requested notional
      and - up to half a cent of rounding - within the per-order, concentration and cash or
      collateral caps; a short carries a stop. */
  ghost predicate Safe(ctx: Context, e: Accepted) {
    match e
    case Close(symbol, _) => Tradable(ctx, symbol) && symbol in HeldSymbols(ctx)
    case AsProposed(a) =>
      && Tradable(ctx, a.symbol)
      && ((a.side == Some("sell") && a.symbol in Longs(ctx)) || (a.side == Some("cover") && a.symbol in Shorts(ctx)))
    case Open(o) =>
      && Tradable(ctx, o.symbol) && SlotFree(ctx, o.symbol) && o.notional >= 0.0
      && o.notional <= TickCap(ctx) + 0.005
      && (if o.side == "buy" then
            && Backed(ctx, o.symbol, Action.Buy) && o.symbol !in Shorts(ctx)
            && ValueOf(ctx.positionValues, o.symbol) + o.notional <= PositionCap(ctx) + 0.005
            && o.notional <= ctx.cash + 0.005
          else
            && o.side == "short" && Backed(ctx, o.symbol, Action.Short) && o.symbol !in Longs(ctx)
            && o.stopLoss.Some?
            && ShortValue(ctx, o.symbol) + o.notional <= PositionCap(ctx) + 0.005
            && (ctx.shortMult > 0.0 ==> o.notional * ctx.shortMult <= ctx.buyingPower + 0.005 * ctx.shortMult))
  }

  lemma RoomSigns(ctx: Context, symbol: string)
    ensures LongRoom(ctx, symbol) > 0.0 <==> ValueOf(ctx.positionValues, symbol) < PositionCap(ctx)
    ensures LongRoom(ctx, symbol) > 0.0 ==>
              LongRoom(ctx, symbol) + ValueOf(ctx.positionValues, symbol) == PositionCap(ctx)
    ensures ShortRoom(ctx, symbol) > 0.0 <==> ShortValue(ctx, symbol) < PositionCap(ctx)
    ensures ShortRoom(ctx, symbol) > 0.0 ==> ShortRoom(ctx, symbol) + ShortValue(ctx, symbol) == PositionCap(ctx)
  {
    hide PositionCap, ShortValue;
  }

  lemma CollateralFits(ctx: Context, capped: real, notional: real)
    requires ctx.shortMult > 0.0 && capped <= CollateralRoom(ctx) && notional <= capped + 0.005
    ensures notional * ctx.shortMult <= ctx.buyingPower + 0.005 * ctx.shortMult
  {
    BackingFits(ctx.buyingPower, ctx.shortMult, notional);
  }

  lemma BackingFits(power: real, mult: real, notional: real)
    requires mult > 0.0 && notional <= Backing(power, mult) + 0.005
    ensures notional * mult <= power + 0.005 * mult
  {
    var room := power / mult;
    assert room * mult == power;
    TimesMonotone(mult, notional, room + 0.005);
  }

  lemma TimesMonotone(w: real, x: real, y: real)
    requires w > 0.0 && x <= y
    ensures x * w <= y * w
  {
  }

  /** Whatever the model proposes, every accepted action is safe. */
  lemma AcceptedIsSafe(actions: seq<Proposal>, ctx: Context, k: nat)
    requires k < |Valid(actions, ctx)|
    ensures Safe(ctx, Valid(actions, ctx)[k])
  {
    hide Safe, Judge;
    ValidComesFrom(actions, ctx, k);
    var i :| 0 <= i < |actions| && Judge(ctx, actions[i]) == Accept(Valid(actions, ctx)[k]);
    JudgedSafe(ctx, actions[i]);
  }

  lemma JudgedSafe(ctx: Context, a: Proposal)
    requires Judge(ctx, a).Accept?
    ensures Safe(ctx, Judge(ctx, a).accepted)
  {
    hide Capped, RoundCents, TickCap, PositionCap, ShortValue, CollateralRoom, HeldSymbols;
    if a.kind == Some("order") && a.side == Some("buy") {
      BuySafe(ctx, a);
    } else if a.kind == Some("order") && a.side == Some("short") {
      ShortSafe(ctx, a);
    }
  }

  lemma BuySafe(ctx: Context, a: Proposal)
    requires a.kind == Some("order") && a.side == Some("buy") && Judge(ctx, a).Accept?
    ensures Safe(ctx, Judge(ctx, a).accepted)
  {
    BuyAcceptedIff(ctx, a);
    hide Judge, Capped, RoundCents, TickCap, PositionCap, SlotFree, Tradable, LongRoom;
    RoundCentsNear(Capped(ctx, "buy", a.symbol, a.notional.GetOr(0.0)));
    CapsHold(ctx, "buy", a.symbol, a.notional.GetOr(0.0));
    RoomSigns(ctx, a.symbol);
  }

  lemma ShortSafe(ctx: Context, a: Proposal)
    requires a.kind == Some("order") && a.side == Some("short") && Judge(ctx, a).Accept?
    ensures Safe(ctx, Judge(ctx, a).accepted)
  {
    ShortAcceptedIff(ctx, a);
    hide Judge, Capped, RoundCents, TickCap, PositionCap, SlotFree, Tradable, ShortRoom, CollateralRoom, ShortValue;
    var capped := Capped(ctx, "short", a.symbol, a.notional.GetOr(0.0));
    RoundCentsNear(capped);
    CapsHold(ctx, "short", a.symbol, a.notional.GetOr(0.0));
    RoomSigns(ctx, a.symbol);
    if ctx.shortMult > 0.0 {
      CollateralFits(ctx, capped, RoundCents(capped));
    }
  }

  lemma CapsHold(ctx: Context, side: string, symbol: string, notional: real)
    ensures var c := Capped(ctx, side, symbol, notional);
            && c <= notional && c <= TickCap(ctx)
            && c <= (if side == "buy" then LongRoom(ctx, symbol) else ShortRoom(ctx, symbol))
            && c <= (if side == "buy" then ctx.cash else CollateralRoom(ctx))
  {
    hide TickCap, LongRoom, ShortRoom, CollateralRoom;
  }

  predicate MayBuy(ctx: Context, a: Proposal) {
    && Tradable(ctx, a.symbol) && a.symbol !in Shorts(ctx) && Backed(ctx, a.symbol, Action.Buy)
    && SlotFree(ctx, a.symbol) && a.notional.GetOr(0.0) > 0.0
    && TickCap(ctx) > 0.0 && ctx.cash > 0.0
    && ValueOf(ctx.positionValues, a.symbol) < PositionCap(ctx)
  }

  /** A tradable buy is accepted exactly when it faces no short, is backed by a buy signal, has a
      slot, asks for something, and every cap leaves something. */
  lemma BuyAcceptedIff(ctx: Context, a: Proposal)
    requires a.kind == Some("order") && a.side == Some("buy")
    ensures Judge(ctx, a).Accept? <==> MayBuy(ctx, a)
    ensures Judge(ctx, a).Accept? ==>
              && Capped(ctx, "buy", a.symbol, a.notional.GetOr(0.0)) > 0.0
              && Judge(ctx, a).accepted == PassOpen(a, "buy", Capped(ctx, "buy", a.symbol, a.notional.GetOr(0.0)))
  {
    hide PositionCap, TickCap, PassOpen, IsCrypto, Shorts, Longs, HeldSymbols, JudgeShort;
    RoomSigns(ctx, a.symbol);
  }

  /** A tradable short likewise, and it must carry a stop. */
  lemma ShortAcceptedIff(ctx: Context, a: Proposal)
    requires a.kind == Some("order") && a.side == Some("short")
    ensures Judge(ctx, a).Accept? <==>
              && Tradable(ctx, a.symbol) && a.symbol !in Longs(ctx) && Backed(ctx, a.symbol, Action.Short)
              && SlotFree(ctx, a.symbol) && a.notional.GetOr(0.0) > 0.0 && a.stopLoss.Some?
              && TickCap(ctx) > 0.0 && CollateralRoom(ctx) > 0.0
              && ShortValue(ctx, a.symbol) < PositionCap(ctx)
    ensures Judge(ctx, a).Accept? ==>
              && Capped(ctx, "short", a.symbol, a.notional.GetOr(0.0)) > 0.0
              && Judge(ctx, a).accepted == PassOpen(a, "short", Capped(ctx, "short", a.symbol, a.notional.GetOr(0.0)))
  {
    hide PositionCap, TickCap, CollateralRoom, ShortValue, PassOpen, IsCrypto, Shorts, Longs, HeldSymbols, JudgeBuy;
    RoomSigns(ctx, a.symbol);
  }

  /** The caps are per action: nothing is set aside across a batch, so accepted opens can add up to
      more than the cash. */
  lemma CapsArePerAction()
    ensures var ctx := Context(100.0, 10.0, map[], map[], map["A" := Action.Buy], {"A"}, true, 10.0, 0.2, 0.15, 8, 1.5);
            var buy := Proposal(Some("order"), "A", Some("buy"), Some(10.0), None, None, None, "");
            && |Valid([buy, buy], ctx)| == 2
            && (forall k :: 0 <= k < 2 ==>
                  Valid([buy, buy], ctx)[k].Open? && Valid([buy, buy], ctx)[k].opening.notional == 10.0)
            && 10.0 + 10.0 > ctx.cash
  {
    var ctx := Context(100.0, 10.0, map[], map[], map["A" := Action.Buy], {"A"}, true, 10.0, 0.2, 0.15, 8, 1.5);
    var buy := Proposal(Some("order"), "A", Some("buy"), Some(10.0), None, None, None, "");
    assert Capped(ctx, "buy", "A", 10.0) == 10.0;
    assert RoundCents(10.0) == 10.0;
    assert [buy, buy][..1] == [buy] && [buy][..0] == [];
    assert Judge(ctx, buy) == Accept(PassOpen(buy, "buy", 10.0));
    assert Valid([buy], ctx) == [PassOpen(buy, "buy", 10.0)];
  }

  /** What the accepted opens of one side add up to, and how many there are. */
  function Spent(entries: seq<Accepted>, side: string): real {
    if |entries| == 0 then 0.0
    else
      var e := entries[|entries| - 1];
      Spent(entries[..|entries| - 1], side) + if IsOpenOf(e, side) then e.opening.notional else 0.0
  }

  function OpensOf(entries: seq<Accepted>, side: string): (n: nat)
    ensures n <= |entries|
  {
    if |entries| == 0 then 0
    else
      OpensOf(entries[..|entries| - 1], side) + if IsOpenOf(entries[|entries| - 1], side) then 1 else 0
  }

  predicate IsOpenOf(e: Accepted, side: string) {
    e.Open? && e.opening.side == side
  }

  predicate Proposes(a: Proposal, side: string) {
    a.kind == Some("order") && a.side == Some(side)
  }

  /** What one proposal to buy asks of the cash: its capped notional in cents, if it may buy at all. */
  function BuyDemand(ctx: Context, a: Proposal): real {
    if Proposes(a, "buy") && MayBuy(ctx, a) then RoundCents(Capped(ctx, "buy", a.symbol, a.notional.GetOr(0.0)))
    else 0.0
  }

  function Demand(ctx: Context, actions: seq<Proposal>): real {
    if |actions| == 0 then 0.0
    else Demand(ctx, actions[..|actions| - 1]) + BuyDemand(ctx, actions[|actions| - 1])
  }

  function BuysProposed(actions: seq<Proposal>): nat {
    if |actions| == 0 then 0
    else BuysProposed(actions[..|actions| - 1]) + if Proposes(actions[|actions| - 1], "buy") then 1 else 0
  }

  lemma SpentAppend(entries: seq<Accepted>, e: Accepted, side: string)
    ensures Spent(entries + [e], side) == Spent(entries, side) + if IsOpenOf(e, side) then e.opening.notional else 0.0
    ensures OpensOf(entries + [e], side) == OpensOf(entries, side) + if IsOpenOf(e, side) then 1 else 0
  {
    assert (entries + [e])[..|entries|] == entries;
  }

  /** One verdict spends what the proposal demands. */
  lemma VerdictSpends(ctx: Context, a: Proposal)
    ensures var v := Judge(ctx, a);
            if v.Accept? && IsOpenOf(v.accepted, "buy") then
              Proposes(a, "buy") && MayBuy(ctx, a) && v.accepted.opening.notional == BuyDemand(ctx, a)
            else BuyDemand(ctx, a) == 0.0
  {
    if Proposes(a, "buy") {
      BuyAcceptedIff(ctx, a);
    }
    hide Capped, RoundCents, Tradable, SlotFree, Backed, TickCap, PositionCap;
  }

  /** The cash a batch takes is the sum of what each proposal demands by itself, so the batch fits
      exactly when that sum, known before the call, does. */
  lemma {:induction false} BatchSpendsDemand(ctx: Context, actions: seq<Proposal>)
    ensures Spent(Valid(actions, ctx), "buy") == Demand(ctx, actions)
    ensures OpensOf(Valid(actions, ctx), "buy") <= BuysProposed(actions)
  {
    hide Judge, BuyDemand;
    if |actions| > 0 {
      var n := |actions| - 1;
      BatchSpendsDemand(ctx, actions[..n]);
      VerdictSpends(ctx, actions[n]);
      var v := Judge(ctx, actions[n]);
      if v.Accept? {
        SpentAppend(Valid(actions[..n], ctx), v.accepted, "buy");
      } else {
        assert Valid(actions, ctx) == Valid(actions[..n], ctx);
      }
    }
  }

  /** A number of opens at a time, each within a bound. */
  function Times(n: nat, x: real): real {
    n as real * x
  }

  lemma TimesNext(n: nat, x: real)
    ensures Times(n + 1, x) == Times(n, x) + x && Times(0, x) == 0.0
  {
  }

  lemma TimesGrows(n: nat, m: nat, x: real)
    requires n <= m && x >= 0.0
    ensures Times(n, x) <= Times(m, x)
  {
  }

  function MostPerBuy(ctx: Context): real {
    Min(TickCap(ctx), ctx.cash) + 0.005
  }

  /** `n` opens took at most `per` each. */
  predicate WithinPer(spent: real, n: nat, per: real) {
    spent <= Times(n, per) && (n > 0 ==> per > 0.0)
  }

  lemma WithinNext(spent: real, n: nat, per: real, x: real)
    requires WithinPer(spent, n, per) && x <= per && per > 0.0
    ensures WithinPer(spent + x, n + 1, per)
  {
    TimesNext(n, per);
  }

  lemma WithinNone(per: real)
    ensures WithinPer(0.0, 0, per)
  {
  }

  /** Over any batch the accepted buys take at most the least of the per-order cap and the cash, and
      half a cent, each. */
  lemma {:induction false} BatchBound(ctx: Context, actions: seq<Proposal>)
    ensures WithinPer(Spent(Valid(actions, ctx), "buy"), OpensOf(Valid(actions, ctx), "buy"), MostPerBuy(ctx))
  {
    hide Judge, MostPerBuy, WithinPer;
    if |actions| == 0 {
      WithinNone(MostPerBuy(ctx));
    } else {
      var n := |actions| - 1;
      BatchBound(ctx, actions[..n]);
      var v := Judge(ctx, actions[n]);
      if v.Accept? {
        SpentAppend(Valid(actions[..n], ctx), v.accepted, "buy");
        if IsOpenOf(v.accepted, "buy") {
          BuyWithin(ctx, actions[n]);
          WithinNext(Spent(Valid(actions[..n], ctx), "buy"), OpensOf(Valid(actions[..n], ctx), "buy"), MostPerBuy(ctx),
                     v.accepted.opening.notional);
        }
      } else {
        assert Valid(actions, ctx) == Valid(actions[..n], ctx);
      }
    }
  }

  lemma BuyWithin(ctx: Context, a: Proposal)
    requires Judge(ctx, a).Accept? && IsOpenOf(Judge(ctx, a).accepted, "buy")
    ensures 0.0 <= Judge(ctx, a).accepted.opening.notional <= MostPerBuy(ctx) && MostPerBuy(ctx) > 0.0
  {
    VerdictSpends(ctx, a);
    BuyAcceptedIff(ctx, a);
    var capped := Capped(ctx, "buy", a.symbol, a.notional.GetOr(0.0));
    CapsHold(ctx, "buy", a.symbol, a.notional.GetOr(0.0));
    RoundCentsNear(capped);
    hide Judge, Capped, RoundCents, TickCap, PositionCap;
  }

  /** A batch with few enough buys fits the cash whatever they ask for. */
  lemma BatchFits(ctx: Context, actions: seq<Proposal>)
    requires ctx.cash >= 0.0 && Times(BuysProposed(actions), MostPerBuy(ctx)) <= ctx.cash
    ensures Spent(Valid(actions, ctx), "buy") <= ctx.cash
  {
    BatchBound(ctx, actions);
    BatchSpendsDemand(ctx, actions);
    hide Times, MostPerBuy;
    var n := OpensOf(Valid(actions, ctx), "buy");
    TimesNext(0, MostPerBuy(ctx));
    if n > 0 {
      TimesGrows(n, BuysProposed(actions), MostPerBuy(ctx));
    }
  }

  /** The same acceptable buy `n` times over fits exactly while `n` times its demand does. */
  lemma {:induction false} SameBuysFitIff(ctx: Context, a: Proposal, n: nat)
    requires Proposes(a, "buy") && MayBuy(ctx, a)
    ensures Spent(Valid(seq(n, i => a), ctx), "buy") <= ctx.cash <==> Times(n, BuyDemand(ctx, a)) <= ctx.cash
    ensures Demand(ctx, seq(n, i => a)) == Times(n, BuyDemand(ctx, a))
  {
    hide BuyDemand, Times, MayBuy;
    BatchSpendsDemand(ctx, seq(n, i => a));
    if n == 0 {
      TimesNext(0, BuyDemand(ctx, a));
    } else {
      SameBuysFitIff(ctx, a, n - 1);
      TimesNext(n - 1, BuyDemand(ctx, a));
      assert seq(n, i => a)[..n - 1] == seq(n - 1, i => a);
    }
  }

  /** An accepted open is above the least of its caps exactly when that cap's fraction of a cent
      rounds up. */
  lemma OpenExceedsCapIff(ctx: Context, a: Proposal)
    requires Judge(ctx, a).Accept? && Judge(ctx, a).accepted.Open?
    ensures var o := Judge(ctx, a).accepted.opening;
            var capped := Capped(ctx, o.side, a.symbol, a.notional.GetOr(0.0));
            o.notional > capped <==> RoundsUp(capped)
  {
    if Proposes(a, "buy") {
      BuyAcceptedIff(ctx, a);
      RoundCentsAboveIff(Capped(ctx, "buy", a.symbol, a.notional.GetOr(0.0)));
    } else {
      ShortAcceptedIff(ctx, a);
      RoundCentsAboveIff(Capped(ctx, "short", a.symbol, a.notional.GetOr(0.0)));
    }
    hide Capped, RoundCents, RoundsUp, TickCap, PositionCap, Backed, SlotFree, Tradable;
  }

  /** It happens: with 0.6 cents of cash a buy of one cent is accepted. */
  lemma RoundingExceedsCap()
    ensures var ctx := Context(100.0, 0.006, map[], map[], map["A" := Action.Buy], {"A"}, true, 0.006, 0.2, 0.15, 8,
                               1.5);
            var buy := Proposal(Some("order"), "A", Some("buy"), Some(10.0), None, None, None, "");
            && Judge(ctx, buy).Accept? && Judge(ctx, buy).accepted.Open?
            && Judge(ctx, buy).accepted.opening.notional == 0.01 && 0.01 > ctx.cash
  {
    var ctx := Context(100.0, 0.006, map[], map[], map["A" := Action.Buy], {"A"}, true, 0.006, 0.2, 0.15, 8, 1.5);
    var buy := Proposal(Some("order"), "A", Some("buy"), Some(10.0), None, None, None, "");
    assert Capped(ctx, "buy", "A", 10.0) == 0.006;
    assert RoundCents(0.006) == 0.01;
    assert Judge(ctx, buy) == Accept(PassOpen(buy, "buy", 0.006));
  }
}
