/** What the guardrails decide, in the context's own numbers: when each action is accepted, for how much,
    and what is true of the action when a reason is given. */
module Verdicts {
  import opened Prelude
  import opened Signals
  import opened Guardrails

  /** The signed quantity and the signed market value held; nothing held counts as zero. */
  function Quantity(ctx: Context, symbol: string): real {
    if symbol in ctx.positions then ctx.positions[symbol] else 0.0
  }

  function MarketValue(ctx: Context, symbol: string): real {
    if symbol in ctx.positionValues then ctx.positionValues[symbol] else 0.0
  }

  function Occupied(ctx: Context): set<string> {
    set s | s in ctx.positions && ctx.positions[s] != 0.0
  }

  predicate Reachable(ctx: Context, symbol: string) {
    symbol in ctx.universe && (ctx.equityOpen || '/' in symbol)
  }

  predicate Signalled(ctx: Context, symbol: string, action: Action) {
    symbol in ctx.signals && ctx.signals[symbol] == action
  }

  predicate Room(ctx: Context, symbol: string) {
    Quantity(ctx, symbol) != 0.0 || |Occupied(ctx)| < ctx.maxPositions
  }

  predicate Asks(a: Proposal) {
    a.notional.Some? && a.notional.value > 0.0
  }

  function ShortHeld(ctx: Context, symbol: string): real {
    if MarketValue(ctx, symbol) < 0.0 then -MarketValue(ctx, symbol) else 0.0
  }

  predicate LeastOf(x: real, xs: seq<real>) {
    x in xs && forall i :: 0 <= i < |xs| ==> x <= xs[i]
  }

  lemma SidesAre(ctx: Context, symbol: string)
    ensures symbol in Longs(ctx) <==> Quantity(ctx, symbol) > 0.0
    ensures symbol in Shorts(ctx) <==> Quantity(ctx, symbol) < 0.0
    ensures symbol in HeldSymbols(ctx) <==> Quantity(ctx, symbol) != 0.0
    ensures HeldSymbols(ctx) == Occupied(ctx)
  {
  }

  lemma CapsAre(ctx: Context, symbol: string)
    ensures TickCap(ctx) == ctx.perTickPct * ctx.equity && PositionCap(ctx) == ctx.maxPositionPct * ctx.equity
    ensures ValueOf(ctx.positionValues, symbol) == MarketValue(ctx, symbol)
    ensures ShortValue(ctx, symbol) == ShortHeld(ctx, symbol)
    ensures CollateralRoom(ctx) == if ctx.shortMult == 0.0 then 0.0 else ctx.buyingPower / ctx.shortMult
  {
  }

  /** A close, a sell and a cover are passed on exactly when there is a position of the right sign to reduce. */
  lemma ReducingMeaning(ctx: Context, a: Proposal)
    requires Reachable(ctx, a.symbol)
    ensures a.kind == Some("close") ==>
              Judge(ctx, a) == if Quantity(ctx, a.symbol) != 0.0 then Accept(Close(a.symbol, a.rationale))
                               else Reject(NothingToClose)
    ensures a.kind == Some("order") && a.side == Some("sell") ==>
              Judge(ctx, a) == if Quantity(ctx, a.symbol) > 0.0 then Accept(AsProposed(a)) else Reject(NoOpenLong)
    ensures a.kind == Some("order") && a.side == Some("cover") ==>
              Judge(ctx, a) == if Quantity(ctx, a.symbol) < 0.0 then Accept(AsProposed(a)) else Reject(NoOpenShort)
  {
    SidesAre(ctx, a.symbol);
    hide JudgeBuy, JudgeShort, Quantity, Longs, Shorts, HeldSymbols;
  }

  /** The order asked for, with its levels and rationale, for `amount` in whole cents. */
  function Granted(a: Proposal, side: string, amount: real): Accepted {
    Open(Opening(a.symbol, side, RoundCents(amount), a.stopLoss, a.takeProfit, a.trailing, a.rationale))
  }

  ghost predicate GrantsLeast(v: Verdict, a: Proposal, side: string, caps: seq<real>) {
    exists amount :: v == Accept(Granted(a, side, amount)) && LeastOf(amount, caps)
  }

  /** A buy is accepted exactly when nothing is short, a buy signal backs it, it has a slot and asks for
      something, and something is left below the per-order cap, the concentration cap and the cash. It is
      granted the least of the four. */
  lemma BuyMeaning(ctx: Context, a: Proposal)
    requires a.kind == Some("order") && a.side == Some("buy")
    ensures var v, s := Judge(ctx, a), a.symbol;
            var tick, left := ctx.perTickPct * ctx.equity, ctx.maxPositionPct * ctx.equity - MarketValue(ctx, s);
            && (v.Accept? <==>
                  && Reachable(ctx, s) && Quantity(ctx, s) >= 0.0 && Signalled(ctx, s, Action.Buy) && Room(ctx, s)
                  && Asks(a) && tick > 0.0 && left > 0.0 && ctx.cash > 0.0)
            && (v.Accept? ==> GrantsLeast(v, a, "buy", [a.notional.GetOr(0.0), tick, left, ctx.cash]))
  {
    BuyAcceptedIff(ctx, a);
    SidesAre(ctx, a.symbol);
    CapsAre(ctx, a.symbol);
    RoomSigns(ctx, a.symbol);
    var asked, tick := a.notional.GetOr(0.0), ctx.perTickPct * ctx.equity;
    var left := ctx.maxPositionPct * ctx.equity - MarketValue(ctx, a.symbol);
    hide Judge, Longs, Shorts, HeldSymbols, Occupied, Quantity, RoundCents, Share, MarketValue, LongRoom, TickCap,
      PositionCap;
    if Judge(ctx, a).Accept? {
      var amount := Capped(ctx, "buy", a.symbol, asked);
      LeastOfFour(asked, tick, left, ctx.cash);
      assert Judge(ctx, a) == Accept(Granted(a, "buy", amount));
    }
  }

  lemma LeastOfFour(x: real, y: real, z: real, w: real)
    ensures LeastOf(Min(Min(Min(x, y), z), w), [x, y, z, w])
  {
    assert [x, y, z, w][0] == x && [x, y, z, w][1] == y && [x, y, z, w][2] == z && [x, y, z, w][3] == w;
  }

  /** A short likewise against longs, with a stop, and with the collateral its buying power backs. */
  lemma ShortMeaning(ctx: Context, a: Proposal)
    requires a.kind == Some("order") && a.side == Some("short")
    ensures var v, s := Judge(ctx, a), a.symbol;
            var tick, left := ctx.perTickPct * ctx.equity, ctx.maxPositionPct * ctx.equity - ShortHeld(ctx, s);
            && (v.Accept? <==>
                  && Reachable(ctx, s) && Quantity(ctx, s) <= 0.0 && Signalled(ctx, s, Action.Short) && Room(ctx, s)
                  && Asks(a) && a.stopLoss.Some? && tick > 0.0 && left > 0.0
                  && ctx.shortMult != 0.0 && ctx.buyingPower / ctx.shortMult > 0.0)
            && (v.Accept? ==>
                  GrantsLeast(v, a, "short", [a.notional.GetOr(0.0), tick, left, ctx.buyingPower / ctx.shortMult]))
  {
    ShortAcceptedIff(ctx, a);
    SidesAre(ctx, a.symbol);
    CapsAre(ctx, a.symbol);
    RoomSigns(ctx, a.symbol);
    var asked, tick := a.notional.GetOr(0.0), ctx.perTickPct * ctx.equity;
    var left := ctx.maxPositionPct * ctx.equity - ShortHeld(ctx, a.symbol);
    hide Judge, Longs, Shorts, HeldSymbols, Occupied, Quantity, RoundCents, Share, ShortHeld, ShortRoom, ShortValue,
      TickCap, PositionCap, CollateralRoom;
    if Judge(ctx, a).Accept? {
      var amount := Capped(ctx, "short", a.symbol, asked);
      LeastOfFour(asked, tick, left, ctx.buyingPower / ctx.shortMult);
      assert Judge(ctx, a) == Accept(Granted(a, "short", amount));
    }
  }

  /** What is true of a rejected action, by its reason. */
  predicate Because(ctx: Context, a: Proposal, reason: Reason) {
    var q, order := Quantity(ctx, a.symbol), a.kind == Some("order");
    match reason
    case NotInUniverse => a.symbol !in ctx.universe
    case MarketClosed => a.symbol in ctx.universe && !ctx.equityOpen && '/' !in a.symbol
    case NothingToClose => a.kind == Some("close") && q == 0.0
    case UnknownType => a.kind != Some("close") && a.kind != Some("order")
    case NoOpenLong => order && a.side == Some("sell") && q <= 0.0
    case NoOpenShort => order && a.side == Some("cover") && q >= 0.0
    case CoverFirst => order && a.side == Some("buy") && q < 0.0
    case CloseFirst => order && a.side == Some("short") && q > 0.0
    case NotSignalBacked =>
      order && ((a.side == Some("buy") && !Signalled(ctx, a.symbol, Action.Buy))
                || (a.side == Some("short") && !Signalled(ctx, a.symbol, Action.Short)))
    case TooManyPositions => order && a.side in {Some("buy"), Some("short")} && !Room(ctx, a.symbol)
    case NotionalNotPositive => order && a.side in {Some("buy"), Some("short")} && !Asks(a)
    case NoStopLoss => order && a.side == Some("short") && a.stopLoss.None?
    case NoRoom => order && a.side in {Some("buy"), Some("short")} && Asks(a)
    case UnknownSide => order && a.side !in {Some("buy"), Some("sell"), Some("short"), Some("cover")}
  }

  /** The reason given is true of the action. */
  lemma ReasonMeaning(ctx: Context, a: Proposal)
    requires Judge(ctx, a).Reject?
    ensures Because(ctx, a, Judge(ctx, a).reason)
    ensures !Reachable(ctx, a.symbol) <==> Judge(ctx, a).reason in {NotInUniverse, MarketClosed}
  {
    SidesAre(ctx, a.symbol);
    hide Quantity, Longs, Shorts, HeldSymbols, Occupied, Capped, RoundCents;
  }

  /** Over a batch every rejection is of a proposed action, for a reason that is true of it. */
  lemma {:induction false} RejectionsAreTrue(actions: seq<Proposal>, ctx: Context, k: nat)
    requires k < |Rejected(actions, ctx)|
    ensures var r := Rejected(actions, ctx)[k];
            r.action in actions && Judge(ctx, r.action) == Reject(r.reason) && Because(ctx, r.action, r.reason)
  {
    hide Judge, Because;
    var n := |actions| - 1;
    if k < |Rejected(actions[..n], ctx)| {
      RejectionsAreTrue(actions[..n], ctx, k);
    } else {
      ReasonMeaning(ctx, actions[n]);
    }
  }
}
