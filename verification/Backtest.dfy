/**
 Replay of a strategy's actions over a price series, one position at a time, booked through the
 same fill arithmetic and the same exit decision as live trading.
 */
module Backtest {
  import opened Prelude
  import opened Money
  import opened Portfolio
  import opened Matching
  import opened Drawdown
  import opened Signals

  /** `levels` are the exit settings after the default stop was applied. */
  datatype Config = Config(starting: Money, allocPct: real, costBps: real, levels: ExitLevels)

  /** One booked fill, as history. */
  datatype Booked = Booked(opening: bool, side: Side, qty: Qty, price: real, fee: Money, realized: Money)

  /** `log` is history kept by the model; the program has the other fields. */
  datatype BookState = BookState(
    cash: Money, pos: PositionState, highWater: Option<real>, trades: nat, wins: nat, log: seq<Booked>)

  const WARMUP := 35

  /** A stop is mandatory: an unset or zero one becomes 8%. */
  function WithDefaultStop(levels: ExitLevels): (r: ExitLevels)
    ensures IsSet(r.stopLoss) && r.takeProfit == levels.takeProfit && r.trailing == levels.trailing
    ensures r.stopLoss == if levels.stopLoss.GetOr(0.0) != 0.0 then levels.stopLoss else Some(0.08)
  {
    if IsSet(levels.stopLoss) then levels else levels.(stopLoss := Some(0.08))
  }

  function StartState(c: Config): BookState {
    BookState(c.starting, FLAT, None, 0, 0, [])
  }

  function AllocNotional(c: Config): Money {
    Round(c.starting as real * c.allocPct)
  }

  function CostOf(value: real, costBps: real): real {
    value * (costBps / 10_000.0)
  }

  function FeesOn(c: Config, qty: Qty, price: real): Money {
    Round(CostOf(Value(AbsQty(qty), price), c.costBps))
  }

  function UnitsFor(notional: Money, price: real): real
    requires price > 0.0
  {
    notional as real / price * 10_000_000_000.0
  }

  function EntryQty(notional: Money, price: real): Qty
    requires price > 0.0
  {
    Round(UnitsFor(notional, price))
  }

  function BookFill(c: Config, st: BookState, opening: bool, side: Side, qty: Qty, price: real): BookState {
    var out := ApplyFill(st.cash, st.pos, side, qty, price, FeesOn(c, qty, price));
    BookState(out.cash, out.position, if opening then Some(price) else None,
              st.trades + (if opening then 1 else 0),
              st.wins + (if !opening && out.realized > 0 then 1 else 0),
              st.log + [Booked(opening, side, out.filled, price, out.fee, out.realized)])
  }

  function EntryNotional(c: Config, st: BookState, side: Side): Money {
    if side.Buy? && st.cash < AllocNotional(c) then st.cash else AllocNotional(c)
  }

  function Open(c: Config, st: BookState, side: Side, price: real): BookState {
    if price <= 0.0 || EntryNotional(c, st, side) <= 0 then st
    else
      var qty := EntryQty(EntryNotional(c, st, side), price);
      if qty <= 0 then st else BookFill(c, st, true, side, qty, price)
  }

  function Close(c: Config, st: BookState, price: real): BookState {
    if st.pos.qty == 0 || price <= 0.0 then st
    else BookFill(c, st, false, if st.pos.qty > 0 then Side.Sell else Side.Buy, AbsQty(st.pos.qty), price)
  }

  function ExitOf(c: Config, st: BookState, price: real): ExitDecision {
    EvaluateExit(st.pos.avgEntry as real, price, st.pos.qty < 0, st.highWater, c.levels)
  }

  function SettleExit(c: Config, st: BookState, price: real): BookState {
    if st.pos.qty == 0 then st
    else
      var d := ExitOf(c, st, price);
      var seen := st.(highWater := Some(d.highWater));
      if d.reason.Some? then Close(c, seen, price) else seen
  }

  function Step(c: Config, st: BookState, action: Action, price: real): BookState {
    var qty := st.pos.qty;
    if action == Action.Buy && qty == 0 then Open(c, st, Side.Buy, price)
    else if (action == Action.Sell || action == Action.Exit) && qty > 0 then Close(c, st, price)
    else if action == Action.Short && qty == 0 then Open(c, st, Side.Sell, price)
    else if action == Action.Cover && qty < 0 then Close(c, st, price)
    else st
  }

  /** One bar: exits first, then the action if there is one. */
  function OnBar(c: Config, st: BookState, price: real, action: Option<Action>): BookState {
    var settled := SettleExit(c, st, price);
    if action.Some? then Step(c, settled, action.value, price) else settled
  }

  function Run(c: Config, prices: seq<real>, actions: seq<Option<Action>>): BookState
    requires |prices| == |actions|
    decreases |prices|
  {
    if |prices| == 0 then StartState(c)
    else
      var n := |prices| - 1;
      OnBar(c, Run(c, prices[..n], actions[..n]), prices[n], actions[n])
  }

  /** Signed mark to market. */
  function Equity(st: BookState, price: real): real {
    st.cash as real + Value(st.pos.qty, price)
  }

  function Curve(c: Config, prices: seq<real>, actions: seq<Option<Action>>): (r: seq<real>)
    requires |prices| == |actions|
    ensures |r| == |prices|
    decreases |prices|
  {
    if |prices| == 0 then []
    else
      var n := |prices| - 1;
      Curve(c, prices[..n], actions[..n]) + [Equity(Run(c, prices, actions), prices[n])]
  }

  datatype Metrics = Metrics(bars: nat, trades: nat, winRate: real, totalReturn: real,
                             maxDrawdown: real, finalEquity: real)

  /** None where the total return divides by a zero starting cash and raises. */
  function MetricsOf(c: Config, prices: seq<real>, actions: seq<Option<Action>>): Option<Metrics>
    requires |prices| == |actions|
  {
    var start := c.starting as real;
    var st, curve := Run(c, prices, actions), Curve(c, prices, actions);
    var final := if |curve| > 0 then curve[|curve| - 1] else start;
    if c.starting == 0 then None
    else
      Some(Metrics(|prices|, st.trades, WinRate(st.wins, st.trades), TotalReturn(start, final),
                   MaxDrop(start, curve), final))
  }

  function WinRate(wins: nat, trades: nat): real {
    if trades > 0 then wins as real / trades as real else 0.0
  }

  function TotalReturn(start: real, final: real): real
    requires start != 0.0
  {
    (final - start) / start
  }

  /** The return takes the start to the final value, and is a gain when there is one. */
  predicate GrowsTo(start: real, r: real, final: real) {
    start * (1.0 + r) == final && (start > 0.0 ==> (r > 0.0 <==> final > start))
  }

  predicate IsRate(rate: real, wins: nat, trades: nat) {
    if trades > 0 then rate * trades as real == wins as real else rate == 0.0
  }

  /** The reported metrics in terms of each other: the return takes the start to the last equity, the win
      rate the trades to the wins. */
  lemma MetricsMeaning(c: Config, prices: seq<real>, actions: seq<Option<Action>>)
    requires |prices| == |actions|
    ensures MetricsOf(c, prices, actions).None? <==> c.starting == 0
    ensures c.starting != 0 ==>
              var m, start, st := MetricsOf(c, prices, actions).value, c.starting as real, Run(c, prices, actions);
              && m.bars == |prices| && m.trades == st.trades
              && GrowsTo(start, m.totalReturn, m.finalEquity) && IsRate(m.winRate, st.wins, st.trades)
              && (|prices| == 0 ==> m.finalEquity == start)
              && (|prices| > 0 ==> m.finalEquity == st.cash as real + Value(st.pos.qty, prices[|prices| - 1]))
  {
    if c.starting != 0 {
      var start, st, curve := c.starting as real, Run(c, prices, actions), Curve(c, prices, actions);
      LastEquity(c, prices, actions);
      hide Equity, Value, OnBar, TotalReturn, WinRate, GrowsTo, IsRate;
      ReturnMeaning(start, if |curve| > 0 then curve[|curve| - 1] else start);
      WinRateTimes(st.wins, st.trades);
    }
  }

  lemma LastEquity(c: Config, prices: seq<real>, actions: seq<Option<Action>>)
    requires |prices| == |actions|
    ensures |prices| > 0 ==>
              var st, n := Run(c, prices, actions), |prices| - 1;
              Curve(c, prices, actions)[n] == st.cash as real + Value(st.pos.qty, prices[n])
  {
    hide OnBar, Value;
  }

  lemma ReturnMeaning(start: real, final: real)
    requires start != 0.0
    ensures GrowsTo(start, TotalReturn(start, final), final)
  {
    var r := TotalReturn(start, final);
    assert r * start == final - start;
    if start > 0.0 && r > 0.0 {
      ScaleStrict(start, 0.0, r);
    } else if start > 0.0 {
      ScaleMonotone(start, r, 0.0);
    }
  }

  lemma WinRateTimes(wins: nat, trades: nat)
    ensures IsRate(WinRate(wins, trades), wins, trades)
  {
  }

  // ---------------------------------------------------------------- what each action does

  /** What closing the whole position at the price gains, before the fee. */
  function Gain(pos: PositionState, price: real): real {
    if pos.qty > 0 then Value(pos.qty, price - pos.avgEntry as real) else Value(-pos.qty, pos.avgEntry as real - price)
  }

  /** The fee of a fill: the cost in basis points of what it is worth, to half a unit. */
  lemma FeesAre(c: Config, qty: Qty, price: real, worth: real)
    requires qty >= 0 && worth == Value(qty, price)
    ensures Nearest(FeesOn(c, qty, price), worth * (c.costBps / 10_000.0))
  {
    RoundNearest(CostOf(worth, c.costBps));
    hide Round, Value;
  }

  /** One fill of the whole position at the price, on its closing side, left the book flat. */
  ghost predicate ClosedWhole(c: Config, st: BookState, after: BookState, price: real) {
    && after.pos == FLAT && after.highWater.None? && after.trades == st.trades && |after.log| == |st.log| + 1
    && after.log[..|st.log|] == st.log
    && var b := after.log[|st.log|];
    && !b.opening && b.qty == AbsQty(st.pos.qty) && b.price == price && b.fee == FeesOn(c, b.qty, price)
    && b.realized == Round(Gain(st.pos, price) - b.fee as real)
    && (if st.pos.qty > 0 then b.side.Sell? && after.cash == st.cash + Round(Value(b.qty, price) - b.fee as real)
        else b.side.Buy? && after.cash == st.cash - Round(Value(b.qty, price) + b.fee as real))
    && after.wins == st.wins + if b.realized > 0 then 1 else 0
  }

  /** What is put into an entry: the allocation, for a long no more than the cash. */
  ghost predicate IsEntry(c: Config, st: BookState, side: Side, notional: Money) {
    var alloc := Round(c.starting as real * c.allocPct);
    if side.Sell? || alloc <= st.cash then notional == alloc else notional == st.cash
  }

  /** One opening fill at the price, worth the entry rounded to a quantity unit, into a flat book. */
  ghost predicate OpenedFlat(c: Config, st: BookState, after: BookState, side: Side, price: real) {
    && after.highWater == Some(price) && after.trades == st.trades + 1 && after.wins == st.wins
    && |after.log| == |st.log| + 1 && after.log[..|st.log|] == st.log
    && var b := after.log[|st.log|];
    && b.opening && b.side == side && b.qty > 0 && b.price == price && b.fee == FeesOn(c, b.qty, price)
    && price > 0.0 && (exists n :: IsEntry(c, st, side, n) && b.qty == EntryQty(n, price))
    && (if side.Buy? then
          after.pos.qty == b.qty && after.cash == st.cash - Round(Value(b.qty, price) + b.fee as real)
        else after.pos.qty == -b.qty && after.cash == st.cash + Round(Value(b.qty, price) - b.fee as real))
  }

  ghost predicate CanOpen(c: Config, st: BookState, side: Side, price: real) {
    price > 0.0 && exists n :: n > 0 && IsEntry(c, st, side, n) && EntryQty(n, price) > 0
  }

  /** The action asks to close what is held. */
  predicate Closes(action: Action, qty: Qty) {
    if qty > 0 then action == Action.Sell || action == Action.Exit else qty < 0 && action == Action.Cover
  }

  /** Sell and exit close a long and cover a short, whole; buy and short open from flat when something
      can be opened; every other pair of action and position changes nothing. */
  ghost predicate ActedOn(c: Config, st: BookState, after: BookState, action: Action, price: real) {
    if st.pos.qty != 0 then
      if price > 0.0 && Closes(action, st.pos.qty) then ClosedWhole(c, st, after, price) else after == st
    else if action == Action.Buy && CanOpen(c, st, Side.Buy, price) then OpenedFlat(c, st, after, Side.Buy, price)
    else if action == Action.Short && CanOpen(c, st, Side.Sell, price) then OpenedFlat(c, st, after, Side.Sell, price)
    else after == st
  }

  lemma CloseIsWhole(c: Config, st: BookState, price: real)
    requires st.pos.qty != 0 && price > 0.0
    ensures ClosedWhole(c, st, Close(c, st, price), price)
  {
    CloseInFull(st.cash, st.pos, price, FeesOn(c, AbsQty(st.pos.qty), price));
    var side := if st.pos.qty > 0 then Side.Sell else Side.Buy;
    FillIsRecorded(st.cash, st.pos, side, AbsQty(st.pos.qty), price, FeesOn(c, AbsQty(st.pos.qty), price));
    NeverFlips(st.cash, st.pos, side, AbsQty(st.pos.qty), price, FeesOn(c, AbsQty(st.pos.qty), price));
    hide ApplyFill, FeesOn, Value, Round;
  }

  lemma OpenIsEntry(c: Config, st: BookState, side: Side, price: real)
    requires st.pos.qty == 0
    ensures if CanOpen(c, st, side, price) then OpenedFlat(c, st, Open(c, st, side, price), side, price)
            else Open(c, st, side, price) == st
  {
    var n := EntryNotional(c, st, side);
    assert IsEntry(c, st, side, n) && forall k :: IsEntry(c, st, side, k) ==> k == n;
    hide FeesOn, Value, Round, EntryQty, IsEntry, EntryNotional, Average;
  }

  lemma StepActs(c: Config, st: BookState, action: Action, price: real)
    ensures ActedOn(c, st, Step(c, st, action, price), action, price)
  {
    hide Open, Close, ClosedWhole, OpenedFlat, CanOpen;
    if st.pos.qty == 0 {
      OpenIsEntry(c, st, Side.Buy, price);
      OpenIsEntry(c, st, Side.Sell, price);
    } else if price > 0.0 {
      CloseIsWhole(c, st, price);
    } else {
      NoPriceNoClose(c, st, price);
    }
  }

  lemma NoPriceNoClose(c: Config, st: BookState, price: real)
    requires price <= 0.0
    ensures Close(c, st, price) == st
  {
  }

  /** A bar first settles the exit levels and then does what its action says. */
  lemma BarActs(c: Config, st: BookState, price: real, action: Action)
    ensures ActedOn(c, SettleExit(c, st, price), OnBar(c, st, price, Some(action)), action, price)
    ensures OnBar(c, st, price, None) == SettleExit(c, st, price)
  {
    StepActs(c, SettleExit(c, st, price), action, price);
    hide SettleExit, ActedOn, Step;
  }

  /** An exit level of the configuration is reached, counted from the entry and the extreme so far. */
  predicate DueOut(c: Config, st: BookState, price: real) {
    var avg := st.pos.avgEntry as real;
    Leaves(st.pos.qty < 0, avg, st.highWater.GetOr(avg), price,
           c.levels.stopLoss.GetOr(0.0), c.levels.trailing.GetOr(0.0), c.levels.takeProfit.GetOr(0.0))
  }

  /** Settling keeps the position, or leaves it flat by a fill of the whole when a level is reached. */
  lemma SettleMeaning(c: Config, st: BookState, price: real)
    ensures var after := SettleExit(c, st, price);
            if st.pos.qty == 0 then after == st
            else
              var seen := st.(highWater := Some(Extreme(st.pos.qty < 0,
                                                        st.highWater.GetOr(st.pos.avgEntry as real), price)));
              if price > 0.0 && DueOut(c, st, price) then ClosedWhole(c, seen, after, price) else after == seen
  {
    if st.pos.qty != 0 {
      ExitIffLevelHit(st.pos.avgEntry as real, price, st.pos.qty < 0, st.highWater, c.levels);
      ExitAtLevels(st.pos.qty < 0, st.pos.avgEntry as real, price, st.highWater, c.levels);
      var seen := st.(highWater := Some(ExitOf(c, st, price).highWater));
      hide EvaluateExit, Close, ClosedWhole, Leaves;
      if price > 0.0 {
        CloseIsWhole(c, seen, price);
      } else {
        NoPriceNoClose(c, seen, price);
      }
    }
  }

  // ---------------------------------------------------------------- the book as the program keeps it

  class Book {
    const config: Config
    const allocNotional: Money
    var cash: Money
    var pos: PositionState
    var highWater: Option<real>
    var trades: nat
    var wins: nat
    ghost var log: seq<Booked>

    ghost predicate Valid() {
      allocNotional == AllocNotional(config)
    }

    ghost function State(): BookState
      reads this
    {
      BookState(cash, pos, highWater, trades, wins, log)
    }

    constructor (c: Config)
      ensures Valid() && config == c && State() == StartState(c)
    {
      config, allocNotional := c, Round(c.starting as real * c.allocPct);
      cash, pos, highWater, trades, wins, log := c.starting, FLAT, None, 0, 0, [];
    }

    method OpenPosition(side: Side, price: real)
      requires Valid()
      modifies this
      ensures State() == Open(config, old(State()), side, price)
    {
      if price <= 0.0 {
        return;
      }
      var notional := allocNotional;
      if side.Buy? && cash < notional {
        notional := cash;
      }
      if notional <= 0 {
        return;
      }
      var qty := EntryQty(notional, price);
      if qty <= 0 {
        return;
      }
      var out := ApplyFill(cash, pos, side, qty, price, FeesOn(config, qty, price));
      cash, pos := out.cash, out.position;
      highWater := Some(price);
      trades := trades + 1;
      log := log + [Booked(true, side, out.filled, price, out.fee, out.realized)];
    }

    method ClosePosition(price: real)
      requires Valid()
      modifies this
      ensures State() == Close(config, old(State()), price)
    {
      var qty := pos.qty;
      if qty == 0 || price <= 0.0 {
        return;
      }
      var side := if qty > 0 then Side.Sell else Side.Buy;
      var out := ApplyFill(cash, pos, side, AbsQty(qty), price, FeesOn(config, AbsQty(qty), price));
      cash, pos := out.cash, out.position;
      wins := wins + if out.realized > 0 then 1 else 0;
      highWater := None;
      log := log + [Booked(false, side, out.filled, price, out.fee, out.realized)];
    }

    method Settle(price: real)
      requires Valid()
      modifies this
      ensures State() == SettleExit(config, old(State()), price)
    {
      hide EvaluateExit, Close;
      if pos.qty == 0 {
        return;
      }
      var d := EvaluateExit(pos.avgEntry as real, price, pos.qty < 0, highWater, config.levels);
      highWater := Some(d.highWater);
      if d.reason.Some? {
        ClosePosition(price);
      }
    }

    method Apply(action: Action, price: real)
      requires Valid()
      modifies this
      ensures State() == Step(config, old(State()), action, price)
      ensures ActedOn(config, old(State()), State(), action, price)
    {
      StepActs(config, State(), action, price);
      hide Open, Close, ActedOn;
      if action == Action.Buy && pos.qty == 0 {
        OpenPosition(Side.Buy, price);
      } else if (action == Action.Sell || action == Action.Exit) && pos.qty > 0 {
        ClosePosition(price);
      } else if action == Action.Short && pos.qty == 0 {
        OpenPosition(Side.Sell, price);
      } else if action == Action.Cover && pos.qty < 0 {
        ClosePosition(price);
      }
    }
  }

  method Replay(c: Config, prices: seq<real>, actions: seq<Option<Action>>) returns (m: Option<Metrics>)
    requires |prices| == |actions|
    ensures m == MetricsOf(c, prices, actions)
  {
    hide SettleExit, Step, WinRate, TotalReturn;
    var book := new Book(c);
    var curve: seq<real> := [];
    for i := 0 to |prices|
      invariant book.Valid() && book.config == c
      invariant book.State() == Run(c, prices[..i], actions[..i])
      invariant curve == Curve(c, prices[..i], actions[..i])
    {
      assert prices[..i + 1][..i] == prices[..i] && actions[..i + 1][..i] == actions[..i];
      book.Settle(prices[i]);
      if actions[i].Some? {
        book.Apply(actions[i].value, prices[i]);
      }
      curve := curve + [book.cash as real + Value(book.pos.qty, prices[i])];
    }
    assert prices[..|prices|] == prices && actions[..|prices|] == actions;
    var start := c.starting as real;
    var maxDd := MaxDrawdown(start, curve);
    if c.starting == 0 {
      return None;
    }
    var final := if |curve| > 0 then curve[|curve| - 1] else start;
    m := Some(Metrics(|prices|, book.trades, WinRate(book.wins, book.trades), TotalReturn(start, final), maxDd, final));
  }

  // ---------------------------------------------------------------- what every bar keeps

  function Fees(log: seq<Booked>): Money {
    if |log| == 0 then 0 else Fees(log[..|log| - 1]) + log[|log| - 1].fee
  }

  function Openings(log: seq<Booked>): (n: nat)
    ensures n <= |log|
  {
    if |log| == 0 then 0 else Openings(log[..|log| - 1]) + if log[|log| - 1].opening then 1 else 0
  }

  function Closings(log: seq<Booked>): nat {
    |log| - Openings(log)
  }

  function Profitable(log: seq<Booked>): nat {
    if |log| == 0 then 0
    else Profitable(log[..|log| - 1]) + if !log[|log| - 1].opening && log[|log| - 1].realized > 0 then 1 else 0
  }

  lemma LogAppend(log: seq<Booked>, b: Booked)
    ensures Fees(log + [b]) == Fees(log) + b.fee
    ensures Openings(log + [b]) == Openings(log) + if b.opening then 1 else 0
    ensures Profitable(log + [b]) == Profitable(log) + if !b.opening && b.realized > 0 then 1 else 0
  {
    assert (log + [b])[..|log|] == log;
  }

  lemma {:induction false} ProfitableIsClosing(log: seq<Booked>)
    ensures Openings(log) + Profitable(log) <= |log|
    decreases |log|
  {
    if |log| > 0 {
      ProfitableIsClosing(log[..|log| - 1]);
    }
  }

  /** The counters are what the history says, openings and closings alternate, and the watched
      extreme exists exactly while a position does. */
  ghost predicate Sound(st: BookState) {
    && (st.pos.qty == 0 ==> st.pos == FLAT)
    && st.trades == Openings(st.log) && st.wins == Profitable(st.log)
    && 2 * Openings(st.log) == |st.log| + (if st.pos.qty != 0 then 1 else 0)
    && (st.highWater.Some? <==> st.pos.qty != 0)
  }

  /** Equity before any fee was paid. */
  function Worth(st: BookState, price: real): real {
    Equity(st, price) + Fees(st.log) as real
  }

  /** A fill moves the marked worth by its rounding only: at most half a money unit. */
  lemma FillKeepsWorth(c: Config, st: BookState, opening: bool, side: Side, qty: Qty, price: real)
    ensures var after := BookFill(c, st, opening, side, qty, price);
            -0.5 <= Worth(after, price) - Worth(st, price) <= 0.5
  {
    var fees := FeesOn(c, qty, price);
    var out := ApplyFill(st.cash, st.pos, side, qty, price, fees);
    FillIsRecorded(st.cash, st.pos, side, qty, price, fees);
    LogAppend(st.log, Booked(opening, side, out.filled, price, out.fee, out.realized));
    hide ApplyFill, Value, Round, FeesOn;
    var v := Value(out.filled, price);
    RoundNearest(if side.Buy? then v + out.fee as real else v - out.fee as real);
    ValueSum(st.pos.qty, SignedQty(side, out.filled), price);
    ValueNegate(out.filled, price);
  }

  /** What one operation of the book may do at a bar's price. */
  ghost predicate Advances(st: BookState, after: BookState, price: real) {
    && Sound(after)
    && |st.log| <= |after.log| && after.log[..|st.log|] == st.log
    && Abs(Worth(after, price) - Worth(st, price)) <= Halves(|after.log| - |st.log|)
  }

  function Halves(n: int): real {
    n as real / 2.0
  }

  lemma OpenAdvances(c: Config, st: BookState, side: Side, price: real)
    requires Sound(st) && st.pos.qty == 0
    ensures Advances(st, Open(c, st, side, price), price)
  {
    hide ApplyFill, Worth, AllocNotional, FeesOn, EntryQty;
    var after := Open(c, st, side, price);
    if after != st {
      var qty := EntryQty(EntryNotional(c, st, side), price);
      FillKeepsWorth(c, st, true, side, qty, price);
      OpenFromFlat(st.cash, side, qty, price, FeesOn(c, qty, price));
      LogAppend(st.log, after.log[|st.log|]);
    }
  }

  lemma CloseAdvances(c: Config, st: BookState, price: real)
    requires Sound(st)
    ensures Advances(st, Close(c, st, price), price)
    ensures price > 0.0 ==> Close(c, st, price).pos == FLAT
  {
    hide ApplyFill, Worth, FeesOn;
    var after := Close(c, st, price);
    if after != st {
      var side := if st.pos.qty > 0 then Side.Sell else Side.Buy;
      FillKeepsWorth(c, st, false, side, AbsQty(st.pos.qty), price);
      CloseInFull(st.cash, st.pos, price, FeesOn(c, AbsQty(st.pos.qty), price));
      LogAppend(st.log, after.log[|st.log|]);
    }
  }

  lemma SettleAdvances(c: Config, st: BookState, price: real)
    requires Sound(st)
    ensures Advances(st, SettleExit(c, st, price), price)
  {
    hide EvaluateExit, Close;
    if st.pos.qty != 0 {
      CloseAdvances(c, st.(highWater := Some(ExitOf(c, st, price).highWater)), price);
    }
  }

  lemma StepAdvances(c: Config, st: BookState, action: Action, price: real)
    requires Sound(st)
    ensures Advances(st, Step(c, st, action, price), price)
  {
    hide Open, Close;
    CloseAdvances(c, st, price);
    if st.pos.qty == 0 {
      OpenAdvances(c, st, Side.Buy, price);
      OpenAdvances(c, st, Side.Sell, price);
    }
  }

  lemma OnBarAdvances(c: Config, st: BookState, price: real, action: Option<Action>)
    requires Sound(st)
    ensures Advances(st, OnBar(c, st, price, action), price)
  {
    hide SettleExit, Step, Worth, Sound;
    SettleAdvances(c, st, price);
    if action.Some? {
      StepAdvances(c, SettleExit(c, st, price), action.value, price);
    }
  }

  // ---------------------------------------------------------------- theorems over whole replays

  /** Held quantity times price change, summed over the bars. */
  function HeldGain(c: Config, prices: seq<real>, actions: seq<Option<Action>>): real
    requires |prices| == |actions|
    decreases |prices|
  {
    if |prices| <= 1 then 0.0
    else
      var n := |prices| - 1;
      HeldGain(c, prices[..n], actions[..n])
      + Value(Run(c, prices[..n], actions[..n]).pos.qty, prices[n] - prices[n - 1])
  }

  lemma {:induction false} WorthTelescopes(c: Config, prices: seq<real>, actions: seq<Option<Action>>)
    requires |prices| == |actions| > 0
    ensures Sound(Run(c, prices, actions))
    ensures Drifted(Run(c, prices, actions), prices[|prices| - 1], c.starting as real + HeldGain(c, prices, actions))
    decreases |prices|
  {
    hide OnBar, Sound, Drifted, Value;
    var n := |prices| - 1;
    var ps, xs := prices[..n], actions[..n];
    if n == 0 {
      StartIsSound(c, prices[0]);
      NoBars(c, ps, xs);
      OnBarDrifts(c, StartState(c), prices[0], actions[0], c.starting as real);
    } else {
      WorthTelescopes(c, ps, xs);
      MarkMoves(Run(c, ps, xs), prices[n - 1], prices[n], c.starting as real + HeldGain(c, ps, xs));
      OnBarDrifts(c, Run(c, ps, xs), prices[n], actions[n], c.starting as real + HeldGain(c, prices, actions));
    }
  }

  /** The worth is `expected` up to half a money unit per fill. */
  ghost predicate Drifted(st: BookState, price: real, expected: real) {
    Abs(Worth(st, price) - expected) <= Halves(|st.log|)
  }

  lemma NoBars(c: Config, prices: seq<real>, actions: seq<Option<Action>>)
    requires |prices| == |actions| == 0
    ensures Run(c, prices, actions) == StartState(c)
  {
  }

  lemma StartIsSound(c: Config, price: real)
    ensures Sound(StartState(c)) && Drifted(StartState(c), price, c.starting as real)
  {
  }

  lemma MarkMoves(st: BookState, price: real, next: real, expected: real)
    requires Drifted(st, price, expected)
    ensures Drifted(st, next, expected + Value(st.pos.qty, next - price))
  {
    ValueDifference(st.pos.qty, next, price);
  }

  lemma OnBarDrifts(c: Config, st: BookState, price: real, action: Option<Action>, expected: real)
    requires Sound(st) && Drifted(st, price, expected)
    ensures Sound(OnBar(c, st, price, action)) && Drifted(OnBar(c, st, price, action), price, expected)
  {
    hide OnBar, Sound, Worth;
    OnBarAdvances(c, st, price, action);
  }

  /** Backtest accounting telescopes: equity is the starting cash plus what the held quantity
      gained bar by bar, minus all fees, within half a money unit per fill. */
  lemma EquityTelescopes(c: Config, prices: seq<real>, actions: seq<Option<Action>>)
    requires |prices| == |actions| > 0
    ensures var st := Run(c, prices, actions);
            Abs(Equity(st, prices[|prices| - 1])
                - (c.starting as real + HeldGain(c, prices, actions) - Fees(st.log) as real)) <= Halves(|st.log|)
  {
    hide Equity, Sound, OnBar;
    WorthTelescopes(c, prices, actions);
  }

  /** Wins <= closes <= trades <= closes + 1, and the last inequality is strict exactly when the
      replay ends flat. */
  lemma WinsClosesTrades(c: Config, prices: seq<real>, actions: seq<Option<Action>>)
    requires |prices| == |actions|
    ensures var st := Run(c, prices, actions);
            && st.wins <= Closings(st.log) <= st.trades <= Closings(st.log) + 1
            && st.trades == Openings(st.log)
            && (st.trades == Closings(st.log) <==> st.pos.qty == 0)
  {
    hide OnBar;
    RunSound(c, prices, actions);
    ProfitableIsClosing(Run(c, prices, actions).log);
  }

  /** The equity curve up to a bar depends on nothing after it. */
  lemma {:induction false} CurvePrefix(c: Config, prices: seq<real>, actions: seq<Option<Action>>, k: nat)
    requires |prices| == |actions| && k <= |prices|
    ensures Curve(c, prices[..k], actions[..k]) == Curve(c, prices, actions)[..k]
    decreases |prices|
  {
    if k < |prices| {
      var n := |prices| - 1;
      CurvePrefix(c, prices[..n], actions[..n], k);
      assert prices[..n][..k] == prices[..k] && actions[..n][..k] == actions[..k];
    } else {
      assert prices[..k] == prices && actions[..k] == actions;
    }
  }

  /** A live stop that is hit closes the position before the bar's own action is looked at: the
      first fill of the bar is the exit, in full, whatever the action. */
  lemma ExitComesFirst(c: Config, st: BookState, price: real, action: Option<Action>)
    requires Sound(st) && st.pos.qty != 0 && price > 0.0 && ExitOf(c, st, price).reason.Some?
    ensures var after := OnBar(c, st, price, action);
            && |after.log| > |st.log|
            && !after.log[|st.log|].opening && after.log[|st.log|].price == price
            && after.log[|st.log|].qty == AbsQty(st.pos.qty)
            && (after.log[|st.log|].side.Sell? <==> st.pos.qty > 0)
            && (after.pos.qty != 0 ==> |after.log| == |st.log| + 2 && after.log[|st.log| + 1].opening)
  {
    hide EvaluateExit, ApplyFill, FeesOn;
    var seen := st.(highWater := Some(ExitOf(c, st, price).highWater));
    CloseInFull(seen.cash, seen.pos, price, FeesOn(c, AbsQty(st.pos.qty), price));
    CloseAdvances(c, seen, price);
    hide AllocNotional, EntryQty;
  }

  function ExtremeOf(short: bool, prices: seq<real>): real
    requires |prices| > 0
  {
    if |prices| == 1 then prices[0]
    else Extreme(short, ExtremeOf(short, prices[..|prices| - 1]), prices[|prices| - 1])
  }

  lemma ExtremeAppend(short: bool, prices: seq<real>, price: real)
    requires |prices| > 0
    ensures ExtremeOf(short, prices + [price]) == Extreme(short, ExtremeOf(short, prices), price)
  {
    assert (prices + [price])[..|prices|] == prices;
  }

  /** `k` is the bar the current position was opened on: it has not changed since, and the watched
      extreme is that of the prices from there on. */
  ghost predicate OpenedOn(c: Config, prices: seq<real>, actions: seq<Option<Action>>, k: nat)
    requires |prices| == |actions|
  {
    var st := Run(c, prices, actions);
    && k < |prices|
    && (forall j :: k < j <= |prices| ==> Run(c, prices[..j], actions[..j]).pos == st.pos)
    && st.highWater == Some(ExtremeOf(st.pos.qty < 0, prices[k..]))
  }

  /** While a position is held the watched extreme is the best price since its entry, entry bar
      included - the highest for a long, the lowest for a short - and the position is never
      added to. */
  lemma {:induction false} WatermarkIsExtreme(c: Config, prices: seq<real>, actions: seq<Option<Action>>)
    requires |prices| == |actions| && Run(c, prices, actions).pos.qty != 0
    ensures exists k :: OpenedOn(c, prices, actions, k)
    decreases |prices|
  {
    var n := |prices| - 1;
    var ps, xs := prices[..n], actions[..n];
    var before, st := Run(c, ps, xs), Run(c, prices, actions);
    RunSound(c, ps, xs);
    BarWatermark(c, before, prices[n], actions[n]);
    if |st.log| > |before.log| {
      OpensHere(c, prices, actions);
    } else {
      assert before.pos == st.pos;
      WatermarkIsExtreme(c, ps, xs);
      var k :| OpenedOn(c, ps, xs, k);
      StaysOpen(c, prices, actions, k);
    }
  }

  lemma OpensHere(c: Config, prices: seq<real>, actions: seq<Option<Action>>)
    requires |prices| == |actions| > 0
    requires Run(c, prices, actions).highWater == Some(prices[|prices| - 1])
    ensures OpenedOn(c, prices, actions, |prices| - 1)
  {
    hide OnBar, Extreme;
    var n := |prices| - 1;
    assert prices[n..] == [prices[n]] && ExtremeOf(Run(c, prices, actions).pos.qty < 0, [prices[n]]) == prices[n];
    forall j | n < j <= |prices| ensures Run(c, prices[..j], actions[..j]).pos == Run(c, prices, actions).pos {
      assert prices[..j] == prices && actions[..j] == actions;
    }
  }

  lemma StaysOpen(c: Config, prices: seq<real>, actions: seq<Option<Action>>, k: nat)
    requires |prices| == |actions| > 0
    requires var n := |prices| - 1;
             var before, st := Run(c, prices[..n], actions[..n]), Run(c, prices, actions);
             && OpenedOn(c, prices[..n], actions[..n], k)
             && st.pos == before.pos && st.highWater == Some(Watched(before, prices[n]))
    ensures OpenedOn(c, prices, actions, k)
  {
    hide OnBar, Extreme;
    var n := |prices| - 1;
    var ps, xs := prices[..n], actions[..n];
    assert prices[..n + 1] == prices && actions[..n + 1] == actions;
    assert prices[k..] == ps[k..] + [prices[n]];
    ExtremeAppend(Run(c, ps, xs).pos.qty < 0, ps[k..], prices[n]);
    forall j | k < j <= |prices|
      ensures Run(c, prices[..j], actions[..j]).pos == Run(c, prices, actions).pos
    {
      if j <= n {
        assert prices[..j] == ps[..j] && actions[..j] == xs[..j];
      }
    }
  }

  lemma RunSound(c: Config, prices: seq<real>, actions: seq<Option<Action>>)
    requires |prices| == |actions|
    ensures Sound(Run(c, prices, actions))
  {
    if |prices| > 0 {
      WorthTelescopes(c, prices, actions);
    }
  }

  lemma BarWatermark(c: Config, st: BookState, price: real, action: Option<Action>)
    requires Sound(st) && OnBar(c, st, price, action).pos.qty != 0
    ensures var after := OnBar(c, st, price, action);
            if |after.log| > |st.log| then after.highWater == Some(price)
            else after.pos == st.pos && after.highWater == Some(Watched(st, price))
  {
    hide SettleExit, Step;
    SettleWatermark(c, st, price);
    if action.Some? {
      StepWatermark(c, SettleExit(c, st, price), action.value, price);
    }
  }

  function Watched(st: BookState, price: real): real {
    Extreme(st.pos.qty < 0, st.highWater.GetOr(st.pos.avgEntry as real), price)
  }

  lemma SettleWatermark(c: Config, st: BookState, price: real)
    requires Sound(st)
    ensures var after := SettleExit(c, st, price);
            && Sound(after) && |after.log| >= |st.log|
            && (after.pos.qty != 0 ==>
                  after.pos == st.pos && after.log == st.log && after.highWater == Some(Watched(st, price)))
  {
    SettleAdvances(c, st, price);
    hide EvaluateExit, ApplyFill, FeesOn;
    if st.pos.qty != 0 {
      ExitIffLevelHit(st.pos.avgEntry as real, price, st.pos.qty < 0, st.highWater, c.levels);
      CloseAdvances(c, st.(highWater := Some(ExitOf(c, st, price).highWater)), price);
    }
  }

  lemma StepWatermark(c: Config, st: BookState, action: Action, price: real)
    requires Sound(st) && Step(c, st, action, price).pos.qty != 0
    ensures var after := Step(c, st, action, price);
            after == st || (|after.log| > |st.log| && after.highWater == Some(price))
  {
    hide ApplyFill, FeesOn, AllocNotional, EntryQty;
    CloseAdvances(c, st, price);
  }

  // ---------------------------------------------------------------- what a long may spend

  /** What is opened is worth the entry notional - the allocation, for a long no more than the cash -
      to half a quantity unit of price. */
  lemma EntryIsAllocation(c: Config, st: BookState, side: Side, price: real)
    requires st.pos.qty == 0 && Open(c, st, side, price) != st
    ensures var after := Open(c, st, side, price);
            && |after.log| == |st.log| + 1 && after.log[|st.log|].opening
            && Abs(Value(after.log[|st.log|].qty, price) - EntryNotional(c, st, side) as real) <= PerUnit(price) / 2.0
            && EntryNotional(c, st, side) <= AllocNotional(c)
            && (side.Buy? ==> EntryNotional(c, st, side) <= st.cash)
  {
    hide AllocNotional, FeesOn, Value, Average, Round, PerUnit;
    UnitsWorth(EntryNotional(c, st, side) as real, price);
  }

  /** A long is capped at the available cash before fees: it can overdraw cash by its fee, half a
      quantity unit of price and half a money unit, and no more. */
  lemma LongOverdraft(c: Config, st: BookState, price: real)
    requires st.pos.qty == 0 && Open(c, st, Side.Buy, price) != st
    ensures var after := Open(c, st, Side.Buy, price);
            && |after.log| == |st.log| + 1
            && after.cash as real >= -(after.log[|st.log|].fee as real) - PerUnit(price) / 2.0 - 0.5
  {
    EntryIsAllocation(c, st, Side.Buy, price);
    hide AllocNotional, FeesOn, EntryQty, Round, Value, Average, PerUnit;
    var b := Open(c, st, Side.Buy, price).log[|st.log|];
    RoundNearest(Value(b.qty, price) + b.fee as real);
  }

  /** A long is afforded exactly when its value and fee, both known before the open, are below the
      cash and the half unit that rounding forgives. */
  lemma LongAffordedIff(c: Config, st: BookState, price: real)
    requires st.pos.qty == 0 && Open(c, st, Side.Buy, price) != st
    ensures var qty := EntryQty(EntryNotional(c, st, Side.Buy), price);
            Open(c, st, Side.Buy, price).cash >= 0 <==>
              Value(qty, price) + FeesOn(c, qty, price) as real < st.cash as real + 0.5
  {
    hide AllocNotional, FeesOn, EntryQty, Round, Value, Average;
    var qty := EntryQty(EntryNotional(c, st, Side.Buy), price);
    var cost := Value(qty, price) + FeesOn(c, qty, price) as real;
    RoundNearest(cost);
    if cost >= 0.0 {
      RoundAgainst(cost, st.cash);
    }
  }

  /** So cash stays non-negative whenever the allocation, half a quantity unit of price and the cost
      of both fit in it. */
  lemma AllocationAfforded(c: Config, st: BookState, price: real)
    requires st.pos.qty == 0 && price > 0.0 && c.costBps >= 0.0 && st.cash >= 0
    requires var spend := AllocNotional(c) as real + PerUnit(price) / 2.0;
             spend + CostOf(spend, c.costBps) < st.cash as real
    ensures Open(c, st, Side.Buy, price).cash >= 0
  {
    if Open(c, st, Side.Buy, price) != st {
      var qty := EntryQty(EntryNotional(c, st, Side.Buy), price);
      EntryIsAllocation(c, st, Side.Buy, price);
      LongAffordedIff(c, st, price);
      FeeWithin(c, qty, price, AllocNotional(c) as real + PerUnit(price) / 2.0);
      hide AllocNotional, FeesOn, EntryQty, Round, Value, Average, CostOf, PerUnit;
    }
  }

  lemma FeeWithin(c: Config, qty: Qty, price: real, most: real)
    requires qty >= 0 && Value(qty, price) <= most && c.costBps >= 0.0
    ensures FeesOn(c, qty, price) as real <= CostOf(most, c.costBps) + 0.5
  {
    RoundNearest(CostOf(Value(qty, price), c.costBps));
    ScaleMonotone(c.costBps / 10_000.0, Value(qty, price), most);
    hide Value, Round;
  }

  /** The overdraft happens: 100 units of cash, all of it allocated, at 10 per unit and 5 bps. */
  lemma FeeOverdraws(levels: ExitLevels)
    ensures var c := Config(100_0000_0000, 1.0, 5.0, levels);
            Open(c, StartState(c), Side.Buy, 10_0000_0000.0).cash == -500_0000
  {
    var c := Config(100_0000_0000, 1.0, 5.0, levels);
    var price := 10_0000_0000.0;
    RoundInteger(100_0000_0000);
    assert AllocNotional(c) == 100_0000_0000;
    RoundInteger(100_000_000_000);
    assert UnitsFor(100_0000_0000, price) == 100_000_000_000.0;
    assert Value(100_000_000_000, price) == 100_0000_0000.0;
    RoundInteger(500_0000);
    assert FeesOn(c, 100_000_000_000, price) == 500_0000;
    RoundInteger(100_0500_0000);
  }

  // ---------------------------------------------------------------- a drawdown that is not reported

  /** One hundred dollars, all of them to be put into each position. */
  const ALL_IN := Config(10_000_000_000, 1.0, 0.0, WithDefaultStop(ExitLevels(None, None, None)))

  const SQUEEZE := [1.0 * USD, 0.01 * USD, 3.0 * USD]
  const SHORT_ONCE := [Some(Action.Short), None, None]

  /** What shorting one hundred units at one dollar comes to. */
  lemma ShortFigures()
    ensures AllocNotional(ALL_IN) == 10_000_000_000 && EntryQty(10_000_000_000, 1.0 * USD) == 1_000_000_000_000
    ensures FeesOn(ALL_IN, 1_000_000_000_000, 1.0 * USD) == 0
    ensures ApplyFill(10_000_000_000, FLAT, Side.Sell, 1_000_000_000_000, 1.0 * USD, 0) ==
              FillOutcome(20_000_000_000, PositionState(-1_000_000_000_000, 100_000_000), 0, 1_000_000_000_000, 0)
  {
    assert UnitsFor(10_000_000_000, 1.0 * USD) == 1_000_000_000_000.0;
    assert Value(1_000_000_000_000, 1.0 * USD) == 10_000_000_000.0;
    assert CostOf(10_000_000_000.0, 0.0) == 0.0;
    assert Mean(0.0, 0.0, 1_000_000_000_000.0, 1.0 * USD) == 100_000_000.0;
    RoundInteger(10_000_000_000);
    RoundInteger(1_000_000_000_000);
    RoundInteger(100_000_000);
    RoundInteger(0);
    hide Round, UnitsFor, Value, CostOf, Mean;
    assert 10_000_000_000 as real * ALL_IN.allocPct == 10_000_000_000.0;
  }

  /** The book after each of the three bars. */
  lemma ShortOpened()
    ensures OnBar(ALL_IN, StartState(ALL_IN), 1.0 * USD, Some(Action.Short)) ==
              BookState(20_000_000_000, PositionState(-1_000_000_000_000, 100_000_000), Some(1.0 * USD), 1, 0,
                        [Booked(true, Side.Sell, 1_000_000_000_000, 1.0 * USD, 0, 0)])
  {
    ShortFigures();
    hide AllocNotional, EntryQty, FeesOn, ApplyFill;
  }

  lemma ShortHeld(st: BookState)
    requires st.pos == PositionState(-1_000_000_000_000, 100_000_000) && st.highWater == Some(1.0 * USD)
    ensures OnBar(ALL_IN, st, 0.01 * USD, None) == st.(highWater := Some(0.01 * USD))
  {
    ExitIffLevelHit(100_000_000.0, 0.01 * USD, true, Some(1.0 * USD), ALL_IN.levels);
    assert LossLevel(true, 100_000_000.0, 0.08) == 108_000_000.0;
    hide EvaluateExit, LossLevel;
  }

  lemma ShortStopped(st: BookState)
    requires st.pos == PositionState(-1_000_000_000_000, 100_000_000) && st.highWater == Some(0.01 * USD)
    requires st.cash == 20_000_000_000
    ensures var after := OnBar(ALL_IN, st, 3.0 * USD, None);
            after.cash == -10_000_000_000 && after.pos.qty == 0
  {
    ExitIffLevelHit(100_000_000.0, 3.0 * USD, true, Some(0.01 * USD), ALL_IN.levels);
    assert LossLevel(true, 100_000_000.0, 0.08) == 108_000_000.0;
    RoundInteger(30_000_000_000);
    RoundInteger(0);
    assert Value(1_000_000_000_000, 3.0 * USD) == 30_000_000_000.0;
    assert CostOf(30_000_000_000.0, 0.0) == 0.0;
    ProrateFull(0, 1_000_000_000_000);
    hide EvaluateExit, LossLevel, Round, Value, CostOf, Prorate;
  }

  /** The equity after each of the three bars. */
  lemma SqueezeCurve()
    ensures Curve(ALL_IN, SQUEEZE, SHORT_ONCE) == [10_000_000_000.0, 19_900_000_000.0] + [-10_000_000_000.0]
  {
    var start := StartState(ALL_IN);
    ShortOpened();
    var s1 := OnBar(ALL_IN, start, SQUEEZE[0], SHORT_ONCE[0]);
    ShortHeld(s1);
    var s2 := OnBar(ALL_IN, s1, SQUEEZE[1], SHORT_ONCE[1]);
    ShortStopped(s2);
    hide OnBar, StartState;
    assert SQUEEZE[..2] == [SQUEEZE[0], SQUEEZE[1]] && SHORT_ONCE[..2] == [SHORT_ONCE[0], SHORT_ONCE[1]];
    assert SQUEEZE[..2][..1] == [SQUEEZE[0]] && SHORT_ONCE[..2][..1] == [SHORT_ONCE[0]];
    assert SQUEEZE[..2][..1][..0] == [] && SHORT_ONCE[..2][..1][..0] == [];
    assert Run(ALL_IN, SQUEEZE[..2][..1], SHORT_ONCE[..2][..1]) == s1;
    assert Run(ALL_IN, SQUEEZE[..2], SHORT_ONCE[..2]) == s2;
    SqueezeValues();
    hide Value;
    assert Curve(ALL_IN, SQUEEZE[..2], SHORT_ONCE[..2]) == [10_000_000_000.0, 19_900_000_000.0];
  }

  lemma SqueezeValues()
    ensures Value(-1_000_000_000_000, 1.0 * USD) == -10_000_000_000.0
    ensures Value(-1_000_000_000_000, 0.01 * USD) == -100_000_000.0
    ensures Value(0, 3.0 * USD) == 0.0
  {
  }

  /** A short of the whole cash at one dollar, a fall to a cent and a rise to three dollars: the replay
      reaches minus one hundred dollars, twice the start below it, and reports the drop from the peak of
      199 dollars, which is less. */
  lemma SqueezeUnderreported()
    ensures Curve(ALL_IN, SQUEEZE, SHORT_ONCE) == [10_000_000_000.0, 19_900_000_000.0, -10_000_000_000.0]
    ensures var m := MetricsOf(ALL_IN, SQUEEZE, SHORT_ONCE);
            m.Some? && m.value.maxDrawdown < Drop(10_000_000_000.0, -10_000_000_000.0) == 2.0
  {
    SqueezeCurve();
    hide Run;
    var init := [10_000_000_000.0, 19_900_000_000.0];
    FirstFallBelowZero(10_000_000_000.0, init, -10_000_000_000.0);
    assert init[..1] == [10_000_000_000.0] && init[..1][..0] == [];
    assert Peak(10_000_000_000.0, init) == 19_900_000_000.0;
  }
}
