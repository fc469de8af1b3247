/**
 The rows of one account and what each broker operation does to them.

 An account only ever touches its own rows, so a broker over several accounts is one ledger per
 account (see Interleaving).  Orders are keyed by client order id: the table's unique constraint.
 The journal is the only part with no table behind it: it lists the opening fills, the closing
 fills with their realized amount, and the prices the exit evaluator has seen, in order.
 */
module Ledger {
  import opened Prelude
  import opened Money
  import opened Portfolio
  import opened Matching

  datatype Status = Pending | Accepted | Filled | Canceled | Rejected

  datatype Order = Order(
    symbol: string, crypto: bool, side: Side, kind: OrderKind, size: Size,
    limit: Option<real>, stop: Option<real>, reduceOnly: bool, levels: ExitLevels, status: Status)

  datatype Fill = Fill(key: string, qty: Qty, price: Money, fees: Money)

  datatype Position = Position(
    id: nat, crypto: bool, qty: Qty, avgEntry: Money, levels: ExitLevels, highWater: Option<Money>)

  datatype Entry =
    | Opened(symbol: string, price: Money, fee: Money, size: Qty)
    | Closed(symbol: string, realized: Money, flat: bool)
    | Seen(symbol: string, price: Money)

  datatype Account = Account(
    mult: real, starting: Money, cash: Money, buyingPower: Money, positions: map<string, Position>,
    orders: map<string, Order>, fills: seq<Fill>, journal: seq<Entry>)

  /** What an operation leaves behind: new rows, or an exception, after which the transaction is
      rolled back. */
  datatype Outcome = Done(account: Account) | Raised

  datatype Request = Request(
    symbol: string, crypto: bool, side: Side, kind: OrderKind, size: Size,
    limit: Option<real>, stop: Option<real>, reduceOnly: bool, levels: ExitLevels)

  function NewAccount(starting: Money, mult: real): Account {
    Account(mult, starting, starting, starting, map[], map[], [], [])
  }

  // ---------------------------------------------------------------- totals over the positions

  datatype Weight = Basis | Shorts | Marked(marks: map<string, real>)

  function Weigh(w: Weight, symbol: string, p: Position): real {
    match w
    case Basis => Value(p.qty, p.avgEntry as real)
    case Shorts => if p.qty < 0 then Value(-p.qty, p.avgEntry as real) else 0.0
    case Marked(marks) => if symbol in marks then Value(p.qty, marks[symbol]) else 0.0
  }

  ghost function Total(m: map<string, Position>, w: Weight): real
    decreases |m|
  {
    if m == map[] then 0.0
    else var s :| s in m; Weigh(w, s, m[s]) + Total(m - {s}, w)
  }

  // ---------------------------------------------------------------- filling one order

  function Held(a: Account, symbol: string): PositionState {
    if symbol in a.positions then PositionState(a.positions[symbol].qty, a.positions[symbol].avgEntry)
    else FLAT
  }

  function WithOrder(a: Account, key: string, o: Order): Account {
    a.(orders := a.orders[key := o])
  }

  function WithStatus(a: Account, key: string, status: Status): Account
    requires key in a.orders
  {
    WithOrder(a, key, a.orders[key].(status := status))
  }

  /** Collateral that a short of this value ties up, before rounding. */
  function Margin(value: real, mult: real): real {
    value * mult
  }

  /** A long opened for more than the buying power is refused, and so is a short whose collateral
      does not fit; a fill that reduces a position is never refused here. */
  predicate Affordable(a: Account, side: Side, held: Qty, f: FillQuote) {
    if !IsOpen(side, held) then true
    else if side.Buy? then Round(Value(f.qty, f.price as real) + f.fees as real) <= a.buyingPower
    else Round(Margin(Value(f.qty, f.price as real), a.mult)) <= a.buyingPower
  }

  function Either(a: Option<real>, b: Option<real>): Option<real> {
    if a.Some? then a else b
  }

  /** The position row after a fill that did not leave it flat. */
  function RowAfter(a: Account, o: Order, after: PositionState, price: Money, pid: nat): Position {
    var wasFlat := Held(a, o.symbol).qty == 0;
    if o.symbol !in a.positions then
      Position(pid, o.crypto, after.qty, after.avgEntry, o.levels, Some(price))
    else
      var row := a.positions[o.symbol].(qty := after.qty, avgEntry := after.avgEntry);
      if !IsOpen(o.side, a.positions[o.symbol].qty) then row
      else if wasFlat then row.(levels := o.levels, highWater := Some(price))
      else
        var wm := row.highWater.GetOr(price);
        row.(levels := ExitLevels(Either(o.levels.stopLoss, row.levels.stopLoss),
                                  Either(o.levels.takeProfit, row.levels.takeProfit),
                                  Either(o.levels.trailing, row.levels.trailing)),
             highWater := Some(Furthest(after.qty < 0, wm, price)))
  }

  function Furthest(short: bool, a: Money, b: Money): Money {
    if short then (if a <= b then a else b) else (if a >= b then a else b)
  }

  /** Collateral is the entry value of the shorts times the multiplier, rounded once. */
  ghost function Reserved(positions: map<string, Position>, mult: real): Money {
    Round(Margin(Total(positions, Shorts), mult))
  }

  ghost function PowerOf(cash: Money, positions: map<string, Position>, mult: real): Money {
    cash - Reserved(positions, mult)
  }

  /** Record an accepted fill: the Fill row, the position, cash, buying power and the order. */
  ghost function Book(a: Account, key: string, f: FillQuote, pid: nat): Account
    requires key in a.orders
  {
    var o := a.orders[key];
    var held := Held(a, o.symbol);
    var out := ApplyFill(a.cash, held, o.side, f.qty, f.price as real, f.fees);
    var positions := if out.position.qty == 0 then a.positions - {o.symbol}
                     else a.positions[o.symbol := RowAfter(a, o, out.position, f.price, pid)];
    Account(a.mult, a.starting, out.cash, PowerOf(out.cash, positions, a.mult), positions,
            a.orders[key := o.(status := Filled)],
            a.fills + [Fill(key, out.filled, f.price, out.fee)],
            a.journal + [JournalEntry(o, held, out, f.price)])
  }

  function JournalEntry(o: Order, held: PositionState, out: FillOutcome, price: Money): Entry {
    if IsOpen(o.side, held.qty) then Opened(o.symbol, price, out.fee, AbsQty(out.position.qty))
    else Closed(o.symbol, out.realized, out.position.qty == 0)
  }

  /** Fill one order at market.  It raises when the fill cannot be priced, and when a quantity that
      rounds to zero would create a position row only to delete it. */
  ghost function FillMarket(a: Account, key: string, size: Size, quote: Quote, pid: nat): Outcome
    requires key in a.orders
  {
    var o := a.orders[key];
    var fq := ComputeFill(quote, o.side, o.crypto, size);
    var held := Held(a, o.symbol).qty;
    if fq.None? then Raised
    else if o.reduceOnly && (IsOpen(o.side, held) || held == 0) then Done(WithStatus(a, key, Rejected))
    else if !Affordable(a, o.side, held, fq.value) then Done(WithStatus(a, key, Rejected))
    else if o.symbol !in a.positions && fq.value.qty == 0 then Raised
    else Done(Book(a, key, fq.value, pid))
  }

  // ---------------------------------------------------------------- orders

  /** An exit percent as it is stored: absent unless positive, capped, to four decimals. */
  function StoredPct(p: Option<real>, cap: real): Option<real> {
    if p.None? || p.value <= 0.0 then None
    else Some(Round(Min(p.value, cap) * 10_000.0) as real / 10_000.0)
  }

  function StoredPrice(p: Option<real>): Option<real> {
    if p.None? then None else Some(Round(p.value) as real)
  }

  function StoredSize(s: Size): Size {
    if s.Quantity? then Quantity(Round(s.qty) as real) else Notional(Round(s.amount) as real)
  }

  function NewOrder(req: Request): Order {
    Order(req.symbol, req.crypto, req.side, req.kind, StoredSize(req.size),
          StoredPrice(req.limit), StoredPrice(req.stop), req.reduceOnly,
          ExitLevels(StoredPct(req.levels.stopLoss, 0.9), StoredPct(req.levels.takeProfit, 5.0),
                     StoredPct(req.levels.trailing, 0.9)),
          Pending)
  }

  predicate Fresh(quote: Option<Quote>) {
    quote.Some? && !quote.value.stale
  }

  /** The part of place_order that runs under the account lock.  A key that is already taken
      violates the unique constraint. */
  ghost function PlaceLocked(a: Account, key: string, req: Request, quote: Option<Quote>, pid: nat): Outcome {
    if key in a.orders then Raised
    else
      var b := WithOrder(a, key, NewOrder(req));
      if !Fresh(quote) then Done(WithStatus(b, key, Rejected))
      else if !req.kind.Market? then Done(WithStatus(b, key, Accepted))
      else FillMarket(b, key, req.size, quote.value, pid)
  }

  /** place_order: a repeated client order id returns the original order untouched. */
  ghost function PlaceOrder(a: Account, key: string, req: Request, quote: Option<Quote>, pid: nat): Outcome {
    if key in a.orders then Done(a) else PlaceLocked(a, key, req, quote, pid)
  }

  predicate Open(s: Status) {
    s.Pending? || s.Accepted?
  }

  function CancelOrder(a: Account, key: string): Account {
    if key in a.orders && Open(a.orders[key].status) then WithStatus(a, key, Canceled) else a
  }

  // ---------------------------------------------------------------- exits

  /** A position row the exit sweep read before it locked the account. */
  datatype Watch = Watch(id: nat, symbol: string)

  function Digits(n: nat): string {
    if n < 10 then [('0' as int + n) as char] else Digits(n / 10) + [('0' as int + n % 10) as char]
  }

  function ExitKey(id: nat, tick: string): string {
    "exit:" + Digits(id) + ":" + tick
  }

  function Decision(p: Position, last: real): ExitDecision {
    EvaluateExit(p.avgEntry as real, last, p.qty < 0,
                 if p.highWater.Some? then Some(p.highWater.value as real) else None, p.levels)
  }

  /** The evaluator has seen `last`; the ratcheted extreme is stored, to eight decimals. */
  function WithMark(a: Account, symbol: string, last: real): Account
    requires symbol in a.positions
  {
    var p := a.positions[symbol];
    a.(positions := a.positions[symbol := p.(highWater := Some(Round(Decision(p, last).highWater)))],
       journal := a.journal + [Seen(symbol, Round(last))])
  }

  function ExitOrder(symbol: string, p: Position): Order {
    Order(symbol, p.crypto, if p.qty < 0 then Buy else Sell, Market, Quantity(AbsQty(p.qty) as real),
          None, None, true, ExitLevels(None, None, None), Pending)
  }

  /** One watched position of the sweep.  Refreshing a row that is gone raises. */
  ghost function SettleOne(a: Account, w: Watch, tick: string, quotes: map<string, Quote>): Outcome {
    if w.symbol !in a.positions || a.positions[w.symbol].id != w.id then Raised
    else
      var p := a.positions[w.symbol];
      if p.qty == 0 || w.symbol !in quotes || quotes[w.symbol].stale then Done(a)
      else
        var quote := quotes[w.symbol];
        var b := WithMark(a, w.symbol, quote.last);
        var key := ExitKey(w.id, tick);
        if Decision(p, quote.last).reason.None? || key in a.orders then Done(b)
        else
          var o := ExitOrder(w.symbol, p);
          FillMarket(WithOrder(b, key, o), key, o.size, quote, w.id)
  }

  ghost function SettleExits(a: Account, watch: seq<Watch>, tick: string, quotes: map<string, Quote>): Outcome
    decreases |watch|
  {
    if |watch| == 0 then Done(a)
    else
      var init := SettleExits(a, watch[..|watch| - 1], tick, quotes);
      if init.Raised? then Raised else SettleOne(init.account, watch[|watch| - 1], tick, quotes)
  }

  // ---------------------------------------------------------------- resting orders

  /** A row of the resting-order query, with the id a position row it creates would get. */
  datatype Resting = Resting(key: string, pid: nat)

  ghost function SettleRestingOne(a: Account, r: Resting, quote: Quote): Outcome {
    if r.key !in a.orders || !a.orders[r.key].status.Accepted? then Done(a)
    else
      var o := a.orders[r.key];
      var crosses := Crosses(o.kind, o.side, o.limit, o.stop, quote);
      if crosses.None? then Raised
      else if !crosses.value then Done(a)
      else FillMarket(a, r.key, o.size, quote, r.pid)
  }

  ghost function SettleResting(a: Account, rows: seq<Resting>, quote: Quote): Outcome
    decreases |rows|
  {
    if |rows| == 0 then Done(a)
    else
      var init := SettleResting(a, rows[..|rows| - 1], quote);
      if init.Raised? then Raised else SettleRestingOne(init.account, rows[|rows| - 1], quote)
  }

  // ---------------------------------------------------------------- whole runs

  datatype Event =
    | Place(key: string, req: Request, quote: Option<Quote>, pid: nat)
    | Cancel(key: string)
    | Exits(watch: seq<Watch>, tick: string, quotes: map<string, Quote>)
    | Rest(rows: seq<Resting>, quote: Option<Quote>)

  ghost function Step(a: Account, e: Event): Outcome {
    match e
    case Place(key, req, quote, pid) => PlaceOrder(a, key, req, quote, pid)
    case Cancel(key) => Done(CancelOrder(a, key))
    case Exits(watch, tick, quotes) => SettleExits(a, watch, tick, quotes)
    case Rest(rows, quote) => if !Fresh(quote) then Done(a) else SettleResting(a, rows, quote.value)
  }

  /** Commit what the operation did, or roll back. */
  function Commit(a: Account, out: Outcome): Account {
    if out.Done? then out.account else a
  }

  ghost function Run(a: Account, events: seq<Event>): Account
    decreases |events|
  {
    if |events| == 0 then a
    else
      var b := Run(a, events[..|events| - 1]);
      Commit(b, Step(b, events[|events| - 1]))
  }

  // ---------------------------------------------------------------- valuation

  datatype Snapshot = Snapshot(
    cash: Money, positionsValue: Money, equity: Money, realized: Money, unrealized: Money)

  ghost function MarkToMarket(a: Account, marks: map<string, real>): Snapshot {
    var pv := Round(Total(a.positions, Marked(marks)));
    var basis := Round(Total(a.positions, Basis));
    var equity := a.cash + pv;
    var unrealized := pv - basis;
    Snapshot(a.cash, pv, equity, equity - a.starting - unrealized, unrealized)
  }
}
