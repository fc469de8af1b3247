/** The laws of the account ledger over every run of orders, cancels, exits and resting fills. */
module LedgerRuns {
  import opened Prelude
  import opened Money
  import opened Portfolio
  import opened Matching
  import opened Ledger
  import opened LedgerProofs

  /** Buying power is cash less the collateral of the open shorts. */
  ghost predicate Powered(a: Account) {
    a.buyingPower == PowerOf(a.cash, a.positions, a.mult)
  }

  predicate Sized(a: Account) {
    forall k :: k in a.orders ==> a.orders[k].size.Nonnegative()
  }

  ghost predicate Inv(a: Account) {
    Booked(a) && Filed(a) && Watched(a) && Accounted(a) && Powered(a) && Sized(a) && Reduced(a)
  }

  /** Orders and fills only accumulate; filled, rejected and canceled orders never change. */
  predicate Extends(a: Account, b: Account) {
    && a.starting == b.starting && a.mult == b.mult
    && a.fills <= b.fills
    && (forall k :: k in a.orders ==>
          && k in b.orders
          && b.orders[k] == a.orders[k].(status := b.orders[k].status)
          && (!Open(a.orders[k].status) ==> b.orders[k] == a.orders[k]))
  }

  predicate ClosesFlat(e: Entry, s: string) {
    e.Closed? && e.symbol == s && e.flat
  }

  /** The symbol has a position and no close left it flat from the one state to the other. */
  predicate StaysOpen(a: Account, b: Account, s: string)
    requires |a.journal| <= |b.journal|
  {
    s in a.positions && forall i :: |a.journal| <= i < |b.journal| ==> !ClosesFlat(b.journal[i], s)
  }

  predicate SameSide(a: Account, b: Account, s: string) {
    s in a.positions && s in b.positions && (a.positions[s].qty < 0 <==> b.positions[s].qty < 0)
  }

  /** The history only grows, and a position that stays open stays on its side. */
  ghost predicate Moves(a: Account, b: Account) {
    a.journal <= b.journal && forall s :: StaysOpen(a, b, s) ==> SameSide(a, b, s)
  }

  ghost predicate Keeps(a: Account, b: Account) {
    Inv(b) && Extends(a, b) && Moves(a, b)
  }

  lemma MovesWithin(a: Account, b: Account)
    requires a.positions == b.positions && a.journal == b.journal
    ensures Moves(a, b)
  {
  }

  lemma MovesMark(a: Account, symbol: string, last: real)
    requires symbol in a.positions
    ensures Moves(a, WithMark(a, symbol, last))
  {
    hide Decision;
  }

  lemma MovesBook(a: Account, key: string, f: FillQuote, pid: nat)
    requires key in a.orders && Booked(a) && f.qty >= 0
    ensures Moves(a, Book(a, key, f, pid))
  {
    hide Value, Average, Prorate, Round;
    var b, o := Book(a, key, f, pid), a.orders[key];
    var held := Held(a, o.symbol);
    var out := ApplyFill(a.cash, held, o.side, f.qty, f.price as real, f.fees);
    NeverFlips(a.cash, held, o.side, f.qty, f.price as real, f.fees);
    var e := JournalEntry(o, held, out, f.price);
    assert b.journal[|a.journal|] == e;
    hide ApplyFill, PowerOf;
    forall s | StaysOpen(a, b, s) ensures SameSide(a, b, s) {
      assert a.positions[s].qty != 0;
      if s == o.symbol && out.position.qty == 0 {
        assert ClosesFlat(b.journal[|a.journal|], s) || IsOpen(o.side, held.qty);
        OpensNonzero(a.cash, held, o.side, f);
      }
    }
  }

  lemma OpensNonzero(cash: Money, held: PositionState, side: Side, f: FillQuote)
    requires held.qty != 0 && f.qty >= 0 && IsOpen(side, held.qty)
    ensures ApplyFill(cash, held, side, f.qty, f.price as real, f.fees).position.qty != 0
  {
    hide Value, Average, Prorate, Round;
  }

  lemma MovesTransitive(a: Account, b: Account, c: Account)
    requires Moves(a, b) && Moves(b, c)
    ensures Moves(a, c)
  {
    forall s | StaysOpen(a, c, s) ensures SameSide(a, c, s) {
      forall i | |a.journal| <= i < |b.journal| ensures !ClosesFlat(b.journal[i], s) {
        assert b.journal[i] == c.journal[i];
      }
      assert StaysOpen(a, b, s) && SameSide(a, b, s);
      assert StaysOpen(b, c, s) && SameSide(b, c, s);
    }
  }

  // ---------------------------------------------------------------- the elementary changes

  /** Everything but the filing of orders ignores their status. */
  lemma OrdersOnly(a: Account, b: Account)
    requires Inv(a) && b == a.(orders := b.orders) && SameTerms(a.orders, b.orders)
    requires Filed(b) && Sized(b)
    ensures Inv(b)
  {
    BookedFrame(a, b);
    ReducedFrame(a.orders, b.orders, a.fills);
    forall s ensures WatchedAt(b, s) {
      assert WatchedAt(a, s);
    }
    assert Accounted(b) by { assert a.positions == b.positions && a.journal == b.journal; }
  }

  lemma WithOrderKeeps(a: Account, key: string, o: Order)
    requires Inv(a) && key !in a.orders && o.status.Pending? && o.size.Nonnegative()
    ensures Keeps(a, WithOrder(a, key, o))
  {
    FillsOfAbsent(a.fills, key);
    OrdersOnly(a, WithOrder(a, key, o));
    MovesWithin(a, WithOrder(a, key, o));
    hide Moves;
  }

  lemma WithStatusFiled(a: Account, key: string, status: Status)
    requires Filed(a) && key in a.orders && Open(a.orders[key].status) && !status.Filled?
    ensures Filed(WithStatus(a, key, status))
  {
  }

  lemma WithStatusKeeps(a: Account, key: string, status: Status)
    requires Inv(a) && key in a.orders && Open(a.orders[key].status) && !status.Filled?
    ensures Keeps(a, WithStatus(a, key, status))
  {
    WithStatusFiled(a, key, status);
    OrdersOnly(a, WithStatus(a, key, status));
    MovesWithin(a, WithStatus(a, key, status));
    hide Moves;
  }

  lemma RemarkKeepsTotal(m: map<string, Position>, s: string, p: Position, w: Weight)
    requires s in m && p.qty == m[s].qty && p.avgEntry == m[s].avgEntry
    ensures Total(m[s := p], w) == Total(m, w)
  {
    WeighSame(w, s, p, m[s]);
    TotalUpdate(m, w, s, p);
    TotalSplit(m, w, s);
  }

  lemma WeighSame(w: Weight, s: string, p: Position, q: Position)
    requires p.qty == q.qty && p.avgEntry == q.avgEntry
    ensures Weigh(w, s, p) == Weigh(w, s, q)
  {
  }

  lemma SeenKeepsTallies(j: seq<Entry>, e: Entry)
    requires e.Seen?
    ensures Realized(j + [e]) == Realized(j) && Slack(j + [e]) == Slack(j)
  {
    TalliesAppend(j, e);
    TallyOne(e);
  }

  lemma WithMarkKeepsTotals(a: Account, symbol: string, last: real)
    requires symbol in a.positions
    ensures Total(WithMark(a, symbol, last).positions, Basis) == Total(a.positions, Basis)
    ensures Total(WithMark(a, symbol, last).positions, Shorts) == Total(a.positions, Shorts)
    ensures Realized(WithMark(a, symbol, last).journal) == Realized(a.journal)
    ensures Slack(WithMark(a, symbol, last).journal) == Slack(a.journal)
  {
    var p := WithMark(a, symbol, last).positions[symbol];
    RemarkKeepsTotal(a.positions, symbol, p, Basis);
    RemarkKeepsTotal(a.positions, symbol, p, Shorts);
    SeenKeepsTallies(a.journal, Seen(symbol, Round(last)));
  }

  lemma WithMarkKeeps(a: Account, symbol: string, last: real)
    requires Inv(a) && symbol in a.positions
    ensures Keeps(a, WithMark(a, symbol, last))
  {
    hide Decision, Moves;
    BookedFrame(a, WithMark(a, symbol, last));
    MovesMark(a, symbol, last);
    MarkKeepsWatched(a, symbol, last);
    MarkKeepsMoney(a, symbol, last);
    MarkExtends(a, symbol, last);
  }

  lemma MarkKeepsMoney(a: Account, symbol: string, last: real)
    requires Accounted(a) && Powered(a) && symbol in a.positions
    ensures Accounted(WithMark(a, symbol, last)) && Powered(WithMark(a, symbol, last))
  {
    hide Decision, Margin;
    WithMarkKeepsTotals(a, symbol, last);
  }

  lemma MarkExtends(a: Account, symbol: string, last: real)
    requires Filed(a) && Sized(a) && symbol in a.positions
    ensures Filed(WithMark(a, symbol, last)) && Sized(WithMark(a, symbol, last))
    ensures Extends(a, WithMark(a, symbol, last))
  {
    hide Decision;
  }

  lemma FillMarketKeeps(a: Account, key: string, size: Size, quote: Quote, pid: nat)
    requires Inv(a) && key in a.orders && Open(a.orders[key].status) && size.Nonnegative()
    ensures var out := FillMarket(a, key, size, quote, pid); out.Done? ==> Keeps(a, out.account)
  {
    hide Inv, Extends, Moves, Book, ComputeFill, Affordable;
    var o := a.orders[key];
    var out := FillMarket(a, key, size, quote, pid);
    if out.Done? {
      FillTerms(quote, o.side, o.crypto, size);
      WithStatusKeeps(a, key, Rejected);
      if out.account != WithStatus(a, key, Rejected) {
        BookKeeps(a, key, ComputeFill(quote, o.side, o.crypto, size).value, pid);
      }
    }
  }

  lemma BookKeeps(a: Account, key: string, f: FillQuote, pid: nat)
    requires Inv(a) && key in a.orders && Open(a.orders[key].status) && f.qty >= 0
    requires a.orders[key].symbol !in a.positions ==> f.qty > 0
    requires a.orders[key].reduceOnly ==> Opposes(a.orders[key].side, Held(a, a.orders[key].symbol).qty)
    ensures Keeps(a, Book(a, key, f, pid))
  {
    MovesBook(a, key, f, pid);
    hide ApplyFill, Value, Accounted, Watched, Booked, Moves, Reduced;
    BookKeepsReduced(a, key, f, pid);
    BookKeepsBooked(a, key, f, pid);
    BookKeepsFiled(a, key, f, pid);
    BookKeepsWatched(a, key, f, pid);
    BookKeepsAccounted(a, key, f, pid);
  }

  // ---------------------------------------------------------------- the operations

  lemma StoredSizeNonnegative(s: Size)
    requires s.Positive()
    ensures StoredSize(s).Nonnegative()
  {
    RoundNearest(if s.Quantity? then s.qty else s.amount);
  }

  lemma PlaceLockedKeeps(a: Account, key: string, req: Request, quote: Option<Quote>, pid: nat)
    requires Inv(a) && req.size.Positive()
    ensures var out := PlaceLocked(a, key, req, quote, pid); out.Done? ==> Keeps(a, out.account)
  {
    if key !in a.orders {
      StoredSizeNonnegative(req.size);
      WithOrderKeeps(a, key, NewOrder(req));
      var b, out := WithOrder(a, key, NewOrder(req)), PlaceLocked(a, key, req, quote, pid);
      hide Inv, Extends, Moves, FillMarket;
      if !Fresh(quote) {
        WithStatusKeeps(b, key, Rejected);
      } else if !req.kind.Market? {
        WithStatusKeeps(b, key, Accepted);
      } else {
        FillMarketKeeps(b, key, req.size, quote.value, pid);
      }
      if out.Done? {
        KeepsTransitive(a, b, out.account);
      }
    }
  }

  lemma KeepsTransitive(a: Account, b: Account, c: Account)
    requires Keeps(a, b) && Keeps(b, c)
    ensures Keeps(a, c)
  {
    MovesTransitive(a, b, c);
    hide Inv, Moves;
  }

  lemma KeepsReflexive(a: Account)
    requires Inv(a)
    ensures Keeps(a, a)
  {
    MovesWithin(a, a);
    hide Inv, Moves;
  }

  lemma SettleOneKeeps(a: Account, w: Watch, tick: string, quotes: map<string, Quote>)
    requires Inv(a)
    ensures var out := SettleOne(a, w, tick, quotes); out.Done? ==> Keeps(a, out.account)
  {
    hide Inv, Extends, Moves, FillMarket, Decision, WithOrder;
    KeepsReflexive(a);
    if w.symbol in a.positions && w.symbol in quotes {
      var p, quote, key := a.positions[w.symbol], quotes[w.symbol], ExitKey(w.id, tick);
      var b := WithMark(a, w.symbol, quote.last);
      WithMarkKeeps(a, w.symbol, quote.last);
      if key !in a.orders {
        ExitOrderKeeps(a, b, key, w.symbol, p, quote, w.id);
      }
    }
  }

  lemma ExitOrderKeeps(a: Account, b: Account, key: string, symbol: string, p: Position, quote: Quote, pid: nat)
    requires Keeps(a, b) && key !in b.orders
    ensures var o := ExitOrder(symbol, p);
            var out := FillMarket(WithOrder(b, key, o), key, o.size, quote, pid);
            out.Done? ==> Keeps(a, out.account)
  {
    hide Inv, Extends, Moves, FillMarket;
    var o := ExitOrder(symbol, p);
    var c := WithOrder(b, key, o);
    WithOrderKeeps(b, key, o);
    FillMarketKeeps(c, key, o.size, quote, pid);
    var out := FillMarket(c, key, o.size, quote, pid);
    if out.Done? {
      KeepsTransitive(b, c, out.account);
      KeepsTransitive(a, b, out.account);
    }
  }

  lemma {:induction false} SettleExitsKeeps(a: Account, watch: seq<Watch>, tick: string, quotes: map<string, Quote>)
    requires Inv(a)
    ensures var out := SettleExits(a, watch, tick, quotes); out.Done? ==> Keeps(a, out.account)
    decreases |watch|
  {
    hide Inv, Extends, Moves, SettleOne;
    KeepsReflexive(a);
    if |watch| > 0 {
      SettleExitsKeeps(a, watch[..|watch| - 1], tick, quotes);
      var init := SettleExits(a, watch[..|watch| - 1], tick, quotes);
      if init.Done? {
        SettleOneKeeps(init.account, watch[|watch| - 1], tick, quotes);
        var out := SettleOne(init.account, watch[|watch| - 1], tick, quotes);
        if out.Done? {
          KeepsTransitive(a, init.account, out.account);
        }
      }
    }
  }

  lemma SettleRestingOneKeeps(a: Account, r: Resting, quote: Quote)
    requires Inv(a)
    ensures var out := SettleRestingOne(a, r, quote); out.Done? ==> Keeps(a, out.account)
  {
    hide FillMarket, Moves;
    KeepsReflexive(a);
    if r.key in a.orders && a.orders[r.key].status.Accepted? {
      FillMarketKeeps(a, r.key, a.orders[r.key].size, quote, r.pid);
    }
  }

  lemma {:induction false} SettleRestingKeeps(a: Account, rows: seq<Resting>, quote: Quote)
    requires Inv(a)
    ensures var out := SettleResting(a, rows, quote); out.Done? ==> Keeps(a, out.account)
    decreases |rows|
  {
    hide Inv, Extends, Moves, SettleRestingOne;
    KeepsReflexive(a);
    if |rows| > 0 {
      SettleRestingKeeps(a, rows[..|rows| - 1], quote);
      var init := SettleResting(a, rows[..|rows| - 1], quote);
      if init.Done? {
        SettleRestingOneKeeps(init.account, rows[|rows| - 1], quote);
        var out := SettleRestingOne(init.account, rows[|rows| - 1], quote);
        if out.Done? {
          KeepsTransitive(a, init.account, out.account);
        }
      }
    }
  }

  /** What the request schema guarantees of its sizes. */
  predicate Valid(e: Event) {
    e.Place? ==> e.req.size.Positive()
  }

  lemma StepKeeps(a: Account, e: Event)
    requires Inv(a) && Valid(e)
    ensures Keeps(a, Commit(a, Step(a, e)))
  {
    hide PlaceLocked, SettleExits, SettleResting, Moves;
    KeepsReflexive(a);
    match e
    case Place(key, req, quote, pid) => PlaceLockedKeeps(a, key, req, quote, pid);
    case Cancel(key) =>
      if key in a.orders && Open(a.orders[key].status) {
        WithStatusKeeps(a, key, Canceled);
      }
    case Exits(watch, tick, quotes) => SettleExitsKeeps(a, watch, tick, quotes);
    case Rest(rows, quote) =>
      if Fresh(quote) {
        SettleRestingKeeps(a, rows, quote.value);
      }
  }

  lemma NewAccountInv(starting: Money, mult: real)
    ensures Inv(NewAccount(starting, mult))
  {
    RoundInteger(0);
  }

  /** Every run keeps the ledger laws, and only ever adds orders and fills. */
  lemma {:induction false} RunKeeps(a: Account, events: seq<Event>)
    requires Inv(a) && forall e :: e in events ==> Valid(e)
    ensures Keeps(a, Run(a, events))
    decreases |events|
  {
    hide Inv, Extends, Moves, Step;
    KeepsReflexive(a);
    if |events| > 0 {
      var b := Run(a, events[..|events| - 1]);
      RunKeeps(a, events[..|events| - 1]);
      assert Valid(events[|events| - 1]);
      StepKeeps(b, events[|events| - 1]);
      KeepsTransitive(a, b, Run(a, events));
    }
  }

  lemma NewRunInv(starting: Money, mult: real, events: seq<Event>)
    requires forall e :: e in events ==> Valid(e)
    ensures Keeps(NewAccount(starting, mult), Run(NewAccount(starting, mult), events))
  {
    NewAccountInv(starting, mult);
    RunKeeps(NewAccount(starting, mult), events);
  }

  /** From its creation on: cash is starting cash plus the rounded fold of the Fill rows; each
      position is the signed sum of its symbol's fills, with no row exactly when that is zero; an
      order has one fill when it is filled and none otherwise; buying power is cash less
      collateral. */
  lemma LedgerLaws(starting: Money, mult: real, events: seq<Event>)
    requires forall e :: e in events ==> Valid(e)
    ensures var a := Run(NewAccount(starting, mult), events);
            && a.cash == starting + CashOf(a.orders, a.fills)
            && (forall s :: Held(a, s).qty == QtyOf(a.orders, a.fills, s))
            && (forall s :: s in a.positions <==> QtyOf(a.orders, a.fills, s) != 0)
            && (forall k :: k in a.orders ==>
                  FillsOf(a.fills, k) == if a.orders[k].status.Filled? then 1 else 0)
            && (forall f :: f in a.fills ==> f.key in a.orders)
            && a.buyingPower == a.cash - Reserved(a.positions, mult)
  {
    NewRunInv(starting, mult, events);
    var a := Run(NewAccount(starting, mult), events);
    forall s ensures s in a.positions <==> QtyOf(a.orders, a.fills, s) != 0 {
      assert Held(a, s).qty == QtyOf(a.orders, a.fills, s);
    }
  }

  /** The stored extreme of every open position is the highest (for a short, the lowest) of the
      prices that opened it or that the exit evaluator saw since it was last flat, and its average
      entry lies between two of the prices that opened it. */
  lemma PositionLaws(starting: Money, mult: real, events: seq<Event>, s: string)
    requires forall e :: e in events ==> Valid(e)
    ensures var a := Run(NewAccount(starting, mult), events);
            s in a.positions ==>
              && a.positions[s].highWater.Some?
              && IsFurthest(a.positions[s].qty < 0, a.positions[s].highWater.value, Life(a.journal, s))
              && AtSomeBetween(a.positions[s].avgEntry, Openings(a.journal, s))
  {
    NewRunInv(starting, mult, events);
    assert WatchedAt(Run(NewAccount(starting, mult), events), s);
  }

  // ---------------------------------------------------------------- rows after one operation

  /** An order's own exit level, or else the one the row had. */
  predicate TakesOver(after: Option<real>, mine: Option<real>, before: Option<real>) {
    match mine
    case Some(x) => after == Some(x)
    case None => after == before
  }

  /** The position row a booked fill leaves: a new one with the order's exit levels and the fill price as
      its extreme; on an increase each level the order sets, the others kept, and the further of extreme
      and price; on a decrease everything but the quantity kept. */
  lemma RowLevels(a: Account, key: string, f: FillQuote, pid: nat)
    requires key in a.orders && f.qty >= 0
    requires a.orders[key].symbol in a.positions ==> a.positions[a.orders[key].symbol].qty != 0
    requires a.orders[key].symbol in Book(a, key, f, pid).positions
    ensures var o, row := a.orders[key], Book(a, key, f, pid).positions[a.orders[key].symbol];
            if o.symbol !in a.positions then
              row.id == pid && row.crypto == o.crypto && row.levels == o.levels && row.highWater == Some(f.price)
            else
              var row0 := a.positions[o.symbol];
              && row.id == row0.id && row.crypto == row0.crypto
              && if Opposes(o.side, row0.qty) then row.levels == row0.levels && row.highWater == row0.highWater
                 else
                   && TakesOver(row.levels.stopLoss, o.levels.stopLoss, row0.levels.stopLoss)
                   && TakesOver(row.levels.takeProfit, o.levels.takeProfit, row0.levels.takeProfit)
                   && TakesOver(row.levels.trailing, o.levels.trailing, row0.levels.trailing)
                   && var wm := row0.highWater.GetOr(f.price);
                   row.highWater == Some(if row0.qty < 0 then (if f.price < wm then f.price else wm)
                                         else if f.price > wm then f.price else wm)
  {
    var o := a.orders[key];
    NeverFlips(a.cash, Held(a, o.symbol), o.side, f.qty, f.price as real, f.fees);
    FillIsRecorded(a.cash, Held(a, o.symbol), o.side, f.qty, f.price as real, f.fees);
    hide ApplyFill, Value, Round;
  }

  /** The terms of the request as they are stored: prices and sizes to half a unit, exit percents capped. */
  predicate StoresTerms(o: Order, req: Request) {
    && o.symbol == req.symbol && o.crypto == req.crypto && o.side == req.side && o.kind == req.kind
    && o.reduceOnly == req.reduceOnly
    && o.levels.stopLoss == StoredPct(req.levels.stopLoss, 0.9)
    && o.levels.takeProfit == StoredPct(req.levels.takeProfit, 5.0)
    && o.levels.trailing == StoredPct(req.levels.trailing, 0.9)
    && NearPrice(o.limit, req.limit) && NearPrice(o.stop, req.stop)
    && (match req.size
        case Quantity(q) => o.size.Quantity? && Abs(o.size.qty - q) <= 0.5
        case Notional(x) => o.size.Notional? && Abs(o.size.amount - x) <= 0.5)
  }

  predicate NearPrice(stored: Option<real>, asked: Option<real>) {
    (stored.Some? <==> asked.Some?) && (asked.Some? ==> Abs(stored.value - asked.value) <= 0.5)
  }

  lemma NewOrderStores(req: Request)
    ensures StoresTerms(NewOrder(req), req) && NewOrder(req).status.Pending?
  {
    RoundNearest(req.limit.GetOr(0.0));
    RoundNearest(req.stop.GetOr(0.0));
    RoundNearest(if req.size.Quantity? then req.size.qty else req.size.amount);
    hide StoredPct, Round;
  }

  /** What a new order's row says: the request's terms, and a status that tells what was done with it. */
  lemma PlacedOrderIs(a: Account, key: string, req: Request, quote: Option<Quote>, pid: nat)
    requires key !in a.orders && PlaceOrder(a, key, req, quote, pid).Done?
    ensures var b := PlaceOrder(a, key, req, quote, pid).account;
            && b.orders.Keys == a.orders.Keys + {key} && StoresTerms(b.orders[key], req)
            && (forall k :: k in a.orders ==> b.orders[k] == a.orders[k])
            && var status := b.orders[key].status;
            if quote.None? || quote.value.stale then status.Rejected?
            else if req.kind.Market? then status.Filled? || status.Rejected?
            else status.Accepted?
  {
    NewOrderStores(req);
    var b := WithOrder(a, key, NewOrder(req));
    if quote.Some? {
      FillMarketOrders(b, key, req.size, quote.value, pid);
    }
    hide FillMarket, NewOrder, StoredPct, NearPrice;
  }

  lemma FillMarketOrders(a: Account, key: string, size: Size, quote: Quote, pid: nat)
    requires key in a.orders
    ensures var out := FillMarket(a, key, size, quote, pid);
            out.Done? ==> exists status :: (status == Filled || status == Rejected)
                                        && out.account.orders == WithStatus(a, key, status).orders
  {
    hide ComputeFill, ApplyFill, Affordable, PowerOf, RowAfter, JournalEntry;
    assert Book(a, key, ComputeFill(quote, a.orders[key].side, a.orders[key].crypto, size).GetOr(
      FillQuote(0, 0, 0, 0)), pid).orders == WithStatus(a, key, Filled).orders;
  }

  /** After a cancel no order of the key is open; it is canceled exactly when it was, or was already, and
      nothing else changes. */
  lemma CancelMeaning(a: Account, key: string)
    requires key in a.orders
    ensures var b, before := CancelOrder(a, key), a.orders[key].status;
            && b.orders.Keys == a.orders.Keys
            && !b.orders[key].status.Pending? && !b.orders[key].status.Accepted?
            && (b.orders[key].status.Canceled? <==> before.Pending? || before.Accepted? || before.Canceled?)
            && (!before.Pending? && !before.Accepted? ==> b == a)
            && b == a.(orders := a.orders[key := a.orders[key].(status := b.orders[key].status)])
  {
  }

  /** What becomes of an order that is filled now, in the order the tests are made: it raises without a
      price; is rejected when it may only reduce and does not; is rejected when it opens a long for more
      than the buying power, or a short whose collateral is more; raises for nothing into no position; and
      is filled otherwise. */
  lemma FillMarketIff(a: Account, key: string, size: Size, quote: Quote, pid: nat)
    requires key in a.orders
    ensures var out, o := FillMarket(a, key, size, quote, pid), a.orders[key];
            var fq, held := ComputeFill(quote, o.side, o.crypto, size), Held(a, o.symbol).qty;
            if fq.None? then out.Raised?
            else
              var value := Value(fq.value.qty, fq.value.price as real);
              var opens := !Opposes(o.side, held);
              if o.reduceOnly && opens then out == Done(WithStatus(a, key, Rejected))
              else if opens && o.side.Buy? && Round(value + fq.value.fees as real) > a.buyingPower then
                out == Done(WithStatus(a, key, Rejected))
              else if opens && o.side.Sell? && Round(Margin(value, a.mult)) > a.buyingPower then
                out == Done(WithStatus(a, key, Rejected))
              else if o.symbol !in a.positions && fq.value.qty == 0 then out.Raised?
              else out == Done(Book(a, key, fq.value, pid))
  {
    hide ComputeFill, Value, Round, Book, Margin;
  }

  // ---------------------------------------------------------------- reduce-only orders

  /** A reduce-only order that can be priced is rejected, with no fill, exactly when nothing is held on
      its other side; otherwise it fills, for no more than is held. */
  lemma ReduceOnlyIff(a: Account, key: string, size: Size, quote: Quote, pid: nat)
    requires key in a.orders && a.orders[key].reduceOnly && size.Nonnegative()
    requires ComputeFill(quote, a.orders[key].side, a.orders[key].crypto, size).Some?
    ensures var out := FillMarket(a, key, size, quote, pid);
            var held := Held(a, a.orders[key].symbol).qty;
            && out.Done? && key in out.account.orders
            && (out.account.orders[key].status.Rejected? <==> !Opposes(a.orders[key].side, held))
            && (out.account.orders[key].status.Rejected? ==>
                  && out.account.fills == a.fills && out.account.positions == a.positions
                  && out.account.cash == a.cash && out.account.journal == a.journal)
            && (Opposes(a.orders[key].side, held) ==>
                  && out.account.orders[key].status.Filled?
                  && |out.account.fills| == |a.fills| + 1 && out.account.fills[|a.fills|].qty <= AbsQty(held))
  {
    var o := a.orders[key];
    var f := ComputeFill(quote, o.side, o.crypto, size).value;
    FillTerms(quote, o.side, o.crypto, size);
    NeverFlips(a.cash, Held(a, o.symbol), o.side, f.qty, f.price as real, f.fees);
    hide ComputeFill, ApplyFill, Value, Margin;
  }

  /** The fill took from what its symbol held, on the other side and for no more. */
  predicate TookFromHeld(orders: map<string, Order>, fills: seq<Fill>, k: nat)
    requires k < |fills| && fills[k].key in orders
  {
    var o := orders[fills[k].key];
    var before, after := QtyOf(orders, fills[..k], o.symbol), QtyOf(orders, fills[..k + 1], o.symbol);
    && (if o.side.Buy? then before < 0 && before <= after <= 0 else before > 0 && before >= after >= 0)
    && AbsQty(after) == AbsQty(before) - fills[k].qty
  }

  lemma {:induction false} OnlyReducedAt(orders: map<string, Order>, fills: seq<Fill>, k: nat)
    requires OnlyReduced(orders, fills) && k < |fills| && fills[k].key in orders && orders[fills[k].key].reduceOnly
    ensures TookFromHeld(orders, fills, k)
    decreases |fills|
  {
    var init := fills[..|fills| - 1];
    if k < |init| {
      OnlyReducedAt(orders, init, k);
      assert init[..k] == fills[..k] && init[..k + 1] == fills[..k + 1];
    } else {
      assert fills[..k + 1] == fills;
    }
  }

  /** Over every run no reduce-only order opens anything: each of its fills took from what its symbol
      held, on the other side and for no more, and every opening entry of the history comes from a fill
      of another order. */
  lemma ReduceOnlyLaws(starting: Money, mult: real, events: seq<Event>, k: nat)
    requires forall e :: e in events ==> Valid(e)
    ensures var a := Run(NewAccount(starting, mult), events);
            && OpenedIn(a.journal) == OpeningFills(a.orders, a.fills)
            && (k < |a.fills| ==>
                  && a.fills[k].key in a.orders
                  && (a.orders[a.fills[k].key].reduceOnly ==> TookFromHeld(a.orders, a.fills, k)))
  {
    NewRunInv(starting, mult, events);
    var a := Run(NewAccount(starting, mult), events);
    hide Run, Booked, Watched, Accounted, Powered, Sized, Extends, Moves, TookFromHeld;
    if k < |a.fills| {
      assert a.fills[k] in a.fills;
      if a.orders[a.fills[k].key].reduceOnly {
        OnlyReducedAt(a.orders, a.fills, k);
      }
    }
  }

  lemma {:induction false} LifeGrows(j: seq<Entry>, k: seq<Entry>, s: string)
    requires j <= k && forall i :: |j| <= i < |k| ==> !ClosesFlat(k[i], s)
    ensures Life(j, s) <= Life(k, s)
    decreases |k|
  {
    if j == k {
    } else {
      var init := k[..|k| - 1];
      LifeGrows(j, init, s);
      JournalAppend(init, k[|k| - 1], s);
      assert k == init + [k[|k| - 1]];
    }
  }

  lemma {:induction false} RunSplit(a: Account, events: seq<Event>, m: nat)
    requires m <= |events|
    ensures Run(a, events) == Run(Run(a, events[..m]), events[m..])
    decreases |events|
  {
    hide Step;
    if m == |events| {
      assert events[..m] == events && events[m..] == [];
    } else {
      RunSplit(a, events[..|events| - 1], m);
      assert events[..|events| - 1][..m] == events[..m];
      assert events[..|events| - 1][m..] == events[m..][..|events| - 1 - m];
    }
  }

  /** The trailing level from the second extreme is no looser than from the first. */
  predicate LevelTighter(short: bool, x: Money, y: Money, t: real) {
    AtOrWorse(!short, LossLevel(short, y as real, t), LossLevel(short, x as real, t))
  }

  /** The ratchet over a run: from one state to a later one, with no close in between that left the
      symbol flat, the position is still open on its side, its stored extreme has only moved in its
      favour, and so has the level of any trailing fraction taken from it. */
  lemma ExtremeOnlyRatchets(starting: Money, mult: real, events: seq<Event>, m: nat, s: string)
    requires m <= |events| && forall e :: e in events ==> Valid(e)
    ensures var a, b := Run(NewAccount(starting, mult), events[..m]), Run(NewAccount(starting, mult), events);
            && |a.journal| <= |b.journal|
            && (StaysOpen(a, b, s) ==>
                  && SameSide(a, b, s) && a.positions[s].highWater.Some? && b.positions[s].highWater.Some?
                  && var short, x, y := a.positions[s].qty < 0, a.positions[s].highWater.value,
                                        b.positions[s].highWater.value;
                  && Furthest(short, y, x) == y
                  && forall t :: 0.0 < t <= 1.0 ==> LevelTighter(short, x, y, t))
  {
    var start := NewAccount(starting, mult);
    var a, b := Run(start, events[..m]), Run(start, events);
    RunSplit(start, events, m);
    NewRunInv(starting, mult, events[..m]);
    RunKeeps(a, events[m..]);
    hide Run, Booked, Filed, Accounted, Powered, Sized, Extends;
    if StaysOpen(a, b, s) {
      assert WatchedAt(a, s) && WatchedAt(b, s);
      LifeGrows(a.journal, b.journal, s);
      var short, x, y := a.positions[s].qty < 0, a.positions[s].highWater.value, b.positions[s].highWater.value;
      assert x in Life(b.journal, s);
      forall t | 0.0 < t <= 1.0 ensures LevelTighter(short, x, y, t) {
        LevelMonotone(short, if short then y as real else x as real, if short then x as real else y as real, t);
        hide LossLevel;
      }
    }
  }

  /** After any run the snapshot's realized figure is independent of the marks, and differs from
      what the fills realized less opening fees by at most the accumulated rounding. */
  lemma RealizedLaws(starting: Money, mult: real, events: seq<Event>,
                     marks: map<string, real>, other: map<string, real>)
    requires forall e :: e in events ==> Valid(e)
    ensures var a := Run(NewAccount(starting, mult), events);
            && MarkToMarket(a, marks).realized == MarkToMarket(a, other).realized
            && Abs((MarkToMarket(a, marks).realized - Realized(a.journal)) as real) <= Slack(a.journal) + 0.5
  {
    hide Round, Value, Run;
    NewRunInv(starting, mult, events);
    SnapshotRealized(Run(NewAccount(starting, mult), events), marks, other);
  }

  /** An exit percent is stored when it is positive, capped, and moved by at most half of its fourth
      decimal; the caps are multiples of it. */
  lemma StoredPctNear(p: Option<real>, cap: real)
    requires cap == 0.9 || cap == 5.0
    ensures var r := StoredPct(p, cap);
            && (r.Some? <==> p.Some? && p.value > 0.0)
            && (r.Some? ==> 0.0 <= r.value <= cap && Abs(r.value - Min(p.value, cap)) <= 0.00005)
  {
    if p.Some? && p.value > 0.0 {
      var x := Min(p.value, cap) * 10_000.0;
      RoundNearest(x);
      RoundBetween(0, x, if cap == 0.9 then 9_000 else 50_000);
    }
  }

  lemma PlacedKeyIsTaken(a: Account, key: string, req: Request, quote: Option<Quote>, pid: nat)
    requires PlaceOrder(a, key, req, quote, pid).Done?
    ensures key in PlaceOrder(a, key, req, quote, pid).account.orders
  {
  }

  /** Submitting a client order id again, with any request and after any further run, changes
      nothing and finds an order with the terms of the first. */
  lemma ResubmitIsNoOp(a: Account, key: string, req: Request, quote: Option<Quote>, pid: nat,
                       events: seq<Event>, again: Request, later: Option<Quote>, pid': nat)
    requires Inv(a) && req.size.Positive() && forall e :: e in events ==> Valid(e)
    requires PlaceOrder(a, key, req, quote, pid).Done?
    ensures var first := PlaceOrder(a, key, req, quote, pid).account;
            var b := Run(first, events);
            && PlaceOrder(b, key, again, later, pid') == Done(b)
            && key in first.orders && key in b.orders
            && b.orders[key] == first.orders[key].(status := b.orders[key].status)
  {
    var first := PlaceOrder(a, key, req, quote, pid).account;
    StepKeeps(a, Place(key, req, quote, pid));
    PlacedKeyIsTaken(a, key, req, quote, pid);
    RunKeeps(first, events);
  }

  // ---------------------------------------------------------------- buying power

  lemma ProceedsNonnegative(filled: Qty, qty: Qty, price: Money, fees: Money)
    requires 0 <= filled <= qty && price >= 0 && fees >= 0
    requires Value(qty, price as real) >= 499.0 * fees as real
    ensures Round(Value(filled, price as real) - Prorate(fees, filled, qty) as real) >= 0
  {
    ValueNonnegative(filled, price as real);
    if qty > 0 {
      ProRata(qty as real, filled as real, price as real, fees as real);
      NetNonnegative(Value(filled, price as real), fees as real * filled as real / qty as real);
    } else {
      RoundNearest(Value(filled, price as real) - fees as real);
    }
  }

  lemma NetNonnegative(v: real, fee: real)
    requires v >= 499.0 * fee >= 0.0
    ensures Round(v - Round(fee) as real) >= 0
  {
    RoundNearest(fee);
    assert Round(fee) >= 1 ==> fee >= 0.5;
    RoundNearest(v - Round(fee) as real);
  }

  lemma ProRata(q: real, k: real, p: real, fees: real)
    requires q > 0.0 && k >= 0.0 && fees >= 0.0
    requires PerUnit(q * p) >= 499.0 * fees
    ensures PerUnit(k * p) >= 499.0 * (fees * k / q) >= 0.0
  {
    var t := k / q;
    DivideBetween(k, q, 0.0, t);
    assert k == q * t;
    ScaleMonotone(t, 499.0 * fees * 10_000_000_000.0, q * p);
    assert k * p == t * (q * p);
    assert fees * k / q == fees * t;
    assert k * p >= 499.0 * (fees * t) * 10_000_000_000.0;
    assert fees * t >= 0.0;
  }

  /** A fill that was accepted and booked, as opposed to rejected. */
  ghost predicate Executes(a: Account, key: string, size: Size, quote: Quote, pid: nat)
    requires key in a.orders
  {
    var out := FillMarket(a, key, size, quote, pid);
    out.Done? && key in out.account.orders && out.account.orders[key].status.Filled?
  }

  /** Opening a long never spends more than the buying power, and closing one only adds to it. */
  lemma LongKeepsPower(a: Account, key: string, size: Size, quote: Quote, pid: nat)
    requires Inv(a) && key in a.orders && Open(a.orders[key].status) && size.Nonnegative()
    requires Executes(a, key, size, quote, pid)
    ensures var b := FillMarket(a, key, size, quote, pid).account;
            var held := Held(a, a.orders[key].symbol).qty;
            && (a.orders[key].side.Buy? && held >= 0 ==> b.buyingPower >= 0)
            && (a.orders[key].side.Sell? && held > 0 ==> b.buyingPower >= a.buyingPower)
  {
    hide ComputeFill, Value, Book, ApplyFill;
    var o := a.orders[key];
    var f := ComputeFill(quote, o.side, o.crypto, size).value;
    var held := Held(a, o.symbol).qty;
    FillTerms(quote, o.side, o.crypto, size);
    if held >= 0 && (o.side.Buy? || held > 0) {
      LongBooked(a, key, f, pid);
      if o.side.Sell? {
        ProceedsNonnegative(if f.qty <= held then f.qty else held, f.qty, f.price, f.fees);
      }
    }
  }

  lemma LongBooked(a: Account, key: string, f: FillQuote, pid: nat)
    requires key in a.orders && Powered(a) && f.qty >= 0
    requires var held := Held(a, a.orders[key].symbol).qty; held >= 0 && (a.orders[key].side.Buy? || held > 0)
    ensures var b := Book(a, key, f, pid);
            var held := Held(a, a.orders[key].symbol).qty;
            var v := Value(f.qty, f.price as real);
            var filled := if f.qty <= held then f.qty else held;
            var fee := Prorate(f.fees, filled, f.qty);
            && (a.orders[key].side.Buy? ==> b.buyingPower == a.buyingPower - Round(v + f.fees as real))
            && (a.orders[key].side.Sell? ==>
                  b.buyingPower == a.buyingPower + Round(Value(filled, f.price as real) - fee as real))
  {
    hide Value, Prorate, Average, Round, Margin;
    var s := a.orders[key].symbol;
    var b := Book(a, key, f, pid);
    assert a.positions - {s} == b.positions - {s};
    TotalChange(a.positions, b.positions, Shorts, s);
  }

  /** An accepted short leaves buying power above an explicit bound: its collateral is charged at
      the rounded average, so it can fall short by rounding alone. */
  lemma ShortOpenPowerBound(a: Account, key: string, size: Size, quote: Quote, pid: nat)
    requires Inv(a) && a.mult >= 0.0 && key in a.orders && Open(a.orders[key].status) && size.Nonnegative()
    requires Executes(a, key, size, quote, pid)
    requires a.orders[key].side.Sell? && Held(a, a.orders[key].symbol).qty <= 0
    ensures var b := FillMarket(a, key, size, quote, pid).account;
            b.buyingPower as real >= -1.5 - Margin(Value(-Held(b, a.orders[key].symbol).qty, 0.5), a.mult)
  {
    var o := a.orders[key];
    var f := ComputeFill(quote, o.side, o.crypto, size).value;
    FillTerms(quote, o.side, o.crypto, size);
    ShortBookPowerBound(a, key, f, pid);
  }

  lemma ShortBookPowerBound(a: Account, key: string, f: FillQuote, pid: nat)
    requires key in a.orders && Powered(a) && a.mult >= 0.0 && f.qty >= 0 && f.price >= 0 && f.fees >= 0
    requires a.orders[key].side.Sell? && Held(a, a.orders[key].symbol).qty <= 0
    requires a.orders[key].symbol in a.positions ==> Held(a, a.orders[key].symbol).qty != 0
    requires a.orders[key].symbol !in a.positions ==> f.qty > 0
    requires Value(f.qty, f.price as real) >= 499.0 * f.fees as real
    requires Affordable(a, Sell, Held(a, a.orders[key].symbol).qty, f)
    ensures var b := Book(a, key, f, pid);
            b.buyingPower as real >= -1.5 - Margin(Value(-Held(b, a.orders[key].symbol).qty, 0.5), a.mult)
  {
    hide Value, Average, ApplyFill, Book, Margin;
    var s := a.orders[key].symbol;
    var held, size := Held(a, s), -Held(a, s).qty + f.qty;
    var b := Book(a, key, f, pid);
    ShortBooked(a, key, f, pid);
    AverageDrift(-held.qty, held.avgEntry, f.qty, f.price as real);
    CollateralBound(a.mult, a.cash, b.cash, Value(f.qty, f.price as real), Value(size, 0.5),
                    Total(a.positions, Shorts), Total(b.positions, Shorts));
  }

  lemma ShortBooked(a: Account, key: string, f: FillQuote, pid: nat)
    requires key in a.orders && f.qty >= 0 && f.price >= 0 && f.fees >= 0
    requires a.orders[key].side.Sell? && Held(a, a.orders[key].symbol).qty <= 0
    requires a.orders[key].symbol in a.positions ==> Held(a, a.orders[key].symbol).qty != 0
    requires a.orders[key].symbol !in a.positions ==> f.qty > 0
    requires Value(f.qty, f.price as real) >= 499.0 * f.fees as real
    ensures var b := Book(a, key, f, pid);
            var s := a.orders[key].symbol;
            var held, size := Held(a, s), -Held(a, s).qty + f.qty;
            var avg := Average(-held.qty, held.avgEntry, f.qty, f.price as real);
            && size > 0 && Held(b, s).qty == -size
            && b.cash >= a.cash && b.mult == a.mult
            && b.buyingPower == PowerOf(b.cash, b.positions, a.mult)
            && Total(b.positions, Shorts) - Total(a.positions, Shorts)
               == Value(size, avg as real) - Value(-held.qty, held.avgEntry as real)
  {
    var b := Book(a, key, f, pid);
    var s := a.orders[key].symbol;
    assert a.positions - {s} == b.positions - {s};
    TotalChange(a.positions, b.positions, Shorts, s);
    ProceedsNonnegative(f.qty, f.qty, f.price, f.fees);
    ProrateFull(f.fees, f.qty);
  }

  /** Cash that grew against collateral that grew by little more than what was reserved for it. */
  lemma CollateralBound(mult: real, cash: Money, cash': Money, v: real, half: real, total: real, total': real)
    requires mult >= 0.0 && cash <= cash' && total' - total - v <= half
    requires Round(Margin(v, mult)) <= cash - Round(Margin(total, mult))
    ensures (cash' - Round(Margin(total', mult))) as real >= -1.5 - Margin(half, mult)
  {
    MarginWithin(mult, total' - total, v, half);
    MarginDifference(mult, total', total);
    hide Margin;
    RoundNearest(Margin(v, mult));
    RoundNearest(Margin(total, mult));
    RoundNearest(Margin(total', mult));
  }

  lemma MarginWithin(mult: real, x: real, v: real, half: real)
    requires mult >= 0.0 && x - v <= half
    ensures Margin(x, mult) <= Margin(v, mult) + Margin(half, mult)
  {
    ScaleMonotone(mult, x, v + half);
    assert mult * (v + half) == v * mult + half * mult;
  }

  lemma MarginDifference(mult: real, x: real, y: real)
    ensures Margin(x - y, mult) == Margin(x, mult) - Margin(y, mult)
  {
  }

  // ---------------------------------------------------------------- exits and resting orders

  /** The realized amount the sweep reports, computed from the row before and the Fill after. */
  function ReportedRealized(p: Position, f: Fill): Money {
    var e := p.avgEntry as real;
    Round(Value(AbsQty(p.qty), if p.qty < 0 then e - f.price as real else f.price as real - e) - f.fees as real)
  }

  /** A triggered exit is never rejected.  With a positive price on its side it ends flat in one fill,
      and what it reports is what the spine realized; without one it raises. */
  lemma TriggeredExit(a: Account, w: Watch, tick: string, quotes: map<string, Quote>)
    requires w.symbol in a.positions && a.positions[w.symbol].id == w.id && a.positions[w.symbol].qty != 0
    requires w.symbol in quotes && !quotes[w.symbol].stale
    requires Decision(a.positions[w.symbol], quotes[w.symbol].last).reason.Some?
    requires ExitKey(w.id, tick) !in a.orders
    ensures var out := SettleOne(a, w, tick, quotes);
            var p := a.positions[w.symbol];
            if quotes[w.symbol].SidePrice(if p.qty < 0 then Buy else Sell) > 0.0 then
              out.Done? && ExitDone(a, out.account, w, tick, quotes[w.symbol].last)
            else out.Raised?
  {
    hide EvaluateExit, ApplyFill, Margin, Value;
    var p, quote, key := a.positions[w.symbol], quotes[w.symbol], ExitKey(w.id, tick);
    var o := ExitOrder(w.symbol, p);
    var b := WithOrder(WithMark(a, w.symbol, quote.last), key, o);
    SettleOneFills(a, w, tick, quotes);
    if quote.SidePrice(o.side) > 0.0 {
      ExitPriced(b, key, o, quote, w.id);
      var f := ComputeFill(quote, o.side, o.crypto, o.size).value;
      ExitBooked(b, key, f, w.id);
      assert Held(b, w.symbol) == Held(a, w.symbol);
      ReportSame(p, b.positions[w.symbol], Fill(key, f.qty, f.price, f.fees));
      hide FillMarket, SettleOne, ComputeFill;
    } else if SettleOne(a, w, tick, quotes).Done? {
      FilledHasPrice(b, key, o.size, quote, w.id);
    }
  }

  /** The exit of a whole position: flat in one fill of its size, the exit order filled, and the
      realized amount that of the fill. */
  ghost predicate ExitDone(a: Account, b: Account, w: Watch, tick: string, last: real)
    requires w.symbol in a.positions
  {
    var p, key := a.positions[w.symbol], ExitKey(w.id, tick);
    && w.symbol !in b.positions
    && |b.fills| == |a.fills| + 1 && b.fills[..|a.fills|] == a.fills
    && var f := b.fills[|a.fills|];
    && f.key == key && f.qty == AbsQty(p.qty)
    && key in b.orders && b.orders[key].status.Filled?
    && b.journal == a.journal + [Seen(w.symbol, Round(last)), Closed(w.symbol, ReportedRealized(p, f), true)]
    && ReportedRealized(p, f) ==
         ApplyFill(a.cash, Held(a, w.symbol), if p.qty < 0 then Buy else Sell, f.qty, f.price as real, f.fees).realized
  }

  lemma SettleOneFills(a: Account, w: Watch, tick: string, quotes: map<string, Quote>)
    requires w.symbol in a.positions && a.positions[w.symbol].id == w.id && a.positions[w.symbol].qty != 0
    requires w.symbol in quotes && !quotes[w.symbol].stale
    requires Decision(a.positions[w.symbol], quotes[w.symbol].last).reason.Some?
    requires ExitKey(w.id, tick) !in a.orders
    ensures var o := ExitOrder(w.symbol, a.positions[w.symbol]);
            var key := ExitKey(w.id, tick);
            var b := WithOrder(WithMark(a, w.symbol, quotes[w.symbol].last), key, o);
            SettleOne(a, w, tick, quotes) == FillMarket(b, key, o.size, quotes[w.symbol], w.id)
  {
  }

  lemma ReportSame(p: Position, q: Position, f: Fill)
    requires p.qty == q.qty && p.avgEntry == q.avgEntry
    ensures ReportedRealized(p, f) == ReportedRealized(q, f)
  {
  }

  lemma FilledHasPrice(b: Account, key: string, size: Size, quote: Quote, pid: nat)
    requires key in b.orders && FillMarket(b, key, size, quote, pid).Done?
    ensures quote.SidePrice(b.orders[key].side) > 0.0
  {
  }

  lemma ExitPriced(b: Account, key: string, o: Order, quote: Quote, pid: nat)
    requires key in b.orders && b.orders[key] == o && o.symbol in b.positions
    requires b.positions[o.symbol].qty != 0 && o == ExitOrder(o.symbol, b.positions[o.symbol])
    requires quote.SidePrice(o.side) > 0.0
    ensures var fq := ComputeFill(quote, o.side, o.crypto, o.size);
            && fq.Some? && fq.value.qty == AbsQty(b.positions[o.symbol].qty)
            && FillMarket(b, key, o.size, quote, pid) == Done(Book(b, key, fq.value, pid))
  {
    RoundInteger(AbsQty(b.positions[o.symbol].qty));
  }

  /** Booking a fill for the whole position on its closing side. */
  lemma ExitBooked(b: Account, key: string, f: FillQuote, pid: nat)
    requires key in b.orders && b.orders[key].symbol in b.positions
    requires var p := b.positions[b.orders[key].symbol];
             p.qty != 0 && f.qty == AbsQty(p.qty) && b.orders[key].side == if p.qty < 0 then Buy else Sell
    ensures var o, c := b.orders[key], Book(b, key, f, pid);
            var p := b.positions[o.symbol];
            var r := Fill(key, f.qty, f.price, f.fees);
            && o.symbol !in c.positions
            && c.orders == b.orders[key := o.(status := Filled)]
            && c.fills == b.fills + [r]
            && c.journal == b.journal + [Closed(o.symbol, ReportedRealized(p, r), true)]
            && ReportedRealized(p, r) ==
                 ApplyFill(b.cash, Held(b, o.symbol), o.side, f.qty, f.price as real, f.fees).realized
  {
    CloseInFull(b.cash, Held(b, b.orders[key].symbol), f.price as real, f.fees);
  }

  /** How many rows settle_resting counts: every order that crossed. */
  ghost function RestingCount(a: Account, rows: seq<Resting>, quote: Quote): nat
    decreases |rows|
  {
    if |rows| == 0 then 0
    else
      var init := SettleResting(a, rows[..|rows| - 1], quote);
      RestingCount(a, rows[..|rows| - 1], quote) +
      if init.Done? && CrossesNow(init.account, rows[|rows| - 1], quote) then 1 else 0
  }

  predicate CrossesNow(a: Account, r: Resting, quote: Quote) {
    && r.key in a.orders && a.orders[r.key].status.Accepted?
    && var o := a.orders[r.key];
    Crosses(o.kind, o.side, o.limit, o.stop, quote) == Some(true)
  }

  ghost function RestingRejections(a: Account, rows: seq<Resting>, quote: Quote): nat
    decreases |rows|
  {
    if |rows| == 0 then 0
    else
      var init, all := SettleResting(a, rows[..|rows| - 1], quote), SettleResting(a, rows, quote);
      var r := rows[|rows| - 1];
      RestingRejections(a, rows[..|rows| - 1], quote) +
      if all.Done? && init.Done? && CrossesNow(init.account, r, quote)
         && r.key in all.account.orders && all.account.orders[r.key].status.Rejected? then 1 else 0
  }

  lemma FillMarketFillsOrRejects(a: Account, key: string, size: Size, quote: Quote, pid: nat)
    requires key in a.orders
    ensures var out := FillMarket(a, key, size, quote, pid);
            out.Done? ==>
              && key in out.account.orders
              && (out.account.orders[key].status.Filled? || out.account.orders[key].status.Rejected?)
              && |out.account.fills| == |a.fills| + if out.account.orders[key].status.Rejected? then 0 else 1
  {
  }

  /** The count settle_resting returns is the number of fills it made exactly when no crossed
      order was rejected: rejected ones are counted too. */
  lemma {:induction false} RestingCountIncludesRejections(a: Account, rows: seq<Resting>, quote: Quote)
    requires SettleResting(a, rows, quote).Done?
    ensures RestingCount(a, rows, quote)
            == |SettleResting(a, rows, quote).account.fills| - |a.fills| + RestingRejections(a, rows, quote)
    decreases |rows|
  {
    hide FillMarket;
    if |rows| > 0 {
      RestingCountIncludesRejections(a, rows[..|rows| - 1], quote);
      var init, r := SettleResting(a, rows[..|rows| - 1], quote).account, rows[|rows| - 1];
      if CrossesNow(init, r, quote) {
        FillMarketFillsOrRejects(init, r.key, init.orders[r.key].size, quote, r.pid);
      }
    }
  }

  const RESTING_BUY :=
    Request("X", false, Buy, Limit, Quantity(10_000_000_000.0), Some(100.0 * USD), None, false,
            ExitLevels(None, None, None))

  /** It happens: a limit buy on an account without cash rests, crosses, is rejected and counted. */
  lemma RejectedButCounted(mult: real)
    ensures var a := Run(NewAccount(0, mult), [Place("k", RESTING_BUY, Some(HUNDRED), 0)]);
            var out := SettleResting(a, [Resting("k", 1)], HUNDRED);
            && out.Done? && out.account.fills == []
            && "k" in out.account.orders && out.account.orders["k"].status.Rejected?
            && RestingCount(a, [Resting("k", 1)], HUNDRED) == 1
  {
    var events := [Place("k", RESTING_BUY, Some(HUNDRED), 0)];
    assert events[..0] == [];
    var a0 := NewAccount(0, mult);
    assert Run(a0, events[..0]) == a0;
    var a := Run(a0, events);
    RoundInteger(10_000_000_000);
    var o := NewOrder(RESTING_BUY);
    assert a == WithStatus(WithOrder(a0, "k", o), "k", Accepted);
    var rows := [Resting("k", 1)];
    assert rows[..0] == [];
    assert SettleResting(a, rows[..0], HUNDRED) == Done(a);
    BuyNeedsPower(a, "k", 1);
  }

  lemma BuyNeedsPower(a: Account, key: string, pid: nat)
    requires key in a.orders && a.orders[key].side.Buy? && !a.orders[key].reduceOnly && !a.orders[key].crypto
    requires a.orders[key].symbol !in a.positions && a.buyingPower <= 0
    requires a.orders[key].size == Quantity(10_000_000_000.0)
    ensures FillMarket(a, key, a.orders[key].size, HUNDRED, pid) == Done(WithStatus(a, key, Rejected))
  {
    FillAtHundred();
    RoundInteger(10_001_000_000);
    hide ComputeFill, Round, Value;
    assert Affordable(a, Buy, 0, FillQuote(10_000_000_000, 10_001_000_000, 1, 0)) ==
           (Round(Value(10_000_000_000, 10_001_000_000.0) + 0.0) <= a.buyingPower);
  }
}
