/** What every operation on an account keeps, and so what holds after every run. */
module LedgerProofs {
  import opened Prelude
  import opened Money
  import opened Portfolio
  import opened Matching
  import opened Ledger

  // ---------------------------------------------------------------- totals over a map

  lemma {:induction false} TotalSplit(m: map<string, Position>, w: Weight, s: string)
    requires s in m
    ensures Total(m, w) == Weigh(w, s, m[s]) + Total(m - {s}, w)
    decreases |m|
  {
    var t :| t in m && Total(m, w) == Weigh(w, t, m[t]) + Total(m - {t}, w);
    if t != s {
      TotalSplit(m - {t}, w, s);
      assert m - {t} - {s} == m - {s} - {t};
      assert t in m - {s};
      TotalSplit(m - {s}, w, t);
    }
  }

  lemma TotalUpdate(m: map<string, Position>, w: Weight, s: string, p: Position)
    ensures Total(m[s := p], w) == Weigh(w, s, p) + Total(m - {s}, w)
  {
    assert m[s := p] - {s} == m - {s};
    TotalSplit(m[s := p], w, s);
  }

  /** What a symbol contributes to a total. */
  function Share(m: map<string, Position>, w: Weight, s: string): real {
    if s in m then Weigh(w, s, m[s]) else 0.0
  }

  lemma TotalRest(m: map<string, Position>, w: Weight, s: string)
    ensures Total(m, w) == Share(m, w, s) + Total(m - {s}, w)
  {
    if s in m {
      TotalSplit(m, w, s);
    } else {
      assert m - {s} == m;
    }
  }

  /** Two position maps that differ at one symbol have totals that differ by its shares. */
  lemma TotalChange(m: map<string, Position>, n: map<string, Position>, w: Weight, s: string)
    requires m - {s} == n - {s}
    ensures Total(n, w) - Total(m, w) == Share(n, w, s) - Share(m, w, s)
  {
    TotalRest(m, w, s);
    TotalRest(n, w, s);
  }

  // ---------------------------------------------------------------- the books

  /** The recorded fills alone determine cash, and every position. */
  function CashOf(orders: map<string, Order>, fills: seq<Fill>): Money {
    if |fills| == 0 then 0
    else
      var f := fills[|fills| - 1];
      CashOf(orders, fills[..|fills| - 1]) +
      if f.key in orders then CashDelta(orders[f.key].side, f.qty, f.price as real, f.fees) else 0
  }

  function QtyOf(orders: map<string, Order>, fills: seq<Fill>, symbol: string): Qty {
    if |fills| == 0 then 0
    else
      var f := fills[|fills| - 1];
      QtyOf(orders, fills[..|fills| - 1], symbol) +
      if f.key in orders && orders[f.key].symbol == symbol then SignedQty(orders[f.key].side, f.qty) else 0
  }

  function FillsOf(fills: seq<Fill>, key: string): nat {
    if |fills| == 0 then 0
    else FillsOf(fills[..|fills| - 1], key) + if fills[|fills| - 1].key == key then 1 else 0
  }

  ghost predicate Booked(a: Account) {
    && a.cash == a.starting + CashOf(a.orders, a.fills)
    && (forall s :: Held(a, s).qty == QtyOf(a.orders, a.fills, s))
    && (forall s :: s in a.positions ==> a.positions[s].qty != 0)
  }

  ghost predicate Filed(a: Account) {
    && (forall f :: f in a.fills ==> f.key in a.orders)
    && (forall k :: k in a.orders ==>
          FillsOf(a.fills, k) == if a.orders[k].status.Filled? then 1 else 0)
  }

  /** Each order of `o` is still in `p`, for the same symbol and side, and as reduce-only as it was. */
  predicate SameTerms(o: map<string, Order>, p: map<string, Order>) {
    forall k :: k in o ==>
      && k in p && o[k].symbol == p[k].symbol && o[k].side == p[k].side && o[k].reduceOnly == p[k].reduceOnly
  }

  lemma {:induction false} FoldsFrame(o: map<string, Order>, p: map<string, Order>, fills: seq<Fill>, symbol: string)
    requires SameTerms(o, p)
    requires forall f :: f in fills ==> f.key in o
    ensures CashOf(o, fills) == CashOf(p, fills)
    ensures QtyOf(o, fills, symbol) == QtyOf(p, fills, symbol)
    decreases |fills|
  {
    if |fills| > 0 {
      FoldsFrame(o, p, fills[..|fills| - 1], symbol);
      assert fills[|fills| - 1] in fills;
    }
  }

  lemma {:induction false} FillsOfAbsent(fills: seq<Fill>, key: string)
    requires forall f :: f in fills ==> f.key != key
    ensures FillsOf(fills, key) == 0
    decreases |fills|
  {
    if |fills| > 0 {
      FillsOfAbsent(fills[..|fills| - 1], key);
      assert fills[|fills| - 1] in fills;
    }
  }

  lemma BookedFrame(a: Account, b: Account)
    requires Booked(a) && Filed(a) && SameTerms(a.orders, b.orders)
    requires b.cash == a.cash && b.starting == a.starting && b.fills == a.fills
    requires a.positions.Keys == b.positions.Keys
    requires forall s :: s in a.positions ==> a.positions[s].qty == b.positions[s].qty
    ensures Booked(b)
  {
    FoldsFrame(a.orders, b.orders, a.fills, "");
    forall s ensures Held(b, s).qty == QtyOf(b.orders, b.fills, s) {
      FoldsFrame(a.orders, b.orders, a.fills, s);
      assert Held(a, s).qty == QtyOf(a.orders, a.fills, s);
    }
  }

  lemma BookKeepsBooked(a: Account, key: string, f: FillQuote, pid: nat)
    requires key in a.orders && Booked(a) && Filed(a)
    ensures Booked(Book(a, key, f, pid))
  {
    var b := Book(a, key, f, pid);
    var o := a.orders[key];
    FillIsRecorded(a.cash, Held(a, o.symbol), o.side, f.qty, f.price as real, f.fees);
    FoldsFrame(a.orders, b.orders, a.fills, "");
    assert b.fills[..|b.fills| - 1] == a.fills;
    forall s ensures Held(b, s).qty == QtyOf(b.orders, b.fills, s) {
      FoldsFrame(a.orders, b.orders, a.fills, s);
      assert Held(a, s).qty == QtyOf(a.orders, a.fills, s);
    }
  }

  lemma BookKeepsFiled(a: Account, key: string, f: FillQuote, pid: nat)
    requires key in a.orders && Filed(a) && Open(a.orders[key].status)
    ensures Filed(Book(a, key, f, pid))
  {
    var b := Book(a, key, f, pid);
    assert b.fills[..|b.fills| - 1] == a.fills;
  }

  // ---------------------------------------------------------------- reduce-only orders

  /** A fill on this side makes a position held at `qty` smaller. */
  predicate Opposes(side: Side, qty: Qty) {
    if side.Buy? then qty < 0 else qty > 0
  }

  /** Every fill of a reduce-only order was on the other side of what its symbol held, for no more. */
  ghost predicate OnlyReduced(orders: map<string, Order>, fills: seq<Fill>)
    decreases |fills|
  {
    |fills| > 0 ==>
      var init, f := fills[..|fills| - 1], fills[|fills| - 1];
      && OnlyReduced(orders, init)
      && (f.key in orders && orders[f.key].reduceOnly ==>
            var held := QtyOf(orders, init, orders[f.key].symbol);
            Opposes(orders[f.key].side, held) && 0 <= f.qty <= AbsQty(held))
  }

  /** How many fills of other orders opened or added to a position. */
  function OpeningFills(orders: map<string, Order>, fills: seq<Fill>): nat {
    if |fills| == 0 then 0
    else
      var init, f := fills[..|fills| - 1], fills[|fills| - 1];
      OpeningFills(orders, init) +
      if f.key in orders && !orders[f.key].reduceOnly
         && !Opposes(orders[f.key].side, QtyOf(orders, init, orders[f.key].symbol)) then 1 else 0
  }

  function OpenedIn(j: seq<Entry>): nat {
    if |j| == 0 then 0 else OpenedIn(j[..|j| - 1]) + if j[|j| - 1].Opened? then 1 else 0
  }

  /** Reduce-only orders only ever reduced, and every opening entry comes from another order. */
  ghost predicate Reduced(a: Account) {
    OnlyReduced(a.orders, a.fills) && OpenedIn(a.journal) == OpeningFills(a.orders, a.fills)
  }

  lemma {:induction false} ReducedFrame(o: map<string, Order>, p: map<string, Order>, fills: seq<Fill>)
    requires SameTerms(o, p) && forall f :: f in fills ==> f.key in o
    ensures OnlyReduced(o, fills) <==> OnlyReduced(p, fills)
    ensures OpeningFills(o, fills) == OpeningFills(p, fills)
    decreases |fills|
  {
    if |fills| > 0 {
      var init, f := fills[..|fills| - 1], fills[|fills| - 1];
      assert f in fills;
      ReducedFrame(o, p, init);
      FoldsFrame(o, p, init, o[f.key].symbol);
    }
  }

  lemma BookKeepsReduced(a: Account, key: string, f: FillQuote, pid: nat)
    requires key in a.orders && Booked(a) && Filed(a) && Reduced(a) && f.qty >= 0
    requires a.orders[key].reduceOnly ==> Opposes(a.orders[key].side, Held(a, a.orders[key].symbol).qty)
    ensures Reduced(Book(a, key, f, pid))
  {
    hide Value, Prorate, Average, Round;
    var b, o := Book(a, key, f, pid), a.orders[key];
    var held := Held(a, o.symbol);
    NeverFlips(a.cash, held, o.side, f.qty, f.price as real, f.fees);
    hide ApplyFill;
    ReducedFrame(a.orders, b.orders, a.fills);
    FoldsFrame(a.orders, b.orders, a.fills, o.symbol);
    assert held.qty == QtyOf(a.orders, a.fills, o.symbol);
    assert b.fills[..|b.fills| - 1] == a.fills && b.journal[..|b.journal| - 1] == a.journal;
  }

  // ---------------------------------------------------------------- the exit mark and the entry price

  /** Prices that opened the position or that the exit evaluator saw since it was last flat. */
  function Life(j: seq<Entry>, symbol: string): seq<Money> {
    if |j| == 0 then []
    else
      var init := Life(j[..|j| - 1], symbol);
      var e := j[|j| - 1];
      if e.symbol != symbol then init
      else match e
        case Opened(_, price, _, _) => init + [price]
        case Seen(_, price) => init + [price]
        case Closed(_, _, flat) => if flat then [] else init
  }

  /** Prices of the fills that opened or added to the position since it was last flat. */
  function Openings(j: seq<Entry>, symbol: string): seq<Money> {
    if |j| == 0 then []
    else
      var init := Openings(j[..|j| - 1], symbol);
      var e := j[|j| - 1];
      if e.symbol != symbol then init
      else match e
        case Opened(_, price, _, _) => init + [price]
        case Seen(_, _) => init
        case Closed(_, _, flat) => if flat then [] else init
  }

  /** The highest price for a long, the lowest for a short. */
  ghost predicate IsFurthest(short: bool, m: Money, prices: seq<Money>) {
    m in prices && forall p :: p in prices ==> Furthest(short, m, p) == m
  }

  ghost predicate AtSomeBetween(avg: Money, prices: seq<Money>) {
    exists lo, hi :: lo in prices && hi in prices && lo <= avg <= hi
  }

  ghost predicate WatchedAt(a: Account, s: string) {
    if s in a.positions then
      && a.positions[s].highWater.Some?
      && IsFurthest(a.positions[s].qty < 0, a.positions[s].highWater.value, Life(a.journal, s))
      && AtSomeBetween(a.positions[s].avgEntry, Openings(a.journal, s))
    else
      Life(a.journal, s) == [] && Openings(a.journal, s) == []
  }

  ghost predicate Watched(a: Account) {
    forall s :: WatchedAt(a, s)
  }

  lemma JournalAppend(j: seq<Entry>, e: Entry, s: string)
    ensures e.symbol != s ==> Life(j + [e], s) == Life(j, s) && Openings(j + [e], s) == Openings(j, s)
    ensures e.symbol == s && e.Opened? ==>
              Life(j + [e], s) == Life(j, s) + [e.price] && Openings(j + [e], s) == Openings(j, s) + [e.price]
    ensures e.symbol == s && e.Seen? ==>
              Life(j + [e], s) == Life(j, s) + [e.price] && Openings(j + [e], s) == Openings(j, s)
    ensures e.symbol == s && e.Closed? ==>
              && Life(j + [e], s) == (if e.flat then [] else Life(j, s))
              && Openings(j + [e], s) == (if e.flat then [] else Openings(j, s))
  {
    assert (j + [e])[..|j + [e]| - 1] == j;
  }

  lemma FurthestAppend(short: bool, m: Money, prices: seq<Money>, p: Money)
    requires IsFurthest(short, m, prices)
    ensures IsFurthest(short, Furthest(short, m, p), prices + [p])
  {
    var n := Furthest(short, m, p);
    assert p == (prices + [p])[|prices|];
    forall q | q in prices + [p] ensures Furthest(short, n, q) == n {
      assert q in prices || q == p;
    }
  }

  lemma BetweenAppend(avg: Money, prices: seq<Money>, price: Money, next: Money)
    requires AtSomeBetween(avg, prices)
    requires Furthest(true, avg, price) <= next <= Furthest(false, avg, price)
    ensures AtSomeBetween(next, prices + [price])
  {
    var lo, hi :| lo in prices && hi in prices && lo <= avg <= hi;
    var more := prices + [price];
    assert price == more[|prices|];
    assert lo in more && hi in more && price in more;
    assert Furthest(true, lo, price) in more && Furthest(false, hi, price) in more;
  }

  lemma MarkKeepsWatched(a: Account, symbol: string, last: real)
    requires symbol in a.positions && Watched(a)
    ensures Watched(WithMark(a, symbol, last))
  {
    hide EvaluateExit, Round;
    var b := WithMark(a, symbol, last);
    var p := a.positions[symbol];
    assert WatchedAt(a, symbol);
    ExitIffLevelHit(p.avgEntry as real, last, p.qty < 0, Some(p.highWater.value as real), p.levels);
    RoundFurthest(p.qty < 0, p.highWater.value, last);
    FurthestAppend(p.qty < 0, p.highWater.value, Life(a.journal, symbol), Round(last));
    forall s ensures WatchedAt(b, s) {
      assert WatchedAt(a, s);
      JournalAppend(a.journal, Seen(symbol, Round(last)), s);
    }
  }

  lemma RoundFurthest(short: bool, m: Money, x: real)
    ensures Round(Extreme(short, m as real, x)) == Furthest(short, m, Round(x))
  {
    RoundInteger(m);
    RoundMonotone(Extreme(true, m as real, x), Extreme(false, m as real, x));
  }

  lemma BookKeepsWatched(a: Account, key: string, f: FillQuote, pid: nat)
    requires key in a.orders && Booked(a) && Watched(a) && f.qty >= 0
    requires a.orders[key].symbol !in a.positions ==> f.qty > 0
    ensures Watched(Book(a, key, f, pid))
  {
    hide ApplyFill, AtSomeBetween, IsFurthest;
    var o := a.orders[key];
    var held := Held(a, o.symbol);
    var e := JournalEntry(o, held, ApplyFill(a.cash, held, o.side, f.qty, f.price as real, f.fees), f.price);
    forall s ensures WatchedAt(Book(a, key, f, pid), s) {
      assert WatchedAt(a, s);
      if s == o.symbol {
        BookKeepsWatchedAt(a, key, f, pid);
      } else {
        JournalAppend(a.journal, e, s);
      }
    }
  }

  lemma BookKeepsWatchedAt(a: Account, key: string, f: FillQuote, pid: nat)
    requires key in a.orders && Booked(a) && WatchedAt(a, a.orders[key].symbol) && f.qty >= 0
    requires a.orders[key].symbol !in a.positions ==> f.qty > 0
    ensures WatchedAt(Book(a, key, f, pid), a.orders[key].symbol)
  {
    hide Value, Average, Prorate, Round;
    var o := a.orders[key];
    var held := Held(a, o.symbol);
    var out := ApplyFill(a.cash, held, o.side, f.qty, f.price as real, f.fees);
    NeverFlips(a.cash, held, o.side, f.qty, f.price as real, f.fees);
    JournalAppend(a.journal, JournalEntry(o, held, out, f.price), o.symbol);
    if IsOpen(o.side, held.qty) {
      if o.symbol in a.positions {
        var p := a.positions[o.symbol];
        var lo, hi := Furthest(true, held.avgEntry, f.price), Furthest(false, held.avgEntry, f.price);
        AverageBetween(a.cash, held, o.side, f.qty, f.price as real, f.fees, lo, hi);
        FurthestAppend(p.qty < 0, p.highWater.value, Life(a.journal, o.symbol), f.price);
        BetweenAppend(p.avgEntry, Openings(a.journal, o.symbol), f.price, out.position.avgEntry);
      } else {
        AverageBetween(a.cash, held, o.side, f.qty, f.price as real, f.fees, f.price, f.price);
        assert Life(a.journal, o.symbol) + [f.price] == [f.price];
        assert Openings(a.journal, o.symbol) + [f.price] == [f.price];
        assert f.price in [f.price];
      }
    }
  }

  // ---------------------------------------------------------------- realized profit

  /** What the fills realized, less the fees paid to open. */
  function Realized(j: seq<Entry>): Money {
    if |j| == 0 then 0
    else
      Realized(j[..|j| - 1]) +
      match j[|j| - 1]
      case Opened(_, _, fee, _) => -fee
      case Closed(_, realized, _) => realized
      case Seen(_, _) => 0
  }

  /** How far rounding may have carried cash and cost basis from it: half a money unit for each
      opening fill and for each unit of the position it left, one money unit for each close. */
  function Slack(j: seq<Entry>): real {
    if |j| == 0 then 0.0
    else
      Slack(j[..|j| - 1]) +
      match j[|j| - 1]
      case Opened(_, _, _, size) => 0.5 + Value(size, 0.5)
      case Closed(_, _, _) => 1.0
      case Seen(_, _) => 0.0
  }

  ghost predicate Accounted(a: Account) {
    Abs((a.cash - a.starting - Realized(a.journal)) as real + Total(a.positions, Basis)) <= Slack(a.journal)
  }

  lemma TalliesAppend(j: seq<Entry>, e: Entry)
    ensures Realized(j + [e]) == Realized(j) + Realized([e])
    ensures Slack(j + [e]) == Slack(j) + Slack([e])
  {
    assert (j + [e])[..|j + [e]| - 1] == j;
    assert [e][..0] == [];
  }

  lemma TallyOne(e: Entry)
    ensures e.Opened? ==> Realized([e]) == -e.fee && Slack([e]) == 0.5 + Value(e.size, 0.5)
    ensures e.Closed? ==> Realized([e]) == e.realized && Slack([e]) == 1.0
    ensures e.Seen? ==> Realized([e]) == 0 && Slack([e]) == 0.0
  {
    assert [e][..0] == [];
  }

  lemma ScaledError(size: real, n: real, avg: real)
    requires size > 0.0 && -0.5 <= avg - n / size <= 0.5
    ensures -0.5 * size <= size * avg - n <= 0.5 * size
  {
    var e := avg - n / size;
    assert size * (n / size) == n;
    assert size * e == size * avg - n;
    ScaleMonotone(size, -0.5, e);
    ScaleMonotone(size, e, 0.5);
    assert size * -0.5 <= size * e <= size * 0.5;
  }

  lemma AverageDrift(held: Qty, avg: Money, qty: Qty, price: real)
    requires held + qty > 0
    ensures var size := held + qty;
            Abs(Value(size, Average(held, avg, qty, price) as real)
                - Value(held, avg as real) - Value(qty, price)) <= Value(size, 0.5)
  {
    var size := held + qty;
    var n := held as real * avg as real + qty as real * price;
    var x := n / size as real;
    assert x == Mean(held as real, avg as real, qty as real, price);
    RoundNearest(x);
    ScaledError(size as real, n, Round(x) as real);
    var paid := size as real * Round(x) as real;
    assert Value(size, Round(x) as real) - Value(held, avg as real) - Value(qty, price) == PerUnit(paid - n);
  }

  lemma OpenDrift(cash: Money, pos: PositionState, side: Side, qty: Qty, price: real, fees: Money)
    requires IsOpen(side, pos.qty) && qty >= 0 && pos.qty + SignedQty(side, qty) != 0
    ensures var out := ApplyFill(cash, pos, side, qty, price, fees);
            Abs((out.cash - cash + fees) as real
                + Value(out.position.qty, out.position.avgEntry as real) - Value(pos.qty, pos.avgEntry as real))
            <= 0.5 + Value(AbsQty(out.position.qty), 0.5)
  {
    var v := Value(qty, price);
    if side.Buy? {
      AverageDrift(pos.qty, pos.avgEntry, qty, price);
      RoundNearest(v + fees as real);
    } else {
      var size := -pos.qty + qty;
      var avg := Average(-pos.qty, pos.avgEntry, qty, price);
      AverageDrift(-pos.qty, pos.avgEntry, qty, price);
      ValueNegate(size, avg as real);
      ValueNegate(-pos.qty, pos.avgEntry as real);
      RoundNearest(v - fees as real);
    }
  }

  lemma CloseDrift(cash: Money, pos: PositionState, side: Side, qty: Qty, price: real, fees: Money)
    requires pos.qty != 0 && !IsOpen(side, pos.qty)
    ensures var out := ApplyFill(cash, pos, side, qty, price, fees);
            Abs((out.cash - cash - out.realized) as real
                + Value(out.position.qty, out.position.avgEntry as real) - Value(pos.qty, pos.avgEntry as real))
            <= 1.0
  {
    var out := ApplyFill(cash, pos, side, qty, price, fees);
    var avg := pos.avgEntry as real;
    var v := Value(out.filled, price);
    assert Value(out.position.qty, out.position.avgEntry as real) == Value(out.position.qty, avg);
    if side.Buy? {
      ValueSum(pos.qty, out.filled, avg);
      ValueDifference(out.filled, avg, price);
      RoundNearest(v + out.fee as real);
      RoundNearest(Value(out.filled, avg - price) - out.fee as real);
    } else {
      ValueSum(out.position.qty, out.filled, avg);
      ValueDifference(out.filled, price, avg);
      RoundNearest(v - out.fee as real);
      RoundNearest(Value(out.filled, price - avg) - out.fee as real);
    }
  }

  lemma ShareOfHeld(a: Account, s: string)
    ensures Share(a.positions, Basis, s) == Value(Held(a, s).qty, Held(a, s).avgEntry as real)
  {
  }

  lemma BookKeepsAccounted(a: Account, key: string, f: FillQuote, pid: nat)
    requires key in a.orders && Booked(a) && Accounted(a) && f.qty >= 0
    requires a.orders[key].symbol !in a.positions ==> f.qty > 0
    ensures Accounted(Book(a, key, f, pid))
  {
    hide Value, Average, Prorate, Round;
    var b := Book(a, key, f, pid);
    var o := a.orders[key];
    var held := Held(a, o.symbol);
    var out := ApplyFill(a.cash, held, o.side, f.qty, f.price as real, f.fees);
    var e := JournalEntry(o, held, out, f.price);
    TalliesAppend(a.journal, e);
    TallyOne(e);
    assert a.positions - {o.symbol} == b.positions - {o.symbol};
    TotalChange(a.positions, b.positions, Basis, o.symbol);
    ShareOfHeld(a, o.symbol);
    ShareOfHeld(b, o.symbol);
    NeverFlips(a.cash, held, o.side, f.qty, f.price as real, f.fees);
    assert Held(b, o.symbol) == out.position;
    if IsOpen(o.side, held.qty) {
      OpenDrift(a.cash, held, o.side, f.qty, f.price as real, f.fees);
    } else {
      CloseDrift(a.cash, held, o.side, f.qty, f.price as real, f.fees);
    }
  }

  /** The realized figure of a snapshot does not depend on the marks it was taken with, and after
      any run it is what the fills realized less opening fees, up to the rounding they caused. */
  lemma SnapshotRealized(a: Account, marks: map<string, real>, other: map<string, real>)
    requires Accounted(a)
    ensures MarkToMarket(a, marks).realized == MarkToMarket(a, other).realized
    ensures Abs((MarkToMarket(a, marks).realized - Realized(a.journal)) as real) <= Slack(a.journal) + 0.5
  {
    RoundNearest(Total(a.positions, Basis));
  }
}
