/**
 The simulated broker on the rows of one account: the methods update cash, positions, orders and
 fills in place, and each is proved against the ledger function of the same name.
 */
module SimBroker {
  import opened Prelude
  import opened Money
  import opened Portfolio
  import opened Matching
  import opened Ledger
  import opened LedgerProofs
  import opened LedgerRuns

  datatype ExitReport = ExitReport(
    symbol: string, reason: ExitReason, side: Side, qty: Qty, price: Money, realized: Money)

  /** The report of one watched position: none unless this sweep closed it. */
  ghost function ReportsOne(a: Account, w: Watch, tick: string, quotes: map<string, Quote>): seq<ExitReport> {
    var out := SettleOne(a, w, tick, quotes);
    if w.symbol in a.positions && out.Done? && |out.account.fills| > |a.fills| && w.symbol in quotes
       && Decision(a.positions[w.symbol], quotes[w.symbol].last).reason.Some? then
      var p := a.positions[w.symbol];
      var f := out.account.fills[|a.fills|];
      [ExitReport(w.symbol, Decision(p, quotes[w.symbol].last).reason.value,
                  if p.qty < 0 then Buy else Sell, AbsQty(p.qty), f.price, ReportedRealized(p, f))]
    else []
  }

  ghost function Reports(a: Account, watch: seq<Watch>, tick: string, quotes: map<string, Quote>): seq<ExitReport>
    decreases |watch|
  {
    if |watch| == 0 then []
    else
      var init := SettleExits(a, watch[..|watch| - 1], tick, quotes);
      Reports(a, watch[..|watch| - 1], tick, quotes) +
      if init.Done? then ReportsOne(init.account, watch[|watch| - 1], tick, quotes) else []
  }

  /** A triggered exit that did not raise is reported with the fill it added. */
  lemma ExitReported(a: Account, w: Watch, tick: string, quotes: map<string, Quote>)
    requires w.symbol in a.positions && a.positions[w.symbol].id == w.id && a.positions[w.symbol].qty != 0
    requires w.symbol in quotes && !quotes[w.symbol].stale
    requires Decision(a.positions[w.symbol], quotes[w.symbol].last).reason.Some?
    requires ExitKey(w.id, tick) !in a.orders && SettleOne(a, w, tick, quotes).Done?
    ensures var p := a.positions[w.symbol];
            var fills := SettleOne(a, w, tick, quotes).account.fills;
            && |fills| == |a.fills| + 1
            && ReportsOne(a, w, tick, quotes) ==
                 [ExitReport(w.symbol, Decision(p, quotes[w.symbol].last).reason.value, if p.qty < 0 then Buy else Sell,
                             AbsQty(p.qty), fills[|a.fills|].price, ReportedRealized(p, fills[|a.fills|]))]
  {
    hide EvaluateExit, ComputeFill, ApplyFill, Margin, Value, ReportedRealized;
    var p, quote, key := a.positions[w.symbol], quotes[w.symbol], ExitKey(w.id, tick);
    var b := WithOrder(WithMark(a, w.symbol, quote.last), key, ExitOrder(w.symbol, p));
    FilledHasPrice(b, key, ExitOrder(w.symbol, p).size, quote, w.id);
    ExitPriced(b, key, ExitOrder(w.symbol, p), quote, w.id);
  }

  /** Sum a weight over the positions, one row at a time. */
  method SumOver(positions: map<string, Position>, w: Weight) returns (total: real)
    ensures total == Total(positions, w)
  {
    total := 0.0;
    var rest := positions.Keys;
    assert (map s | s in rest :: positions[s]) == positions;
    while rest != {}
      invariant rest <= positions.Keys
      invariant total + Total(map s | s in rest :: positions[s], w) == Total(positions, w)
      decreases rest
    {
      ghost var left := map s | s in rest :: positions[s];
      var s :| s in rest;
      TotalSplit(left, w, s);
      assert left - {s} == map t | t in rest - {s} :: positions[t];
      total := total + Weigh(w, s, positions[s]);
      rest := rest - {s};
    }
    assert (map s | s in rest :: positions[s]) == map[];
  }

  class Broker {
    const mult: real
    const starting: Money
    var cash: Money
    var buyingPower: Money
    var positions: map<string, Position>
    var orders: map<string, Order>
    var fills: seq<Fill>
    ghost var journal: seq<Entry>

    ghost function Rows(): Account
      reads this
    {
      Account(mult, starting, cash, buyingPower, positions, orders, fills, journal)
    }

    ghost predicate Valid()
      reads this
    {
      Inv(Rows())
    }

    constructor (starting: Money, mult: real)
      ensures Rows() == NewAccount(starting, mult) && Valid()
    {
      this.mult, this.starting := mult, starting;
      cash, buyingPower := starting, starting;
      positions, orders, fills, journal := map[], map[], [], [];
      new;
      NewAccountInv(starting, mult);
    }

    method Reject(key: string)
      requires key in orders
      modifies this`orders
      ensures Rows() == WithStatus(old(Rows()), key, Rejected)
    {
      orders := orders[key := orders[key].(status := Rejected)];
    }

    /** Record a fill: the Fill row, the position row, cash and buying power, and the order. */
    method BookFill(key: string, f: FillQuote, pid: nat) returns (raised: bool)
      requires key in orders
      modifies this
      ensures raised == (old(orders)[key].symbol !in old(positions) && f.qty == 0)
      ensures !raised ==> Rows() == Book(old(Rows()), key, f, pid)
    {
      hide ApplyFill, Round, Margin, Furthest, Either, JournalEntry, Value, Average;
      var o := orders[key];
      var held := if o.symbol in positions
        then PositionState(positions[o.symbol].qty, positions[o.symbol].avgEntry) else FLAT;
      var isOpen := IsOpen(o.side, held.qty);
      var out := ApplyFill(cash, held, o.side, f.qty, f.price as real, f.fees);
      fills := fills + [Fill(key, out.filled, f.price, out.fee)];
      var pending := o.symbol !in positions;
      var row := if pending then Position(pid, o.crypto, out.position.qty, out.position.avgEntry, o.levels, None)
                 else positions[o.symbol].(qty := out.position.qty, avgEntry := out.position.avgEntry);
      if isOpen {
        if held.qty == 0 {
          row := row.(levels := o.levels, highWater := Some(f.price));
        } else {
          var wm := row.highWater.GetOr(f.price);
          row := row.(levels := ExitLevels(Either(o.levels.stopLoss, row.levels.stopLoss),
                                           Either(o.levels.takeProfit, row.levels.takeProfit),
                                           Either(o.levels.trailing, row.levels.trailing)),
                      highWater := Some(Furthest(row.qty < 0, wm, f.price)));
        }
      }
      if pending {
        OpenFromFlat(cash, o.side, f.qty, f.price as real, f.fees);
      }
      ghost var before := positions;
      positions := positions[o.symbol := row];
      if out.position.qty == 0 {
        if pending {
          return true;  // a row that was never flushed cannot be deleted
        }
        positions := positions - {o.symbol};
        assert positions == before - {o.symbol};
      }
      cash := out.cash;
      var shorts := SumOver(positions, Shorts);
      buyingPower := cash - Round(Margin(shorts, mult));
      orders := orders[key := o.(status := Filled)];
      journal := journal + [JournalEntry(o, held, out, f.price)];
      return false;
    }

    /** Fill one order.  After an exception the fields are the caller's to roll back. */
    method FillMarket(key: string, size: Size, quote: Quote, pid: nat) returns (raised: bool)
      requires key in orders
      modifies this
      ensures raised == Ledger.FillMarket(old(Rows()), key, size, quote, pid).Raised?
      ensures !raised ==> Rows() == Ledger.FillMarket(old(Rows()), key, size, quote, pid).account
    {
      hide ComputeFill, Value, Margin, Round, Book;
      var o := orders[key];
      var fq := ComputeFill(quote, o.side, o.crypto, size);
      if fq.None? {
        return true;
      }
      var f := fq.value;
      var held := if o.symbol in positions then positions[o.symbol].qty else 0;
      var isOpen := IsOpen(o.side, held);
      if o.reduceOnly && (isOpen || held == 0) {
        Reject(key);
        return false;
      }
      if isOpen {
        var need := if o.side.Buy? then Round(Value(f.qty, f.price as real) + f.fees as real)
                    else Round(Margin(Value(f.qty, f.price as real), mult));
        if need > buyingPower {
          Reject(key);
          return false;
        }
      }
      raised := BookFill(key, f, pid);
    }

    /** place_order: a repeated client order id returns the original; an exception changes nothing. */
    method PlaceOrder(key: string, req: Request, quote: Option<Quote>, pid: nat) returns (raised: bool)
      requires Valid() && req.size.Positive()
      modifies this
      ensures Valid()
      ensures raised == Ledger.PlaceOrder(old(Rows()), key, req, quote, pid).Raised?
      ensures Rows() == Commit(old(Rows()), Ledger.PlaceOrder(old(Rows()), key, req, quote, pid))
    {
      hide Inv, Ledger.FillMarket;
      StepKeeps(Rows(), Place(key, req, quote, pid));
      if key in orders {
        return false;
      }
      var c, b, p, o, f := cash, buyingPower, positions, orders, fills;
      ghost var j := journal;
      orders := orders[key := NewOrder(req)];
      if !Fresh(quote) {
        Reject(key);
        return false;
      }
      if !req.kind.Market? {
        orders := orders[key := orders[key].(status := Accepted)];
        return false;
      }
      raised := FillMarket(key, req.size, quote.value, pid);
      if raised {
        cash, buyingPower, positions, orders, fills, journal := c, b, p, o, f, j;
      }
    }

    method CancelOrder(key: string)
      requires Valid()
      modifies this`orders
      ensures Valid()
      ensures Rows() == Ledger.CancelOrder(old(Rows()), key)
    {
      StepKeeps(Rows(), Cancel(key));
      if key in orders && (orders[key].status.Accepted? || orders[key].status.Pending?) {
        orders := orders[key := orders[key].(status := Canceled)];
      }
    }

    /** One watched position, under the account lock. */
    method SettleOne(w: Watch, tick: string, quotes: map<string, Quote>)
      returns (raised: bool, exits: seq<ExitReport>)
      requires Valid()
      modifies this
      ensures raised == Ledger.SettleOne(old(Rows()), w, tick, quotes).Raised?
      ensures !raised ==> Valid() && Rows() == Ledger.SettleOne(old(Rows()), w, tick, quotes).account
      ensures !raised ==> exits == ReportsOne(old(Rows()), w, tick, quotes)
    {
      hide Inv, EvaluateExit, Ledger.FillMarket, ReportedRealized;
      exits := [];
      if w.symbol !in positions || positions[w.symbol].id != w.id {
        return true, [];
      }
      SettleOneKeeps(Rows(), w, tick, quotes);
      var p := positions[w.symbol];
      if p.qty == 0 || w.symbol !in quotes || quotes[w.symbol].stale {
        return false, [];
      }
      var quote := quotes[w.symbol];
      var d := Decision(p, quote.last);
      positions := positions[w.symbol := p.(highWater := Some(Round(d.highWater)))];
      journal := journal + [Seen(w.symbol, Round(quote.last))];
      var key := ExitKey(w.id, tick);
      if d.reason.None? || key in orders {
        return false, [];
      }
      orders := orders[key := ExitOrder(w.symbol, p)];
      ghost var mid := Rows();
      raised := FillMarket(key, orders[key].size, quote, w.id);
      if !raised {
        ExitReported(old(Rows()), w, tick, quotes);
        var fill := fills[|fills| - 1];
        var side := if p.qty < 0 then Buy else Sell;
        exits := [ExitReport(w.symbol, d.reason.value, side, AbsQty(p.qty), fill.price, ReportedRealized(p, fill))];
      }
    }

    /** The exit sweep over the positions read before the lock, in the order given. */
    method SettleExits(watch: seq<Watch>, tick: string, quotes: map<string, Quote>)
      returns (raised: bool, exits: seq<ExitReport>)
      requires Valid()
      modifies this
      ensures Valid()
      ensures raised == Ledger.SettleExits(old(Rows()), watch, tick, quotes).Raised?
      ensures Rows() == Commit(old(Rows()), Ledger.SettleExits(old(Rows()), watch, tick, quotes))
      ensures exits == if raised then [] else Reports(old(Rows()), watch, tick, quotes)
    {
      hide Inv, ReportsOne, Ledger.SettleOne;
      var c, b, p, o, f := cash, buyingPower, positions, orders, fills;
      ghost var j, a := journal, Rows();
      exits := [];
      for i := 0 to |watch|
        invariant Valid()
        invariant Ledger.SettleExits(a, watch[..i], tick, quotes) == Done(Rows())
        invariant exits == Reports(a, watch[..i], tick, quotes)
      {
        assert watch[..i + 1][..i] == watch[..i];
        var more;
        raised, more := SettleOne(watch[i], tick, quotes);
        if raised {
          cash, buyingPower, positions, orders, fills, journal := c, b, p, o, f, j;
          SettleExitsRaises(a, watch, i + 1, tick, quotes);
          return true, [];
        }
        exits := exits + more;
      }
      assert watch[..|watch|] == watch;
      return false, exits;
    }

    /** Fill the resting orders the query returned whose price has crossed; counts the crossings. */
    method SettleResting(rows: seq<Resting>, quote: Option<Quote>) returns (raised: bool, filled: nat)
      requires Valid()
      modifies this
      ensures Valid()
      ensures Fresh(quote) ==>
                && raised == Ledger.SettleResting(old(Rows()), rows, quote.value).Raised?
                && (!raised ==> filled == RestingCount(old(Rows()), rows, quote.value))
      ensures !Fresh(quote) ==> !raised && filled == 0
      ensures Rows() == Commit(old(Rows()), Step(old(Rows()), Rest(rows, quote)))
    {
      hide Inv, Crosses, Ledger.FillMarket;
      filled := 0;
      if !Fresh(quote) {
        return false, 0;
      }
      var c, b, p, o, f := cash, buyingPower, positions, orders, fills;
      ghost var j, a := journal, Rows();
      for i := 0 to |rows|
        invariant Valid()
        invariant Ledger.SettleResting(a, rows[..i], quote.value) == Done(Rows())
        invariant filled == RestingCount(a, rows[..i], quote.value)
      {
        assert rows[..i + 1][..i] == rows[..i];
        SettleRestingOneKeeps(Rows(), rows[i], quote.value);
        var r := rows[i];
        if r.key in orders && orders[r.key].status.Accepted? {
          var order := orders[r.key];
          var crosses := Crosses(order.kind, order.side, order.limit, order.stop, quote.value);
          raised := crosses.None?;
          if crosses == Some(true) {
            raised := FillMarket(r.key, order.size, quote.value, r.pid);
            filled := filled + 1;
          }
          if raised {
            cash, buyingPower, positions, orders, fills, journal := c, b, p, o, f, j;
            SettleRestingRaises(a, rows, i + 1, quote.value);
            return true, filled;
          }
        }
      }
      assert rows[..|rows|] == rows;
      return false, filled;
    }

    method MarkToMarket(marks: map<string, real>) returns (snap: Snapshot)
      requires Valid()
      ensures snap == Ledger.MarkToMarket(Rows(), marks)
    {
      var value := SumOver(positions, Marked(marks));
      var basis := SumOver(positions, Basis);
      var pv := Round(value);
      var equity := cash + pv;
      var unrealized := pv - Round(basis);
      return Snapshot(cash, pv, equity, equity - starting - unrealized, unrealized);
    }
  }

  /** An exception at one watched position is an exception of the whole sweep. */
  lemma {:induction false} SettleExitsRaises(a: Account, watch: seq<Watch>, n: nat, tick: string,
                                             quotes: map<string, Quote>)
    requires n <= |watch| && SettleExits(a, watch[..n], tick, quotes).Raised?
    ensures SettleExits(a, watch, tick, quotes).Raised?
    decreases |watch| - n
  {
    if n < |watch| {
      assert watch[..n + 1][..n] == watch[..n];
      SettleExitsRaises(a, watch, n + 1, tick, quotes);
    } else {
      assert watch[..n] == watch;
    }
  }

  lemma {:induction false} SettleRestingRaises(a: Account, rows: seq<Resting>, n: nat, quote: Quote)
    requires n <= |rows| && SettleResting(a, rows[..n], quote).Raised?
    ensures SettleResting(a, rows, quote).Raised?
    decreases |rows| - n
  {
    if n < |rows| {
      assert rows[..n + 1][..n] == rows[..n];
      SettleRestingRaises(a, rows, n + 1, quote);
    } else {
      assert rows[..n] == rows;
    }
  }
}
