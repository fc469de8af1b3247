/** What one watched position and one resting order come to, and what the account's totals weigh. */
module LedgerSteps {
  import opened Prelude
  import opened Money
  import opened Portfolio
  import opened Matching
  import opened Ledger
  import opened LedgerProofs

  // ---------------------------------------------------------------- one watched position

  /** A position is due to leave by the levels of its row, counted from its entry and the extreme it reached. */
  predicate Due(p: Position, last: real) {
    var avg := p.avgEntry as real;
    var reached := match p.highWater case None => avg case Some(x) => x as real;
    Leaves(p.qty < 0, avg, reached, last,
           p.levels.stopLoss.GetOr(0.0), p.levels.trailing.GetOr(0.0), p.levels.takeProfit.GetOr(0.0))
  }

  lemma DecisionIsDue(p: Position, last: real)
    ensures Decision(p, last).reason.Some? <==> Due(p, last)
  {
    var highWater := if p.highWater.Some? then Some(p.highWater.value as real) else None;
    hide EvaluateExit, Leaves;
    ExitAtLevels(p.qty < 0, p.avgEntry as real, last, highWater, p.levels);
  }

  /** Between two accounts only the extreme of one position moved, to the further of it and the price seen. */
  ghost predicate OnlyMarked(a: Account, b: Account, symbol: string, last: real) {
    && symbol in a.positions
    && var p := a.positions[symbol];
    var reached := match p.highWater case None => p.avgEntry as real case Some(x) => x as real;
    var wm := if p.qty < 0 then Min(reached, last) else Max(reached, last);
    && b.positions == a.positions[symbol := p.(highWater := Some(Round(wm)))]
    && b.journal == a.journal + [Seen(symbol, Round(last))]
    && b == a.(positions := b.positions, journal := b.journal)
  }

  lemma MarkIsOnlyMarked(a: Account, symbol: string, last: real)
    requires symbol in a.positions
    ensures OnlyMarked(a, WithMark(a, symbol, last), symbol, last)
  {
    var p := a.positions[symbol];
    var highWater := if p.highWater.Some? then Some(p.highWater.value as real) else None;
    ExitIffLevelHit(p.avgEntry as real, last, p.qty < 0, highWater, p.levels);
    hide EvaluateExit, Round;
  }

  /** A watched position is left alone without a fresh quote, is only marked when it is not due or this
      tick's exit order exists, and is otherwise closed by a market order for the whole of it. */
  lemma WatchedMeaning(a: Account, w: Watch, tick: string, quotes: map<string, Quote>)
    requires w.symbol in a.positions && a.positions[w.symbol].id == w.id && a.positions[w.symbol].qty != 0
    ensures var out, p := SettleOne(a, w, tick, quotes), a.positions[w.symbol];
            if w.symbol !in quotes || quotes[w.symbol].stale then out == Done(a)
            else if !Due(p, quotes[w.symbol].last) || ExitKey(w.id, tick) in a.orders then
              out.Done? && OnlyMarked(a, out.account, w.symbol, quotes[w.symbol].last)
            else out.Done? ==>
              && out.account.orders.Keys == a.orders.Keys + {ExitKey(w.id, tick)}
              && var o := out.account.orders[ExitKey(w.id, tick)];
              && o.symbol == w.symbol && o.reduceOnly && o.kind.Market? && o.crypto == p.crypto
              && o.side == (if p.qty < 0 then Buy else Sell)
              && o.size == Quantity(AbsQty(p.qty) as real)
  {
    if w.symbol in quotes {
      DecisionIsDue(a.positions[w.symbol], quotes[w.symbol].last);
      MarkIsOnlyMarked(a, w.symbol, quotes[w.symbol].last);
    }
    hide Due, Decision, OnlyMarked, ComputeFill, ApplyFill, Affordable, PowerOf, RowAfter, JournalEntry;
  }

  // ---------------------------------------------------------------- one resting order

  /** A resting order is left alone unless it is accepted and crossed, and then fills or is rejected; one
      without the level its kind needs raises. */
  lemma RestingMeaning(a: Account, r: Resting, quote: Quote)
    ensures var out := SettleRestingOne(a, r, quote);
            if r.key !in a.orders || a.orders[r.key].status != Accepted then out == Done(a)
            else
              var o := a.orders[r.key];
              var crosses := Crosses(o.kind, o.side, o.limit, o.stop, quote);
              && (crosses.None? ==> out.Raised?)
              && (crosses == Some(false) ==> out == Done(a))
              && (crosses == Some(true) && out.Done? ==>
                    && out.account.orders.Keys == a.orders.Keys
                    && (out.account.orders[r.key].status.Filled? || out.account.orders[r.key].status.Rejected?)
                    && (forall k :: k in a.orders && k != r.key ==> out.account.orders[k] == a.orders[k]))
  {
    hide Crosses, ComputeFill, ApplyFill, Affordable, PowerOf, RowAfter, JournalEntry;
  }

  // ---------------------------------------------------------------- what the totals weigh

  /** A total is the sum of what its rows weigh, whichever order they are taken in: nothing for no rows, and
      one more row adds its quantity at its entry price, at its mark, or as a short. */
  lemma TotalMeaning(m: map<string, Position>, s: string, p: Position, marks: map<string, real>)
    requires s !in m
    ensures Total(map[], Basis) == Total(map[], Shorts) == Total(map[], Marked(marks)) == 0.0
    ensures Total(m[s := p], Basis) == Total(m, Basis) + p.qty as real * p.avgEntry as real / 10_000_000_000.0
    ensures Total(m[s := p], Marked(marks)) ==
              Total(m, Marked(marks)) + if s in marks then p.qty as real * marks[s] / 10_000_000_000.0 else 0.0
    ensures Total(m[s := p], Shorts) ==
              Total(m, Shorts) + if p.qty < 0 then (-p.qty) as real * p.avgEntry as real / 10_000_000_000.0 else 0.0
  {
    TotalUpdate(m, Basis, s, p);
    TotalUpdate(m, Marked(marks), s, p);
    TotalUpdate(m, Shorts, s, p);
    assert m - {s} == m;
    WeighIs(s, p, marks);
    hide Weigh;
  }

  lemma WeighIs(s: string, p: Position, marks: map<string, real>)
    ensures Weigh(Basis, s, p) == p.qty as real * p.avgEntry as real / 10_000_000_000.0
    ensures Weigh(Marked(marks), s, p) == if s in marks then p.qty as real * marks[s] / 10_000_000_000.0 else 0.0
    ensures Weigh(Shorts, s, p) ==
              if p.qty < 0 then (-p.qty) as real * p.avgEntry as real / 10_000_000_000.0 else 0.0
  {
  }

  /** The snapshot: equity is the cash and the marked positions, unrealized is what the marks add to the entry
      prices, and realized is the rest of what was gained since the start. */
  lemma SnapshotMeaning(a: Account, marks: map<string, real>)
    ensures var snap := MarkToMarket(a, marks);
            && snap.cash == a.cash && snap.equity == a.cash + snap.positionsValue
            && Nearest(snap.positionsValue, Total(a.positions, Marked(marks)))
            && Nearest(snap.positionsValue - snap.unrealized, Total(a.positions, Basis))
            && snap.realized + snap.unrealized == snap.equity - a.starting
  {
    RoundNearest(Total(a.positions, Marked(marks)));
    RoundNearest(Total(a.positions, Basis));
    hide Round;
  }

  /** The buying power a fill leaves: the cash less the multiple of what the shorts were sold for. */
  lemma PowerMeaning(a: Account, key: string, f: FillQuote, pid: nat, sold: real)
    requires key in a.orders && sold == Total(Book(a, key, f, pid).positions, Shorts)
    ensures var b := Book(a, key, f, pid); Nearest(b.cash - b.buyingPower, a.mult * sold)
  {
    hide Book, Round, Margin;
    PowerIs(a, key, f, pid);
    MarginIs(sold, a.mult);
    RoundNearest(Margin(sold, a.mult));
  }

  lemma MarginIs(value: real, mult: real)
    ensures Margin(value, mult) == mult * value
  {
  }

  lemma PowerIs(a: Account, key: string, f: FillQuote, pid: nat)
    requires key in a.orders
    ensures var b := Book(a, key, f, pid); b.buyingPower == b.cash - Round(Margin(Total(b.positions, Shorts), a.mult))
  {
    hide ApplyFill, RowAfter, JournalEntry, Round, Margin;
  }
}
