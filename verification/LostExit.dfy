/**
 A concrete account on which a stale sweep loses an exit: two long positions bought on a new account
 fall through their stops, and one of them is sold by hand while the sweep waits for the lock.
 */
module LostExit {
  import opened Prelude
  import opened Money
  import opened Portfolio
  import opened Matching
  import opened Ledger
  import opened LedgerRuns
  import opened Sweeps
  import opened Interleaving
  import opened StaleSweep

  const EIGHTY := Quote(Some(80.0 * USD), None, 80.0 * USD, false)

  /** One unit at market with a stop ten percent below the entry. */
  function BuyOne(symbol: string): Request {
    Request(symbol, false, Buy, Market, Quantity(10_000_000_000.0), None, None, false,
            ExitLevels(Some(0.1), None, None))
  }

  const SELL_X :=
    Request("X", false, Sell, Market, Quantity(10_000_000_000.0), None, None, true, ExitLevels(None, None, None))

  /** The row of one unit bought at 100.01 dollars. */
  function Bought(id: nat): Position {
    Position(id, false, 10_000_000_000, 10_001_000_000, ExitLevels(Some(0.1), None, None), Some(10_001_000_000))
  }

  const BUYS := [Place("bx", BuyOne("X"), Some(HUNDRED), 1), Place("by", BuyOne("Y"), Some(HUNDRED), 2)]

  const X := Watch(1, "X")
  const Y := Watch(2, "Y")

  ghost function TwoLongs(mult: real): Account {
    Run(NewAccount(30_000_000_000, mult), BUYS)
  }

  /** What buying the unit stores. */
  lemma StoredAtHundred()
    ensures Average(0, 0, 10_000_000_000, 10_001_000_000.0) == 10_001_000_000
    ensures StoredPct(Some(0.1), 0.9) == Some(0.1)
    ensures StoredSize(Quantity(10_000_000_000.0)) == Quantity(10_000_000_000.0)
  {
    assert Mean(0.0, 0.0, 10_000_000_000.0, 10_001_000_000.0) == 10_001_000_000.0;
    RoundInteger(10_001_000_000);
    RoundInteger(10_000_000_000);
    RoundInteger(1_000);
    hide Round, Mean;
  }

  /** One more unit bought on an account that can pay for it. */
  lemma BuysOne(a: Account, key: string, symbol: string, pid: nat)
    requires Powered(a) && key !in a.orders && symbol !in a.positions && a.buyingPower >= 10_001_000_000
    ensures var out := PlaceOrder(a, key, BuyOne(symbol), Some(HUNDRED), pid);
            && out.Done? && Powered(out.account) && out.account.buyingPower == a.buyingPower - 10_001_000_000
            && out.account.positions == a.positions[symbol := Bought(pid)]
            && out.account.orders.Keys == a.orders.Keys + {key}
  {
    FillAtHundred();
    StoredAtHundred();
    var b := WithOrder(a, key, NewOrder(BuyOne(symbol)));
    var f := FillQuote(10_000_000_000, 10_001_000_000, 1, 0);
    LongBooked(b, key, f, pid);
    hide Round, Value, Average, ComputeFill, Margin, StoredPct;
  }

  lemma TwoLongsRows(mult: real)
    ensures TwoLongs(mult).positions == map["X" := Bought(1), "Y" := Bought(2)]
    ensures TwoLongs(mult).orders.Keys == {"bx", "by"}
  {
    var a0 := NewAccount(30_000_000_000, mult);
    TotalNone();
    RoundInteger(0);
    assert Powered(a0);
    BuysOne(a0, "bx", "X", 1);
    var a1 := PlaceOrder(a0, "bx", BuyOne("X"), Some(HUNDRED), 1).account;
    BuysOne(a1, "by", "Y", 2);
    hide PlaceOrder;
    assert BUYS[..1][..0] == [] && BUYS[..1] == [BUYS[0]];
    assert Run(a0, BUYS[..1]) == a1;
    assert BUYS[..1] == BUYS[..|BUYS| - 1];
  }

  lemma TotalNone()
    ensures Total(map[], Shorts) == 0.0
  {
  }

  function Falls(): map<string, Quote> {
    map["X" := EIGHTY, "Y" := EIGHTY]
  }

  /** At 80 dollars the stop of either position is hit. */
  lemma StopHit(a: Account, w: Watch, tick: string)
    requires w in {X, Y} && w.symbol in a.positions && a.positions[w.symbol] == Bought(w.id)
    requires forall k :: k in a.orders ==> |k| < 5
    ensures Triggered(a, w, tick, Falls()) && !Fails(a, w, tick, Falls())
  {
    ExitIffLevelHit(10_001_000_000.0, 80.0 * USD, false, Some(10_001_000_000.0), ExitLevels(Some(0.1), None, None));
    assert LossLevel(false, 10_001_000_000.0, 0.1) == 9_000_900_000.0;
    assert |ExitKey(w.id, tick)| >= 5;
    hide EvaluateExit, LossLevel, Digits;
  }

  /** The sale of X goes through and leaves Y as it was. */
  lemma SellsX(a: Account, pid: nat)
    requires "sell" !in a.orders && "X" in a.positions && a.positions["X"] == Bought(1)
    ensures var out := PlaceLocked(a, "sell", SELL_X, Some(EIGHTY), pid);
            && out.Done? && out.account.positions == a.positions - {"X"}
            && out.account.orders.Keys == a.orders.Keys + {"sell"}
  {
    RoundInteger(10_000_000_000);
    var o := NewOrder(SELL_X);
    var b := WithOrder(a, "sell", o);
    assert o == ExitOrder("X", Bought(1)) by {
      hide Round;
    }
    ExitPriced(b, "sell", o, EIGHTY, pid);
    var f := ComputeFill(EIGHTY, Sell, false, o.size).value;
    ExitBooked(b, "sell", f, pid);
    PlaceTouches(a, "sell", SELL_X, Some(EIGHTY), pid);
    hide ComputeFill, Round, ApplyFill, FillMarket, ExitOrder, NewOrder;
    var c := Book(b, "sell", f, pid);
    assert PlaceLocked(a, "sell", SELL_X, Some(EIGHTY), pid) == Done(c);
    assert OrderTouches(a, c, "X");
    forall s | s != "X" ensures SameAt(a, c, s) {}
    assert c.positions == a.positions - {"X"};
  }

  lemma WatchBoth(a: Account)
    requires a.positions == map["X" := Bought(1), "Y" := Bought(2)]
    ensures IsWatchList(a, [X, Y])
  {
    forall w | w in [X, Y] ensures w == X || w == Y {}
  }

  lemma WatchY(a: Account)
    requires a.positions == map["Y" := Bought(2)]
    ensures IsWatchList(a, [Y])
  {
    forall w | w in [Y] ensures w == Y {}
  }

  /** On an account reached by two purchases both stops are hit at 80 dollars, and a sale closes X. */
  lemma BothDue(mult: real, tick: string, pid: nat)
    ensures ClosesOne(TwoLongs(mult), X, Y, tick, Falls(), "sell", SELL_X, Some(EIGHTY), pid)
  {
    var a := TwoLongs(mult);
    TwoLongsRows(mult);
    hide TwoLongs, PlaceLocked, IsWatchList, Triggered, Fails;
    SellsX(a, pid);
    var c := PlaceLocked(a, "sell", SELL_X, Some(EIGHTY), pid).account;
    assert c.positions == map["Y" := Bought(2)];
    WatchBoth(a);
    WatchY(c);
    assert forall k :: k in c.orders ==> k in {"bx", "by", "sell"};
    StopHit(a, X, tick);
    StopHit(a, Y, tick);
    StopHit(c, Y, tick);
  }

  /** The lost exit does happen: when that sale gets the lock between the sweep's scan and its turn, Y is
      still open after the sweep, while both serial orders of the two exist and exit Y. */
  lemma ExitIsLost(mult: real, tick: string, pid: nat)
    ensures var a := TwoLongs(mult);
            var txns := [SettleTxn(tick, map[0 := Falls()]), PlaceTxn(0, "sell", SELL_X, Some(EIGHTY), pid)];
            var scan, sale := [Item(0, SettleOp([X, Y], tick, Falls()))], [ItemOf(txns[1])];
            var run := Exec(txns, Start(map[0 := a], 2), StaleSteps(scan, sale));
            && run.Some? && run.value.procs == [Finished, Finished]
            && 0 in run.value.db && "Y" in run.value.db[0].positions
            && AlwaysExits(txns, map[0 := a], [Finish(ORDER, sale), Finish(SWEEP, scan)], "Y")
            && AlwaysExits(txns, map[0 := a], [Finish(SWEEP, scan), Finish(ORDER, sale)], "Y")
  {
    BothDue(mult, tick, pid);
    hide ClosesOne, TwoLongs, Exec, AlwaysExits;
    StaleSweepLosesExit(TwoLongs(mult), X, Y, tick, Falls(), "sell", SELL_X, Some(EIGHTY), pid);
  }
}
