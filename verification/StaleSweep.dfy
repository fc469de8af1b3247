/**
 A sweep whose scan went stale: an order closes a watched position between scan and lock, and the
 sweep loses the exits it was due to make.
 */
module StaleSweep {
  import opened Prelude
  import opened Portfolio
  import opened Matching
  import opened Ledger
  import opened Sweeps
  import opened Interleaving
  import opened SerialSweeps

  // ---------------------------------------------------------------- scans exist

  predicate DistinctIds(a: Account) {
    forall s, t :: s in a.positions && t in a.positions && s != t ==> a.positions[s].id != a.positions[t].id
  }

  lemma FirstRow(a: Account, symbols: set<string>) returns (s: string)
    requires DistinctIds(a) && symbols <= a.positions.Keys && symbols != {}
    ensures s in symbols && forall t :: t in symbols && t != s ==> a.positions[s].id < a.positions[t].id
  {
    var ids := set s | s in symbols :: a.positions[s].id as int;
    var s0 := AnyOf(symbols);
    assert a.positions[s0].id as int in ids;
    HasLeast(ids);
    var least :| least in ids && forall j :: j in ids ==> least <= j;
    s :| s in symbols && a.positions[s].id as int == least;
    forall t | t in symbols ensures a.positions[t].id as int in ids {}
  }

  /** The rows of some symbols in ascending order of id. */
  lemma {:induction false} ListRows(a: Account, symbols: set<string>) returns (watch: seq<Watch>)
    requires DistinctIds(a) && symbols <= a.positions.Keys
    ensures AscendingIds(watch)
    ensures forall w :: w in watch <==> w.symbol in symbols && w.id == a.positions[w.symbol].id
    decreases |symbols|
  {
    if symbols == {} {
      watch := [];
    } else {
      var s := FirstRow(a, symbols);
      var rest := ListRows(a, symbols - {s});
      watch := [Watch(a.positions[s].id, s)] + rest;
      forall i | 0 <= i < |rest| ensures a.positions[s].id < rest[i].id {
        assert rest[i] in rest;
      }
    }
  }

  lemma WatchListExists(a: Account) returns (watch: seq<Watch>)
    requires DistinctIds(a)
    ensures IsWatchList(a, watch)
  {
    watch := ListRows(a, set s | s in a.positions && HasLevel(a.positions[s]) && a.positions[s].qty != 0);
  }

  predicate Plans(plan: seq<Item>, a: AccountId) {
    exists i :: 0 <= i < |plan| && plan[i].account == a
  }

  ghost predicate ListsRows(db: Db, it: Item) {
    it.op.SettleOp? && it.account in db && IsWatchList(db[it.account], it.op.watch)
  }

  /** One current list per account, in ascending order. */
  ghost predicate PlanOf(t: Txn, db: Db, accounts: set<AccountId>, plan: seq<Item>) {
    && PlanFor(t, plan)
    && (forall i :: 0 <= i < |plan| ==> plan[i].account in accounts && ListsRows(db, plan[i]))
    && (forall a :: a in accounts ==> Plans(plan, a))
  }

  lemma {:induction false} PlanOver(t: Txn, db: Db, accounts: set<AccountId>) returns (plan: seq<Item>)
    requires t.SettleTxn? && accounts <= db.Keys && forall a :: a in db ==> DistinctIds(db[a])
    ensures PlanOf(t, db, accounts, plan)
    decreases |accounts|
  {
    hide IsWatchList, DistinctIds;
    if accounts == {} {
      plan := [];
    } else {
      HasLeast(accounts);
      var a :| a in accounts && forall b :: b in accounts ==> a <= b;
      var rest := PlanOver(t, db, accounts - {a});
      var watch := WatchListExists(db[a]);
      AscendsOf(db[a], watch);
      plan := [Item(a, SettleOp(watch, t.tick, QuotesFor(t, a)))] + rest;
      PlanPrepend(t, db, accounts, a, plan[0], rest);
    }
  }

  lemma PlanPrepend(t: Txn, db: Db, accounts: set<AccountId>, a: AccountId, it: Item, rest: seq<Item>)
    requires t.SettleTxn? && a in accounts && forall b :: b in accounts ==> a <= b
    requires PlanOf(t, db, accounts - {a}, rest)
    requires it.account == a && ListsRows(db, it) && SweepItem(t, it)
    ensures PlanOf(t, db, accounts, [it] + rest)
  {
    hide ListsRows, SweepItem, Plans;
    var plan := [it] + rest;
    assert plan[0] == it && forall i :: 0 < i < |plan| ==> plan[i] == rest[i - 1];
    forall b | b in accounts ensures Plans(plan, b) {
      PlansPrepend(it, rest, b);
      assert b == a || b in accounts - {a};
    }
    forall i | 0 <= i < |plan| ensures SweepItem(t, plan[i]) && plan[i].account in accounts && ListsRows(db, plan[i]) {
    }
    assert Ascending(plan);
  }

  lemma PlansPrepend(it: Item, rest: seq<Item>, b: AccountId)
    ensures it.account == b || Plans(rest, b) ==> Plans([it] + rest, b)
  {
    var plan := [it] + rest;
    if it.account == b {
      assert plan[0].account == b;
    } else if Plans(rest, b) {
      var i :| 0 <= i < |rest| && rest[i].account == b;
      assert plan[i + 1].account == b;
    }
  }

  /** While position ids are distinct within each account, as a primary key makes them, every sweep has
      a scan. */
  lemma ScanExists(t: Txn, db: Db) returns (plan: seq<Item>)
    requires t.SettleTxn? && forall a :: a in db ==> DistinctIds(db[a])
    ensures PlanFor(t, plan) && ScanOf(db, plan)
  {
    plan := PlanOver(t, db, db.Keys);
  }

  // ---------------------------------------------------------------- the lost exit

  const SWEEP := 0
  const ORDER := 1

  /** The sweep scans, the order runs from probe to commit, and then the sweep gets the lock. */
  function StaleSteps(scan: seq<Item>, order: seq<Item>): seq<Step> {
    [Probe(SWEEP, scan), Probe(ORDER, order), Acquire(ORDER), Work(ORDER), CommitAll(ORDER),
     Acquire(SWEEP), Work(SWEEP)]
  }

  /** Two watched positions due to exit, and an order that closes the first. */
  ghost predicate ClosesOne(a: Account, x: Watch, y: Watch, tick: string, quotes: map<string, Quote>,
                            key: string, req: Request, quote: Option<Quote>, pid: nat)
  {
    && IsWatchList(a, [x, y]) && !SomeFails(a, [x, y], tick, quotes) && Triggered(a, y, tick, quotes)
    && key !in a.orders && req.symbol != y.symbol
    && PlaceLocked(a, key, req, quote, pid).Done?
    && var c := PlaceLocked(a, key, req, quote, pid).account;
       Gone(c, x) && IsWatchList(c, [y]) && !SomeFails(c, [y], tick, quotes) && Triggered(c, y, tick, quotes)
  }

  ghost predicate OrderTouches(a: Account, b: Account, symbol: string) {
    forall s :: s != symbol ==> SameAt(a, b, s)
  }

  lemma PlaceTouches(a: Account, key: string, req: Request, quote: Option<Quote>, pid: nat)
    ensures PlaceOrder(a, key, req, quote, pid).Done? ==>
              OrderTouches(a, PlaceOrder(a, key, req, quote, pid).account, req.symbol)
  {
    hide ComputeFill, ApplyFill, RowAfter;
  }

  // ---------------------------------------------------------------- the sweep on its own scan

  lemma {:induction false} WatchForAt(t: Txn, plan: seq<Item>, i: nat)
    requires t.SettleTxn? && PlanFor(t, plan) && i < |plan|
    ensures WatchFor(plan, plan[i].account) == plan[i].op.watch
    decreases |plan|
  {
    hide SweepItem;
    if i < |plan| - 1 {
      WatchForAt(t, plan[..|plan| - 1], i);
      assert plan[i].account < plan[|plan| - 1].account;
    }
    assert SweepItem(t, plan[i]) && SweepItem(t, plan[|plan| - 1]);
    IsSettle(t, plan[i]);
    IsSettle(t, plan[|plan| - 1]);
  }

  lemma IsSettle(t: Txn, it: Item)
    requires t.SettleTxn? && SweepItem(t, it)
    ensures it.op.SettleOp?
  {
  }

  /** What a scan lists for an account with something to watch is that account's list. */
  lemma ScanWatches(t: Txn, db: Db, plan: seq<Item>, a: AccountId, watch: seq<Watch>)
    requires t.SettleTxn? && PlanFor(t, plan) && ScanOf(db, plan) && a in db
    requires IsWatchList(db[a], watch) && watch != []
    ensures WatchFor(plan, a) == watch
  {
    hide PlanFor;
    var w := watch[0];
    assert w in watch;
    assert w.symbol in db[a].positions && HasLevel(db[a].positions[w.symbol]);
    var i :| 0 <= i < |plan| && plan[i].account == a;
    WatchForAt(t, plan, i);
    FreshListUnique(db[a], plan[i].op.watch, watch);
  }

  /** On its own scan of a single account a sweep makes the exits that are due. */
  lemma OwnScanExits(t: Txn, db: Db, plan: seq<Item>, a: AccountId, watch: seq<Watch>, y: Watch)
    requires t.SettleTxn? && PlanFor(t, plan) && ScanOf(db, plan) && db.Keys == {a}
    requires IsWatchList(db[a], watch) && y in watch
    requires !SomeFails(db[a], watch, t.tick, QuotesFor(t, a)) && Triggered(db[a], y, t.tick, QuotesFor(t, a))
    ensures Ran(db, plan).Keys == {a} && y.symbol !in Ran(db, plan)[a].positions
  {
    hide IsWatchList, ScanOf, PlanFor, SomeFails, Acts, KeysKept;
    ScanWatches(t, db, plan, a, watch);
    AscendsOf(db[a], watch);
    RanAccount(t, db, plan, a);
    assert !PlanFails(t, db, plan) by {
      forall b | b in db ensures !FailsOn(t, db, plan, b) {
        assert b == a;
      }
    }
    SweepRaisesIff(db[a], watch, t.tick, QuotesFor(t, a));
    var i :| 0 <= i < |watch| && watch[i] == y;
    assert SweptRow(db[a], SettleExits(db[a], watch, t.tick, QuotesFor(t, a)).account, watch[i],
                    t.tick, QuotesFor(t, a));
  }

  lemma OrderRuns(db: Db, a: AccountId, t: Txn, symbol: string)
    requires t.PlaceTxn? && t.account == a && db.Keys == {a} && symbol != t.req.symbol
    ensures Ran(db, [ItemOf(t)]).Keys == {a}
    ensures symbol !in db[a].positions ==> symbol !in Ran(db, [ItemOf(t)])[a].positions
  {
    PlaceTouches(db[a], t.key, t.req, t.quote, t.pid);
    hide PlaceLocked;
    assert [ItemOf(t)][..0] == [];
    assert RunPlan(db, [ItemOf(t)][..0]) == Some(db);
    var out := PlaceOrder(db[a], t.key, t.req, t.quote, t.pid);
    if out.Done? {
      assert SameAt(db[a], out.account, symbol);
    }
  }

  ghost function LockedOrder(t: Txn, db: Db): Outcome
    requires t.PlaceTxn? && t.account in db
  {
    PlaceLocked(db[t.account], t.key, t.req, t.quote, t.pid)
  }

  lemma OrderRan(db: Db, t: Txn)
    requires t.PlaceTxn? && t.account in db && t.key !in db[t.account].orders && LockedOrder(t, db).Done?
    ensures Ran(db, [ItemOf(t)]) == db[t.account := LockedOrder(t, db).account]
  {
    hide PlaceLocked;
    assert [ItemOf(t)][..0] == [];
    assert RunPlan(db, [ItemOf(t)][..0]) == Some(db);
  }

  // ---------------------------------------------------------------- the interleaving

  lemma ExecStep(txns: seq<Txn>, s: Sys, steps: seq<Step>, step: Step, mid: Sys)
    requires Exec(txns, s, steps) == Some(mid) && Enabled(txns, mid, step)
    ensures Exec(txns, s, steps + [step]) == Some(Next(txns, mid, step))
  {
    assert (steps + [step])[..|steps|] == steps;
  }

  lemma ScanTaken(txns: seq<Txn>, db: Db, scan: seq<Item>)
    requires |txns| == 2 && txns[SWEEP].SettleTxn? && PlanFor(txns[SWEEP], scan) && ScanOf(db, scan)
    ensures Enabled(txns, Sys(db, [Idle, Idle], []), Probe(SWEEP, scan))
    ensures Next(txns, Sys(db, [Idle, Idle], []), Probe(SWEEP, scan)) ==
              Sys(db, [Running(scan, 0, false, map[]), Idle], [])
  {
    hide PlanFor, ScanOf;
  }

  lemma KeyProbed(txns: seq<Txn>, db: Db, p: Proc)
    requires |txns| == 2 && txns[ORDER].PlaceTxn?
    requires txns[ORDER].account in db && txns[ORDER].key !in db[txns[ORDER].account].orders
    ensures var plan := [ItemOf(txns[ORDER])];
            && Enabled(txns, Sys(db, [p, Idle], []), Probe(ORDER, plan))
            && Next(txns, Sys(db, [p, Idle], []), Probe(ORDER, plan)) ==
                 Sys(db, [p, Running(plan, 0, false, map[])], [])
  {
  }

  lemma OrderLocks(txns: seq<Txn>, db: Db, scan: seq<Item>, plan: seq<Item>)
    requires |txns| == 2 && |plan| == 1
    ensures var s := Sys(db, [Running(scan, 0, false, map[]), Running(plan, 0, false, map[])], []);
            && Enabled(txns, s, Acquire(ORDER))
            && Next(txns, s, Acquire(ORDER)) ==
                 Sys(db, [Running(scan, 0, false, map[]), Running(plan, 0, true, map[])], [])
  {
  }

  lemma OrderWorks(txns: seq<Txn>, db: Db, p: Proc, t: Txn)
    requires |txns| == 2 && t.PlaceTxn? && t.account in db
    requires PlaceLocked(db[t.account], t.key, t.req, t.quote, t.pid).Done?
    ensures var plan := [ItemOf(t)];
            var s := Sys(db, [p, Running(plan, 0, true, map[])], []);
            var c := PlaceLocked(db[t.account], t.key, t.req, t.quote, t.pid).account;
            && Enabled(txns, s, Work(ORDER))
            && Next(txns, s, Work(ORDER)) == Sys(db, [p, Running(plan, 1, false, map[t.account := c])], [])
  {
    hide PlaceLocked;
  }

  lemma OrderCommits(txns: seq<Txn>, db: Db, p: Proc, plan: seq<Item>, shadow: Db)
    requires |txns| == 2 && |plan| == 1
    ensures var s := Sys(db, [p, Running(plan, 1, false, shadow)], []);
            && Enabled(txns, s, CommitAll(ORDER))
            && Next(txns, s, CommitAll(ORDER)) == Sys(db + shadow, [p, Finished], [Finish(ORDER, plan)])
  {
  }

  lemma SweepLocks(txns: seq<Txn>, db: Db, scan: seq<Item>, log: seq<Finish>)
    requires |txns| == 2 && |scan| == 1
    ensures var s := Sys(db, [Running(scan, 0, false, map[]), Finished], log);
            && Enabled(txns, s, Acquire(SWEEP))
            && Next(txns, s, Acquire(SWEEP)) == Sys(db, [Running(scan, 0, true, map[]), Finished], log)
  {
  }

  lemma SweepRaises(txns: seq<Txn>, db: Db, it: Item, log: seq<Finish>)
    requires |txns| == 2 && it.op.SettleOp? && it.account in db
    requires SettleExits(db[it.account], it.op.watch, it.op.tick, it.op.quotes).Raised?
    ensures var s := Sys(db, [Running([it], 0, true, map[]), Finished], log);
            && Enabled(txns, s, Work(SWEEP))
            && Next(txns, s, Work(SWEEP)) == Sys(db, [Finished, Finished], log + [Finish(SWEEP, [it])])
  {
    hide SettleExits;
  }

  /** The stale interleaving runs to the end and leaves what the order alone left. */
  lemma StaleRun(a: Account, x: Watch, y: Watch, tick: string, quotes: map<string, Quote>,
                 key: string, req: Request, quote: Option<Quote>, pid: nat)
    requires ClosesOne(a, x, y, tick, quotes, key, req, quote, pid)
    ensures var txns := [SettleTxn(tick, map[0 := quotes]), PlaceTxn(0, key, req, quote, pid)];
            var scan := [Item(0, SettleOp([x, y], tick, quotes))];
            Exec(txns, Start(map[0 := a], 2), StaleSteps(scan, [ItemOf(txns[1])])) ==
              Some(Sys(map[0 := PlaceLocked(a, key, req, quote, pid).account], [Finished, Finished],
                       [Finish(ORDER, [ItemOf(txns[1])]), Finish(SWEEP, scan)]))
  {
    var sweep, order := SettleTxn(tick, map[0 := quotes]), PlaceTxn(0, key, req, quote, pid);
    StaleSweepRaises(a, x, y, tick, quotes, key, req, quote, pid);
    StaleScan(a, [x, y], tick, quotes);
    hide PlaceLocked, SettleExits, IsWatchList, ScanOf, PlanFor, SomeFails, Triggered, Gone, Exec, StaleSteps;
    RunStale([sweep, order], map[0 := a], [Item(0, SettleOp([x, y], tick, quotes))]);
  }

  /** The two transactions, a sweep of one account and an order on it that goes through. */
  ghost predicate StalePair(txns: seq<Txn>, db: Db, scan: seq<Item>) {
    && |txns| == 2 && txns[SWEEP].SettleTxn? && txns[ORDER].PlaceTxn?
    && |scan| == 1 && scan[0].op.SettleOp? && db.Keys == {txns[ORDER].account} && scan[0].account in db
    && txns[ORDER].key !in db[txns[ORDER].account].orders
    && LockedOrder(txns[ORDER], db).Done?
  }

  function ScanSteps(scan: seq<Item>, order: seq<Item>): seq<Step> {
    [Probe(SWEEP, scan), Probe(ORDER, order)]
  }

  function OrderSteps(scan: seq<Item>, order: seq<Item>): seq<Step> {
    ScanSteps(scan, order) + [Acquire(ORDER), Work(ORDER), CommitAll(ORDER)]
  }

  lemma RunScans(txns: seq<Txn>, db: Db, scan: seq<Item>)
    requires StalePair(txns, db, scan) && PlanFor(txns[SWEEP], scan) && ScanOf(db, scan)
    ensures var plan := [ItemOf(txns[ORDER])];
            Exec(txns, Start(db, 2), ScanSteps(scan, plan)) ==
              Some(Sys(db, [Running(scan, 0, false, map[]), Running(plan, 0, false, map[])], []))
  {
    hide PlanFor, ScanOf, Next, Enabled, LockedOrder;
    var plan, s0 := [ItemOf(txns[ORDER])], Start(db, 2);
    assert s0 == Sys(db, [Idle, Idle], []);
    StartsThere(txns, s0);
    ScanTaken(txns, db, scan);
    ExecStep(txns, s0, [], Probe(SWEEP, scan), s0);
    KeyProbed(txns, db, Running(scan, 0, false, map[]));
    ExecStep(txns, s0, [] + [Probe(SWEEP, scan)], Probe(ORDER, plan),
             Sys(db, [Running(scan, 0, false, map[]), Idle], []));
    assert [] + [Probe(SWEEP, scan)] + [Probe(ORDER, plan)] == ScanSteps(scan, plan);
  }

  lemma RunOrder(txns: seq<Txn>, db: Db, scan: seq<Item>)
    requires StalePair(txns, db, scan)
    requires var plan := [ItemOf(txns[ORDER])];
             Exec(txns, Start(db, 2), ScanSteps(scan, plan)) ==
               Some(Sys(db, [Running(scan, 0, false, map[]), Running(plan, 0, false, map[])], []))
    ensures var plan, c := [ItemOf(txns[ORDER])], LockedOrder(txns[ORDER], db).account;
            Exec(txns, Start(db, 2), OrderSteps(scan, plan)) ==
              Some(Sys(map[txns[ORDER].account := c], [Running(scan, 0, false, map[]), Finished],
                       [Finish(ORDER, plan)]))
  {
    hide Next, Enabled, PlaceLocked;
    var t, plan, s0, p := txns[ORDER], [ItemOf(txns[ORDER])], Start(db, 2), Running(scan, 0, false, map[]);
    var c, t2 := LockedOrder(t, db).account, ScanSteps(scan, plan);
    hide Start, ScanSteps;
    OrderLocks(txns, db, scan, plan);
    ExecStep(txns, s0, t2, Acquire(ORDER), Sys(db, [p, Running(plan, 0, false, map[])], []));
    OrderWorks(txns, db, p, t);
    var t3 := t2 + [Acquire(ORDER)];
    ExecStep(txns, s0, t3, Work(ORDER), Sys(db, [p, Running(plan, 0, true, map[])], []));
    OrderCommits(txns, db, p, plan, map[t.account := c]);
    var t4 := t3 + [Work(ORDER)];
    ExecStep(txns, s0, t4, CommitAll(ORDER), Sys(db, [p, Running(plan, 1, false, map[t.account := c])], []));
    assert db + map[t.account := c] == map[t.account := c];
    assert t4 + [CommitAll(ORDER)] == OrderSteps(scan, plan);
  }

  lemma RunSweep(txns: seq<Txn>, db: Db, scan: seq<Item>)
    requires StalePair(txns, db, scan)
    requires var plan, c := [ItemOf(txns[ORDER])], LockedOrder(txns[ORDER], db).account;
             && Exec(txns, Start(db, 2), OrderSteps(scan, plan)) ==
                  Some(Sys(map[txns[ORDER].account := c], [Running(scan, 0, false, map[]), Finished],
                       [Finish(ORDER, plan)]))
             && SettleExits(c, scan[0].op.watch, scan[0].op.tick, scan[0].op.quotes).Raised?
    ensures var plan, c := [ItemOf(txns[ORDER])], LockedOrder(txns[ORDER], db).account;
            Exec(txns, Start(db, 2), StaleSteps(scan, plan)) ==
              Some(Sys(map[txns[ORDER].account := c], [Finished, Finished], [Finish(ORDER, plan), Finish(SWEEP, scan)]))
  {
    hide Next, Enabled, LockedOrder, SettleExits;
    var plan, s0, p := [ItemOf(txns[ORDER])], Start(db, 2), Running(scan, 0, false, map[]);
    var db1 := map[txns[ORDER].account := LockedOrder(txns[ORDER], db).account];
    var log, t5 := [Finish(ORDER, plan)], OrderSteps(scan, plan);
    assert scan == [scan[0]];
    SweepLocks(txns, db1, scan, log);
    ExecStep(txns, s0, t5, Acquire(SWEEP), Sys(db1, [p, Finished], log));
    SweepRaises(txns, db1, scan[0], log);
    ExecStep(txns, s0, t5 + [Acquire(SWEEP)], Work(SWEEP), Sys(db1, [Running(scan, 0, true, map[]), Finished], log));
    assert log + [Finish(SWEEP, [scan[0]])] == [Finish(ORDER, plan), Finish(SWEEP, scan)];
    assert t5 + [Acquire(SWEEP)] + [Work(SWEEP)] == StaleSteps(scan, plan);
  }

  lemma RunStale(txns: seq<Txn>, db: Db, scan: seq<Item>)
    requires StalePair(txns, db, scan) && PlanFor(txns[SWEEP], scan) && ScanOf(db, scan)
    requires SettleExits(LockedOrder(txns[ORDER], db).account, scan[0].op.watch, scan[0].op.tick,
                         scan[0].op.quotes).Raised?
    ensures var plan, c := [ItemOf(txns[ORDER])], LockedOrder(txns[ORDER], db).account;
            Exec(txns, Start(db, 2), StaleSteps(scan, plan)) ==
              Some(Sys(map[txns[ORDER].account := c], [Finished, Finished], [Finish(ORDER, plan), Finish(SWEEP, scan)]))
  {
    hide PlanFor, ScanOf, SettleExits, Exec, LockedOrder, StaleSteps, OrderSteps, ScanSteps, Start;
    RunScans(txns, db, scan);
    RunOrder(txns, db, scan);
    RunSweep(txns, db, scan);
  }

  lemma StartsThere(txns: seq<Txn>, s: Sys)
    ensures Exec(txns, s, []) == Some(s)
  {
  }

  lemma StaleSweepRaises(a: Account, x: Watch, y: Watch, tick: string, quotes: map<string, Quote>,
                         key: string, req: Request, quote: Option<Quote>, pid: nat)
    requires ClosesOne(a, x, y, tick, quotes, key, req, quote, pid)
    ensures SettleExits(PlaceLocked(a, key, req, quote, pid).account, [x, y], tick, quotes).Raised?
  {
    GoneRowRaises(PlaceLocked(a, key, req, quote, pid).account, [x, y], tick, quotes, 0);
  }

  lemma StaleScan(a: Account, watch: seq<Watch>, tick: string, quotes: map<string, Quote>)
    requires IsWatchList(a, watch)
    ensures ScanOf(map[0 := a], [Item(0, SettleOp(watch, tick, quotes))])
    ensures PlanFor(SettleTxn(tick, map[0 := quotes]), [Item(0, SettleOp(watch, tick, quotes))])
  {
    var scan := [Item(0, SettleOp(watch, tick, quotes))];
    assert scan[0].account == 0;
    AscendsOf(a, watch);
    hide IsWatchList, HasLevel;
  }

  ghost predicate ExitedBy(db: Db, plans: seq<seq<Item>>, symbol: string) {
    var after := SerialWith(db, plans);
    0 in after && symbol !in after[0].positions
  }

  /** The transactions have a serial run in this order, and each one exits the symbol. */
  ghost predicate AlwaysExits(txns: seq<Txn>, db: Db, log: seq<Finish>, symbol: string) {
    HasOwnScans(txns, db, log) && forall plans :: OwnScans(txns, db, log, plans) ==> ExitedBy(db, plans, symbol)
  }

  /** A sweep and an order, interleaved as the program allows, that no serial order of the two explains
      once the sweep reads its positions when its turn comes: the sweep scans two positions due to
      exit, the order closes the first, and the sweep raises, so the second stays open.  Whichever
      runs first, the other order exits it. */
  lemma StaleSweepLosesExit(a: Account, x: Watch, y: Watch, tick: string, quotes: map<string, Quote>,
                            key: string, req: Request, quote: Option<Quote>, pid: nat)
    requires ClosesOne(a, x, y, tick, quotes, key, req, quote, pid)
    ensures var txns := [SettleTxn(tick, map[0 := quotes]), PlaceTxn(0, key, req, quote, pid)];
            var scan, order := [Item(0, SettleOp([x, y], tick, quotes))], [ItemOf(txns[1])];
            var run := Exec(txns, Start(map[0 := a], 2), StaleSteps(scan, order));
            && run.Some? && run.value.procs == [Finished, Finished]
            && 0 in run.value.db && y.symbol in run.value.db[0].positions
            && AlwaysExits(txns, map[0 := a], [Finish(ORDER, order), Finish(SWEEP, scan)], y.symbol)
            && AlwaysExits(txns, map[0 := a], [Finish(SWEEP, scan), Finish(ORDER, order)], y.symbol)
  {
    StaleRun(a, x, y, tick, quotes, key, req, quote, pid);
    var sweep, order := SettleTxn(tick, map[0 := quotes]), PlaceTxn(0, key, req, quote, pid);
    var txns := [sweep, order];
    var scan, plan := [Item(0, SettleOp([x, y], tick, quotes))], [ItemOf(order)];
    OwnScansHere(a, x, y, tick, quotes, key, req, quote, pid);
    hide OwnScans, ExitedBy, Exec;
    forall plans | OwnScans(txns, map[0 := a], [Finish(ORDER, plan), Finish(SWEEP, scan)], plans)
      ensures ExitedBy(map[0 := a], plans, y.symbol)
    {
      OrderThenSweep(a, x, y, tick, quotes, key, req, quote, pid, plans);
    }
    forall plans | OwnScans(txns, map[0 := a], [Finish(SWEEP, scan), Finish(ORDER, plan)], plans)
      ensures ExitedBy(map[0 := a], plans, y.symbol)
    {
      SweepThenOrder(a, x, y, tick, quotes, key, req, quote, pid, plans);
    }
  }

  /** Both serial orders have their own scans. */
  lemma OwnScansHere(a: Account, x: Watch, y: Watch, tick: string, quotes: map<string, Quote>,
                     key: string, req: Request, quote: Option<Quote>, pid: nat)
    requires ClosesOne(a, x, y, tick, quotes, key, req, quote, pid)
    ensures var txns := [SettleTxn(tick, map[0 := quotes]), PlaceTxn(0, key, req, quote, pid)];
            var scan, order := [Item(0, SettleOp([x, y], tick, quotes))], [ItemOf(txns[1])];
            && HasOwnScans(txns, map[0 := a], [Finish(ORDER, order), Finish(SWEEP, scan)])
            && HasOwnScans(txns, map[0 := a], [Finish(SWEEP, scan), Finish(ORDER, order)])
  {
    var sweep, order := SettleTxn(tick, map[0 := quotes]), PlaceTxn(0, key, req, quote, pid);
    var db, c := map[0 := a], PlaceLocked(a, key, req, quote, pid).account;
    var scan, plan := [Item(0, SettleOp([x, y], tick, quotes))], [ItemOf(order)];
    StaleScan(a, [x, y], tick, quotes);
    StaleScan(c, [y], tick, quotes);
    assert db[0 := c] == map[0 := c];
    hide PlaceLocked, SomeFails, IsWatchList, ScanOf, Triggered, Gone, HasOwnScans, PlanFor;
    OwnOrderFirst([sweep, order], db, [Finish(ORDER, plan), Finish(SWEEP, scan)],
                  [Item(0, SettleOp([y], tick, quotes))]);
    OwnSweepFirst([sweep, order], db, [Finish(SWEEP, scan), Finish(ORDER, plan)], scan);
  }

  ghost predicate HasOwnScans(txns: seq<Txn>, db: Db, log: seq<Finish>) {
    exists plans :: OwnScans(txns, db, log, plans)
  }

  lemma OwnOrderFirst(txns: seq<Txn>, db: Db, log: seq<Finish>, own: seq<Item>)
    requires |txns| == 2 && txns[SWEEP].SettleTxn? && txns[ORDER].PlaceTxn?
    requires |log| == 2 && log[0].proc == ORDER && log[1].proc == SWEEP
    requires db.Keys == {txns[ORDER].account} && txns[ORDER].key !in db[txns[ORDER].account].orders
    requires LockedOrder(txns[ORDER], db).Done?
    requires PlanFor(txns[SWEEP], own) && ScanOf(db[txns[ORDER].account := LockedOrder(txns[ORDER], db).account], own)
    ensures HasOwnScans(txns, db, log)
  {
    var t := txns[ORDER];
    hide LockedOrder, PlaceLocked, ScanOf, Ran, OwnScans;
    OrderRan(db, t);
    hide SweepItem;
    TwoOwnScans(txns, db, log, [ItemOf(t)], own);
  }

  lemma OwnSweepFirst(txns: seq<Txn>, db: Db, log: seq<Finish>, own: seq<Item>)
    requires |txns| == 2 && txns[SWEEP].SettleTxn? && txns[ORDER].PlaceTxn?
    requires |log| == 2 && log[0].proc == SWEEP && log[1].proc == ORDER
    requires PlanFor(txns[SWEEP], own) && ScanOf(db, own)
    ensures HasOwnScans(txns, db, log)
  {
    hide ScanOf, Ran, OwnScans, SweepItem;
    TwoOwnScans(txns, db, log, own, [ItemOf(txns[ORDER])]);
  }

  lemma TwoOwnScans(txns: seq<Txn>, db: Db, log: seq<Finish>, first: seq<Item>, second: seq<Item>)
    requires |log| == 2 && OwnScan(txns, log[0], db, first) && OwnScan(txns, log[1], Ran(db, first), second)
    ensures OwnScans(txns, db, log, [first, second])
  {
    hide OwnScan, Ran;
    var plans := [first, second];
    SerialWithNext(db, plans, 0);
    assert plans[..0] == [];
  }

  lemma OrderThenSweep(a: Account, x: Watch, y: Watch, tick: string, quotes: map<string, Quote>,
                       key: string, req: Request, quote: Option<Quote>, pid: nat, plans: seq<seq<Item>>)
    requires ClosesOne(a, x, y, tick, quotes, key, req, quote, pid)
    requires var txns := [SettleTxn(tick, map[0 := quotes]), PlaceTxn(0, key, req, quote, pid)];
             OwnScans(txns, map[0 := a], [Finish(ORDER, [ItemOf(txns[1])]),
                                          Finish(SWEEP, [Item(0, SettleOp([x, y], tick, quotes))])], plans)
    ensures ExitedBy(map[0 := a], plans, y.symbol)
  {
    var sweep, order := SettleTxn(tick, map[0 := quotes]), PlaceTxn(0, key, req, quote, pid);
    var log := [Finish(ORDER, [ItemOf(order)]), Finish(SWEEP, [Item(0, SettleOp([x, y], tick, quotes))])];
    hide PlaceLocked, SomeFails, IsWatchList, Triggered, OwnScans, Ran, Gone;
    OrderFirst([sweep, order], map[0 := a], log, plans, y);
  }

  /** What an order leaves on its account, when the sweep after it has one position to exit. */
  ghost predicate LeavesDue(t: Txn, sweep: Txn, db: Db, y: Watch)
    requires t.PlaceTxn? && t.account in db && sweep.SettleTxn?
  {
    LockedOrder(t, db).Done? && Due(LockedOrder(t, db).account, y, sweep.tick, QuotesFor(sweep, t.account))
  }

  /** The row is the only one to watch and will be exited. */
  predicate Due(a: Account, y: Watch, tick: string, quotes: map<string, Quote>) {
    IsWatchList(a, [y]) && !SomeFails(a, [y], tick, quotes) && Triggered(a, y, tick, quotes)
  }

  lemma OrderFirst(txns: seq<Txn>, db: Db, log: seq<Finish>, plans: seq<seq<Item>>, y: Watch)
    requires |txns| == 2 && txns[SWEEP].SettleTxn? && txns[ORDER].PlaceTxn?
    requires |log| == 2 && log[0].proc == ORDER && log[1].proc == SWEEP && OwnScans(txns, db, log, plans)
    requires db.Keys == {txns[ORDER].account} && txns[ORDER].key !in db[txns[ORDER].account].orders
    requires LeavesDue(txns[ORDER], txns[SWEEP], db, y) && y.symbol != txns[ORDER].req.symbol
    ensures var after := SerialWith(db, plans);
            txns[ORDER].account in after && y.symbol !in after[txns[ORDER].account].positions
  {
    var t, c := txns[ORDER], LockedOrder(txns[ORDER], db).account;
    hide PlaceLocked, LockedOrder, SomeFails, IsWatchList, ScanOf, Triggered, PlanFor, OwnScans, OwnScan, Ran;
    TwoScans(txns, db, log, plans);
    OrderScan(txns, log[0], db, plans[0]);
    OrderRan(db, t);
    SweepScan(txns, log[1], db[t.account := c], plans[1]);
    OwnScanExits(txns[SWEEP], db[t.account := c], plans[1], t.account, [y], y);
  }

  lemma SweepThenOrder(a: Account, x: Watch, y: Watch, tick: string, quotes: map<string, Quote>,
                       key: string, req: Request, quote: Option<Quote>, pid: nat, plans: seq<seq<Item>>)
    requires ClosesOne(a, x, y, tick, quotes, key, req, quote, pid)
    requires var txns := [SettleTxn(tick, map[0 := quotes]), PlaceTxn(0, key, req, quote, pid)];
             OwnScans(txns, map[0 := a], [Finish(SWEEP, [Item(0, SettleOp([x, y], tick, quotes))]),
                                          Finish(ORDER, [ItemOf(txns[1])])], plans)
    ensures ExitedBy(map[0 := a], plans, y.symbol)
  {
    var sweep, order := SettleTxn(tick, map[0 := quotes]), PlaceTxn(0, key, req, quote, pid);
    var log := [Finish(SWEEP, [Item(0, SettleOp([x, y], tick, quotes))]), Finish(ORDER, [ItemOf(order)])];
    var db0 := map[0 := a];
    hide PlaceLocked, SomeFails, IsWatchList, ScanOf, Triggered, PlanFor, OwnScans, OwnScan, Ran;
    TwoScans([sweep, order], db0, log, plans);
    SweepScan([sweep, order], log[0], db0, plans[0]);
    OwnScanExits(sweep, db0, plans[0], 0, [x, y], y);
    OrderScan([sweep, order], log[1], Ran(db0, plans[0]), plans[1]);
    OrderRuns(Ran(db0, plans[0]), 0, order, y.symbol);
  }

  lemma TwoScans(txns: seq<Txn>, db: Db, log: seq<Finish>, plans: seq<seq<Item>>)
    requires OwnScans(txns, db, log, plans) && |log| == 2
    ensures |plans| == 2 && SerialWith(db, plans) == Ran(Ran(db, plans[0]), plans[1])
    ensures OwnScan(txns, log[0], db, plans[0]) && OwnScan(txns, log[1], Ran(db, plans[0]), plans[1])
  {
    hide OwnScan;
    SerialWithNext(db, plans, 0);
    SerialWithNext(db, plans, 1);
    assert plans[..2] == plans && plans[..0] == [];
    assert OwnScan(txns, log[0], SerialWith(db, plans[..0]), plans[0]);
    assert OwnScan(txns, log[1], SerialWith(db, plans[..1]), plans[1]);
  }

  lemma OrderScan(txns: seq<Txn>, e: Finish, db: Db, plan: seq<Item>)
    requires OwnScan(txns, e, db, plan) && e.proc < |txns| && txns[e.proc].PlaceTxn?
    ensures plan == [ItemOf(txns[e.proc])]
  {
  }

  lemma SweepScan(txns: seq<Txn>, e: Finish, db: Db, plan: seq<Item>)
    requires OwnScan(txns, e, db, plan) && e.proc < |txns| && txns[e.proc].SettleTxn?
    ensures PlanFor(txns[e.proc], plan) && ScanOf(db, plan)
  {
  }
}
