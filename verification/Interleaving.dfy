/**
 Concurrent order placement and exit sweeps over several accounts.

 A transaction first reads without a lock (the idempotency probe, or the scan for watched
 positions), then locks one account row after the other, works on each under its lock, and
 publishes everything when it commits, which is also when its locks are released.  A run is any
 sequence of such steps of any number of transactions.
 */
module Interleaving {
  import opened Prelude
  import opened Matching
  import opened Ledger
  import opened LedgerRuns
  import opened Sweeps

  type AccountId = int
  type Db = map<AccountId, Account>

  /** What a transaction does to one account once it holds its lock. */
  datatype Op =
    | PlaceOp(key: string, req: Request, quote: Option<Quote>, pid: nat)
    | SettleOp(watch: seq<Watch>, tick: string, quotes: map<string, Quote>)

  datatype Item = Item(account: AccountId, op: Op)

  datatype Txn =
    | PlaceTxn(account: AccountId, key: string, req: Request, quote: Option<Quote>, pid: nat)
    | SettleTxn(tick: string, quotes: map<AccountId, map<string, Quote>>)

  datatype Proc =
    | Idle
    | Running(plan: seq<Item>, next: nat, locked: bool, shadow: Db)
    | Finished

  /** The log lists the finished transactions with their plans, in the order they finished. */
  datatype Finish = Finish(proc: nat, plan: seq<Item>)

  datatype Sys = Sys(db: Db, procs: seq<Proc>, log: seq<Finish>)

  datatype Step = Probe(proc: nat, scan: seq<Item>) | Acquire(proc: nat) | Work(proc: nat) | CommitAll(proc: nat)

  // ---------------------------------------------------------------- the serial meaning

  /** The operation as a caller would run it alone: with its own idempotency probe. */
  ghost function Alone(op: Op, a: Account): Outcome {
    match op
    case PlaceOp(key, req, quote, pid) => PlaceOrder(a, key, req, quote, pid)
    case SettleOp(watch, tick, quotes) => SettleExits(a, watch, tick, quotes)
  }

  /** Run a plan alone on the database; None when an exception rolls it back.  A sweep skips an
      account that does not exist, placing an order on one raises. */
  ghost function RunPlan(db: Db, plan: seq<Item>): Option<Db>
    decreases |plan|
  {
    if |plan| == 0 then Some(db)
    else
      var init := RunPlan(db, plan[..|plan| - 1]);
      var Item(account, op) := plan[|plan| - 1];
      if init.None? then None
      else if account !in init.value then (if op.PlaceOp? then None else init)
      else
        var out := Alone(op, init.value[account]);
        if out.Raised? then None else Some(init.value[account := out.account])
  }

  ghost function Serial(db: Db, log: seq<Finish>): Db
    decreases |log|
  {
    if |log| == 0 then db
    else
      var init := Serial(db, log[..|log| - 1]);
      RunPlan(init, log[|log| - 1].plan).GetOr(init)
  }

  // ---------------------------------------------------------------- the interleaved steps

  function ItemOf(t: Txn): Item
    requires t.PlaceTxn?
  {
    Item(t.account, PlaceOp(t.key, t.req, t.quote, t.pid))
  }

  predicate Ascending(plan: seq<Item>) {
    forall i, j :: 0 <= i < j < |plan| ==> plan[i].account < plan[j].account
  }

  /** One account's share of a sweep. */
  predicate SweepItem(t: Txn, it: Item)
    requires t.SettleTxn?
  {
    && it.op.SettleOp? && it.op.tick == t.tick && AscendingIds(it.op.watch)
    && it.op.quotes == (if it.account in t.quotes then t.quotes[it.account] else map[])
  }

  /** The plan of a transaction: its one order, or one sweep per account, accounts ascending. */
  predicate PlanFor(t: Txn, plan: seq<Item>) {
    if t.PlaceTxn? then plan == [ItemOf(t)]
    else (forall i :: 0 <= i < |plan| ==> SweepItem(t, plan[i])) && Ascending(plan)
  }

  /** The scan returns the open positions with some exit level, for each account by ascending id. */
  predicate ScanOf(db: Db, scan: seq<Item>) {
    && (forall i :: 0 <= i < |scan| ==>
          && scan[i].op.SettleOp? && scan[i].account in db
          && IsWatchList(db[scan[i].account], scan[i].op.watch))
    && (forall a :: a in db && (exists s :: s in db[a].positions && HasLevel(db[a].positions[s])) ==>
          exists i :: 0 <= i < |scan| && scan[i].account == a)
  }

  function Holds(p: Proc): set<AccountId> {
    if p.Running? then
      p.shadow.Keys + if p.locked && p.next < |p.plan| then {p.plan[p.next].account} else {}
    else {}
  }

  predicate Enabled(txns: seq<Txn>, s: Sys, step: Step) {
    && step.proc < |txns| == |s.procs|
    && var p := s.procs[step.proc];
       match step
       case Probe(i, scan) =>
         p.Idle? && PlanFor(txns[i], scan) && (txns[i].SettleTxn? ==> ScanOf(s.db, scan))
       case Acquire(i) =>
         && p.Running? && !p.locked && p.next < |p.plan|
         && forall k :: 0 <= k < |s.procs| && k != i ==> p.plan[p.next].account !in Holds(s.procs[k])
       case Work(_) => p.Running? && p.locked && p.next < |p.plan|
       case CommitAll(_) => p.Running? && !p.locked && p.next == |p.plan|
  }

  /** Under the lock the order is not probed again: a key taken meanwhile violates the constraint. */
  ghost function UnderLock(op: Op, a: Account): Outcome {
    match op
    case PlaceOp(key, req, quote, pid) => PlaceLocked(a, key, req, quote, pid)
    case SettleOp(watch, tick, quotes) => SettleExits(a, watch, tick, quotes)
  }

  function End(s: Sys, i: nat, plan: seq<Item>, db: Db): Sys
    requires i < |s.procs|
  {
    Sys(db, s.procs[i := Finished], s.log + [Finish(i, plan)])
  }

  ghost function Next(txns: seq<Txn>, s: Sys, step: Step): Sys
    requires Enabled(txns, s, step)
  {
    var p := s.procs[step.proc];
    match step
    case Probe(i, scan) =>
      var t := txns[i];
      if t.PlaceTxn? && t.account in s.db && t.key in s.db[t.account].orders then
        End(s, i, scan, s.db)  // the original order is returned
      else
        s.(procs := s.procs[i := Running(scan, 0, false, map[])])
    case Acquire(i) => s.(procs := s.procs[i := p.(locked := true)])
    case Work(i) =>
      var Item(account, op) := p.plan[p.next];
      if account !in s.db then
        if op.PlaceOp? then End(s, i, p.plan, s.db)
        else s.(procs := s.procs[i := p.(next := p.next + 1, locked := false)])
      else
        var out := UnderLock(op, s.db[account]);
        if out.Raised? then End(s, i, p.plan, s.db)
        else s.(procs := s.procs[i := p.(next := p.next + 1, locked := false,
                                         shadow := p.shadow[account := out.account])])
    case CommitAll(i) => End(s, i, p.plan, s.db + p.shadow)
  }

  ghost function Exec(txns: seq<Txn>, s: Sys, steps: seq<Step>): Option<Sys>
    decreases |steps|
  {
    if |steps| == 0 then Some(s)
    else
      var init := Exec(txns, s, steps[..|steps| - 1]);
      if init.None? || !Enabled(txns, init.value, steps[|steps| - 1]) then None
      else Some(Next(txns, init.value, steps[|steps| - 1]))
  }

  function Start(db: Db, n: nat): Sys {
    Sys(db, seq(n, i => Idle), [])
  }

  // ---------------------------------------------------------------- what every step keeps

  /** What a running transaction has prepared is what its plan does to the committed rows. */
  ghost predicate Prepared(db: Db, p: Proc) {
    p.Running? ==>
      && p.next <= |p.plan| && Ascending(p.plan)
      && (forall a :: a in p.shadow ==> a in db)
      && (forall a :: a in p.shadow <==> a in db && exists j :: 0 <= j < p.next && p.plan[j].account == a)
      && (forall j :: 0 <= j < p.next ==> p.plan[j].account in db || p.plan[j].op.SettleOp?)
      && (forall j :: 0 <= j < p.next && p.plan[j].account in db ==>
            Alone(p.plan[j].op, db[p.plan[j].account]) == Done(p.shadow[p.plan[j].account]))
  }

  ghost predicate Sound(txns: seq<Txn>, db0: Db, s: Sys) {
    && |txns| == |s.procs|
    && s.db == Serial(db0, s.log)
    && (forall i :: 0 <= i < |s.procs| ==> Prepared(s.db, s.procs[i]))
    && (forall i, k :: 0 <= i < k < |s.procs| ==> Holds(s.procs[i]) !! Holds(s.procs[k]))
    && (forall i :: 0 <= i < |s.procs| && s.procs[i].Running? ==> PlanFor(txns[i], s.procs[i].plan))
    && Logged(txns, s.procs, s.log)
  }

  /** The log holds each finished transaction exactly once, with its own plan. */
  ghost predicate Logged(txns: seq<Txn>, procs: seq<Proc>, log: seq<Finish>)
    requires |txns| == |procs|
  {
    && (forall e :: e in log ==> e.proc < |procs| && procs[e.proc].Finished? && PlanFor(txns[e.proc], e.plan))
    && (forall i :: 0 <= i < |procs| && procs[i].Finished? ==> exists e :: e in log && e.proc == i)
    && (forall i, j :: 0 <= i < j < |log| ==> log[i].proc != log[j].proc)
  }

  lemma UptoStep(db: Db, p: Proc, n: nat)
    requires p.Running? && Prepared(db, p) && n < p.next
    ensures var a := p.plan[n].account;
            && a !in Upto(p, n)
            && Upto(p, n + 1) == if a in db then Upto(p, n)[a := p.shadow[a]] else Upto(p, n)
  {
    hide Alone;
    var a := p.plan[n].account;
    forall j | 0 <= j < n ensures p.plan[j].account < a {}
    assert a in db ==> a in p.shadow;
  }

  /** Running the first `n` items of a prepared plan alone gives the rows it prepared. */
  lemma {:induction false} PlanMatchesShadow(db: Db, p: Proc, n: nat)
    requires p.Running? && Prepared(db, p) && n <= p.next
    ensures RunPlan(db, p.plan[..n]) == Some(db + Upto(p, n))
    decreases n
  {
    hide Alone, Upto;
    if n == 0 {
      NothingPrepared(db, p);
    } else {
      PlanMatchesShadow(db, p, n - 1);
      UptoStep(db, p, n - 1);
      assert p.plan[..n][..n - 1] == p.plan[..n - 1];
      var Item(account, op) := p.plan[n - 1];
      var before := db + Upto(p, n - 1);
      if account in db {
        assert before[account] == db[account];
        assert before[account := p.shadow[account]] == db + Upto(p, n);
      }
    }
  }

  lemma NothingPrepared(db: Db, p: Proc)
    requires p.Running?
    ensures db + Upto(p, 0) == db
  {
  }

  /** The rows prepared by the first `n` items. */
  ghost function Upto(p: Proc, n: nat): Db
    requires p.Running? && n <= |p.plan|
  {
    map a | a in p.shadow && exists j :: 0 <= j < n && p.plan[j].account == a :: p.shadow[a]
  }

  lemma AloneOrTaken(op: Op, a: Account)
    ensures UnderLock(op, a).Done? ==> Alone(op, a) == UnderLock(op, a)
    ensures UnderLock(op, a).Raised? ==> Alone(op, a).Raised? || Alone(op, a) == Done(a)
  {
  }

  /** A plan whose next item raises, or finds its key taken, does nothing when run alone. */
  lemma RaisedPlanIsNoOp(db: Db, p: Proc)
    requires p.Running? && Prepared(db, p) && p.next < |p.plan|
    requires var Item(account, op) := p.plan[p.next];
             if account in db then UnderLock(op, db[account]).Raised? else op.PlaceOp?
    requires p.plan[p.next].op.PlaceOp? ==> p.plan == [p.plan[0]]
    ensures RunPlan(db, p.plan).GetOr(db) == db
  {
    PlanMatchesShadow(db, p, p.next);
    var Item(account, op) := p.plan[p.next];
    assert p.plan[..p.next + 1][..p.next] == p.plan[..p.next];
    if op.PlaceOp? {
      assert p.plan[..0] == [] && p.plan[..1] == p.plan;
      if account in db {
        AloneOrTaken(op, db[account]);
        assert db[account := db[account]] == db;
      }
      assert RunPlan(db, p.plan[..0]) == Some(db);
    } else {
      AloneOrTaken(op, db[account]);
      assert account !in Upto(p, p.next);
      assert RunPlan(db, p.plan[..p.next + 1]).None?;
      NoneStaysNone(db, p.plan, p.next + 1);
    }
  }

  lemma {:induction false} NoneStaysNone(db: Db, plan: seq<Item>, n: nat)
    requires n <= |plan| && RunPlan(db, plan[..n]).None?
    ensures RunPlan(db, plan).None?
    decreases |plan| - n
  {
    if n < |plan| {
      assert plan[..n + 1][..n] == plan[..n];
      NoneStaysNone(db, plan, n + 1);
    } else {
      assert plan[..n] == plan;
    }
  }

  lemma SerialAppend(db0: Db, log: seq<Finish>, e: Finish)
    ensures var db := Serial(db0, log);
            Serial(db0, log + [e]) == RunPlan(db, e.plan).GetOr(db)
  {
    assert (log + [e])[..|log + [e]| - 1] == log;
  }

  /** Ending transaction `i` after a plan whose serial effect is `db`. */
  lemma EndSound(txns: seq<Txn>, db0: Db, s: Sys, i: nat, plan: seq<Item>, db: Db)
    requires Sound(txns, db0, s) && i < |s.procs| && !s.procs[i].Finished? && PlanFor(txns[i], plan)
    requires RunPlan(s.db, plan).GetOr(s.db) == db && db.Keys == s.db.Keys
    requires forall a :: a in db && a !in Holds(s.procs[i]) ==> db[a] == s.db[a]
    ensures Sound(txns, db0, End(s, i, plan, db))
  {
    hide Prepared, Holds, PlanFor, Logged;
    var t := End(s, i, plan, db);
    SerialAppend(db0, s.log, Finish(i, plan));
    LogOne(txns, s.procs, s.log, i, plan);
    forall k | 0 <= k < |t.procs| ensures Prepared(t.db, t.procs[k]) && Holds(t.procs[k]) <= Holds(s.procs[k]) {
      if k != i {
        assert Holds(s.procs[k]) !! Holds(s.procs[i]);
        PreparedFrame(s.db, t.db, s.procs[k]);
      } else {
        FinishedHoldsNothing(t.db);
      }
    }
    forall j, k | 0 <= j < k < |t.procs| ensures Holds(t.procs[j]) !! Holds(t.procs[k]) {
      assert Holds(s.procs[j]) !! Holds(s.procs[k]);
    }
  }

  lemma FinishedHoldsNothing(db: Db)
    ensures Prepared(db, Finished) && Holds(Finished) == {}
  {
  }

  lemma PreparedFrame(db: Db, db': Db, p: Proc)
    requires Prepared(db, p) && db.Keys == db'.Keys
    requires forall a :: a in Holds(p) && a in db ==> db'[a] == db[a]
    ensures Prepared(db', p)
  {
    hide Alone;
  }

  lemma LogOne(txns: seq<Txn>, procs: seq<Proc>, log: seq<Finish>, i: nat, plan: seq<Item>)
    requires |txns| == |procs| && Logged(txns, procs, log)
    requires i < |procs| && !procs[i].Finished? && PlanFor(txns[i], plan)
    ensures Logged(txns, procs[i := Finished], log + [Finish(i, plan)])
  {
    hide PlanFor;
    var more := log + [Finish(i, plan)];
    assert more[|log|] == Finish(i, plan) && more[|log|] in more;
    var next := procs[i := Finished];
    forall k | 0 <= k < |next| && next[k].Finished? ensures exists e :: e in more && e.proc == k {
      if k != i {
        var e :| e in log && e.proc == k;
        assert e in more;
      }
    }
  }

  lemma StepSound(txns: seq<Txn>, db0: Db, s: Sys, step: Step)
    requires Sound(txns, db0, s) && Enabled(txns, s, step)
    ensures Sound(txns, db0, Next(txns, s, step))
  {
    hide Sound, UnderLock;
    match step
    case Probe(i, scan) => ProbeSound(txns, db0, s, i, scan);
    case Acquire(i) => AcquireSound(txns, db0, s, i);
    case Work(i) => WorkSound(txns, db0, s, i);
    case CommitAll(i) => CommitSound(txns, db0, s, i);
  }

  lemma AcquireSound(txns: seq<Txn>, db0: Db, s: Sys, i: nat)
    requires Sound(txns, db0, s) && Enabled(txns, s, Acquire(i))
    ensures Sound(txns, db0, Next(txns, s, Acquire(i)))
  {
    hide Logged, UnderLock;
    ContinueSound(txns, db0, s, i, s.procs[i].(locked := true));
  }

  lemma CommitSound(txns: seq<Txn>, db0: Db, s: Sys, i: nat)
    requires Sound(txns, db0, s) && Enabled(txns, s, CommitAll(i))
    ensures Sound(txns, db0, Next(txns, s, CommitAll(i)))
  {
    hide Logged, UnderLock;
    var p := s.procs[i];
    PlanMatchesShadow(s.db, p, p.next);
    assert p.plan[..p.next] == p.plan;
    assert Upto(p, p.next) == p.shadow;
    EndSound(txns, db0, s, i, p.plan, s.db + p.shadow);
  }

  /** Transaction `i` goes on, holding locks nobody else holds. */
  lemma ContinueSound(txns: seq<Txn>, db0: Db, s: Sys, i: nat, p: Proc)
    requires Sound(txns, db0, s) && i < |s.procs| && !s.procs[i].Finished?
    requires p.Running? && Prepared(s.db, p) && PlanFor(txns[i], p.plan)
    requires forall k :: 0 <= k < |s.procs| && k != i ==> Holds(p) !! Holds(s.procs[k])
    ensures Sound(txns, db0, s.(procs := s.procs[i := p]))
  {
    var t := s.(procs := s.procs[i := p]);
    forall j, k | 0 <= j < k < |t.procs| ensures Holds(t.procs[j]) !! Holds(t.procs[k]) {
      if j != i && k != i {
        assert Holds(s.procs[j]) !! Holds(s.procs[k]);
      }
    }
  }

  lemma ProbeSound(txns: seq<Txn>, db0: Db, s: Sys, i: nat, scan: seq<Item>)
    requires Sound(txns, db0, s) && Enabled(txns, s, Probe(i, scan))
    ensures Sound(txns, db0, Next(txns, s, Probe(i, scan)))
  {
    var t := txns[i];
    if t.PlaceTxn? && t.account in s.db && t.key in s.db[t.account].orders {
      assert scan[..0] == [];
      assert s.db[t.account := s.db[t.account]] == s.db;
      assert RunPlan(s.db, scan[..0]) == Some(s.db);
      EndSound(txns, db0, s, i, scan, s.db);
    } else {
      ContinueSound(txns, db0, s, i, Running(scan, 0, false, map[]));
    }
  }

  /** Working through one more item keeps a transaction prepared, and it holds no new lock. */
  lemma WorkPrepares(db: Db, p: Proc, q: Proc)
    requires p.Running? && p.locked && p.next < |p.plan| && Prepared(db, p)
    requires var Item(account, op) := p.plan[p.next];
             if account in db then
               var out := UnderLock(op, db[account]);
               && out.Done?
               && q == p.(next := p.next + 1, locked := false, shadow := p.shadow[account := out.account])
             else op.SettleOp? && q == p.(next := p.next + 1, locked := false)
    ensures Prepared(db, q) && Holds(q) <= Holds(p)
  {
    hide Alone, UnderLock;
    var Item(account, op) := p.plan[p.next];
    assert q.plan[p.next].account == account;
    assert forall j :: 0 <= j < p.next ==> p.plan[j].account < account;
    if account in db {
      AloneOrTaken(op, db[account]);
    }
  }

  lemma WorkSound(txns: seq<Txn>, db0: Db, s: Sys, i: nat)
    requires Sound(txns, db0, s) && Enabled(txns, s, Work(i))
    ensures Sound(txns, db0, Next(txns, s, Work(i)))
  {
    hide UnderLock, Prepared, Holds;
    var p := s.procs[i];
    var t := Next(txns, s, Work(i));
    if |t.log| == |s.log| {
      WorkPrepares(s.db, p, t.procs[i]);
      forall k | 0 <= k < |s.procs| && k != i ensures Holds(t.procs[i]) !! Holds(s.procs[k]) {
        assert Holds(s.procs[k]) !! Holds(p);
      }
      ContinueSound(txns, db0, s, i, t.procs[i]);
    } else {
      RaisedPlanIsNoOp(s.db, p);
      EndSound(txns, db0, s, i, p.plan, s.db);
    }
  }

  lemma {:induction false} ExecSound(txns: seq<Txn>, db0: Db, steps: seq<Step>)
    requires Exec(txns, Start(db0, |txns|), steps).Some?
    ensures Sound(txns, db0, Exec(txns, Start(db0, |txns|), steps).value)
    decreases |steps|
  {
    if |steps| > 0 {
      ExecSound(txns, db0, steps[..|steps| - 1]);
      StepSound(txns, db0, Exec(txns, Start(db0, |txns|), steps[..|steps| - 1]).value, steps[|steps| - 1]);
    }
  }

  // ---------------------------------------------------------------- the theorems

  /** Serializability: in every interleaving, the committed rows are those of running the finished
      transactions alone, one after the other, each exactly once, in the order they finished, a sweep
      on the positions it had scanned.  What changes when each sweep of the serial run scans for itself
      is in SerialSweeps; that the order is the one in which locks were taken is in LockOrder. */
  lemma EveryInterleavingIsSerial(txns: seq<Txn>, db0: Db, steps: seq<Step>)
    requires Exec(txns, Start(db0, |txns|), steps).Some?
    ensures var s := Exec(txns, Start(db0, |txns|), steps).value;
            && s.db == Serial(db0, s.log)
            && (forall e :: e in s.log ==> e.proc < |txns| && PlanFor(txns[e.proc], e.plan))
            && (forall i :: 0 <= i < |txns| ==>
                  (s.procs[i].Finished? <==> exists e :: e in s.log && e.proc == i))
            && (forall i, j :: 0 <= i < j < |s.log| ==> s.log[i].proc != s.log[j].proc)
            && (forall i, k :: 0 <= i < k < |s.procs| ==> Holds(s.procs[i]) !! Holds(s.procs[k]))
  {
    ExecSound(txns, db0, steps);
  }

  ghost predicate AllInv(db: Db) {
    forall a :: a in db ==> Inv(db[a])
  }

  predicate ValidTxns(txns: seq<Txn>) {
    forall t :: t in txns ==> t.PlaceTxn? ==> t.req.size.Positive()
  }

  predicate ValidPlan(plan: seq<Item>) {
    forall it :: it in plan ==> it.op.PlaceOp? ==> it.op.req.size.Positive()
  }

  /** Every account only moves forward along its ledger's own steps. */
  ghost predicate AllKeep(db: Db, db': Db) {
    db.Keys == db'.Keys && forall a :: a in db ==> Keeps(db[a], db'[a])
  }

  lemma {:induction false} RunPlanKeeps(db: Db, plan: seq<Item>)
    requires AllInv(db) && ValidPlan(plan)
    ensures RunPlan(db, plan).Some? ==> AllKeep(db, RunPlan(db, plan).value)
    decreases |plan|
  {
    hide Inv, Extends, Moves;
    forall a | a in db ensures Keeps(db[a], db[a]) {
      KeepsReflexive(db[a]);
    }
    if |plan| > 0 {
      RunPlanKeeps(db, plan[..|plan| - 1]);
      var init := RunPlan(db, plan[..|plan| - 1]);
      var Item(account, op) := plan[|plan| - 1];
      assert plan[|plan| - 1] in plan;
      if init.Some? && account in init.value && Alone(op, init.value[account]).Done? {
        AloneKeeps(op, init.value[account]);
        KeepsTransitive(db[account], init.value[account], Alone(op, init.value[account]).account);
      }
    }
  }

  lemma AloneKeeps(op: Op, a: Account)
    requires Inv(a) && (op.PlaceOp? ==> op.req.size.Positive())
    ensures Alone(op, a).Done? ==> Keeps(a, Alone(op, a).account)
  {
    hide Inv, Extends, Moves, PlaceOrder, SettleExits;
    match op
    case PlaceOp(key, req, quote, pid) => StepKeeps(a, Place(key, req, quote, pid));
    case SettleOp(watch, tick, quotes) => StepKeeps(a, Exits(watch, tick, quotes));
  }

  lemma {:induction false} SerialKeeps(db: Db, log: seq<Finish>)
    requires AllInv(db) && forall e :: e in log ==> ValidPlan(e.plan)
    ensures AllKeep(db, Serial(db, log))
    decreases |log|
  {
    hide Inv, Extends, Moves;
    forall a | a in db ensures Keeps(db[a], db[a]) {
      KeepsReflexive(db[a]);
    }
    if |log| > 0 {
      SerialKeeps(db, log[..|log| - 1]);
      var init := Serial(db, log[..|log| - 1]);
      assert log[|log| - 1] in log;
      RunPlanKeeps(init, log[|log| - 1].plan);
      var next := RunPlan(init, log[|log| - 1].plan);
      if next.Some? {
        forall a | a in db ensures Keeps(db[a], next.value[a]) {
          KeepsTransitive(db[a], init[a], next.value[a]);
        }
      }
    }
  }

  /** The ledger laws hold of the committed rows of every interleaving; in particular each client
      order id has at most one order and at most one fill, and an order once committed stays. */
  lemma InterleavedLedgerLaws(txns: seq<Txn>, db0: Db, steps: seq<Step>)
    requires AllInv(db0) && ValidTxns(txns)
    requires Exec(txns, Start(db0, |txns|), steps).Some?
    ensures AllKeep(db0, Exec(txns, Start(db0, |txns|), steps).value.db)
  {
    hide Inv, Extends, Moves;
    ExecSound(txns, db0, steps);
    var s := Exec(txns, Start(db0, |txns|), steps).value;
    forall e | e in s.log ensures ValidPlan(e.plan) {
      assert txns[e.proc] in txns;
    }
    SerialKeeps(db0, s.log);
  }

  // ---------------------------------------------------------------- a stale scan

  lemma SettleOneRemovesOnly(a: Account, w: Watch, tick: string, quotes: map<string, Quote>)
    ensures var out := SettleOne(a, w, tick, quotes);
            out.Done? ==> forall s :: s in out.account.positions ==>
              s in a.positions && out.account.positions[s].id == a.positions[s].id
  {
    hide Decision, ComputeFill;
  }

  /** A watched row that is gone under the lock makes the whole sweep raise, whatever the sweep did
      before it: a position closed between scan and lock loses the exits of that sweep. */
  lemma {:induction false} GoneRowRaises(a: Account, watch: seq<Watch>, tick: string, quotes: map<string, Quote>,
                                         i: nat)
    requires i < |watch|
    requires watch[i].symbol !in a.positions || a.positions[watch[i].symbol].id != watch[i].id
    ensures SettleExits(a, watch, tick, quotes).Raised?
    decreases |watch|
  {
    var init := watch[..|watch| - 1];
    if i < |init| {
      GoneRowRaises(a, init, tick, quotes, i);
    } else {
      RowsNeverReturn(a, init, tick, quotes);
    }
  }

  lemma {:induction false} RowsNeverReturn(a: Account, watch: seq<Watch>, tick: string, quotes: map<string, Quote>)
    ensures var out := SettleExits(a, watch, tick, quotes);
            out.Done? ==> forall s :: s in out.account.positions ==>
              s in a.positions && out.account.positions[s].id == a.positions[s].id
    decreases |watch|
  {
    hide SettleOne;
    if |watch| > 0 {
      RowsNeverReturn(a, watch[..|watch| - 1], tick, quotes);
      var init := SettleExits(a, watch[..|watch| - 1], tick, quotes);
      if init.Done? {
        SettleOneRemovesOnly(init.account, watch[|watch| - 1], tick, quotes);
      }
    }
  }
}
