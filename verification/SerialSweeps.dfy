/**
 Serial runs in which every sweep reads its positions for itself, and when an interleaving, whose
 sweeps read them before taking the locks, commits the same tables.
 */
module SerialSweeps {
  import opened Matching
  import opened Ledger
  import opened Sweeps
  import opened Interleaving

  /** The tables of every account, without the histories kept beside them. */
  function DbTables(db: Db): Db {
    map a | a in db :: Tables(db[a])
  }

  lemma DbTablesAt(x: Db, y: Db)
    ensures DbTables(x) == DbTables(y) <==> x.Keys == y.Keys && forall a :: a in x ==> Tables(x[a]) == Tables(y[a])
  {
    forall a ensures a in x <==> a in DbTables(x) {}
    forall a ensures a in y <==> a in DbTables(y) {}
    if DbTables(x) == DbTables(y) {
      forall a ensures a in x <==> a in y {
        assert a in DbTables(x) <==> a in DbTables(y);
      }
      assert x.Keys == y.Keys;
      forall a | a in x ensures Tables(x[a]) == Tables(y[a]) {
        assert DbTables(x)[a] == DbTables(y)[a];
      }
    }
    if x.Keys == y.Keys && forall a :: a in x ==> Tables(x[a]) == Tables(y[a]) {
      assert DbTables(x) == DbTables(y);
    }
  }

  lemma AloneTables(op: Op, a: Account, b: Account)
    requires Tables(a) == Tables(b)
    ensures SameOutcome(Alone(op, a), Alone(op, b))
  {
    hide Tables, PlaceOrder;
    match op
    case PlaceOp(key, req, quote, pid) => PlaceTables(a, b, key, req, quote, pid);
    case SettleOp(watch, tick, quotes) => SettleExitsTables(a, b, watch, tick, quotes);
  }

  /** A plan does the same to the same tables. */
  lemma {:induction false} RunPlanTables(x: Db, y: Db, plan: seq<Item>)
    requires DbTables(x) == DbTables(y)
    ensures RunPlan(x, plan).None? <==> RunPlan(y, plan).None?
    ensures RunPlan(x, plan).Some? ==> DbTables(RunPlan(x, plan).value) == DbTables(RunPlan(y, plan).value)
    decreases |plan|
  {
    hide Alone, Tables;
    if |plan| > 0 {
      var n := |plan| - 1;
      RunPlanTables(x, y, plan[..n]);
      var p, q := RunPlan(x, plan[..n]), RunPlan(y, plan[..n]);
      if p.Some? {
        DbTablesAt(p.value, q.value);
        var Item(account, op) := plan[n];
        if account in p.value {
          AloneTables(op, p.value[account], q.value[account]);
          if Alone(op, p.value[account]).Done? {
            DbTablesAt(p.value[account := Alone(op, p.value[account]).account],
                       q.value[account := Alone(op, q.value[account]).account]);
          }
        }
      }
    }
  }

  // ---------------------------------------------------------------- what a sweep does to a database

  /** The rows a plan watches on an account. */
  function WatchFor(plan: seq<Item>, account: AccountId): seq<Watch> {
    if |plan| == 0 then []
    else
      var it := plan[|plan| - 1];
      if it.account == account && it.op.SettleOp? then it.op.watch else WatchFor(plan[..|plan| - 1], account)
  }

  function QuotesFor(t: Txn, account: AccountId): map<string, Quote>
    requires t.SettleTxn?
  {
    if account in t.quotes then t.quotes[account] else map[]
  }

  predicate PlanFails(t: Txn, db: Db, plan: seq<Item>)
    requires t.SettleTxn?
  {
    exists a :: a in db && FailsOn(t, db, plan, a)
  }

  predicate FailsOn(t: Txn, db: Db, plan: seq<Item>, a: AccountId)
    requires t.SettleTxn? && a in db
  {
    SomeFails(db[a], WatchFor(plan, a), t.tick, QuotesFor(t, a))
  }

  lemma {:induction false} WatchForAscends(t: Txn, plan: seq<Item>, a: AccountId)
    requires t.SettleTxn? && PlanFor(t, plan)
    ensures AscendingIds(WatchFor(plan, a))
    ensures (forall i :: 0 <= i < |plan| ==> plan[i].account != a) ==> WatchFor(plan, a) == []
    decreases |plan|
  {
    if |plan| > 0 {
      WatchForAscends(t, plan[..|plan| - 1], a);
    }
  }

  ghost function SweptAccount(t: Txn, db: Db, plan: seq<Item>, a: AccountId): Outcome
    requires t.SettleTxn? && a in db
  {
    SettleExits(db[a], WatchFor(plan, a), t.tick, QuotesFor(t, a))
  }

  /** A sweep's plan runs each account's sweep on that account, and raises when one of them does. */
  lemma {:induction false} SettlePlanRuns(t: Txn, db: Db, plan: seq<Item>)
    requires t.SettleTxn? && PlanFor(t, plan)
    ensures RunPlan(db, plan).None? <==> exists a :: a in db && SweptAccount(t, db, plan, a).Raised?
    ensures RunPlan(db, plan).Some? ==> RunPlan(db, plan).value.Keys == db.Keys
    ensures RunPlan(db, plan).Some? ==>
              forall a :: a in db ==> SweptAccount(t, db, plan, a) == Done(RunPlan(db, plan).value[a])
    decreases |plan|
  {
    hide SettleOne;
    if |plan| > 0 {
      var n := |plan| - 1;
      var init, it := plan[..n], plan[n];
      SettlePlanRuns(t, db, init);
      forall a ensures a != it.account ==> WatchFor(plan, a) == WatchFor(init, a) {
      }
      forall i | 0 <= i < n ensures init[i].account != it.account {
        assert plan[i].account < plan[n].account;
      }
      WatchForAscends(t, init, it.account);
      if it.account in db {
        assert SweptAccount(t, db, init, it.account) == Done(db[it.account]);
        assert SweptAccount(t, db, plan, it.account) ==
               SettleExits(db[it.account], it.op.watch, t.tick, QuotesFor(t, it.account));
      }
      forall a | a in db && a != it.account
        ensures SweptAccount(t, db, plan, a) == SweptAccount(t, db, init, a)
      {
      }
    }
  }

  lemma SettlePlanFailsIff(t: Txn, db: Db, plan: seq<Item>)
    requires t.SettleTxn? && PlanFor(t, plan)
    ensures RunPlan(db, plan).None? <==> PlanFails(t, db, plan)
  {
    hide SomeFails, PlanFor;
    SettlePlanRuns(t, db, plan);
    forall a | a in db ensures SweptAccount(t, db, plan, a).Raised? <==> FailsOn(t, db, plan, a) {
      WatchForAscends(t, plan, a);
      SweepRaisesIff(db[a], WatchFor(plan, a), t.tick, QuotesFor(t, a));
    }
  }

  /** What a sweep's plan does to the committed rows of an account: the rows it changes, and none when
      it raises anywhere. */
  function PlanEffect(t: Txn, db: Db, plan: seq<Item>, a: AccountId): seq<Watch>
    requires t.SettleTxn? && a in db
  {
    if PlanFails(t, db, plan) then [] else Active(db[a], WatchFor(plan, a), t.tick, QuotesFor(t, a))
  }

  /** The database after the plan was run alone, rolled back when it raises. */
  ghost function Ran(db: Db, plan: seq<Item>): Db {
    RunPlan(db, plan).GetOr(db)
  }

  function Effective(t: Txn, db: Db, plan: seq<Item>, a: AccountId): seq<Watch>
    requires t.SettleTxn?
  {
    if PlanFails(t, db, plan) then [] else WatchFor(plan, a)
  }

  lemma RanAccount(t: Txn, db: Db, plan: seq<Item>, a: AccountId)
    requires t.SettleTxn? && PlanFor(t, plan) && a in db
    ensures Ran(db, plan).Keys == db.Keys
    ensures Ran(db, plan)[a] == Committed(db[a], Effective(t, db, plan, a), t.tick, QuotesFor(t, a))
    ensures Effect(db[a], Effective(t, db, plan, a), t.tick, QuotesFor(t, a)) == PlanEffect(t, db, plan, a)
    ensures AscendingIds(Effective(t, db, plan, a))
  {
    hide Fails, Acts, PlanFor, SettleOne;
    SettlePlanRuns(t, db, plan);
    SettlePlanFailsIff(t, db, plan);
    WatchForAscends(t, plan, a);
    if !PlanFails(t, db, plan) {
      assert !FailsOn(t, db, plan, a);
      assert SweptAccount(t, db, plan, a) == Done(RunPlan(db, plan).value[a]);
    }
  }

  /** The exact condition for a sweep with stale lists to commit the tables a sweep with current lists
      commits on the same database: on every account both change the same rows. */
  lemma StalePlanIff(t: Txn, db: Db, stale: seq<Item>, current: seq<Item>)
    requires t.SettleTxn? && PlanFor(t, stale) && PlanFor(t, current)
    ensures DbTables(Ran(db, stale)) == DbTables(Ran(db, current)) <==>
              forall a :: a in db ==> PlanEffect(t, db, stale, a) == PlanEffect(t, db, current, a)
  {
    hide PlanEffect, Effect, Committed, Tables, PlanFor, Ran;
    forall a | a in db
      ensures Ran(db, stale).Keys == db.Keys == Ran(db, current).Keys
      ensures Tables(Ran(db, stale)[a]) == Tables(Ran(db, current)[a]) <==>
                PlanEffect(t, db, stale, a) == PlanEffect(t, db, current, a)
    {
      RanAccount(t, db, stale, a);
      RanAccount(t, db, current, a);
      SameTablesIff(db[a], Effective(t, db, stale, a), Effective(t, db, current, a), t.tick, QuotesFor(t, a));
    }
    RanKeys(t, db, stale);
    RanKeys(t, db, current);
    DbTablesAt(Ran(db, stale), Ran(db, current));
  }

  lemma RanKeys(t: Txn, db: Db, plan: seq<Item>)
    requires t.SettleTxn? && PlanFor(t, plan)
    ensures Ran(db, plan).Keys == db.Keys
  {
    SettlePlanRuns(t, db, plan);
  }

  // ---------------------------------------------------------------- serial runs with their own scans

  /** Run the logged transactions one after the other, each with the plan given for it. */
  ghost function SerialWith(db: Db, plans: seq<seq<Item>>): Db
    decreases |plans|
  {
    if |plans| == 0 then db else Ran(SerialWith(db, plans[..|plans| - 1]), plans[|plans| - 1])
  }

  /** The plans of a serial run: each order its own, each sweep what it scans when its turn comes. */
  ghost predicate OwnScans(txns: seq<Txn>, db0: Db, log: seq<Finish>, plans: seq<seq<Item>>) {
    && |plans| == |log|
    && forall k :: 0 <= k < |log| ==> OwnScan(txns, log[k], SerialWith(db0, plans[..k]), plans[k])
  }

  ghost predicate OwnScan(txns: seq<Txn>, e: Finish, db: Db, plan: seq<Item>) {
    e.proc < |txns| && PlanFor(txns[e.proc], plan) && (txns[e.proc].SettleTxn? ==> ScanOf(db, plan))
  }

  /** At its turn the logged plan changes what the plan with the transaction's own scan changes. */
  ghost predicate ActsAsOwn(txns: seq<Txn>, db0: Db, log: seq<Finish>, plans: seq<seq<Item>>, k: nat)
    requires k < |log| == |plans|
  {
    log[k].proc < |txns| && txns[log[k].proc].SettleTxn? ==>
      var t, db := txns[log[k].proc], Serial(db0, log[..k]);
      forall a :: a in db ==> PlanEffect(t, db, log[k].plan, a) == PlanEffect(t, db, plans[k], a)
  }

  lemma SerialNext(db0: Db, log: seq<Finish>, k: nat)
    requires k < |log|
    ensures Serial(db0, log[..k + 1]) == Ran(Serial(db0, log[..k]), log[k].plan)
  {
    assert log[..k + 1][..k] == log[..k];
  }

  lemma SerialWithNext(db0: Db, plans: seq<seq<Item>>, k: nat)
    requires k < |plans|
    ensures SerialWith(db0, plans[..k + 1]) == Ran(SerialWith(db0, plans[..k]), plans[k])
  {
    assert plans[..k + 1][..k] == plans[..k];
  }

  /** The tables of the interleaving's serial run and of the one with own scans agree after `k`. */
  ghost predicate AgreeAfter(db0: Db, log: seq<Finish>, plans: seq<seq<Item>>, k: nat)
    requires k <= |log| == |plans|
  {
    DbTables(Serial(db0, log[..k])) == DbTables(SerialWith(db0, plans[..k]))
  }

  /** One more transaction keeps the two runs together exactly when it acts as it would on its own
      scan. */
  lemma StepAgreesIff(txns: seq<Txn>, db0: Db, log: seq<Finish>, plans: seq<seq<Item>>, k: nat)
    requires OwnScans(txns, db0, log, plans) && k < |log|
    requires PlanFor(txns[log[k].proc], log[k].plan) && AgreeAfter(db0, log, plans, k)
    ensures AgreeAfter(db0, log, plans, k + 1) <==> ActsAsOwn(txns, db0, log, plans, k)
  {
    hide ScanOf, PlanEffect, DbTables;
    var t := txns[log[k].proc];
    var x, y := Serial(db0, log[..k]), SerialWith(db0, plans[..k]);
    assert OwnScan(txns, log[k], y, plans[k]);
    SerialNext(db0, log, k);
    SerialWithNext(db0, plans, k);
    RanTables(x, y, plans[k]);
    if t.SettleTxn? {
      hide PlanFor;
      StalePlanIff(t, x, log[k].plan, plans[k]);
    } else {
      assert plans[k] == log[k].plan;
    }
  }

  lemma RanTables(x: Db, y: Db, plan: seq<Item>)
    requires DbTables(x) == DbTables(y)
    ensures DbTables(Ran(x, plan)) == DbTables(Ran(y, plan))
  {
    RunPlanTables(x, y, plan);
  }

  lemma {:induction false} AgreeWhileOwn(txns: seq<Txn>, db0: Db, log: seq<Finish>, plans: seq<seq<Item>>, k: nat)
    requires OwnScans(txns, db0, log, plans) && k <= |log|
    requires forall j :: 0 <= j < |log| ==> log[j].proc < |txns| && PlanFor(txns[log[j].proc], log[j].plan)
    requires forall j :: 0 <= j < k ==> ActsAsOwn(txns, db0, log, plans, j)
    ensures AgreeAfter(db0, log, plans, k)
  {
    hide ActsAsOwn, PlanFor, OwnScans;
    if k > 0 {
      AgreeWhileOwn(txns, db0, log, plans, k - 1);
      StepAgreesIff(txns, db0, log, plans, k - 1);
    } else {
      assert log[..0] == [] && plans[..0] == [];
    }
  }

  /** Serializability with sweeps that scan for themselves: the committed tables follow a serial run of
      the finished transactions, each reading its positions when its turn comes, transaction by
      transaction, exactly when every sweep changed the rows it would have changed on its own scan. */
  lemma SerialWithOwnScansIff(txns: seq<Txn>, db0: Db, steps: seq<Step>, plans: seq<seq<Item>>)
    requires Exec(txns, Start(db0, |txns|), steps).Some?
    requires OwnScans(txns, db0, Exec(txns, Start(db0, |txns|), steps).value.log, plans)
    ensures var s := Exec(txns, Start(db0, |txns|), steps).value;
            && s.db == Serial(db0, s.log)
            && ((forall k: nat :: k <= |s.log| ==> AgreeAfter(db0, s.log, plans, k)) <==>
                (forall k: nat :: k < |s.log| ==> ActsAsOwn(txns, db0, s.log, plans, k)))
            && ((forall k: nat :: k < |s.log| ==> ActsAsOwn(txns, db0, s.log, plans, k)) ==>
                  DbTables(s.db) == DbTables(SerialWith(db0, plans)))
  {
    EveryInterleavingIsSerial(txns, db0, steps);
    var s := Exec(txns, Start(db0, |txns|), steps).value;
    forall j | 0 <= j < |s.log| ensures s.log[j].proc < |txns| && PlanFor(txns[s.log[j].proc], s.log[j].plan) {
      assert s.log[j] in s.log;
    }
    hide ActsAsOwn, PlanFor, OwnScans, AgreeAfter, Holds;
    if forall k: nat :: k < |s.log| ==> ActsAsOwn(txns, db0, s.log, plans, k) {
      forall k: nat | k <= |s.log| ensures AgreeAfter(db0, s.log, plans, k) {
        AgreeWhileOwn(txns, db0, s.log, plans, k);
      }
      WholeLog(db0, s.log, plans);
    }
    if forall k: nat :: k <= |s.log| ==> AgreeAfter(db0, s.log, plans, k) {
      forall k: nat | k < |s.log| ensures ActsAsOwn(txns, db0, s.log, plans, k) {
        StepAgreesIff(txns, db0, s.log, plans, k);
      }
    }
  }

  lemma WholeLog(db0: Db, log: seq<Finish>, plans: seq<seq<Item>>)
    requires |log| == |plans| && AgreeAfter(db0, log, plans, |log|)
    ensures DbTables(Serial(db0, log)) == DbTables(SerialWith(db0, plans))
  {
    assert log[..|log|] == log && plans[..|plans|] == plans;
  }
}
