/** The order in which transactions lock an account is the order in which they finish. */
module LockOrder {
  import opened Prelude
  import opened Interleaving

  ghost predicate InLog(log: seq<Finish>, i: nat) {
    exists k :: 0 <= k < |log| && log[k].proc == i
  }

  /** The one stands before the other in the log, when both are there. */
  ghost predicate FirstOf(log: seq<Finish>, i: nat, j: nat) {
    forall x, y :: 0 <= x < |log| && 0 <= y < |log| && log[x].proc == i && log[y].proc == j ==> x < y
  }

  /** The transaction holds the account's lock, or has finished. */
  ghost predicate HeldOrDone(s: Sys, i: nat, a: AccountId) {
    i < |s.procs| && (InLog(s.log, i) || a in Holds(s.procs[i]))
  }

  /** The account the step is about to lock. */
  predicate Locks(s: Sys, step: Step, a: AccountId) {
    && step.Acquire? && step.proc < |s.procs|
    && var p := s.procs[step.proc];
    p.Running? && p.next < |p.plan| && p.plan[p.next].account == a
  }

  lemma AcquireHolds(txns: seq<Txn>, s: Sys, step: Step, a: AccountId)
    requires Enabled(txns, s, step) && Locks(s, step, a)
    ensures HeldOrDone(Next(txns, s, step), step.proc, a)
  {
  }

  lemma LogGrows(log: seq<Finish>, e: Finish, i: nat)
    ensures InLog(log, i) ==> InLog(log + [e], i)
    ensures InLog(log + [e], e.proc)
  {
    var more := log + [e];
    assert more[|log|] == e;
    if InLog(log, i) {
      var k :| 0 <= k < |log| && log[k].proc == i;
      assert more[k].proc == i;
    }
  }

  /** A step keeps the accounts, only adds to the log, and releases a lock only by finishing. */
  lemma StepHolds(txns: seq<Txn>, db0: Db, s: Sys, step: Step, i: nat, a: AccountId)
    requires Sound(txns, db0, s) && Enabled(txns, s, step) && a in s.db
    ensures var t := Next(txns, s, step);
            && a in t.db && s.log <= t.log
            && (HeldOrDone(s, i, a) ==> HeldOrDone(t, i, a))
  {
    hide UnderLock, PlanFor, ScanOf, Prepared, Logged;
    var t := Next(txns, s, step);
    if |t.log| > |s.log| {
      LogGrows(s.log, t.log[|s.log|], i);
    }
  }

  /** From one point of a run to a later one. */
  lemma {:induction false} RunHolds(txns: seq<Txn>, db0: Db, steps: seq<Step>, m: nat, n: nat, i: nat, a: AccountId)
    requires m <= n <= |steps| && Exec(txns, Start(db0, |txns|), steps[..n]).Some?
    ensures var u, s := Exec(txns, Start(db0, |txns|), steps[..m]), Exec(txns, Start(db0, |txns|), steps[..n]).value;
            && u.Some? && u.value.log <= s.log
            && (a in u.value.db ==> a in s.db && (HeldOrDone(u.value, i, a) ==> HeldOrDone(s, i, a)))
    decreases n - m
  {
    hide Sound, HeldOrDone, Enabled, Next;
    if m < n {
      assert steps[..n][..n - 1] == steps[..n - 1];
      RunHolds(txns, db0, steps, m, n - 1, i, a);
      ExecSound(txns, db0, steps[..n - 1]);
      var s := Exec(txns, Start(db0, |txns|), steps[..n - 1]).value;
      if a in s.db {
        StepHolds(txns, db0, s, steps[n - 1], i, a);
      }
      LogExtends(txns, s, steps[n - 1]);
    }
  }

  lemma LogExtends(txns: seq<Txn>, s: Sys, step: Step)
    requires Enabled(txns, s, step)
    ensures s.log <= Next(txns, s, step).log
  {
    hide UnderLock, PlanFor, ScanOf, Holds;
  }

  lemma RunPrefix(txns: seq<Txn>, db0: Db, steps: seq<Step>, n: nat)
    requires n <= |steps| && Exec(txns, Start(db0, |txns|), steps).Some?
    ensures Exec(txns, Start(db0, |txns|), steps[..n]).Some?
    ensures n < |steps| ==> Enabled(txns, Exec(txns, Start(db0, |txns|), steps[..n]).value, steps[n])
    ensures n < |steps| ==>
              Exec(txns, Start(db0, |txns|), steps[..n + 1]) ==
              Some(Next(txns, Exec(txns, Start(db0, |txns|), steps[..n]).value, steps[n]))
  {
    assert steps[..|steps|] == steps;
    RunHolds(txns, db0, steps, n, |steps|, 0, 0);
    if n < |steps| {
      RunHolds(txns, db0, steps, n + 1, |steps|, 0, 0);
      assert steps[..n + 1][..n] == steps[..n];
    }
  }

  /** When one transaction holds an account or has finished, and another is about to lock it, the
      first has finished and the second has not. */
  lemma NextToLock(txns: seq<Txn>, db0: Db, s: Sys, step: Step, i: nat, a: AccountId)
    requires Sound(txns, db0, s) && Enabled(txns, s, step) && Locks(s, step, a)
    requires HeldOrDone(s, i, a)
    ensures i != step.proc && InLog(s.log, i) && !InLog(s.log, step.proc)
  {
    NotPrepared(s.db, s.procs[step.proc]);
    forall k | 0 <= k < |s.log| ensures s.log[k].proc != step.proc {
      assert s.log[k] in s.log;
    }
    hide PlanFor, Prepared;
  }

  lemma NotPrepared(db: Db, p: Proc)
    requires p.Running? && Prepared(db, p) && !p.locked && p.next < |p.plan|
    ensures p.plan[p.next].account !in Holds(p)
  {
    hide Alone;
    forall j | 0 <= j < p.next ensures p.plan[j].account < p.plan[p.next].account {}
  }

  lemma LogOrdered(log: seq<Finish>, more: seq<Finish>, i: nat, j: nat)
    requires log <= more && InLog(log, i) && !InLog(log, j)
    requires forall x, y :: 0 <= x < y < |more| ==> more[x].proc != more[y].proc
    ensures InLog(more, i)
    ensures FirstOf(more, i, j)
  {
    var k :| 0 <= k < |log| && log[k].proc == i;
    assert more[k].proc == i;
    forall y | 0 <= y < |log| ensures more[y].proc != j {
      assert log[y] == more[y];
    }
    forall x, y | 0 <= x < |more| && 0 <= y < |more| && more[x].proc == i && more[y].proc == j ensures x < y {
      assert x == k;
    }
  }

  /** Lock order is finish order: of two steps that lock the same account, the first belongs to another
      transaction, which has finished by the second and stands before the later one in the log. */
  lemma LockOrderIsFinishOrder(txns: seq<Txn>, db0: Db, steps: seq<Step>, m: nat, n: nat, a: AccountId)
    requires Exec(txns, Start(db0, |txns|), steps).Some? && m < n < |steps| && a in db0
    requires Exec(txns, Start(db0, |txns|), steps[..m]).Some? && Exec(txns, Start(db0, |txns|), steps[..n]).Some?
    requires Locks(Exec(txns, Start(db0, |txns|), steps[..m]).value, steps[m], a)
    requires Locks(Exec(txns, Start(db0, |txns|), steps[..n]).value, steps[n], a)
    ensures var log := Exec(txns, Start(db0, |txns|), steps).value.log;
            && steps[m].proc != steps[n].proc
            && InLog(log, steps[m].proc)
            && FirstOf(log, steps[m].proc, steps[n].proc)
  {
    hide Enabled, Next, Locks, HeldOrDone, Sound;
    var s0 := Start(db0, |txns|);
    RunPrefix(txns, db0, steps, m);
    RunPrefix(txns, db0, steps, n);
    assert steps[..0] == [] && steps[..|steps|] == steps;
    RunHolds(txns, db0, steps, 0, m + 1, 0, a);
    AcquireHolds(txns, Exec(txns, s0, steps[..m]).value, steps[m], a);
    RunHolds(txns, db0, steps, m + 1, n, steps[m].proc, a);
    RunHolds(txns, db0, steps, n, |steps|, 0, a);
    ExecSound(txns, db0, steps[..n]);
    NextToLock(txns, db0, Exec(txns, s0, steps[..n]).value, steps[n], steps[m].proc, a);
    EveryInterleavingIsSerial(txns, db0, steps);
    LogOrdered(Exec(txns, s0, steps[..n]).value.log, Exec(txns, s0, steps).value.log, steps[m].proc, steps[n].proc);
  }
}
