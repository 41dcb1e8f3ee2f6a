/** The lock discipline: the lock table is exactly what the units hold, and waiting follows a strict order. */
module LockDiscipline {
  import opened Values
  import opened Wagering
  import opened Settlements
  import opened Protocol

  predicate HeldBy(units: map<Pid, Unit>, p: Pid, r: Resource) {
    p in units && Holds(units[p], r)
  }

  /** Every lock is held by the unit it is recorded for. */
  predicate LocksOwned(units: map<Pid, Unit>, locks: map<Resource, Pid>) {
    forall r :: r in locks ==> HeldBy(units, locks[r], r)
  }

  predicate LockedBy(locks: map<Resource, Pid>, p: Pid, r: Resource) {
    r in locks && locks[r] == p
  }

  /** Everything a unit holds is recorded for it, and so for no other unit. */
  ghost predicate HoldingsLocked(units: map<Pid, Unit>, locks: map<Resource, Pid>) {
    forall p, r :: HeldBy(units, p, r) ==> LockedBy(locks, p, r)
  }

  ghost predicate LockInv(s: State) {
    LocksOwned(s.units, s.locks) && HoldingsLocked(s.units, s.locks)
  }

  /** Two units never hold the same resource. */
  lemma HoldingsAreExclusive(s: State, p: Pid, q: Pid, r: Resource)
    requires LockInv(s) && HeldBy(s.units, p, r) && HeldBy(s.units, q, r)
    ensures p == q
  {
    assert LockedBy(s.locks, p, r) && LockedBy(s.locks, q, r);
  }

  /** The new lock table is the old one and what the unit now holds. */
  ghost predicate Acquires(s: State, after: State, p: Pid, u: Unit) {
    && after.units == s.units[p := u]
    && (forall r :: r in s.locks ==> r in after.locks && after.locks[r] == s.locks[r])
    && (forall r :: r in after.locks && r !in s.locks ==> Holds(u, r) && after.locks[r] == p)
    && (forall r :: Holds(u, r) ==> LockedBy(after.locks, p, r))
    && (p in s.units ==> forall r :: Holds(s.units[p], r) ==> Holds(u, r))
  }

  lemma AcquiringKeepsLocks(s: State, after: State, p: Pid, u: Unit)
    requires LockInv(s) && Acquires(s, after, p, u)
    ensures LockInv(after)
  {
    forall r | r in after.locks
      ensures HeldBy(after.units, after.locks[r], r)
    {
      if r in s.locks {
        assert HeldBy(s.units, s.locks[r], r);
      }
    }
    forall q, r | HeldBy(after.units, q, r)
      ensures LockedBy(after.locks, q, r)
    {
      if q != p {
        assert HeldBy(s.units, q, r);
        assert LockedBy(s.locks, q, r);
      }
    }
  }

  /** A unit that leaves its transaction frees everything it held. */
  lemma LeavingKeepsLocks(s: State, after: State, p: Pid, u: Unit)
    requires LockInv(s) && p in s.units
    requires after.units == s.units[p := u] && after.locks == Release(s.locks, p)
    requires forall r :: !Holds(u, r)
    ensures LockInv(after)
  {
    forall r | r in after.locks
      ensures HeldBy(after.units, after.locks[r], r)
    {
      assert HeldBy(s.units, s.locks[r], r);
    }
    forall q, r | HeldBy(after.units, q, r)
      ensures LockedBy(after.locks, q, r)
    {
      assert q != p && HeldBy(s.units, q, r);
      assert LockedBy(s.locks, q, r);
    }
  }

  /** A unit that takes no lock and drops none. */
  lemma StandingStillAcquires(s: State, after: State, p: Pid, u: Unit)
    requires LockInv(s)
    requires after.units == s.units[p := u] && after.locks == s.locks
    requires if p in s.units then forall r :: Holds(s.units[p], r) <==> Holds(u, r) else forall r :: !Holds(u, r)
    ensures Acquires(s, after, p, u)
  {
    forall r | Holds(u, r)
      ensures LockedBy(after.locks, p, r)
    {
      assert HeldBy(s.units, p, r);
    }
  }

  /** A unit that takes one free lock. */
  lemma TakingOneAcquires(s: State, after: State, p: Pid, u: Unit, taken: Resource)
    requires LockInv(s) && p in s.units && taken !in s.locks
    requires after.units == s.units[p := u] && after.locks == s.locks[taken := p]
    requires forall r :: Holds(u, r) <==> Holds(s.units[p], r) || r == taken
    ensures Acquires(s, after, p, u)
  {
    forall r | Holds(u, r)
      ensures LockedBy(after.locks, p, r)
    {
      if r != taken {
        assert HeldBy(s.units, p, r);
        assert LockedBy(s.locks, p, r);
      }
    }
  }

  lemma NothingHeld(u: Unit)
    requires u.Idle? || u.Registering? || u.Claiming? || u.Answering? || u.GivingUp? || u.Ended?
    ensures forall r :: !Holds(u, r)
  {
  }

  lemma InsertKeepsLocks(s: State, p: Pid, id: Id)
    requires LockInv(s) && Enabled(s, Insert(p, id))
    ensures LockInv(InsertStep(s, p, s.units[p], id))
  {
    var u := s.units[p];
    var after := InsertStep(s, p, u, id);
    var next := after.units[p];
    if next.Locking? {
      InsertAcquires(s, p, u, id, after);
      AcquiringKeepsLocks(s, after, p, next);
    } else if next.Replaying? {
      StandingStillAcquires(s, after, p, next);
      AcquiringKeepsLocks(s, after, p, next);
    } else {
      NothingHeld(next);
      LeavingKeepsLocks(s, after, p, next);
    }
  }

  lemma InsertAcquires(s: State, p: Pid, u: Unit, id: Id, after: State)
    requires LockInv(s) && Enabled(s, Insert(p, id)) && u == s.units[p]
    requires after == InsertStep(s, p, u, id) && after.units[p].Locking?
    ensures Acquires(s, after, p, after.units[p])
  {
    var next := after.units[p];
    forall r
      ensures Holds(next, r) <==> HoldsJobKeys(u.job, next.op, r)
      ensures Holds(u, r) <==> HoldsInbox(u.job, r)
    {
    }
    forall r | Holds(next, r)
      ensures LockedBy(after.locks, p, r)
    {
      if HoldsInbox(u.job, r) {
        assert HeldBy(s.units, p, r);
        assert LockedBy(s.locks, p, r);
      }
    }
  }

  lemma RegisterKeepsLocks(s: State, p: Pid)
    requires LockInv(s) && Enabled(s, Register(p))
    ensures LockInv(RegisterStep(s, p, s.units[p]))
  {
    var u := s.units[p];
    var after := RegisterStep(s, p, u);
    var next := after.units[p];
    if next.Ended? {
      NothingHeld(next);
      LeavingKeepsLocks(s, after, p, next);
    } else if next.Answering? {
      StandingStillAcquires(s, after, p, next);
      AcquiringKeepsLocks(s, after, p, next);
    } else {
      TakingOneAcquires(s, after, p, next, InboxKey(u.job.input.message.value.id));
      AcquiringKeepsLocks(s, after, p, next);
    }
  }

  lemma WakeKeepsLocks(s: State, p: Pid)
    requires LockInv(s) && Enabled(s, WakeUp(p))
    ensures LockInv(WakeStep(s, p, s.units[p]))
  {
    var u := s.units[p];
    var after := WakeStep(s, p, u);
    var next := after.units[p];
    forall r
      ensures Holds(next, r) <==> Holds(u, r) || (r.RowKey? && r.transactionId in Awakened(s, u))
    {
    }
    forall r | Holds(next, r)
      ensures LockedBy(after.locks, p, r)
    {
      if Holds(u, r) {
        assert HeldBy(s.units, p, r);
        assert LockedBy(s.locks, p, r);
      }
    }
    AcquiringKeepsLocks(s, after, p, next);
  }

  lemma DecideKeepsLocks(cfg: Settings, s: State, p: Pid, entryId: Id)
    requires LockInv(s) && Enabled(s, DecideIt(p, entryId))
    ensures LockInv(DecideStep(cfg, s, p, s.units[p], entryId))
  {
    var u := s.units[p];
    var after := DecideStep(cfg, s, p, u, entryId);
    var next := after.units[p];
    DecideMovesOn(cfg, s, p, u, entryId);
    if next.Waking? || next.Committing? {
      SameHoldings(u, next);
      StandingStillAcquires(s, after, p, next);
      AcquiringKeepsLocks(s, after, p, next);
    } else {
      NothingHeld(next);
      LeavingKeepsLocks(s, after, p, next);
    }
  }

  lemma DecideMovesOn(cfg: Settings, s: State, p: Pid, u: Unit, entryId: Id)
    requires u.Deciding?
    ensures var after := DecideStep(cfg, s, p, u, entryId);
            var next := after.units[p];
            && after.units == s.units[p := next]
            && if next.Waking? || next.Committing?
               then after.locks == s.locks && next.job == u.job && next.op == u.op && WokenBy(next) == {}
               else after.locks == Release(s.locks, p) && (next.Ended? || next.GivingUp?)
  {
  }

  /** The same job on the same operation, with the wallet and nothing woken, holds the same locks. */
  lemma SameHoldings(u: Unit, next: Unit)
    requires u.HasWallet() && next.HasWallet() && u.job == next.job && u.op == next.op
    requires WokenBy(u) == {} && WokenBy(next) == {}
    ensures forall r :: Holds(u, r) <==> Holds(next, r)
  {
  }

  lemma FindAndCheckKeepLocks(s: State, p: Pid, after: State)
    requires LockInv(s) && p in s.units
    requires (s.units[p].Finding? && after == FindStep(s, p, s.units[p]))
             || (s.units[p].Checking? && after == CheckStep(s, p, s.units[p]))
    ensures LockInv(after)
  {
    SameHoldings(s.units[p], after.units[p]);
    StandingStillAcquires(s, after, p, after.units[p]);
    AcquiringKeepsLocks(s, after, p, after.units[p]);
  }

  /** Rows are stored under their own id. */
  predicate RowsKeyed(txs: map<Id, Tx>) {
    forall t :: t in txs ==> txs[t].id == t
  }

  lemma LockOneKeepsLocks(cfg: Settings, s: State, a: Action)
    requires RowsKeyed(s.db.txs)
    requires LockInv(s) && Enabled(s, a)
    requires a.Claim? || a.LockWallet? || a.LockTarget?
    ensures LockInv(Step(cfg, s, a))
  {
    var u, after := s.units[a.p], Step(cfg, s, a);
    var taken := if a.Claim? then RowKey(a.t)
                 else if a.LockWallet? then WalletKey(u.op.command.walletId)
                 else RowKey(u.target);
    LockOneTakes(cfg, s, a, u, taken);
    TakingOneAcquires(s, after, a.p, after.units[a.p], taken);
    AcquiringKeepsLocks(s, after, a.p, after.units[a.p]);
  }

  lemma LockOneTakes(cfg: Settings, s: State, a: Action, u: Unit, taken: Resource)
    requires Enabled(s, a) && (a.Claim? || a.LockWallet? || a.LockTarget?) && u == s.units[a.p]
    requires a.Claim? ==> taken == RowKey(a.t)
    requires a.LockWallet? ==> taken == WalletKey(u.op.command.walletId)
    requires a.LockTarget? ==> taken == RowKey(u.target)
    requires RowsKeyed(s.db.txs)
    ensures var after := Step(cfg, s, a);
            && taken !in s.locks && after.locks == s.locks[taken := a.p] && after.units == s.units[a.p := after.units[a.p]]
            && forall r :: Holds(after.units[a.p], r) <==> Holds(u, r) || r == taken
  {
  }

  lemma StartKeepsLocks(cfg: Settings, s: State, a: Action)
    requires LockInv(s) && Enabled(s, a)
    requires a.Spawn? || a.ReadClock?
    ensures LockInv(Step(cfg, s, a))
  {
    var after := Step(cfg, s, a);
    StandingStillAcquires(s, after, a.p, after.units[a.p]);
    AcquiringKeepsLocks(s, after, a.p, after.units[a.p]);
  }

  /** The lock table stays exactly what the units hold. */
  lemma StepKeepsLocks(cfg: Settings, s: State, a: Action)
    requires RowsKeyed(s.db.txs)
    requires LockInv(s) && Enabled(s, a)
    ensures LockInv(Step(cfg, s, a))
  {
    hide Settle, NewExternal, FindOriginal, ReplayUnit, Applied, FindByKey, FindByExternalId;
    match a
    case Spawn(_, _) => StartKeepsLocks(cfg, s, a);
    case ReadClock(_, _) => StartKeepsLocks(cfg, s, a);
    case Register(p) => RegisterKeepsLocks(s, p);
    case Insert(p, id) => InsertKeepsLocks(s, p, id);
    case Claim(_, _) => LockOneKeepsLocks(cfg, s, a);
    case LockWallet(_) => LockOneKeepsLocks(cfg, s, a);
    case LockTarget(_, _) => LockOneKeepsLocks(cfg, s, a);
    case Find(p) => FindAndCheckKeepLocks(s, p, FindStep(s, p, s.units[p]));
    case Check(p) => FindAndCheckKeepLocks(s, p, CheckStep(s, p, s.units[p]));
    case DecideIt(p, entryId) => DecideKeepsLocks(cfg, s, p, entryId);
    case WakeUp(p) => WakeKeepsLocks(s, p);
    case Commit(p, result) =>
      NothingHeld(Step(cfg, s, a).units[p]);
      LeavingKeepsLocks(s, Step(cfg, s, a), p, Step(cfg, s, a).units[p]);
    case Abort(p, error) =>
      NothingHeld(AfterFailure(s.units[p], error));
      LeavingKeepsLocks(s, Step(cfg, s, a), p, AfterFailure(s.units[p], error));
    case Restart(p) =>
      NothingHeld(AfterRestart(s.units[p]));
      LeavingKeepsLocks(s, Step(cfg, s, a), p, AfterRestart(s.units[p]));
    case OpenNew(_, _, _, _, _, _, _) =>
  }

  // ---- deadlock freedom ----

  function LockRank(r: Resource): nat {
    match r
    case InboxKey(_) => 0
    case IdempotencyKey(_, _) => 1
    case ExternalKey(_, _) => 1
    case RowKey(_) => 2
    case WalletKey(_) => 3
  }

  /** What a unit may have to wait for: claiming and waking skip locked rows instead. */
  predicate Wants(u: Unit, r: Resource) {
    match u
    case Registering(job, _) => FromQueue(job) && r == InboxKey(job.input.message.value.id)
    case Inserting(job, _) =>
      && job.SubmitJob?
      && var c := CommandOf(job.input);
         r == IdempotencyKey(c.providerId, c.idempotencyKey) || r == ExternalKey(c.providerId, c.externalId)
    case Locking(_, _, op) => r == WalletKey(op.command.walletId)
    case GivingUp(_, target) => r == RowKey(target)
    case _ => false
  }

  ghost predicate WaitsFor(s: State, p: Pid, q: Pid) {
    p in s.units && exists r :: r in s.locks && s.locks[r] == q && q != p && Wants(s.units[p], r)
  }

  /** A unit only waits for a lock ranked above everything it holds. */
  lemma WaitingClimbs(u: Unit, wanted: Resource, held: Resource)
    requires Wants(u, wanted) && Holds(u, held)
    ensures LockRank(held) < LockRank(wanted)
  {
  }

  function WaitRank(u: Unit): nat {
    match u
    case Registering(_, _) => 0
    case Inserting(_, _) => 1
    case GivingUp(_, _) => 2
    case _ => 3
  }

  lemma WaitForHigher(s: State, p: Pid, q: Pid)
    requires LockInv(s) && WaitsFor(s, p, q)
    ensures q in s.units
    ensures (exists o :: WaitsFor(s, q, o)) ==> WaitRank(s.units[p]) < WaitRank(s.units[q])
  {
    var r :| r in s.locks && s.locks[r] == q && q != p && Wants(s.units[p], r);
    assert WaitRank(s.units[p]) == LockRank(r);
    if exists o :: WaitsFor(s, q, o) {
      var o :| WaitsFor(s, q, o);
      var wanted :| wanted in s.locks && s.locks[wanted] == o && o != q && Wants(s.units[q], wanted);
      WaitingClimbs(s.units[q], wanted, r);
      assert WaitRank(s.units[q]) == LockRank(wanted);
    }
  }

  /** A chain of processes, each waiting for the next. */
  ghost predicate WaitChain(s: State, ps: seq<Pid>) {
    forall i :: 0 <= i < |ps| - 1 ==> WaitsFor(s, ps[i], ps[i + 1])
  }

  lemma {:induction false} ChainClimbs(s: State, ps: seq<Pid>, i: nat)
    requires LockInv(s) && WaitChain(s, ps) && 0 < i < |ps| - 1
    ensures ps[0] in s.units && ps[i] in s.units && WaitRank(s.units[ps[0]]) < WaitRank(s.units[ps[i]])
  {
    assert WaitsFor(s, ps[i - 1], ps[i]) && WaitsFor(s, ps[i], ps[i + 1]);
    WaitForHigher(s, ps[i - 1], ps[i]);
    if i > 1 {
      ChainClimbs(s, ps, i - 1);
    }
  }

  /** No deadlock: no chain of waiting processes ever closes into a cycle. */
  lemma NoWaitCycle(s: State, ps: seq<Pid>)
    requires LockInv(s) && |ps| > 1 && WaitChain(s, ps)
    ensures ps[|ps| - 1] != ps[0]
  {
    if ps[|ps| - 1] == ps[0] {
      var n := |ps|;
      assert n > 2 by {
        assert WaitsFor(s, ps[0], ps[1]);
      }
      ChainClimbs(s, ps, n - 2);
      assert WaitsFor(s, ps[n - 2], ps[n - 1]) && WaitsFor(s, ps[0], ps[1]);
      WaitForHigher(s, ps[n - 2], ps[n - 1]);
    }
  }
}
