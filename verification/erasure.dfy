/** Erasing repeats from an interleaved run: without the processes whose settlements never take effect, the remaining
    steps are again a run, and it ends with the same wallets, operations, ledgers and outboxes. */
module Erasure {
  import opened Values
  import opened Wagering
  import opened Settlements
  import opened Databases
  import opened DataInvariants
  import opened TableWrites
  import opened Protocol
  import opened LockDiscipline
  import opened UnitKnowledge
  import opened ProtocolInvariant
  import opened UnitSteps
  import opened Safety
  import opened Guarantees
  import opened Duplicates

  /** The step belongs to nobody who is erased. */
  predicate Loud(a: Action, quiet: set<Pid>) {
    a.OpenNew? || a.p !in quiet
  }

  function Kept(actions: seq<Action>, quiet: set<Pid>): seq<Action> {
    if actions == [] then []
    else
      var before, last := Kept(actions[..|actions| - 1], quiet), actions[|actions| - 1];
      if Loud(last, quiet) then before + [last] else before
  }

  /** A settlement of this step takes effect. */
  predicate Settles(s: State, a: Action) {
    a.Commit? && a.result != LostBefore && a.p in s.units && s.units[a.p].Committing?
  }

  /** The registration finds the message id free in the tables. */
  predicate Fresh(s: State, a: Action) {
    a.Register? && a.p in s.units && FromQueue(s.units[a.p].job) ==>
      s.units[a.p].job.input.message.value.id !in s.db.inbox
  }

  /** What may be erased: submissions that settle nothing, as long as no registration that stays is a redelivery. */
  predicate Erasable(s: State, a: Action, quiet: set<Pid>) {
    && (a.Spawn? && a.p in quiet ==> a.job.SubmitJob?)
    && (!Loud(a, quiet) ==> !Settles(s, a))
    && (Loud(a, quiet) ==> Fresh(s, a))
  }

  predicate ErasableRun(states: seq<State>, actions: seq<Action>, quiet: set<Pid>)
    requires |states| == |actions| + 1
  {
    forall i :: 0 <= i < |actions| ==> Erasable(states[i], actions[i], quiet)
  }

  // ---- the mirror: the run without the quiet processes ----

  ghost predicate UnitsMirror(units: map<Pid, Unit>, mirror: map<Pid, Unit>, quiet: set<Pid>) {
    && (forall p :: p in mirror <==> p in units && p !in quiet)
    && (forall p :: p in mirror ==> mirror[p] == units[p])
  }

  ghost predicate LocksMirror(locks: map<Resource, Pid>, mirror: map<Resource, Pid>, quiet: set<Pid>) {
    && (forall r :: r in mirror <==> r in locks && locks[r] !in quiet)
    && (forall r :: r in mirror ==> mirror[r] == locks[r])
  }

  predicate QuietSubmits(units: map<Pid, Unit>, quiet: set<Pid>) {
    forall p :: p in units && p in quiet ==> units[p].job.SubmitJob?
  }

  predicate TablesMirror(db: DB, mirror: DB) {
    SameBusiness(db, mirror) && forall m :: m in mirror.inbox ==> m in db.inbox
  }

  ghost predicate Mirrors(s: State, m: State, quiet: set<Pid>) {
    && TablesMirror(s.db, m.db)
    && UnitsMirror(s.units, m.units, quiet) && LocksMirror(s.locks, m.locks, quiet)
    && m.used <= s.used
  }

  // ---- locks ----

  lemma TakenMirrors(locks: map<Resource, Pid>, mirror: map<Resource, Pid>, quiet: set<Pid>, r: Resource, p: Pid)
    requires LocksMirror(locks, mirror, quiet) && p !in quiet
    ensures LocksMirror(locks[r := p], mirror[r := p], quiet)
  {
  }

  lemma ReleasedMirrors(locks: map<Resource, Pid>, mirror: map<Resource, Pid>, quiet: set<Pid>, p: Pid)
    requires LocksMirror(locks, mirror, quiet)
    ensures LocksMirror(Release(locks, p), Release(mirror, p), quiet)
  {
  }

  // ---- a quiet step leaves the mirror still ----

  /** Whatever a process does to the lock table, it takes free locks and frees its own. */
  ghost predicate OwnLocksOnly(locks: map<Resource, Pid>, after: map<Resource, Pid>, p: Pid) {
    && (forall r :: r in locks && locks[r] != p ==> r in after && after[r] == locks[r])
    && (forall r :: r in after && !(r in locks && locks[r] != p) ==> after[r] == p)
  }

  lemma StepTakesOwnLocks(cfg: Settings, s: State, a: Action)
    requires Enabled(s, a) && !a.OpenNew?
    ensures OwnLocksOnly(s.locks, Step(cfg, s, a).locks, a.p)
  {
    hide Settle, NewExternal, FindByKey, FindByExternalId, FindOriginal, HasReversal, KeysFree, Asleep, HeldByGiveUp,
         Applied;
    if a.Insert? {
      BornAs(CommandOf(s.units[a.p].job.input), a.id, s.units[a.p].now);
    }
  }

  lemma QuietLocks(locks: map<Resource, Pid>, after: map<Resource, Pid>, mirror: map<Resource, Pid>, quiet: set<Pid>,
                   p: Pid)
    requires LocksMirror(locks, mirror, quiet) && OwnLocksOnly(locks, after, p) && p in quiet
    ensures LocksMirror(after, mirror, quiet)
  {
  }

  lemma QuietCommit(s: State, u: Unit)
    requires u.job.SubmitJob? && !u.Committing? && Finishes(u) && GiveUpOk(s.db, s.clock, u)
    ensures SameBusiness(s.db, Applied(s.db, u)) && forall m :: m in s.db.inbox ==> m in Applied(s.db, u).inbox
  {
  }

  lemma QuietTables(cfg: Settings, s: State, a: Action, quiet: set<Pid>)
    requires Enabled(s, a) && !Loud(a, quiet) && Erasable(s, a, quiet) && QuietSubmits(s.units, quiet)
    requires UnitsOk(cfg, s)
    ensures SameBusiness(s.db, Step(cfg, s, a).db)
    ensures forall m :: m in s.db.inbox ==> m in Step(cfg, s, a).db.inbox
    ensures s.used <= Step(cfg, s, a).used
    ensures a.p in Step(cfg, s, a).units && Step(cfg, s, a).units == s.units[a.p := Step(cfg, s, a).units[a.p]]
  {
    hide Enabled, Step, UnitOk, SameBusiness, Applied;
    SameAsItself(s.db);
    if a.Commit? {
      CommitStepIs(cfg, s, a.p, a.result);
      if a.result != LostBefore {
        GiveUpPart(cfg, s, s.units[a.p]);
        QuietCommit(s, s.units[a.p]);
      }
    } else {
      LocalStepFrame(cfg, s, a);
    }
  }

  lemma GiveUpPart(cfg: Settings, s: State, u: Unit)
    requires UnitOk(cfg, s.db, s.used, s.clock, s.missed, u)
    ensures GiveUpOk(s.db, s.clock, u)
  {
  }

  lemma SameAsItself(db: DB)
    ensures SameBusiness(db, db)
  {
  }

  lemma TablesStillMirror(db: DB, after: DB, mirror: DB)
    requires TablesMirror(db, mirror) && SameBusiness(db, after) && forall m :: m in db.inbox ==> m in after.inbox
    ensures TablesMirror(after, mirror)
  {
  }

  lemma QuietStepStaysMirrored(cfg: Settings, s: State, m: State, a: Action, quiet: set<Pid>)
    requires Mirrors(s, m, quiet) && UnitsOk(cfg, s) && QuietSubmits(s.units, quiet)
    requires Enabled(s, a) && !Loud(a, quiet) && Erasable(s, a, quiet)
    ensures Mirrors(Step(cfg, s, a), m, quiet)
  {
    hide Enabled, Step, UnitsOk, TablesMirror, LocksMirror, SameBusiness, Erasable, QuietSubmits, OwnLocksOnly;
    var after := Step(cfg, s, a);
    QuietTables(cfg, s, a, quiet);
    TablesStillMirror(s.db, after.db, m.db);
    StepTakesOwnLocks(cfg, s, a);
    QuietLocks(s.locks, after.locks, m.locks, quiet, a.p);
  }

  // ---- a loud step is taken by the mirror as well ----

  /** The step can be taken, and the mirror is again one of what it leaves. */
  ghost predicate TakenAlike(cfg: Settings, s: State, m: State, a: Action, quiet: set<Pid>) {
    Enabled(s, a) && Enabled(m, a) && Mirrors(Step(cfg, s, a), Step(cfg, m, a), quiet)
  }

  /** Steps that look at a lock, a row and the clock. */
  predicate Plain(a: Action) {
    a.Spawn? || a.ReadClock? || a.Claim? || a.LockWallet? || a.Abort? || a.Restart? || a.LockTarget?
  }

  lemma PlainStepMirrors(cfg: Settings, s: State, m: State, a: Action, quiet: set<Pid>)
    requires Mirrors(s, m, quiet) && Enabled(s, a) && Loud(a, quiet) && Plain(a)
    ensures TakenAlike(cfg, s, m, a, quiet)
  {
    hide Step;
    PlainStepEnabled(s, m, a, quiet);
    PlainUnits(cfg, s, m, a, quiet);
    PlainLocks(cfg, s, m, a, quiet);
  }

  lemma PlainStepEnabled(s: State, m: State, a: Action, quiet: set<Pid>)
    requires Mirrors(s, m, quiet) && Enabled(s, a) && Loud(a, quiet) && Plain(a)
    ensures Enabled(m, a)
  {
  }

  lemma PlainUnits(cfg: Settings, s: State, m: State, a: Action, quiet: set<Pid>)
    requires Mirrors(s, m, quiet) && Enabled(s, a) && Enabled(m, a) && Loud(a, quiet) && Plain(a)
    ensures UnitsMirror(Step(cfg, s, a).units, Step(cfg, m, a).units, quiet)
    ensures Step(cfg, s, a).db == s.db && Step(cfg, m, a).db == m.db
    ensures Step(cfg, s, a).used == s.used && Step(cfg, m, a).used == m.used
  {
  }

  lemma PlainLocks(cfg: Settings, s: State, m: State, a: Action, quiet: set<Pid>)
    requires Mirrors(s, m, quiet) && Enabled(s, a) && Enabled(m, a) && Loud(a, quiet) && Plain(a)
    ensures LocksMirror(Step(cfg, s, a).locks, Step(cfg, m, a).locks, quiet)
  {
  }

  // ---- reading, inserting, deciding ----

  /** Tables that differ in their inboxes only answer every other read alike. */
  lemma FindsAlike(a: DB, b: DB, op: Tx)
    requires SameBusiness(a, b)
    ensures FindOriginal(a, op) == FindOriginal(b, op) && Visible(a, op) == Visible(b, op)
  {
    hide FindByExternalId;
  }

  lemma ReplaysAlike(a: DB, b: DB, u: Unit)
    requires SameBusiness(a, b) && u.Inserting? && u.job.SubmitJob?
    ensures ReplayUnit(a, u) == ReplayUnit(b, u)
  {
    hide FindByExternalId, FindByKey;
  }

  lemma InsertMirrors(cfg: Settings, s: State, m: State, a: Action, quiet: set<Pid>)
    requires Mirrors(s, m, quiet) && Enabled(s, a) && Loud(a, quiet) && a.Insert?
    ensures TakenAlike(cfg, s, m, a, quiet)
  {
    hide ReplayUnit, KeysFree, NewExternal, TablesMirror, LocksMirror;
    var u := s.units[a.p];
    TablesAgree(s.db, m.db);
    ReplaysAlike(s.db, m.db, u);
    InsertEnabledInMirror(s, m, a, quiet);
    var next, mirrored := InsertStep(s, a.p, u, a.id), InsertStep(m, a.p, u, a.id);
    var born := NewExternal(CommandOf(u.job.input), a.id, u.now);
    ReleasedMirrors(s.locks, m.locks, quiet, a.p);
    if born.Ok? && KeysFree(s.db.txs, born.value) && born.value.command.walletId in s.db.wallets {
      var c := born.value.command;
      var key, ext := IdempotencyKey(c.providerId, c.idempotencyKey), ExternalKey(c.providerId, c.externalId);
      var row := RowKey(a.id);
      TakenMirrors(s.locks, m.locks, quiet, key, a.p);
      TakenMirrors(s.locks[key := a.p], m.locks[key := a.p], quiet, ext, a.p);
      TakenMirrors(s.locks[key := a.p][ext := a.p], m.locks[key := a.p][ext := a.p], quiet, row, a.p);
    }
  }

  lemma TablesAgree(db: DB, mirror: DB)
    requires TablesMirror(db, mirror)
    ensures SameBusiness(db, mirror) && db.txs == mirror.txs && db.wallets == mirror.wallets
    ensures db.ledger == mirror.ledger && db.outbox == mirror.outbox
  {
  }

  lemma InsertEnabledInMirror(s: State, m: State, a: Action, quiet: set<Pid>)
    requires Mirrors(s, m, quiet) && Enabled(s, a) && Loud(a, quiet) && a.Insert?
    ensures Enabled(m, a)
  {
  }

  lemma PutMirrors(s: State, m: State, quiet: set<Pid>, p: Pid, u: Unit, used: set<Id>)
    requires Mirrors(s, m, quiet) && p !in quiet
    ensures Mirrors(Put(s, p, u).(used := s.used + used), Put(m, p, u).(used := m.used + used), quiet)
  {
    hide TablesMirror, LocksMirror;
  }

  lemma LeaveMirrors(s: State, m: State, quiet: set<Pid>, p: Pid, u: Unit)
    requires Mirrors(s, m, quiet) && p !in quiet
    ensures Mirrors(Leave(s, p, u), Leave(m, p, u), quiet)
  {
    hide TablesMirror, LocksMirror;
    ReleasedMirrors(s.locks, m.locks, quiet, p);
  }

  lemma FindMirrors(s: State, m: State, quiet: set<Pid>, p: Pid, u: Unit)
    requires Mirrors(s, m, quiet) && p !in quiet && u.Finding?
    ensures Mirrors(FindStep(s, p, u), FindStep(m, p, u), quiet)
  {
    hide FindOriginal, Mirrors;
    MirroredTables(s, m, quiet);
    FindsAlike(s.db, m.db, u.op);
    var next := FindStep(s, p, u);
    PutMirrors(s, m, quiet, p, next.units[p], {});
    assert s.used + {} == s.used && m.used + {} == m.used;
  }

  lemma CheckMirrors(s: State, m: State, quiet: set<Pid>, p: Pid, u: Unit)
    requires Mirrors(s, m, quiet) && p !in quiet && u.Checking?
    ensures Mirrors(CheckStep(s, p, u), CheckStep(m, p, u), quiet)
  {
    hide HasReversal, Mirrors;
    MirroredTables(s, m, quiet);
    FindsAlike(s.db, m.db, u.op);
    var next := CheckStep(s, p, u);
    PutMirrors(s, m, quiet, p, next.units[p], {});
    assert s.used + {} == s.used && m.used + {} == m.used;
  }

  lemma MirroredTables(s: State, m: State, quiet: set<Pid>)
    requires Mirrors(s, m, quiet)
    ensures SameBusiness(s.db, m.db) && s.db.txs == m.db.txs && s.db.wallets == m.db.wallets
  {
  }

  lemma ReadingStepMirrors(cfg: Settings, s: State, m: State, a: Action, quiet: set<Pid>)
    requires Mirrors(s, m, quiet) && Enabled(s, a) && Loud(a, quiet) && (a.Find? || a.Check?)
    ensures TakenAlike(cfg, s, m, a, quiet)
  {
    hide FindStep, CheckStep, TablesMirror, LocksMirror;
    if a.Find? {
      FindMirrors(s, m, quiet, a.p, s.units[a.p]);
    } else {
      CheckMirrors(s, m, quiet, a.p, s.units[a.p]);
    }
  }

  lemma DecideStepMirrors(cfg: Settings, s: State, m: State, quiet: set<Pid>, p: Pid, u: Unit, entryId: Id)
    requires Mirrors(s, m, quiet) && p !in quiet && u.Deciding?
    ensures Mirrors(DecideStep(cfg, s, p, u, entryId), DecideStep(cfg, m, p, u, entryId), quiet)
  {
    hide Settle, Mirrors, AfterFailure;
    MirroredTables(s, m, quiet);
    var r := Settle(DoorOf(u.job), cfg, u.account, u.op, u.reference, entryId, u.now);
    var next := DecideStep(cfg, s, p, u, entryId).units[p];
    if r.Ok? && VersionMatches(s.db, u.account, r.value) {
      PutMirrors(s, m, quiet, p, next, {entryId});
    } else {
      LeaveMirrors(s, m, quiet, p, next);
    }
  }

  lemma DecideMirrors(cfg: Settings, s: State, m: State, a: Action, quiet: set<Pid>)
    requires Mirrors(s, m, quiet) && Enabled(s, a) && Loud(a, quiet) && a.DecideIt?
    ensures TakenAlike(cfg, s, m, a, quiet)
  {
    hide DecideStep, TablesMirror, LocksMirror;
    DecideStepMirrors(cfg, s, m, quiet, a.p, s.units[a.p], a.entryId);
  }

  /** A fresh registration takes the message id on both sides. */
  lemma RegisterMirrors(cfg: Settings, s: State, m: State, a: Action, quiet: set<Pid>)
    requires Mirrors(s, m, quiet) && Enabled(s, a) && Loud(a, quiet) && a.Register? && Fresh(s, a)
    ensures TakenAlike(cfg, s, m, a, quiet)
  {
    hide LocksMirror;
    TakenMirrors(s.locks, m.locks, quiet, InboxKey(s.units[a.p].job.input.message.value.id), a.p);
    RegisterEnabledInMirror(s, m, a, quiet);
  }

  lemma RegisterEnabledInMirror(s: State, m: State, a: Action, quiet: set<Pid>)
    requires Mirrors(s, m, quiet) && Enabled(s, a) && Loud(a, quiet) && a.Register?
    ensures Enabled(m, a)
  {
  }

  // ---- opening and committing ----

  lemma OpenMirrors(cfg: Settings, s: State, m: State, a: Action, quiet: set<Pid>)
    requires Mirrors(s, m, quiet) && Enabled(s, a) && a.OpenNew?
    ensures TakenAlike(cfg, s, m, a, quiet)
  {
    hide PlanOpening, LocksMirror;
  }

  /** What a commit writes does not depend on the inbox. */
  lemma AppliedAlike(a: DB, b: DB, u: Unit)
    requires TablesMirror(a, b)
    requires u.Committing? ==> u.effect.account.id in a.ledger && u.effect.account.id in a.outbox
    ensures u.Committing? ==> u.effect.account.id in b.ledger && u.effect.account.id in b.outbox
    ensures TablesMirror(Applied(a, u), Applied(b, u))
  {
    hide WakeRows, MarkFailed;
  }

  lemma CommitMirrors(cfg: Settings, s: State, m: State, a: Action, quiet: set<Pid>)
    requires Mirrors(s, m, quiet) && Enabled(s, a) && Loud(a, quiet) && a.Commit?
    ensures TakenAlike(cfg, s, m, a, quiet)
  {
    hide Applied, TablesMirror, LocksMirror;
    TablesAgree(s.db, m.db);
    AppliedAlike(s.db, m.db, s.units[a.p]);
    ReleasedMirrors(s.locks, m.locks, quiet, a.p);
  }

  // ---- waking ----

  /** No row that sleeps for an operation is locked by a submission of another process: it would settle the same
      external id. */
  lemma SleepersAreNotSubmitted(cfg: Settings, s: State, p: Pid, t: Id, quiet: set<Pid>)
    requires LockInv(s) && UnitsOk(cfg, s) && KeysOk(s.db.txs) && QuietSubmits(s.units, quiet)
    requires p in s.units && p !in quiet && s.units[p].Waking? && Asleep(s.db, s.units[p].op, s.units[p].now, t)
    ensures RowKey(t) in s.locks ==> s.locks[RowKey(t)] !in quiet
  {
    hide LockInv, UnitOk, KeysOk;
    if RowKey(t) in s.locks {
      var q := s.locks[RowKey(t)];
      LockHolder(s, RowKey(t));
      if s.units[q].job.SubmitJob? {
        SubmissionHoldsWoken(cfg, s.db, s.used, s.clock, s.missed, s.units[q], t);
        SettlersAreUnique(cfg, s, p, q);
      }
    }
  }

  lemma SubmissionHoldsWoken(cfg: Settings, db: DB, used: set<Id>, clock: Time, missed: set<Skip>, u: Unit, t: Id)
    requires UnitOk(cfg, db, used, clock, missed, u) && Holds(u, RowKey(t)) && t in db.txs && u.job.SubmitJob?
    ensures u.Committing? && Names(db.txs[t], u.op)
  {
  }

  lemma WakeTakesAlike(cfg: Settings, s: State, m: State, p: Pid, quiet: set<Pid>)
    requires Mirrors(s, m, quiet) && LockInv(s) && UnitsOk(cfg, s) && KeysOk(s.db.txs) && QuietSubmits(s.units, quiet)
    requires p in s.units && p !in quiet && s.units[p].Waking?
    ensures Awakened(s, s.units[p]) == Awakened(m, s.units[p])
  {
    hide LockInv, UnitsOk, KeysOk, Asleep, QuietSubmits;
    var u := s.units[p];
    forall t | t in s.db.txs
      ensures Asleep(m.db, u.op, u.now, t) <==> Asleep(s.db, u.op, u.now, t)
      ensures Asleep(s.db, u.op, u.now, t) ==> (RowKey(t) in s.locks <==> RowKey(t) in m.locks)
    {
      AsleepAlike(s.db, m.db, u.op, u.now, t);
      if Asleep(s.db, u.op, u.now, t) {
        SleepersAreNotSubmitted(cfg, s, p, t, quiet);
      }
    }
  }

  lemma AsleepAlike(a: DB, b: DB, op: Tx, now: Time, t: Id)
    requires a.txs == b.txs
    ensures Asleep(a, op, now, t) <==> Asleep(b, op, now, t)
  {
  }

  lemma WokenLocksMirror(locks: map<Resource, Pid>, mirror: map<Resource, Pid>, quiet: set<Pid>, woken: set<Id>, p: Pid)
    requires LocksMirror(locks, mirror, quiet) && p !in quiet
    requires forall t :: t in woken ==> RowKey(t) !in locks
    ensures LocksMirror(
              map r | r in locks.Keys + (set t | t in woken :: RowKey(t)) :: if r in locks then locks[r] else p,
              map r | r in mirror.Keys + (set t | t in woken :: RowKey(t)) :: if r in mirror then mirror[r] else p, quiet)
  {
  }

  lemma WakeMirrors(cfg: Settings, s: State, m: State, a: Action, quiet: set<Pid>)
    requires Mirrors(s, m, quiet) && LockInv(s) && UnitsOk(cfg, s) && KeysOk(s.db.txs) && QuietSubmits(s.units, quiet)
    requires Enabled(s, a) && Loud(a, quiet) && a.WakeUp?
    ensures TakenAlike(cfg, s, m, a, quiet)
  {
    hide LockInv, UnitsOk, KeysOk, Asleep, HeldByGiveUp, TablesMirror, QuietSubmits;
    TablesAgree(s.db, m.db);
    WakeTakesAlike(cfg, s, m, a.p, quiet);
    var woken := Awakened(s, s.units[a.p]);
    WokenLocksMirror(s.locks, m.locks, quiet, woken, a.p);
  }

  // ---- the simulation ----

  lemma LoudStepMirrors(cfg: Settings, s: State, m: State, a: Action, quiet: set<Pid>)
    requires Mirrors(s, m, quiet) && LockInv(s) && UnitsOk(cfg, s) && KeysOk(s.db.txs) && QuietSubmits(s.units, quiet)
    requires Enabled(s, a) && Loud(a, quiet) && Fresh(s, a)
    ensures TakenAlike(cfg, s, m, a, quiet)
  {
    hide Mirrors, LockInv, UnitsOk, KeysOk, QuietSubmits, Enabled, Step, TakenAlike, Fresh;
    match a
    case Insert(_, _) => InsertMirrors(cfg, s, m, a, quiet);
    case Find(_) => ReadingStepMirrors(cfg, s, m, a, quiet);
    case Check(_) => ReadingStepMirrors(cfg, s, m, a, quiet);
    case DecideIt(_, _) => DecideMirrors(cfg, s, m, a, quiet);
    case Register(_) => RegisterMirrors(cfg, s, m, a, quiet);
    case OpenNew(_, _, _, _, _, _, _) => OpenMirrors(cfg, s, m, a, quiet);
    case Commit(_, _) => CommitMirrors(cfg, s, m, a, quiet);
    case WakeUp(_) => WakeMirrors(cfg, s, m, a, quiet);
    case _ => PlainStepMirrors(cfg, s, m, a, quiet);
  }

  lemma StepKeepsQuietSubmits(cfg: Settings, s: State, a: Action, quiet: set<Pid>)
    requires Enabled(s, a) && QuietSubmits(s.units, quiet) && Erasable(s, a, quiet)
    ensures QuietSubmits(Step(cfg, s, a).units, quiet)
  {
    hide Enabled, Step;
    var after := Step(cfg, s, a);
    StepTouchesOne(cfg, s, a);
    forall p | p in after.units && p in quiet
      ensures after.units[p].job.SubmitJob?
    {
      if p in s.units {
        StepKeepsJobs(cfg, s, a, p);
      }
    }
  }

  /** Only a spawn adds a process. */
  lemma StepTouchesOne(cfg: Settings, s: State, a: Action)
    requires Enabled(s, a)
    ensures forall p :: p in Step(cfg, s, a).units && p !in s.units ==>
              a.Spawn? && p == a.p && Step(cfg, s, a).units[p].job == a.job
  {
    hide Settle, NewExternal, FindByKey, FindByExternalId, FindOriginal, HasReversal, KeysFree, Awakened, HeldByGiveUp,
         Applied;
  }

  lemma {:induction false} Simulates(cfg: Settings, states: seq<State>, actions: seq<Action>, quiet: set<Pid>)
    returns (mirror: seq<State>)
    requires ValidSettings(cfg) && Run(cfg, states, actions) && ErasableRun(states, actions, quiet)
    ensures Run(cfg, mirror, Kept(actions, quiet))
    ensures Mirrors(states[|states| - 1], mirror[|mirror| - 1], quiet)
    ensures QuietSubmits(states[|states| - 1].units, quiet)
    decreases |actions|
  {
    hide Step, Enabled, Mirrors, QuietSubmits, Erasable, Settles, Fresh, Reachable, Inv;
    if actions == [] {
      mirror := [INITIAL];
      InitialMirror(quiet);
    } else {
      var n := |actions| - 1;
      var s, a := states[n], actions[n];
      RunPrefix(cfg, states, actions, n);
      var before := Simulates(cfg, states[..n + 1], actions[..n], quiet);
      var m := before[|before| - 1];
      assert Follows(cfg, s, a, states[n + 1]);
      RunReaches(cfg, states, actions, n);
      assert Erasable(s, a, quiet);
      OneStepMirrors(cfg, s, m, a, quiet);
      if Loud(a, quiet) {
        RunExtends(cfg, before, Kept(actions[..n], quiet), a);
        mirror := before + [Step(cfg, m, a)];
      } else {
        mirror := before;
      }
    }
  }

  lemma InitialMirror(quiet: set<Pid>)
    ensures Mirrors(INITIAL, INITIAL, quiet) && QuietSubmits(INITIAL.units, quiet)
  {
  }

  lemma OneStepMirrors(cfg: Settings, s: State, m: State, a: Action, quiet: set<Pid>)
    requires ValidSettings(cfg) && Reachable(cfg, s) && Mirrors(s, m, quiet) && QuietSubmits(s.units, quiet)
    requires Enabled(s, a) && Erasable(s, a, quiet)
    ensures QuietSubmits(Step(cfg, s, a).units, quiet)
    ensures if Loud(a, quiet) then Enabled(m, a) && Mirrors(Step(cfg, s, a), Step(cfg, m, a), quiet)
            else Mirrors(Step(cfg, s, a), m, quiet)
  {
    hide Step, Enabled, Mirrors, QuietSubmits, Reachable, WalletsOk, LedgerOk, TxsOk, KeysOk, InboxOk, MoneyInv, EventsInv,
         LockInv, UnitsOk, AttemptsOk, WakesOk, UsedOk, Fresh, Settles;
    ReachableTables(cfg, s);
    StepKeepsQuietSubmits(cfg, s, a, quiet);
    if Loud(a, quiet) {
      LoudStepMirrors(cfg, s, m, a, quiet);
    } else {
      QuietStepStaysMirrored(cfg, s, m, a, quiet);
    }
  }

  /** Erasing from any interleaved run submissions whose settlements never take effect leaves a run, with the same
      business tables at its end: openings, retries, give-ups, aborts, crashes and lost answers all stay. */
  lemma QuietProcessesCanBeErased(cfg: Settings, states: seq<State>, actions: seq<Action>, quiet: set<Pid>)
    returns (mirror: seq<State>)
    requires ValidSettings(cfg) && Run(cfg, states, actions) && ErasableRun(states, actions, quiet)
    ensures Run(cfg, mirror, Kept(actions, quiet))
    ensures SameBusiness(states[|states| - 1].db, mirror[|mirror| - 1].db)
    ensures UnitsMirror(states[|states| - 1].units, mirror[|mirror| - 1].units, quiet)
  {
    hide Run, ErasableRun;
    mirror := Simulates(cfg, states, actions, quiet);
  }

  // ---- along a run ----

  lemma {:induction false} RunKeepsJobs(cfg: Settings, states: seq<State>, actions: seq<Action>, i: nat, j: nat, p: Pid)
    requires Run(cfg, states, actions) && i <= j < |states| && p in states[i].units
    ensures p in states[j].units && states[j].units[p].job == states[i].units[p].job
    decreases j
  {
    hide Step, Enabled;
    if i < j {
      RunKeepsJobs(cfg, states, actions, i, j - 1, p);
      assert Follows(cfg, states[j - 1], actions[j - 1], states[j]);
      StepKeepsJobs(cfg, states[j - 1], actions[j - 1], p);
    }
  }

  lemma {:induction false} RunKeepsInbox(cfg: Settings, states: seq<State>, actions: seq<Action>, i: nat, j: nat, id: Text)
    requires ValidSettings(cfg) && Run(cfg, states, actions) && i <= j < |states| && id in states[i].db.inbox
    ensures id in states[j].db.inbox
    decreases j
  {
    hide Step, Enabled, Reachable;
    if i < j {
      RunKeepsInbox(cfg, states, actions, i, j - 1, id);
      RunReaches(cfg, states, actions, j - 1);
      assert Follows(cfg, states[j - 1], actions[j - 1], states[j]);
      HistoryIsKept(cfg, states[j - 1], actions[j - 1]);
    }
  }

  lemma EndedStays(cfg: Settings, s: State, a: Action, p: Pid)
    requires Enabled(s, a) && p in s.units && s.units[p].Ended?
    ensures p in Step(cfg, s, a).units && Step(cfg, s, a).units[p].Ended?
  {
    hide Settle, NewExternal, FindByKey, FindByExternalId, FindOriginal, HasReversal, KeysFree, Awakened, HeldByGiveUp,
         Applied;
  }

  lemma {:induction false} RunKeepsEnded(cfg: Settings, states: seq<State>, actions: seq<Action>, i: nat, j: nat, p: Pid)
    requires Run(cfg, states, actions) && i <= j < |states| && p in states[i].units && states[i].units[p].Ended?
    ensures p in states[j].units && states[j].units[p].Ended?
    decreases j
  {
    hide Step, Enabled;
    if i < j {
      RunKeepsEnded(cfg, states, actions, i, j - 1, p);
      assert Follows(cfg, states[j - 1], actions[j - 1], states[j]);
      EndedStays(cfg, states[j - 1], actions[j - 1], p);
    }
  }

  // ---- which processes ----

  /** The process settles at some step from the given one on, and its settlement takes effect. */
  ghost predicate SettlesFrom(states: seq<State>, actions: seq<Action>, i: int, p: Pid)
    requires |states| == |actions| + 1
  {
    exists j :: 0 <= j < |actions| && i <= j && !actions[j].OpenNew? && actions[j].p == p && Settles(states[j], actions[j])
  }

  lemma SettlerKnowsItsMessage(cfg: Settings, s: State, a: Action)
    requires ValidSettings(cfg) && Reachable(cfg, s) && Settles(s, a)
    ensures InboxFree(s.db, s.units[a.p].job)
  {
    hide Reachable, Inv;
    ReachableInv(cfg, s);
    SettlerInv(cfg, s, a.p);
  }

  lemma SettlerInv(cfg: Settings, s: State, p: Pid)
    requires Inv(cfg, s) && p in s.units && s.units[p].Committing?
    ensures InboxFree(s.db, s.units[p].job)
    ensures s.units[p].job.SubmitJob? ==> s.units[p].op.command == CommandOf(s.units[p].job.input)
  {
    hide DataInv, LockInv, UsedOk, AttemptsOk, WakesOk;
    assert UnitOk(cfg, s.db, s.used, s.clock, s.missed, s.units[p]);
  }

  /** A process that will settle finds its message id free whenever it registers. */
  lemma SettlersRegisterFresh(cfg: Settings, states: seq<State>, actions: seq<Action>, i: nat, j: nat)
    requires ValidSettings(cfg) && Run(cfg, states, actions) && i <= j < |actions|
    requires actions[i].Register? && actions[j].Commit? && actions[i].p == actions[j].p
    requires Settles(states[j], actions[j])
    ensures Fresh(states[i], actions[i])
  {
    hide Step, Enabled, Reachable, Settles;
    var p := actions[i].p;
    RunReaches(cfg, states, actions, j);
    SettlerKnowsItsMessage(cfg, states[j], actions[j]);
    if p in states[i].units && FromQueue(states[i].units[p].job) {
      RunKeepsJobs(cfg, states, actions, i, j, p);
      var id := states[i].units[p].job.input.message.value.id;
      if id in states[i].db.inbox {
        RunKeepsInbox(cfg, states, actions, i, j, id);
      }
    }
  }

  /** The erased are submissions, none of their settlements takes effect, and whoever stays and registers a message
      goes on to settle. */
  ghost predicate OnlyRepeats(states: seq<State>, actions: seq<Action>, quiet: set<Pid>)
    requires |states| == |actions| + 1
  {
    forall i :: 0 <= i < |actions| ==> RepeatsAt(states, actions, quiet, i)
  }

  ghost predicate RepeatsAt(states: seq<State>, actions: seq<Action>, quiet: set<Pid>, i: nat)
    requires |states| == |actions| + 1 && i < |actions|
  {
    var a := actions[i];
    && (a.Spawn? && a.p in quiet ==> a.job.SubmitJob?)
    && (!Loud(a, quiet) ==> !Settles(states[i], a))
    && (a.Register? && a.p !in quiet ==> SettlesFrom(states, actions, i, a.p))
  }

  lemma RepeatsAreErasable(cfg: Settings, states: seq<State>, actions: seq<Action>, quiet: set<Pid>)
    requires ValidSettings(cfg) && Run(cfg, states, actions) && OnlyRepeats(states, actions, quiet)
    ensures ErasableRun(states, actions, quiet)
  {
    hide Settles, Fresh;
    forall i | 0 <= i < |actions|
      ensures Erasable(states[i], actions[i], quiet)
    {
      assert RepeatsAt(states, actions, quiet, i);
      var a := actions[i];
      if a.Register? && a.p !in quiet {
        var j :| 0 <= j < |actions| && i <= j && !actions[j].OpenNew? && actions[j].p == a.p
                 && Settles(states[j], actions[j]);
        SettlersCommit(states[j], actions[j]);
        SettlersRegisterFresh(cfg, states, actions, i, j);
      } else if !a.Register? {
        OnlyRegistrationsAsk(states[i], a);
      }
    }
  }

  lemma SettlersCommit(s: State, a: Action)
    requires Settles(s, a)
    ensures a.Commit?
  {
  }

  lemma OnlyRegistrationsAsk(s: State, a: Action)
    requires !a.Register?
    ensures Fresh(s, a)
  {
  }

  /** Any set of such processes can be erased. Message ids may be used as they like: a delivery that stays is the one
      that settles its message. */
  lemma RepeatsCanBeErased(cfg: Settings, states: seq<State>, actions: seq<Action>, quiet: set<Pid>)
    returns (mirror: seq<State>)
    requires ValidSettings(cfg) && Run(cfg, states, actions) && OnlyRepeats(states, actions, quiet)
    ensures Run(cfg, mirror, Kept(actions, quiet))
    ensures SameBusiness(states[|states| - 1].db, mirror[|mirror| - 1].db)
    ensures UnitsMirror(states[|states| - 1].units, mirror[|mirror| - 1].units, quiet)
  {
    hide Run, OnlyRepeats, ErasableRun;
    RunShape(cfg, states, actions);
    RepeatsAreErasable(cfg, states, actions, quiet);
    mirror := QuietProcessesCanBeErased(cfg, states, actions, quiet);
  }

  lemma RunShape(cfg: Settings, states: seq<State>, actions: seq<Action>)
    requires Run(cfg, states, actions)
    ensures |states| == |actions| + 1
  {
  }

  // ---- the repeats of one key ----

  /** The process submits under the key. */
  predicate Submits(job: Job, providerId: Text, key: Text) {
    job.SubmitJob? && job.input.request.providerId == providerId && job.input.request.idempotencyKey == key
  }

  lemma SettlingUnderKey(cfg: Settings, s: State, a: Action, providerId: Text, key: Text)
    requires ValidSettings(cfg) && Reachable(cfg, s) && Settles(s, a) && Submits(s.units[a.p].job, providerId, key)
    ensures SettlesKey(s, a, providerId, key)
  {
    hide Reachable, Inv;
    ReachableInv(cfg, s);
    SettlerInv(cfg, s, a.p);
  }

  lemma SpawnedJobStays(cfg: Settings, states: seq<State>, actions: seq<Action>, i: nat, j: nat)
    requires Run(cfg, states, actions) && i < j < |states| && actions[i].Spawn?
    ensures actions[i].p in states[j].units && states[j].units[actions[i].p].job == actions[i].job
  {
    hide Enabled;
    assert Follows(cfg, states[i], actions[i], states[i + 1]);
    RunKeepsJobs(cfg, states, actions, i + 1, j, actions[i].p);
  }

  /** Once a submission of a key has settled, the other deliveries of that key can be erased: none of them settles. */
  lemma OthersOfKeyDoNotSettle(cfg: Settings, states: seq<State>, actions: seq<Action>, i: nat, j: nat, providerId: Text,
                               key: Text)
    requires ValidSettings(cfg) && Run(cfg, states, actions) && i < |actions| && j < |actions|
    requires SettlesKey(states[i], actions[i], providerId, key)
    requires !actions[j].OpenNew? && actions[j].p != actions[i].p && actions[j].p in states[j].units
    requires Submits(states[j].units[actions[j].p].job, providerId, key)
    ensures !Settles(states[j], actions[j])
  {
    hide Run, Reachable, SettlesKey, Settles, Submits;
    RunShape(cfg, states, actions);
    RunReaches(cfg, states, actions, j);
    if Settles(states[j], actions[j]) {
      SettlersCommit(states[j], actions[j]);
      SettlingUnderKey(cfg, states[j], actions[j], providerId, key);
      EachKeySettlesOnce(cfg, states, actions, i, j, providerId, key);
    }
  }

  /** The processes that deliver a key which another process settles. */
  ghost predicate OthersOfKey(states: seq<State>, quiet: set<Pid>, settler: Pid, providerId: Text, key: Text)
    requires states != []
  {
    var last := states[|states| - 1];
    settler !in quiet && forall p :: p in quiet ==> p in last.units && Submits(last.units[p].job, providerId, key)
  }

  lemma OthersOfKeyAreRepeats(cfg: Settings, states: seq<State>, actions: seq<Action>, quiet: set<Pid>, i: nat,
                              providerId: Text, key: Text)
    requires ValidSettings(cfg) && Run(cfg, states, actions) && i < |actions|
    requires SettlesKey(states[i], actions[i], providerId, key)
    requires OthersOfKey(states, quiet, actions[i].p, providerId, key)
    requires forall j :: 0 <= j < |actions| && actions[j].Register? && actions[j].p !in quiet ==>
               SettlesFrom(states, actions, j, actions[j].p)
    ensures OnlyRepeats(states, actions, quiet)
  {
    hide Settles, SettlesFrom, SettlesKey, Step, Enabled, Submits;
    var last := |states| - 1;
    forall j | 0 <= j < |actions|
      ensures RepeatsAt(states, actions, quiet, j)
    {
      var a := actions[j];
      if a.Spawn? {
        SpawnedJobStays(cfg, states, actions, j, last);
        SubmitsIsSubmit(a.job, providerId, key);
      }
      if !Loud(a, quiet) {
        if a.p in states[j].units {
          RunKeepsJobs(cfg, states, actions, j, last, a.p);
          OthersOfKeyDoNotSettle(cfg, states, actions, i, j, providerId, key);
        } else {
          AbsentDoNotSettle(states[j], a);
        }
      }
    }
  }

  lemma SubmitsIsSubmit(job: Job, providerId: Text, key: Text)
    ensures Submits(job, providerId, key) ==> job.SubmitJob?
  {
  }

  lemma AbsentDoNotSettle(s: State, a: Action)
    requires !a.OpenNew? && a.p !in s.units
    ensures !Settles(s, a)
  {
  }

  /** The repeats of one key: every other delivery of a key that some process settles can be erased. */
  lemma RepeatsOfAKeyCanBeErased(cfg: Settings, states: seq<State>, actions: seq<Action>, quiet: set<Pid>, i: nat,
                                 providerId: Text, key: Text)
    returns (mirror: seq<State>)
    requires ValidSettings(cfg) && Run(cfg, states, actions) && i < |actions|
    requires SettlesKey(states[i], actions[i], providerId, key)
    requires OthersOfKey(states, quiet, actions[i].p, providerId, key)
    requires forall j :: 0 <= j < |actions| && actions[j].Register? && actions[j].p !in quiet ==>
               SettlesFrom(states, actions, j, actions[j].p)
    ensures Run(cfg, mirror, Kept(actions, quiet))
    ensures SameBusiness(states[|states| - 1].db, mirror[|mirror| - 1].db)
  {
    hide Run, OnlyRepeats, SettlesKey, SettlesFrom;
    OthersOfKeyAreRepeats(cfg, states, actions, quiet, i, providerId, key);
    mirror := RepeatsCanBeErased(cfg, states, actions, quiet);
  }

  // ---- all repeats at once ----

  /** Every submission of the run that never settles. */
  ghost function Repeaters(states: seq<State>, actions: seq<Action>): set<Pid>
    requires |states| == |actions| + 1
  {
    var last := states[|states| - 1];
    set p | p in last.units && last.units[p].job.SubmitJob? && !SettlesFrom(states, actions, 0, p)
  }

  lemma SettledIsOver(cfg: Settings, states: seq<State>, actions: seq<Action>, i: nat, j: nat)
    requires Run(cfg, states, actions) && i < |actions| && j < |actions| && Settles(states[j], actions[j])
    requires actions[i].Register? && actions[i].p == actions[j].p
    ensures i <= j
  {
    hide Step;
    assert Follows(cfg, states[j], actions[j], states[j + 1]) && Follows(cfg, states[i], actions[i], states[i + 1]);
    CommitStepIs(cfg, states[j], actions[j].p, actions[j].result);
    if j < i {
      RunKeepsEnded(cfg, states, actions, j + 1, i, actions[j].p);
    }
  }

  lemma RepeatersAreRepeats(cfg: Settings, states: seq<State>, actions: seq<Action>)
    requires ValidSettings(cfg) && Run(cfg, states, actions)
    ensures OnlyRepeats(states, actions, Repeaters(states, actions))
  {
    hide Settles, Step, SettlesFrom;
    var quiet, last := Repeaters(states, actions), |states| - 1;
    forall i | 0 <= i < |actions|
      ensures RepeatsAt(states, actions, quiet, i)
    {
      var a := actions[i];
      assert Follows(cfg, states[i], a, states[i + 1]);
      if a.Spawn? {
        SpawnedJobStays(cfg, states, actions, i, last);
      }
      if !a.OpenNew? {
        SettlerSettles(states, actions, i);
      }
      if a.Register? && a.p !in quiet {
        RunKeepsJobs(cfg, states, actions, i, last, a.p);
        RegisteredSettlesLater(cfg, states, actions, i);
      }
    }
  }

  lemma SettlerSettles(states: seq<State>, actions: seq<Action>, i: nat)
    requires |states| == |actions| + 1 && i < |actions| && !actions[i].OpenNew?
    ensures Settles(states[i], actions[i]) ==> SettlesFrom(states, actions, 0, actions[i].p)
  {
  }

  lemma RegisteredSettlesLater(cfg: Settings, states: seq<State>, actions: seq<Action>, i: nat)
    requires Run(cfg, states, actions) && i < |actions| && actions[i].Register?
    requires SettlesFrom(states, actions, 0, actions[i].p)
    ensures SettlesFrom(states, actions, i, actions[i].p)
  {
    hide Settles, Step, Enabled;
    var p := actions[i].p;
    var j :| 0 <= j < |actions| && 0 <= j && !actions[j].OpenNew? && actions[j].p == p && Settles(states[j], actions[j]);
    SettledIsOver(cfg, states, actions, i, j);
  }

  predicate Delivers(s: State, p: Pid, providerId: Text, key: Text) {
    p in s.units && Submits(s.units[p].job, providerId, key)
  }

  ghost predicate OneSubmissionPerKey(s: State) {
    forall p, q, providerId, key :: Delivers(s, p, providerId, key) && Delivers(s, q, providerId, key) ==> p == q
  }

  /** Duplicate erasure. Take any interleaved run: repeats over both doors, redeliveries, aborts, crashes, lost commit
      answers, the worker, give-ups and openings included. Without the submissions that never settle it is again a
      run, it ends with the same wallets, operations, ledgers and outboxes, and each provider and key is left with at
      most one submission. */
  lemma RunsCanBeFreedOfRepeats(cfg: Settings, states: seq<State>, actions: seq<Action>) returns (mirror: seq<State>)
    requires ValidSettings(cfg) && Run(cfg, states, actions)
    ensures Run(cfg, mirror, Kept(actions, Repeaters(states, actions)))
    ensures SameBusiness(states[|states| - 1].db, mirror[|mirror| - 1].db)
    ensures OneSubmissionPerKey(mirror[|mirror| - 1])
  {
    hide Run, OnlyRepeats, Repeaters, Submits;
    RunShape(cfg, states, actions);
    var quiet, last := Repeaters(states, actions), states[|states| - 1];
    RepeatersAreRepeats(cfg, states, actions);
    mirror := RepeatsCanBeErased(cfg, states, actions, quiet);
    RunShape(cfg, mirror, Kept(actions, quiet));
    StayersAreOnePerKey(cfg, states, actions, mirror[|mirror| - 1]);
  }

  lemma StayersAreOnePerKey(cfg: Settings, states: seq<State>, actions: seq<Action>, m: State)
    requires ValidSettings(cfg) && Run(cfg, states, actions)
    requires UnitsMirror(states[|states| - 1].units, m.units, Repeaters(states, actions))
    ensures OneSubmissionPerKey(m)
  {
    hide Step, Enabled, Repeaters, Submits;
    forall p, q, providerId, key
      ensures Delivers(m, p, providerId, key) && Delivers(m, q, providerId, key) ==> p == q
    {
      if Delivers(m, p, providerId, key) && Delivers(m, q, providerId, key) {
        OneSettlerPerKey(cfg, states, actions, p, q, providerId, key);
      }
    }
  }

  lemma StayerSettles(cfg: Settings, states: seq<State>, actions: seq<Action>, p: Pid, providerId: Text, key: Text)
    returns (i: nat)
    requires ValidSettings(cfg) && Run(cfg, states, actions) && p !in Repeaters(states, actions)
    requires p in states[|states| - 1].units && Submits(states[|states| - 1].units[p].job, providerId, key)
    ensures i < |actions| && !actions[i].OpenNew? && actions[i].p == p && SettlesKey(states[i], actions[i], providerId, key)
  {
    hide Step, Enabled, Reachable, SettlesKey;
    i :| 0 <= i < |actions| && 0 <= i && !actions[i].OpenNew? && actions[i].p == p && Settles(states[i], actions[i]);
    RunReaches(cfg, states, actions, i);
    RunKeepsJobs(cfg, states, actions, i, |states| - 1, p);
    SettlingUnderKey(cfg, states[i], actions[i], providerId, key);
  }

  lemma OneSettlerPerKey(cfg: Settings, states: seq<State>, actions: seq<Action>, p: Pid, q: Pid, providerId: Text,
                         key: Text)
    requires ValidSettings(cfg) && Run(cfg, states, actions)
    requires p !in Repeaters(states, actions) && q !in Repeaters(states, actions)
    requires p in states[|states| - 1].units && Submits(states[|states| - 1].units[p].job, providerId, key)
    requires q in states[|states| - 1].units && Submits(states[|states| - 1].units[q].job, providerId, key)
    ensures p == q
  {
    hide Step, Enabled, Submits, Repeaters, SettlesKey;
    var i := StayerSettles(cfg, states, actions, p, providerId, key);
    var j := StayerSettles(cfg, states, actions, q, providerId, key);
    EachKeySettlesOnce(cfg, states, actions, i, j, providerId, key);
  }
}
