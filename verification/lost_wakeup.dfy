/** A run in which a wake-up is lost: the give-up path holds the waiting row when its original settles, then leaves
    it as it was. */
module LostWakeUp {
  import opened Values
  import opened Moneys
  import opened Wallets
  import opened Wagering
  import opened Settlements
  import opened Backoffs
  import opened Databases
  import opened TableWrites
  import opened Protocol
  import opened LockDiscipline
  import opened ProtocolInvariant
  import opened UnitSteps
  import opened Safety

  const CFG := Settings(10, 1000, 5, 100)

  // ---- one step at a time ----

  lemma Takes(cfg: Settings, s: State, a: Action, after: State)
    requires Reachable(cfg, s) && Enabled(s, a) && Step(cfg, s, a) == after
    ensures Reachable(cfg, after)
  {
    ReachesNext(cfg, s, a);
  }

  /** Spawn and read the clock. */
  lemma Arrives(cfg: Settings, s: State, p: Pid, job: Job, now: Time)
    requires Reachable(cfg, s) && p !in s.units && now > 0 && (job.SubmitJob? ==> ValidInput(job.input))
    ensures Reachable(cfg, s.(units := s.units[p := AfterClock(job, now)], clock := MaxTime(s.clock, now)))
  {
    var s1 := Put(s, p, Idle(job));
    Takes(cfg, s, Spawn(p, job), s1);
    var s2 := s.(units := s.units[p := AfterClock(job, now)], clock := MaxTime(s.clock, now));
    assert s.units[p := Idle(job)][p := AfterClock(job, now)] == s.units[p := AfterClock(job, now)];
    Takes(cfg, s1, ReadClock(p, now), s2);
  }

  /** Insert under free keys. */
  lemma Inserts(cfg: Settings, s: State, p: Pid, id: Id, op: Tx)
    requires Reachable(cfg, s) && p in s.units && s.units[p].Inserting? && s.units[p].job.SubmitJob?
    requires Enabled(s, Insert(p, id))
    requires NewExternal(CommandOf(s.units[p].job.input), id, s.units[p].now) == Ok(op)
    requires KeysFree(s.db.txs, op) && op.command.walletId in s.db.wallets
    ensures var c := op.command;
            Reachable(cfg, s.(
              units := s.units[p := Locking(s.units[p].job, s.units[p].now, op)],
              locks := s.locks[IdempotencyKey(c.providerId, c.idempotencyKey) := p]
                              [ExternalKey(c.providerId, c.externalId) := p][RowKey(id) := p],
              used := s.used + {id}))
  {
    hide NewExternal, KeysFree;
    ReachesNext(cfg, s, Insert(p, id));
  }

  lemma LocksWallet(cfg: Settings, s: State, p: Pid)
    requires Reachable(cfg, s) && Enabled(s, LockWallet(p))
    ensures var u := s.units[p];
            var w := u.op.command.walletId;
            Reachable(cfg, s.(units := s.units[p := Finding(u.job, u.now, u.op, s.db.wallets[w])],
                              locks := s.locks[WalletKey(w) := p]))
  {
    ReachesNext(cfg, s, LockWallet(p));
  }

  lemma FindsNothing(cfg: Settings, s: State, p: Pid)
    requires Reachable(cfg, s) && Enabled(s, Find(p))
    requires s.units[p].op.command.referenceExternalId != Empty ==>
               forall t :: t in Visible(s.db, s.units[p].op) ==> !Names(s.units[p].op, Visible(s.db, s.units[p].op)[t])
    ensures var u := s.units[p];
            Reachable(cfg, s.(units := s.units[p := Deciding(u.job, u.now, u.op, u.account, None)]))
  {
    var op := s.units[p].op;
    FoundByExternalId(Visible(s.db, op), op.command.providerId, op.command.referenceExternalId);
    ReachesNext(cfg, s, Find(p));
  }

  lemma DecidesOn(cfg: Settings, s: State, p: Pid, entryId: Id, effect: Effect)
    requires Reachable(cfg, s) && Enabled(s, DecideIt(p, entryId))
    requires Settle(DoorOf(s.units[p].job), cfg, s.units[p].account, s.units[p].op, s.units[p].reference, entryId,
                    s.units[p].now) == Ok(effect)
    requires effect.entry.None?
    ensures var u := s.units[p];
            Reachable(cfg, s.(
              units := s.units[p := if effect.op.status == PendingReference
                                    then Committing(u.job, u.now, u.op, u.account, u.reference, entryId, effect, {})
                                    else Waking(u.job, u.now, u.op, u.account, u.reference, entryId, effect)],
              used := s.used + {entryId}))
  {
    hide Settle;
    ReachesNext(cfg, s, DecideIt(p, entryId));
  }

  // ---- the characters ----

  const OWNER := WalletState(1, 9, Money(0, BRL), 1, 1, 1)

  function Request(kind: Kind, k: nat, reference: Text): Input {
    Input(Command(Http, kind, Word(0), Word(k), Word(k), NoHash, 9, 1, Word(0), Word(0), Money(7, BRL), reference, Word(0)),
          None)
  }

  /** The refund of a bet that has not arrived. */
  const REFUND := SubmitJob(Request(Refund, 1, Word(2)))
  const BET := SubmitJob(Request(Bet, 2, Empty))

  function Born(job: Job, id: Id, now: Time): Tx
    requires job.SubmitJob?
  {
    Tx(id, CommandOf(job.input), now, Pending, NIL, NoFailure, NO_MONEY, 0, 0, 0, now, 0)
  }

  const PARKED := Born(REFUND, 10, 1).(status := PendingReference, nextAttemptAt := 11, deadlineAt := 1001)
  const POSTPONED := PARKED.(attempts := 1, nextAttemptAt := 30, updatedAt := 20)
  const REFUSED := Born(BET, 20, 20).(status := Rejected, failureCode := InsufficientFunds,
                                      resultBalance := Money(0, BRL), completedAt := 20)

  lemma JobsAreBorn(now: Time)
    requires now > 0
    ensures NewExternal(CommandOf(REFUND.input), 10, now) == Ok(Born(REFUND, 10, now))
    ensures NewExternal(CommandOf(BET.input), 20, now) == Ok(Born(BET, 20, now))
  {
  }

  /** What the scene looks like between the acts. */
  predicate Scene(s: State, units: map<Pid, Unit>, locks: map<Resource, Pid>, txs: map<Id, Tx>, used: set<Id>,
                  clock: Time, missed: set<Skip>)
  {
    && s.units == units && s.locks == locks && s.db.txs == txs && s.used == used && s.clock == clock
    && s.missed == missed
    && s.db.wallets == map[1 := OWNER] && s.db.ledger.Keys == {1} && s.db.outbox.Keys == {1} && s.db.inbox == map[]
  }

  const FIRST_UNITS: map<Pid, Unit> := map[1 := Ended(REFUND, Answered(AnswerOf(PARKED, false)))]

  lemma WalletOpens() returns (s: State)
    ensures Reachable(CFG, s) && Scene(s, map[], map[], map[], {NIL, 1, 2, 3}, 1, {})
  {
    assert Run(CFG, [INITIAL], []) && [INITIAL][|[INITIAL]| - 1] == INITIAL;
    var a := OpenNew(9, Money(0, BRL), 1, 2, 3, Word(0), 1);
    assert PlanOpening(1, 9, Money(0, BRL), 2, 3, Word(0), 1).value.0 == OWNER;
    s := Step(CFG, INITIAL, a);
    ReachesNext(CFG, INITIAL, a);
  }

  lemma RefundWaits(op: Tx, door: Door, now: Time, entryId: Id)
    requires (door == Submission && op == Born(REFUND, 10, 1) && now == 1) || (door == Retry && op == PARKED && now == 20)
    ensures var r := Settle(door, CFG, OWNER, op, None, entryId, now);
            && r.Ok? && r.value.entry.None? && r.value.account == OWNER
            && r.value.op == if door == Submission then PARKED else POSTPONED
  {
    assert Doubling(10, 100, 0) == 10 && Wrap(10) == 10;
    assert Backoff(5, 100, 1) == 10;
  }

  // ---- the acts ----

  function SubmitLocks(locks: map<Resource, Pid>, p: Pid, op: Tx): map<Resource, Pid> {
    locks[IdempotencyKey(op.command.providerId, op.command.idempotencyKey) := p]
         [ExternalKey(op.command.providerId, op.command.externalId) := p][RowKey(op.id) := p]
         [WalletKey(op.command.walletId) := p]
  }

  /** Undisturbed, a submission under free keys gets as far as reading its reference. */
  lemma SubmitFinds(cfg: Settings, s: State, p: Pid, job: Job, now: Time, op: Tx)
    requires Reachable(cfg, s) && p !in s.units && now > 0 && job.SubmitJob? && !FromQueue(job) && ValidInput(job.input)
    requires NewExternal(CommandOf(job.input), op.id, now) == Ok(op) && op.id !in s.used && RowKey(op.id) !in s.locks
    requires op.command == CommandOf(job.input) && KeysFree(s.db.txs, op) && op.command.walletId in s.db.wallets
    requires IdempotencyKey(op.command.providerId, op.command.idempotencyKey) !in s.locks
    requires ExternalKey(op.command.providerId, op.command.externalId) !in s.locks
    requires WalletKey(op.command.walletId) !in s.locks
    ensures Reachable(cfg, s.(
              units := s.units[p := Finding(job, now, op, s.db.wallets[op.command.walletId])],
              locks := SubmitLocks(s.locks, p, op), used := s.used + {op.id}, clock := MaxTime(s.clock, now)))
  {
    hide NewExternal, KeysFree, Reachable;
    Arrives(cfg, s, p, job, now);
    var s1 := s.(units := s.units[p := Inserting(job, now)], clock := MaxTime(s.clock, now));
    Inserts(cfg, s1, p, op.id, op);
    var s2 := s1.(units := s.units[p := Locking(job, now, op)], used := s.used + {op.id},
                  locks := s.locks[IdempotencyKey(op.command.providerId, op.command.idempotencyKey) := p]
                                  [ExternalKey(op.command.providerId, op.command.externalId) := p][RowKey(op.id) := p]);
    assert s2.units == s1.units[p := Locking(job, now, op)];
    LocksWallet(cfg, s2, p);
    var last := Finding(job, now, op, s.db.wallets[op.command.walletId]);
    assert s2.units[p := last] == s.units[p := last];
  }

  /** When the reference is not there, as far as its decision. */
  lemma SubmitDecides(cfg: Settings, s: State, p: Pid, job: Job, now: Time, op: Tx)
    requires Reachable(cfg, s) && p !in s.units && now > 0 && job.SubmitJob? && !FromQueue(job) && ValidInput(job.input)
    requires NewExternal(CommandOf(job.input), op.id, now) == Ok(op) && op.id !in s.used && RowKey(op.id) !in s.locks
    requires op.command == CommandOf(job.input) && KeysFree(s.db.txs, op) && op.command.walletId in s.db.wallets
    requires IdempotencyKey(op.command.providerId, op.command.idempotencyKey) !in s.locks
    requires ExternalKey(op.command.providerId, op.command.externalId) !in s.locks
    requires WalletKey(op.command.walletId) !in s.locks
    requires op.command.referenceExternalId != Empty ==>
               forall t :: t in Visible(s.db, op) ==> !Names(op, Visible(s.db, op)[t])
    ensures Reachable(cfg, s.(
              units := s.units[p := Deciding(job, now, op, s.db.wallets[op.command.walletId], None)],
              locks := SubmitLocks(s.locks, p, op), used := s.used + {op.id}, clock := MaxTime(s.clock, now)))
  {
    hide NewExternal, KeysFree, Reachable, Visible, Names;
    SubmitFinds(cfg, s, p, job, now, op);
    var account := s.db.wallets[op.command.walletId];
    var s3 := s.(units := s.units[p := Finding(job, now, op, account)], locks := SubmitLocks(s.locks, p, op),
                 used := s.used + {op.id}, clock := MaxTime(s.clock, now));
    FindsNothing(cfg, s3, p);
    assert s3.units[p := Deciding(job, now, op, account, None)] == s.units[p := Deciding(job, now, op, account, None)];
  }

  /** Undisturbed, the worker that claims a due row gets as far as its decision. */
  lemma RetryDecides(cfg: Settings, s: State, p: Pid, now: Time, t: Id)
    requires Reachable(cfg, s) && p !in s.units && now > 0
    requires t in s.db.txs && s.db.txs[t].status == PendingReference && s.db.txs[t].nextAttemptAt <= now
    requires RowKey(t) !in s.locks && s.db.txs[t].command.walletId in s.db.wallets
    requires WalletKey(s.db.txs[t].command.walletId) !in s.locks
    requires forall o :: o in Visible(s.db, s.db.txs[t]) ==> !Names(s.db.txs[t], Visible(s.db, s.db.txs[t])[o])
    ensures var op := s.db.txs[t];
            Reachable(cfg, s.(
              units := s.units[p := Deciding(RetryJob, now, op, s.db.wallets[op.command.walletId], None)],
              locks := s.locks[RowKey(t) := p][WalletKey(op.command.walletId) := p], clock := MaxTime(s.clock, now)))
  {
    hide Reachable, Visible, Names;
    var op := s.db.txs[t];
    var account := s.db.wallets[op.command.walletId];
    var s2 := Claimed(cfg, s, p, now, t);
    LocksWallet(cfg, s2, p);
    var s3 := s2.(units := s.units[p := Finding(RetryJob, now, op, account)],
                  locks := s.locks[RowKey(t) := p][WalletKey(op.command.walletId) := p]);
    assert s3.units == s2.units[p := Finding(RetryJob, now, op, account)];
    FindsNothing(cfg, s3, p);
    assert s3.units[p := Deciding(RetryJob, now, op, account, None)]
        == s.units[p := Deciding(RetryJob, now, op, account, None)];
  }

  lemma Claimed(cfg: Settings, s: State, p: Pid, now: Time, t: Id) returns (after: State)
    requires Reachable(cfg, s) && p !in s.units && now > 0
    requires t in s.db.txs && s.db.txs[t].status == PendingReference && s.db.txs[t].nextAttemptAt <= now
    requires RowKey(t) !in s.locks
    ensures after == s.(units := s.units[p := Locking(RetryJob, now, s.db.txs[t])], locks := s.locks[RowKey(t) := p],
                        clock := MaxTime(s.clock, now))
    ensures Reachable(cfg, after)
  {
    hide Reachable;
    Arrives(cfg, s, p, RetryJob, now);
    var s1 := s.(units := s.units[p := Claiming(RetryJob, now)], clock := MaxTime(s.clock, now));
    after := s.(units := s.units[p := Locking(RetryJob, now, s.db.txs[t])], locks := s.locks[RowKey(t) := p],
                clock := MaxTime(s.clock, now));
    assert after.units == s1.units[p := Locking(RetryJob, now, s.db.txs[t])];
    Takes(cfg, s1, Claim(p, t), after);
  }

  /** What is left of a unit that has decided to wait, once its commit is confirmed. */
  lemma WaitCommits(cfg: Settings, s: State, p: Pid, entryId: Id, effect: Effect) returns (after: State)
    requires Reachable(cfg, s) && p in s.units && s.units[p].Deciding? && entryId !in s.used && !FromQueue(s.units[p].job)
    requires Settle(DoorOf(s.units[p].job), cfg, s.units[p].account, s.units[p].op, s.units[p].reference, entryId,
                    s.units[p].now) == Ok(effect)
    requires effect.entry.None? && effect.op.status == PendingReference && effect.account == s.units[p].account
    requires effect.account.id in s.db.ledger && effect.account.id in s.db.outbox
    requires effect.account.id in s.db.wallets && s.db.wallets[effect.account.id] == effect.account
    ensures Reachable(cfg, after)
    ensures after.locks == Release(s.locks, p) && after.used == s.used + {entryId}
    ensures after.clock == s.clock && after.missed == s.missed && after.db.txs == s.db.txs[effect.op.id := effect.op]
    ensures after.db.wallets == s.db.wallets && after.db.inbox == s.db.inbox
    ensures after.db.ledger.Keys == s.db.ledger.Keys && after.db.outbox.Keys == s.db.outbox.Keys
    ensures after.units == s.units[p := Ended(s.units[p].job, if s.units[p].job.SubmitJob?
                                                              then Answered(AnswerOf(effect.op, false)) else Finished)]
  {
    hide Settle, Reachable;
    DecidesOn(cfg, s, p, entryId, effect);
    var u := s.units[p];
    var next := Committing(u.job, u.now, u.op, u.account, u.reference, entryId, effect, {});
    var s1 := s.(units := s.units[p := next], used := s.used + {entryId});
    after := Step(cfg, s1, Commit(p, Confirmed));
    ReachesNext(cfg, s1, Commit(p, Confirmed));
    var txs := s.db.txs[effect.op.id := effect.op];
    assert WakeRows(txs, {}, u.now) == txs;
    assert s.db.wallets[effect.account.id := effect.account] == s.db.wallets;
    assert after.units == s.units[p := next][p := after.units[p]];
  }

  lemma RefundParks() returns (s: State)
    ensures Reachable(CFG, s) && Scene(s, FIRST_UNITS, map[], map[10 := PARKED], {NIL, 1, 2, 3, 10, 11}, 1, {})
  {
    hide NewExternal, Settle, Reachable;
    var s0 := WalletOpens();
    JobsAreBorn(1);
    var op := Born(REFUND, 10, 1);
    SubmitDecides(CFG, s0, 1, REFUND, 1, op);
    var s1 := s0.(units := s0.units[1 := Deciding(REFUND, 1, op, OWNER, None)], locks := SubmitLocks(s0.locks, 1, op),
                  used := s0.used + {10}, clock := MaxTime(s0.clock, 1));
    RefundWaits(op, Submission, 1, 11);
    s := WaitCommits(CFG, s1, 1, 11, Settle(Submission, CFG, OWNER, op, None, 11, 1).value);
    assert s.locks == map[];
    assert s.db.txs == map[10 := PARKED];
    assert s.units == FIRST_UNITS;
  }

  /** The first worker claims the refund when it is due, fails for good, and will give up on it. */
  lemma WorkerFails() returns (s: State)
    ensures Reachable(CFG, s)
    ensures Scene(s, FIRST_UNITS[2 := GivingUp(RetryJob, 10)], map[], map[10 := PARKED], {NIL, 1, 2, 3, 10, 11}, 20, {})
  {
    hide Reachable;
    var s0 := RefundParks();
    var s1 := Claimed(CFG, s0, 2, 20, 10);
    var a := Abort(2, InvalidSnapshot);
    s := Step(CFG, s1, a);
    ReachesNext(CFG, s1, a);
    assert s.units == FIRST_UNITS[2 := GivingUp(RetryJob, 10)];
    assert s.locks == map[];
  }

  const SECOND_UNITS: map<Pid, Unit> := FIRST_UNITS[2 := GivingUp(RetryJob, 10)][3 := Ended(RetryJob, Finished)]

  /** Before it does, a second worker claims the refund, finds no original, and postpones it. */
  lemma WorkerPostpones() returns (s: State)
    ensures Reachable(CFG, s)
    ensures Scene(s, SECOND_UNITS, map[], map[10 := POSTPONED], {NIL, 1, 2, 3, 10, 11, 12}, 20, {})
  {
    hide Settle, Reachable;
    var s0 := WorkerFails();
    RetryDecides(CFG, s0, 3, 20, 10);
    var s1 := s0.(units := s0.units[3 := Deciding(RetryJob, 20, PARKED, OWNER, None)],
                  locks := s0.locks[RowKey(10) := 3][WalletKey(1) := 3], clock := MaxTime(s0.clock, 20));
    RefundWaits(PARKED, Retry, 20, 12);
    s := WaitCommits(CFG, s1, 3, 12, Settle(Retry, CFG, OWNER, PARKED, None, 12, 20).value);
    assert s.locks == map[];
    assert s.db.txs == map[10 := POSTPONED];
    assert s.units == SECOND_UNITS;
  }

  const FAILING := Failing(RetryJob, 10, 20, Some(POSTPONED))

  /** Now the give-up transaction of the first worker locks the row. */
  lemma GiveUpLocks() returns (s: State)
    ensures Reachable(CFG, s)
    ensures Scene(s, SECOND_UNITS[2 := FAILING], map[RowKey(10) := 2], map[10 := POSTPONED],
                  {NIL, 1, 2, 3, 10, 11, 12}, 20, {})
  {
    hide Reachable;
    var s0 := WorkerPostpones();
    s := Step(CFG, s0, LockTarget(2, 20));
    ReachesNext(CFG, s0, LockTarget(2, 20));
    assert s.locks == map[RowKey(10) := 2];
  }

  lemma BetIsRefused(entryId: Id)
    ensures var r := Settle(Submission, CFG, OWNER, Born(BET, 20, 20), None, entryId, 20);
            r.Ok? && r.value.entry.None? && r.value.account == OWNER && r.value.op == REFUSED
  {
  }

  const BET_LOCKS := SubmitLocks(map[RowKey(10) := 2], 4, Born(BET, 20, 20))

  /** The bet arrives and is decided: there are no funds. */
  lemma BetDecides() returns (s: State)
    ensures Reachable(CFG, s)
    ensures Scene(s, SECOND_UNITS[2 := FAILING][4 := Deciding(BET, 20, Born(BET, 20, 20), OWNER, None)], BET_LOCKS,
                  map[10 := POSTPONED], {NIL, 1, 2, 3, 10, 11, 12, 20}, 20, {})
  {
    hide NewExternal, Reachable;
    var s0 := GiveUpLocks();
    JobsAreBorn(20);
    var op := Born(BET, 20, 20);
    SubmitDecides(CFG, s0, 4, BET, 20, op);
    s := s0.(units := s0.units[4 := Deciding(BET, 20, op, OWNER, None)], locks := SubmitLocks(s0.locks, 4, op),
             used := s0.used + {20}, clock := MaxTime(s0.clock, 20));
  }

  /** A wake-up that finds nothing to take only remembers what it skipped. */
  lemma WakesNothing(cfg: Settings, s: State, p: Pid)
    requires Reachable(cfg, s) && Enabled(s, WakeUp(p)) && Awakened(s, s.units[p]) == {}
    ensures var u := s.units[p];
            Reachable(cfg, s.(
              units := s.units[p := Committing(u.job, u.now, u.op, u.account, u.reference, u.entryId, u.effect, {})],
              missed := s.missed + Skipped(s, u)))
  {
    hide Awakened, Asleep, HeldByGiveUp;
    ReachesNext(cfg, s, WakeUp(p));
    assert WakeStep(s, p, s.units[p]).locks == s.locks;
  }

  const REFUND_SKIPPED := Skip(10, 20, 30)

  lemma RefundIsSkipped(s: State, u: Unit)
    requires u.Waking? && u.op == Born(BET, 20, 20) && u.now == 20
    requires s.db.txs == map[10 := POSTPONED] && RowKey(10) in s.locks && s.locks[RowKey(10)] == 2
    requires 2 in s.units && s.units[2] == FAILING
    ensures Awakened(s, u) == {} && Skipped(s, u) == {REFUND_SKIPPED}
  {
    assert Asleep(s.db, u.op, 20, 10) && HeldByGiveUp(s, 10);
  }

  /** Its wake-up skips the refund, whose row the give-up transaction holds. */
  lemma WakeUpSkips() returns (s: State, effect: Effect)
    ensures Reachable(CFG, s) && effect.op == REFUSED && effect.account == OWNER && effect.entry.None?
    ensures Scene(s, SECOND_UNITS[2 := FAILING][4 := Committing(BET, 20, Born(BET, 20, 20), OWNER, None, 21, effect, {})],
                  BET_LOCKS, map[10 := POSTPONED], {NIL, 1, 2, 3, 10, 11, 12, 20, 21}, 20, {REFUND_SKIPPED})
  {
    hide Settle, Reachable, Awakened, Skipped;
    var s0 := BetDecides();
    BetIsRefused(21);
    effect := Settle(Submission, CFG, OWNER, Born(BET, 20, 20), None, 21, 20).value;
    DecidesOn(CFG, s0, 4, 21, effect);
    var u := Waking(BET, 20, Born(BET, 20, 20), OWNER, None, 21, effect);
    var s1 := s0.(units := s0.units[4 := u], used := s0.used + {21});
    RefundIsSkipped(s1, u);
    WakesNothing(CFG, s1, 4);
    var next := Committing(BET, 20, Born(BET, 20, 20), OWNER, None, 21, effect, {});
    s := s1.(units := s1.units[4 := next], missed := s1.missed + {REFUND_SKIPPED});
    assert s.units == SECOND_UNITS[2 := FAILING][4 := next];
  }

  lemma BetCommits() returns (s: State)
    ensures Reachable(CFG, s) && s.clock == 20 && s.db.txs == map[10 := POSTPONED, 20 := REFUSED]
    ensures 2 in s.units && s.units[2] == FAILING
  {
    hide Reachable;
    var s0, effect := WakeUpSkips();
    s := Step(CFG, s0, Commit(4, Confirmed));
    ReachesNext(CFG, s0, Commit(4, Confirmed));
    assert WakeRows(s0.db.txs[20 := REFUSED], {}, 20) == s0.db.txs[20 := REFUSED];
    assert s0.db.txs[20 := REFUSED] == map[10 := POSTPONED, 20 := REFUSED];
  }

  /** A wake-up can be lost: in a reachable state no process holds the refund any more, its original is settled on its
      own wallet, and its next attempt lies beyond every clock reading taken. */
  lemma WakeUpsCanBeLost() returns (s: State)
    ensures ValidSettings(CFG) && Reachable(CFG, s)
    ensures Overslept(s.db.txs, s.clock, 10, 20) && RowKey(10) !in s.locks
  {
    hide Reachable;
    var s0 := BetCommits();
    s := Step(CFG, s0, Commit(2, LostBefore));
    ReachesNext(CFG, s0, Commit(2, LostBefore));
    assert Names(s.db.txs[10], s.db.txs[20]);
    ReleasedRow(s0, s);
  }

  lemma ReleasedRow(before: State, after: State)
    requires Reachable(CFG, before) && 2 in before.units && before.units[2] == FAILING
    requires after.locks == Release(before.locks, 2)
    ensures RowKey(10) !in after.locks
  {
    hide Inv;
    ReachableInv(CFG, before);
    InvParts(CFG, before);
    assert HeldBy(before.units, 2, RowKey(10));
    assert LockedBy(before.locks, 2, RowKey(10));
  }
}
