/** A whole run as a list of atomic steps on the tables, in commit order. */
module AtomicRuns {
  import opened Values
  import opened Moneys
  import opened Wagering
  import opened Settlements
  import opened Databases
  import opened DataInvariants
  import opened TableWrites
  import opened Protocol
  import opened LockDiscipline
  import opened UnitKnowledge
  import opened ProtocolInvariant
  import opened Safety
  import opened Refinement
  import opened Guarantees
  import opened Duplicates

  /** What one commit does to the tables, without the process that did it. `woken` are the rows its wake-up took. */
  datatype Atomic =
    | SettleOne(door: Door, job: Job, op: Tx, entryId: Id, now: Time, woken: set<Id>)
    | AnswerFrom(job: Job, existing: Id)
    | GiveUpOn(target: Id, now: Time)
    | OpenOne(playerId: Id, initial: Money, id: Id, openingId: Id, entryId: Id, correlationId: Text, now: Time)

  /** Read the tables, decide, write, wake and complete the inbox row in one indivisible step. */
  ghost function Perform(cfg: Settings, db: DB, x: Atomic): DB {
    match x
    case SettleOne(door, job, op, entryId, now, woken) =>
      if op.command.walletId !in db.wallets then db
      else
        (match AtomicSettle(door, cfg, db, op, entryId, now)
         case Err(_) => db
         case Ok(e) =>
           if e.account.id !in db.ledger || e.account.id !in db.outbox then db
           else CompleteInbox(Wake(Persist(db, e), woken, now), job, OutcomeOf(e.op.status), e.op.id))
    case AnswerFrom(job, existing) => CompleteInbox(db, job, OutcomeReplay, existing)
    case GiveUpOn(target, now) =>
      if target in db.txs && MarkFailed(db.txs[target], now).Ok? then
        db.(txs := db.txs[target := MarkFailed(db.txs[target], now).value])
      else db
    case OpenOne(playerId, initial, id, openingId, entryId, correlationId, now) =>
      match PlanOpening(id, playerId, initial, openingId, entryId, correlationId, now)
      case None => db
      case Some(plan) => OpenRows(db, plan.0, plan.1, plan.2, plan.3)
  }

  ghost function PerformAll(cfg: Settings, db: DB, xs: seq<Atomic>): DB {
    if xs == [] then db else Perform(cfg, PerformAll(cfg, db, xs[..|xs| - 1]), xs[|xs| - 1])
  }

  /** The atomic step of an action, if it changes the tables. */
  function AtomicOf(s: State, a: Action): seq<Atomic> {
    match a
    case Commit(p, result) =>
      if result == LostBefore || p !in s.units then []
      else
        (match s.units[p]
         case Committing(job, now, op, _, _, entryId, _, woken) => [SettleOne(DoorOf(job), job, op, entryId, now, woken)]
         case Replaying(job, existing) => [AnswerFrom(job, existing.id)]
         case Failing(_, target, now, _) => [GiveUpOn(target, now)]
         case _ => [])
    case OpenNew(playerId, initial, id, openingId, entryId, correlationId, now) =>
      [OpenOne(playerId, initial, id, openingId, entryId, correlationId, now)]
    case _ => []
  }

  function AtomicsOf(states: seq<State>, actions: seq<Action>): seq<Atomic>
    requires |states| == |actions| + 1
  {
    if actions == [] then []
    else
      var n := |actions| - 1;
      AtomicsOf(states[..n + 1], actions[..n]) + AtomicOf(states[n], actions[n])
  }

  /** At its commit the standing of the original still gives the answer the unit decided. */
  ghost predicate Timely(s: State, a: Action) {
    a.Commit? && a.result != LostBefore && a.p in s.units && s.units[a.p].Committing? ==>
      var u := s.units[a.p];
      StillTheAnswer(u.account, u.op, u.reference, CommittedReference(s.db, u.op), u.now)
  }

  lemma CommitIsPerformed(cfg: Settings, s: State, u: Unit)
    requires u.Committing? && u.op.command.walletId in s.db.wallets
    requires u.effect.account.id in s.db.ledger && u.effect.account.id in s.db.outbox
    requires AtomicSettle(DoorOf(u.job), cfg, s.db, u.op, u.entryId, u.now) == Ok(u.effect)
    ensures Applied(s.db, u) == Perform(cfg, s.db, SettleOne(DoorOf(u.job), u.job, u.op, u.entryId, u.now, u.woken))
  {
    hide AtomicSettle, Persist, Wake;
  }

  lemma FailureIsPerformed(cfg: Settings, s: State, u: Unit)
    requires u.Failing? && GiveUpOk(s.db, s.clock, u)
    ensures Applied(s.db, u) == Perform(cfg, s.db, GiveUpOn(u.target, u.now))
  {
  }

  lemma GiveUpKnows(cfg: Settings, s: State, u: Unit)
    requires UnitOk(cfg, s.db, s.used, s.clock, s.missed, u)
    ensures GiveUpOk(s.db, s.clock, u)
  {
  }

  lemma EffectiveCommitIsPerformed(cfg: Settings, s: State, a: Action)
    requires ValidSettings(cfg) && Reachable(cfg, s) && Enabled(s, a) && a.Commit? && a.result != LostBefore
    requires Timely(s, a)
    ensures Step(cfg, s, a).db == PerformAll(cfg, s.db, AtomicOf(s, a))
  {
    hide Reachable, Enabled, Step, Applied, Perform, UnitOk, WalletsOk, LedgerOk, TxsOk, KeysOk, InboxOk, MoneyInv,
         EventsInv, LockInv, AttemptsOk, WakesOk, UsedOk, StillTheAnswer, AtomicSettle;
    ReachableTables(cfg, s);
    CommitStepIs(cfg, s, a.p, a.result);
    var u := s.units[a.p];
    match u
    case Committing(_, _, _, _, _, _, _, _) =>
      CommitIsAtomicExactlyWhen(cfg, s, a.p);
      CommitIsPerformed(cfg, s, u);
      OneAtomic(cfg, s.db, SettleOne(DoorOf(u.job), u.job, u.op, u.entryId, u.now, u.woken));
    case Replaying(job, existing) =>
      ReplayIsPerformed(cfg, s.db, u);
      OneAtomic(cfg, s.db, AnswerFrom(job, existing.id));
    case Failing(_, _, _, _) =>
      GiveUpKnows(cfg, s, u);
      FailureIsPerformed(cfg, s, u);
      OneAtomic(cfg, s.db, GiveUpOn(u.target, u.now));
    case _ =>
      NothingApplied(s.db, u);
  }

  lemma OneAtomic(cfg: Settings, db: DB, x: Atomic)
    ensures PerformAll(cfg, db, [x]) == Perform(cfg, db, x)
  {
    hide Perform;
    assert [x][..0] == [];
  }

  lemma ReplayIsPerformed(cfg: Settings, db: DB, u: Unit)
    requires u.Replaying?
    ensures Applied(db, u) == Perform(cfg, db, AnswerFrom(u.job, u.existing.id))
  {
  }

  lemma NothingApplied(db: DB, u: Unit)
    requires !u.Committing? && !u.Replaying? && !u.Failing?
    ensures Applied(db, u) == db
  {
  }

  lemma OpeningIsPerformed(cfg: Settings, s: State, a: Action)
    requires Enabled(s, a) && a.OpenNew?
    ensures Step(cfg, s, a).db == PerformAll(cfg, s.db, AtomicOf(s, a))
  {
    hide PlanOpening, OpenRows;
    OneAtomic(cfg, s.db, AtomicOf(s, a)[0]);
  }

  /** Every step of every process is one atomic step on the tables, or none. */
  lemma StepIsPerformed(cfg: Settings, s: State, a: Action)
    requires ValidSettings(cfg) && Reachable(cfg, s) && Enabled(s, a) && Timely(s, a)
    ensures Step(cfg, s, a).db == PerformAll(cfg, s.db, AtomicOf(s, a))
  {
    hide Reachable, Enabled, Step, Perform, Timely;
    if a.OpenNew? {
      OpeningIsPerformed(cfg, s, a);
    } else if a.Commit? {
      if a.result == LostBefore {
        CommitStepIs(cfg, s, a.p, a.result);
      } else {
        EffectiveCommitIsPerformed(cfg, s, a);
      }
    } else {
      LocalStepFrame(cfg, s, a);
    }
  }

  lemma {:induction false} PerformedTogether(cfg: Settings, db: DB, xs: seq<Atomic>, ys: seq<Atomic>)
    ensures PerformAll(cfg, db, xs + ys) == PerformAll(cfg, PerformAll(cfg, db, xs), ys)
  {
    hide Perform;
    if ys == [] {
      assert xs + ys == xs;
    } else {
      PerformedTogether(cfg, db, xs, ys[..|ys| - 1]);
      assert (xs + ys)[..|xs + ys| - 1] == xs + ys[..|ys| - 1];
    }
  }

  /** A run all of whose settlements are timely is a sequence of atomic steps: performing them one after another in
      commit order, from empty tables, gives the tables the interleaved run ends with. */
  lemma {:induction false} RunIsAtomic(cfg: Settings, states: seq<State>, actions: seq<Action>)
    requires ValidSettings(cfg) && Run(cfg, states, actions)
    requires forall i :: 0 <= i < |actions| ==> Timely(states[i], actions[i])
    ensures states[|states| - 1].db == PerformAll(cfg, EMPTY_DB, AtomicsOf(states, actions))
    decreases |actions|
  {
    hide Step, Enabled, Reachable, Timely, Perform, AtomicOf;
    if actions != [] {
      var n := |actions| - 1;
      RunPrefix(cfg, states, actions, n);
      RunIsAtomic(cfg, states[..n + 1], actions[..n]);
      RunReaches(cfg, states, actions, n);
      assert Follows(cfg, states[n], actions[n], states[n + 1]);
      StepIsPerformed(cfg, states[n], actions[n]);
      PerformedTogether(cfg, EMPTY_DB, AtomicsOf(states[..n + 1], actions[..n]), AtomicOf(states[n], actions[n]));
    }
  }

  /** A settlement whose wake-up finds no row locked is an item of the atomic service. */
  lemma FreeWakeUpIsServed(cfg: Settings, db: DB, x: Atomic)
    requires x.SettleOne? && x.op.command.walletId in db.wallets
    requires var r := AtomicSettle(x.door, cfg, db, x.op, x.entryId, x.now);
             r.Ok? ==> x.woken == if r.value.op.status == PendingReference then {}
                                  else set t | t in db.txs && Asleep(db, x.op, x.now, t)
    ensures Perform(cfg, db, x) == SettleNow(cfg, db, x.door, x.job, x.op, x.entryId, x.now)
  {
    hide AtomicSettle, Asleep;
  }
}
