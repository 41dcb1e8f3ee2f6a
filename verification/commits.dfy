/** What a commit does to the tables: it is a committable settlement, and it touches only what its unit holds. */
module Commits {
  import opened Values
  import opened Wagering
  import opened Settlements
  import opened Databases
  import opened Conservation
  import opened DataInvariants
  import opened TableWrites
  import opened Protocol
  import opened LockDiscipline
  import opened UnitKnowledge
  import opened Interference

  // ---- a settlement is committable when its unit commits ----

  lemma CommitterIsReady(cfg: Settings, db: DB, used: set<Id>, clock: Time, u: Unit)
    requires ValidSettings(cfg) && WalletsOk(db)
    requires u.Committing? && OperationOk(cfg, db, used, clock, u.job, u.now, u.op) && WalletOk(db, u)
    requires ReferenceOk(cfg, db, u.job, u.op, OriginalOf(u)) && EffectOk(cfg, u)
    ensures Ready(DoorOf(u.job), cfg, u.account, u.op, u.reference, u.entryId, u.now)
    ensures EffectFollows(DoorOf(u.job), cfg, u.account, u.op, u.reference, u.effect, u.now)
  {
    SettlementIsComplete(DoorOf(u.job), cfg, u.account, u.op, u.reference, u.entryId, u.now);
  }

  /** The reference a reversal read under the wallet lock is still processed and unreversed: same round means
      same wallet, a final row never changes, and any other reversal of it needs the same wallet row. */
  lemma ConsumedReferenceHolds(cfg: Settings, db: DB, u: Unit)
    requires u.Committing? && ReferenceOk(cfg, db, u.job, u.op, OriginalOf(u)) && ReversedOk(db, u.op, u.reference)
    requires SameIdentity(u.op, u.effect.op)
    requires u.effect.op.status == Processed && u.op.command.kind.Reversal() ==>
               Consumes(u.op, u.reference, u.effect.op)
    ensures ReferenceHolds(db, u.effect)
    ensures u.effect.op.status == Processed && u.effect.op.command.kind.Reversal() ==>
              && u.reference.Some? && u.effect.op.referenceId in db.txs
              && db.txs[u.effect.op.referenceId] == u.reference.value.transaction
  {
  }

  lemma CommitterIsCommittable(cfg: Settings, db: DB, used: set<Id>, clock: Time, missed: set<Skip>, u: Unit)
    requires ValidSettings(cfg) && WalletsOk(db)
    requires u.Committing? && UnitOk(cfg, db, used, clock, missed, u)
    ensures Committable(db, DoorOf(u.job), cfg, u.account, u.op, u.reference, u.effect, u.now)
    ensures u.effect.account.id == u.op.command.walletId
  {
    CommitterIsReady(cfg, db, used, clock, u);
    EffectMovesAccount(DoorOf(u.job), cfg, u.account, u.op, u.reference, u.effect, u.now);
    ConsumedReferenceHolds(cfg, db, u);
  }

  /** What Applied does to the operations when a settlement commits. */
  predicate Writes(u: Unit, txs: map<Id, Tx>, after: map<Id, Tx>)
    requires u.Committing?
  {
    && after.Keys == txs.Keys + {u.op.id}
    && u.op.id in after && after[u.op.id] == u.effect.op && SameIdentity(u.op, u.effect.op)
    && forall t :: t in txs && t in after && t != u.op.id ==>
         after[t] == if t in u.woken then txs[t].(nextAttemptAt := u.now, updatedAt := u.now) else txs[t]
  }

  lemma CommitWrites(db: DB, u: Unit)
    requires u.Committing? && u.effect.account.id in db.ledger && u.effect.account.id in db.outbox
    requires SameIdentity(u.op, u.effect.op) && u.op.id !in u.woken
    ensures Writes(u, db.txs, Applied(db, u).txs)
    ensures Applied(db, u).wallets == db.wallets[u.effect.account.id := u.effect.account]
  {
  }

  lemma SettlementAnswers(db: DB, u: Unit, txs: map<Id, Tx>)
    requires u.Committing? && FromQueue(u.job) && ValidInput(u.job.input)
    requires u.op.command == CommandOf(u.job.input) && u.op.command.kind != Opening
    requires u.op.id in txs && SameIdentity(u.op, txs[u.op.id])
    ensures Answers(txs[u.op.id], u.job.input.message.value.bodyHash)
  {
  }

  lemma TablesHold(cfg: Settings, db: DB)
    requires DataInv(db, cfg)
    ensures WalletsOk(db) && LedgerOk(db) && TxsOk(db, cfg) && KeysOk(db.txs) && InboxOk(db) && ReversalsOk(db.txs)
    ensures MoneyInv(db) && EventsInv(db, cfg)
  {
    hide WalletsOk, LedgerOk, TxsOk, KeysOk, InboxOk, ReversalsOk, EventsInv, EntriesOk, MovementsRecorded,
         OneReversalEach, Conserved;
  }

  lemma CommittableKeepsIdentity(cfg: Settings, db: DB, u: Unit)
    requires u.Committing?
    requires Committable(db, DoorOf(u.job), cfg, u.account, u.op, u.reference, u.effect, u.now)
    ensures SameIdentity(u.op, u.effect.op)
  {
  }

  lemma SettlementCommitKeepsData(cfg: Settings, db: DB, used: set<Id>, clock: Time, missed: set<Skip>, u: Unit)
    requires ValidSettings(cfg) && DataInv(db, cfg)
    requires u.Committing? && UnitOk(cfg, db, used, clock, missed, u)
    ensures u.effect.account.id in db.ledger && u.effect.account.id in db.outbox
    ensures DataInv(Applied(db, u), cfg)
  {
    hide UnitOk, DataInv, Committable, WalletsOk, LedgerOk, TxsOk, KeysOk, InboxOk, ReversalsOk, MoneyInv, EventsInv;
    TablesHold(cfg, db);
    CommitterIsCommittable(cfg, db, used, clock, missed, u);
    assert SameIdentity(u.op, u.effect.op) by {
      CommittableKeepsIdentity(cfg, db, u);
    }
    SettlementKeepsData(db, DoorOf(u.job), cfg, u.account, u.op, u.reference, u.effect, u.now);
    var settled := Persist(db, u.effect);
    var woken := Wake(settled, u.woken, u.now);
    SettledThenWoken(cfg, db, used, clock, missed, u, settled);
    if FromQueue(u.job) {
      SettledThenCompleted(cfg, db, used, clock, missed, u, woken);
    }
  }

  lemma SettledThenWoken(cfg: Settings, db: DB, used: set<Id>, clock: Time, missed: set<Skip>, u: Unit, settled: DB)
    requires u.Committing? && UnitOk(cfg, db, used, clock, missed, u) && SameIdentity(u.op, u.effect.op)
    requires settled.txs == db.txs[u.effect.op.id := u.effect.op] && DataInv(settled, cfg)
    ensures DataInv(Wake(settled, u.woken, u.now), cfg)
  {
    hide UnitOk, DataInv, SameIdentity;
    WokenAreParked(cfg, db, used, clock, missed, u, settled.txs);
    WakeKeepsData(settled, cfg, u.woken, u.now);
  }

  lemma WokenAreParked(cfg: Settings, db: DB, used: set<Id>, clock: Time, missed: set<Skip>, u: Unit, txs: map<Id, Tx>)
    requires u.Committing? && UnitOk(cfg, db, used, clock, missed, u) && SameIdentity(u.op, u.effect.op)
    requires txs == db.txs[u.effect.op.id := u.effect.op]
    ensures u.now > 0 && forall t :: t in u.woken && t in txs ==> txs[t].status == PendingReference
  {
    hide Settle, ReferenceOk, ReversedOk, WakeDone;
  }

  lemma SettledThenCompleted(cfg: Settings, db: DB, used: set<Id>, clock: Time, missed: set<Skip>, u: Unit, woken: DB)
    requires u.Committing? && UnitOk(cfg, db, used, clock, missed, u) && SameIdentity(u.op, u.effect.op)
    requires woken.txs == WakeRows(db.txs[u.effect.op.id := u.effect.op], u.woken, u.now) && DataInv(woken, cfg)
    requires FromQueue(u.job)
    ensures DataInv(CompleteInbox(woken, u.job, OutcomeOf(u.effect.op.status), u.effect.op.id), cfg)
  {
    var m := u.job.input.message.value;
    var row := InboxRow(m.bodyHash, OutcomeOf(u.effect.op.status), u.effect.op.id);
    SettlementAnswers(db, u, woken.txs);
    CompleteKeepsInbox(woken.inbox, woken.txs, m.id, row);
    hide UnitOk, DataInv;
    CompleteKeepsData(woken, cfg, m.id, row);
  }

  lemma ReplayAnswers(cfg: Settings, db: DB, used: set<Id>, clock: Time, missed: set<Skip>, u: Unit)
    requires u.Replaying? && UnitOk(cfg, db, used, clock, missed, u) && FromQueue(u.job)
    ensures u.existing.id in db.txs && Answers(db.txs[u.existing.id], u.job.input.message.value.bodyHash)
  {
  }

  lemma ReplayCommitKeepsData(cfg: Settings, db: DB, used: set<Id>, clock: Time, missed: set<Skip>, u: Unit)
    requires DataInv(db, cfg) && u.Replaying? && UnitOk(cfg, db, used, clock, missed, u)
    ensures DataInv(Applied(db, u), cfg)
  {
    hide UnitOk, DataInv, WalletsOk, LedgerOk, TxsOk, KeysOk, ReversalsOk, MoneyInv, EventsInv;
    if FromQueue(u.job) {
      var m := u.job.input.message.value;
      var row := InboxRow(m.bodyHash, OutcomeReplay, u.existing.id);
      ReplayAnswers(cfg, db, used, clock, missed, u);
      TablesHold(cfg, db);
      CompleteKeepsInbox(db.inbox, db.txs, m.id, row);
      CompleteKeepsData(db, cfg, m.id, row);
    }
  }

  lemma FailingKnows(cfg: Settings, db: DB, used: set<Id>, clock: Time, missed: set<Skip>, u: Unit)
    requires u.Failing? && UnitOk(cfg, db, used, clock, missed, u)
    ensures u.target in db.txs && u.row == Some(db.txs[u.target]) && u.now > 0
  {
  }

  lemma FailureCommitKeepsData(cfg: Settings, db: DB, used: set<Id>, clock: Time, missed: set<Skip>, u: Unit)
    requires DataInv(db, cfg) && u.Failing? && UnitOk(cfg, db, used, clock, missed, u)
    ensures DataInv(Applied(db, u), cfg)
  {
    hide UnitOk, DataInv, TxOk, MarkFailed, WalletsOk, LedgerOk, KeysOk, InboxOk, ReversalsOk, MoneyInv, EventsInv;
    FailingKnows(cfg, db, used, clock, missed, u);
    var row := db.txs[u.target];
    TablesHold(cfg, db);
    assert TxOk(db.wallets, cfg, row);
    if row.status == PendingReference && MarkFailed(row, u.now).Ok? {
      FailedRowIsOk(db.wallets, cfg, row, u.now);
      FailKeepsData(db, cfg, u.target, MarkFailed(row, u.now).value);
    }
  }

  /** Every commit keeps every invariant of the tables. */
  lemma CommitKeepsData(cfg: Settings, db: DB, used: set<Id>, clock: Time, missed: set<Skip>, u: Unit)
    requires ValidSettings(cfg) && DataInv(db, cfg) && Finishes(u) && UnitOk(cfg, db, used, clock, missed, u)
    ensures u.Committing? ==> u.effect.account.id in db.ledger && u.effect.account.id in db.outbox
    ensures DataInv(Applied(db, u), cfg)
  {
    hide UnitOk, DataInv;
    match u
    case Committing(_, _, _, _, _, _, _, _) => SettlementCommitKeepsData(cfg, db, used, clock, missed, u);
    case Replaying(_, _) => ReplayCommitKeepsData(cfg, db, used, clock, missed, u);
    case Failing(_, _, _, _) => FailureCommitKeepsData(cfg, db, used, clock, missed, u);
    case Answering(_, _) =>
  }

  // ---- a commit moves the tables forward ----

  lemma SettlementEvolves(cfg: Settings, db: DB, used: set<Id>, clock: Time, missed: set<Skip>, u: Unit)
    requires u.Committing? && UnitOk(cfg, db, used, clock, missed, u)
    requires SameIdentity(u.op, u.effect.op)
    requires u.effect.account.id in db.ledger && u.effect.account.id in db.outbox
    ensures Evolves(db, Applied(db, u))
  {
    CommitWrites(db, u);
  }

  lemma FailureEvolves(cfg: Settings, db: DB, used: set<Id>, clock: Time, missed: set<Skip>, u: Unit)
    requires u.Failing? && UnitOk(cfg, db, used, clock, missed, u)
    ensures Evolves(db, Applied(db, u))
  {
  }

  lemma CommitEvolves(cfg: Settings, db: DB, used: set<Id>, clock: Time, missed: set<Skip>, u: Unit)
    requires ValidSettings(cfg) && WalletsOk(db) && Finishes(u) && UnitOk(cfg, db, used, clock, missed, u)
    ensures u.Committing? ==> u.effect.account.id in db.ledger && u.effect.account.id in db.outbox
    ensures Evolves(db, Applied(db, u))
  {
    match u
    case Committing(_, _, _, _, _, _, _, _) =>
      CommitterIsCommittable(cfg, db, used, clock, missed, u);
      SettlementEvolves(cfg, db, used, clock, missed, u);
    case Failing(_, _, _, _) => FailureEvolves(cfg, db, used, clock, missed, u);
    case _ =>
  }

  // ---- and touches only what its unit holds ----

  /** Rows, wallets and message ids outside the unit's locks stay as they were. */
  ghost predicate StaysWithin(db: DB, after: DB, u: Unit) {
    && (forall t :: !Holds(u, RowKey(t)) ==> SameRow(db, after, t))
    && (forall w :: w in db.wallets && !Holds(u, WalletKey(w)) ==> w in after.wallets && after.wallets[w] == db.wallets[w])
    && (forall m :: m !in db.inbox && !Holds(u, InboxKey(m)) ==> m !in after.inbox)
  }

  lemma SettlementStaysWithin(db: DB, u: Unit)
    requires u.Committing? && SameIdentity(u.op, u.effect.op) && u.effect.account.id == u.op.command.walletId
    requires u.effect.account.id in db.ledger && u.effect.account.id in db.outbox
    requires u.op.id !in u.woken
    ensures StaysWithin(db, Applied(db, u), u)
  {
    CommitWrites(db, u);
  }

  lemma CommitStaysWithin(cfg: Settings, db: DB, used: set<Id>, clock: Time, missed: set<Skip>, u: Unit)
    requires ValidSettings(cfg) && WalletsOk(db) && Finishes(u) && UnitOk(cfg, db, used, clock, missed, u)
    ensures u.Committing? ==> u.effect.account.id in db.ledger && u.effect.account.id in db.outbox
    ensures StaysWithin(db, Applied(db, u), u)
  {
    match u
    case Committing(_, _, _, _, _, _, _, _) =>
      CommitterWritesItsOwn(cfg, db, used, clock, missed, u);
      hide UnitOk, StaysWithin;
      SettlementStaysWithin(db, u);
    case _ =>
  }

  lemma CommitterWritesItsOwn(cfg: Settings, db: DB, used: set<Id>, clock: Time, missed: set<Skip>, u: Unit)
    requires ValidSettings(cfg) && WalletsOk(db) && u.Committing? && UnitOk(cfg, db, used, clock, missed, u)
    ensures u.effect.account.id in db.ledger && u.effect.account.id in db.outbox
    ensures SameIdentity(u.op, u.effect.op) && u.effect.account.id == u.op.command.walletId && u.op.id !in u.woken
    ensures WokenOk(db, u.op, u.woken) && 0 < u.now <= clock
  {
    CommitterIsCommittable(cfg, db, used, clock, missed, u);
    hide EffectFollows, ReferenceHolds, ReferenceOk, Settle, WakeDone;
  }

  /** What a commit may write in a row. */
  ghost predicate RowChange(db: DB, after: DB, u: Unit, clock: Time, t: Id)
    requires t in after.txs
  {
    || SameRow(db, after, t)
    || (u.Committing? && t == u.op.id && after.txs[t].command == u.op.command)
    || (t in db.txs && after.txs[t].command == db.txs[t].command
        && ((after.txs[t].status == PendingReference && after.txs[t].nextAttemptAt <= clock)
            || after.txs[t].status == Failed))
  }

  lemma CommitChangesRow(cfg: Settings, db: DB, used: set<Id>, clock: Time, missed: set<Skip>, u: Unit, t: Id)
    requires ValidSettings(cfg) && WalletsOk(db) && Finishes(u) && UnitOk(cfg, db, used, clock, missed, u)
    requires u.Committing? ==> u.effect.account.id in db.ledger && u.effect.account.id in db.outbox
    requires t in Applied(db, u).txs
    ensures RowChange(db, Applied(db, u), u, clock, t)
  {
    match u
    case Committing(_, _, _, _, _, _, _, _) =>
      CommitterWritesItsOwn(cfg, db, used, clock, missed, u);
      hide UnitOk, Applied;
      CommitWrites(db, u);
    case _ =>
  }

  // ---- so it respects every other unit ----

  /** Two units of one state, and what the first one's commit does. */
  ghost predicate Commits(cfg: Settings, s: State, p: Pid, q: Pid, after: DB) {
    && p in s.units && q in s.units && p != q && LockInv(s)
    && UnitOk(cfg, s.db, s.used, s.clock, s.missed, s.units[p]) && UnitOk(cfg, s.db, s.used, s.clock, s.missed, s.units[q])
    && StaysWithin(s.db, after, s.units[p])
    && forall t :: t in after.txs ==> RowChange(s.db, after, s.units[p], s.clock, t)
  }

  lemma HeldElsewhere(s: State, p: Pid, q: Pid, r: Resource)
    requires LockInv(s) && p in s.units && q in s.units && p != q && Holds(s.units[q], r)
    ensures !Holds(s.units[p], r)
  {
    if Holds(s.units[p], r) {
      HoldingsAreExclusive(s, p, q, r);
    }
  }

  lemma KeysStayFree(cfg: Settings, s: State, p: Pid, q: Pid, after: DB)
    requires Commits(cfg, s, p, q, after)
    requires s.units[q].HasOp() && s.units[q].job.SubmitJob?
    ensures KeysFree(after.txs, s.units[q].op)
  {
    var u, op := s.units[p], s.units[q].op;
    HeldElsewhere(s, p, q, IdempotencyKey(op.command.providerId, op.command.idempotencyKey));
    HeldElsewhere(s, p, q, ExternalKey(op.command.providerId, op.command.externalId));
    forall t | t in after.txs
      ensures !HasKey(after.txs[t], op.command.providerId, op.command.idempotencyKey)
      ensures !HasExternalId(after.txs[t], op.command.providerId, op.command.externalId)
    {
      assert RowChange(s.db, after, u, s.clock, t);
    }
  }

  lemma InboxStaysFree(cfg: Settings, s: State, p: Pid, q: Pid, after: DB)
    requires Commits(cfg, s, p, q, after)
    requires s.units[q].Inserting? || s.units[q].HasOp() || s.units[q].Replaying?
    ensures InboxFree(after, s.units[q].job)
  {
    var job := s.units[q].job;
    if FromQueue(job) {
      HeldElsewhere(s, p, q, InboxKey(job.input.message.value.id));
    }
  }

  lemma WalletStaysUntouched(cfg: Settings, s: State, p: Pid, q: Pid, after: DB)
    requires Commits(cfg, s, p, q, after) && s.units[q].HasWallet()
    ensures Untouched(s.db, after, s.clock, s.units[q].op.command.walletId)
  {
    var w := s.units[q].op.command.walletId;
    HeldElsewhere(s, p, q, WalletKey(w));
    forall t | t in after.txs && after.txs[t].command.walletId == w
      ensures t in s.db.txs
      ensures SettledOn(after.txs[t], w) ==> t in s.db.txs && s.db.txs[t] == after.txs[t]
      ensures after.txs[t].status == PendingReference ==>
                SleepsNoLonger(s.db, after.txs[t], t) || after.txs[t].nextAttemptAt <= s.clock
    {
      assert RowChange(s.db, after, s.units[p], s.clock, t);
    }
  }

  lemma CommitRespects(cfg: Settings, s: State, p: Pid, q: Pid, after: DB)
    requires Commits(cfg, s, p, q, after)
    ensures Respects(s.db, after, s.clock, s.units[q])
  {
    hide UnitOk, LockInv, RowChange, Untouched, KeysFree, InboxFree;
    var u := s.units[q];
    forall t | Holds(u, RowKey(t))
      ensures SameRow(s.db, after, t)
    {
      HeldElsewhere(s, p, q, RowKey(t));
    }
    if u.HasOp() && u.job.SubmitJob? {
      KeysStayFree(cfg, s, p, q, after);
    }
    if u.Inserting? || u.HasOp() || u.Replaying? {
      InboxStaysFree(cfg, s, p, q, after);
    }
    if u.HasWallet() {
      WalletStaysUntouched(cfg, s, p, q, after);
    }
  }

  /** After a commit every other unit still knows the truth. */
  lemma CommitKeepsOthers(cfg: Settings, s: State, p: Pid, q: Pid)
    requires ValidSettings(cfg) && DataInv(s.db, cfg) && LockInv(s) && UnitsOk(cfg, s)
    requires p in s.units && q in s.units && p != q && Finishes(s.units[p])
    ensures s.units[p].Committing? ==>
              s.units[p].effect.account.id in s.db.ledger && s.units[p].effect.account.id in s.db.outbox
    ensures UnitOk(cfg, Applied(s.db, s.units[p]), s.used, s.clock, s.missed, s.units[q])
  {
    hide DataInv, LockInv, UnitOk, WalletsOk, LedgerOk, TxsOk, KeysOk, InboxOk, ReversalsOk, MoneyInv, EventsInv,
         StaysWithin, RowChange, Evolves, Respects;
    var u := s.units[p];
    TablesHold(cfg, s.db);
    CommitKeepsData(cfg, s.db, s.used, s.clock, s.missed, u);
    var after := Applied(s.db, u);
    TablesHold(cfg, after);
    CommitEvolves(cfg, s.db, s.used, s.clock, s.missed, u);
    CommitStaysWithin(cfg, s.db, s.used, s.clock, s.missed, u);
    forall t | t in after.txs
      ensures RowChange(s.db, after, u, s.clock, t)
    {
      CommitChangesRow(cfg, s.db, s.used, s.clock, s.missed, u, t);
    }
    CommitRespects(cfg, s, p, q, after);
    KnowledgeSurvives(cfg, s.db, after, s.used, s.clock, s.missed, s.units[q]);
  }
}
