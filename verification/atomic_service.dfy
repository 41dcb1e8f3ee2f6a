/** The atomic service keeps every invariant of the tables. */
module AtomicService {
  import opened Values
  import opened Wallets
  import opened Wagering
  import opened Decisions
  import opened Settlements
  import opened Databases
  import opened DataInvariants
  import opened TableWrites
  import opened Protocol
  import opened UnitSteps
  import opened Commits
  import opened Refinement
  import opened Duplicates

  lemma CommittedReferenceFits(cfg: Settings, db: DB, door: Door, op: Tx)
    requires TxsOk(db, cfg) && KeysOk(db.txs) && Open(door, op) && Current(db, door, op)
    ensures ReferenceFits(op, CommittedReference(db, op))
    ensures var r := CommittedReference(db, op);
            r.Some? && r.value.transaction.id != op.id ==>
              && r.value.transaction.id in db.txs && db.txs[r.value.transaction.id] == r.value.transaction
              && (r.value.alreadyReversed <==> HasReversal(db.txs, r.value.transaction.id))
  {
    hide TxsOk, KeysOk, Current, Rehydrate, FindOriginal, HasReversal;
    FoundOriginal(cfg, db, door, op);
    SelfOrCommitted(cfg, db, door, op);
  }

  lemma ConsumedIsCommitted(db: DB, op: Tx, reference: Option<Reference>, e: Effect)
    requires SameIdentity(op, e.op)
    requires e.op.status == Processed && op.command.kind.Reversal() ==> Consumes(op, reference, e.op)
    requires reference.Some? && reference.value.transaction.id != op.id ==>
               && reference.value.transaction.id in db.txs
               && db.txs[reference.value.transaction.id] == reference.value.transaction
               && (reference.value.alreadyReversed <==> HasReversal(db.txs, reference.value.transaction.id))
    ensures ReferenceHolds(db, e)
    ensures e.op.status == Processed && e.op.command.kind.Reversal() ==>
              && reference.Some? && e.op.referenceId in db.txs
              && db.txs[e.op.referenceId].command.kind == reference.value.transaction.command.kind
  {
  }

  /** One atomic settlement of an open, current operation is committable. */
  lemma AtomicIsCommittable(cfg: Settings, db: DB, door: Door, op: Tx, entryId: Id, now: Time)
    requires ValidSettings(cfg) && WalletsOk(db) && TxsOk(db, cfg) && KeysOk(db.txs)
    requires Open(door, op) && Current(db, door, op) && op.command.walletId in db.wallets && now > 0 && entryId != NIL
    requires door == Submission ==> op.createdAt == now
    ensures var r := AtomicSettle(door, cfg, db, op, entryId, now);
            r.Ok? ==> Committable(db, door, cfg, db.wallets[op.command.walletId], op, CommittedReference(db, op), r.value,
                                  now)
  {
    hide TxsOk, KeysOk, Current, Settle, FindOriginal, HasReversal, Open, ProcessedEffect, RejectedEffect, WaitingEffect;
    var account, reference := db.wallets[op.command.walletId], CommittedReference(db, op);
    CommittedReferenceFits(cfg, db, door, op);
    SettlementIsComplete(door, cfg, account, op, reference, entryId, now);
    var r := AtomicSettle(door, cfg, db, op, entryId, now);
    if r.Ok? {
      ProcessedConsumes(door, cfg, account, op, reference, r.value, now);
      ConsumedIsCommitted(db, op, reference, r.value);
    }
  }

  lemma ProcessedConsumes(door: Door, cfg: Settings, account: WalletState, op: Tx, reference: Option<Reference>,
                          e: Effect, now: Time)
    requires EffectFollows(door, cfg, account, op, reference, e, now)
    ensures e.op.status == Processed && op.command.kind.Reversal() ==> Consumes(op, reference, e.op)
    ensures SameIdentity(op, e.op)
  {
  }

  lemma SettleNowKeepsData(cfg: Settings, db: DB, door: Door, job: Job, op: Tx, entryId: Id, now: Time)
    requires ValidSettings(cfg) && DataInv(db, cfg)
    requires Open(door, op) && Current(db, door, op) && op.command.walletId in db.wallets && now > 0 && entryId != NIL
    requires door == Submission ==> op.createdAt == now
    requires job.SubmitJob? ==> ValidInput(job.input) && op.command == CommandOf(job.input)
    ensures DataInv(SettleNow(cfg, db, door, job, op, entryId, now), cfg)
  {
    hide DataInv, WalletsOk, LedgerOk, TxsOk, KeysOk, InboxOk, ReversalsOk, MoneyInv, EventsInv, Open, Current, AtomicSettle,
         Committable, Asleep;
    TablesHold(cfg, db);
    AtomicIsCommittable(cfg, db, door, op, entryId, now);
    var r := AtomicSettle(door, cfg, db, op, entryId, now);
    if r.Ok? {
      var e := r.value;
      var account, reference := db.wallets[op.command.walletId], CommittedReference(db, op);
      SettlementKeepsData(db, door, cfg, account, op, reference, e, now);
      CommittedIdentity(db, door, cfg, account, op, reference, e, now);
      var woken := if e.op.status == PendingReference then {} else set t | t in db.txs && Asleep(db, op, now, t);
      AsleepAreParked(db, op, now);
      WokenStayParked(db, op, e, woken);
      WakeKeepsData(Persist(db, e), cfg, woken, now);
      CompletedKeepsData(cfg, Wake(Persist(db, e), woken, now), job, op, e);
    }
  }

  lemma CommittedIdentity(db: DB, door: Door, cfg: Settings, account: WalletState, op: Tx,
                          reference: Option<Reference>, e: Effect, now: Time)
    requires Committable(db, door, cfg, account, op, reference, e, now)
    ensures e.op.id == op.id && e.op.command == op.command && op.command.kind != Opening
    ensures e.op.status == PendingReference || e.op.status == Processed || e.op.status == Rejected
  {
  }

  lemma AsleepAreParked(db: DB, op: Tx, now: Time)
    ensures forall t :: t in db.txs && Asleep(db, op, now, t) ==> t != op.id && db.txs[t].status == PendingReference
  {
  }

  lemma WokenStayParked(db: DB, op: Tx, e: Effect, woken: set<Id>)
    requires e.account.id in db.ledger && e.account.id in db.outbox && e.op.id == op.id
    requires forall t :: t in woken ==> t in db.txs && t != op.id && db.txs[t].status == PendingReference
    ensures forall t :: t in woken && t in Persist(db, e).txs ==> Persist(db, e).txs[t].status == PendingReference
  {
  }

  lemma CompletedKeepsData(cfg: Settings, db: DB, job: Job, op: Tx, e: Effect)
    requires DataInv(db, cfg) && op.id in db.txs && db.txs[op.id].command == op.command
    requires e.op.id == op.id && op.command.kind != Opening
    requires job.SubmitJob? ==> ValidInput(job.input) && op.command == CommandOf(job.input)
    ensures DataInv(CompleteInbox(db, job, OutcomeOf(e.op.status), e.op.id), cfg)
  {
    hide DataInv, WalletsOk, LedgerOk, TxsOk, KeysOk, ReversalsOk, MoneyInv, EventsInv;
    TablesHold(cfg, db);
    if FromQueue(job) {
      var m := job.input.message.value;
      var row := InboxRow(m.bodyHash, OutcomeOf(e.op.status), e.op.id);
      CompleteKeepsInbox(db.inbox, db.txs, m.id, row);
      CompleteKeepsData(db, cfg, m.id, row);
    }
  }

  /** What the world hands an item: positive clock readings, fresh nonzero identifiers, an honest body. */
  predicate Sound(item: Item) {
    match item
    case Deliver(input, now, id, entryId, _) => ValidInput(input) && now > 0 && id != NIL && entryId != NIL
    case RetryRow(_, at, entryId) => at > 0 && entryId != NIL
    case GiveUpRow(_, at) => at > 0
  }

  lemma SubmitKeepsData(cfg: Settings, db: DB, d: Item)
    requires ValidSettings(cfg) && DataInv(db, cfg) && d.Deliver? && Sound(d)
    ensures DataInv(Submit(cfg, db, d), cfg)
  {
    hide DataInv, WalletsOk, LedgerOk, TxsOk, KeysOk, InboxOk, ReversalsOk, MoneyInv, EventsInv, SettleNow, NewExternal,
         KeysFree, Open;
    TablesHold(cfg, db);
    var command := CommandOf(d.input);
    var born := NewExternal(command, d.id, d.now);
    BornAs(command, d.id, d.now);
    FoundByKey(db.txs, command.providerId, command.idempotencyKey);
    var found := FindByKey(db.txs, command.providerId, command.idempotencyKey);
    if born.Ok? && found.Some? && found.value.command.payloadHash == command.payloadHash && d.input.message.Some? {
      ReplayKeepsData(cfg, db, d.input, found.value);
    }
    if born.Ok? && KeysFree(db.txs, born.value) && d.id !in db.txs && born.value.command.walletId in db.wallets {
      NewExternalIsOpen(command, d.id, d.now);
      SettleNowKeepsData(cfg, db, Submission, SubmitJob(d.input), born.value, d.entryId, d.now);
    }
  }

  lemma ReplayKeepsData(cfg: Settings, db: DB, input: Input, existing: Tx)
    requires DataInv(db, cfg) && ValidInput(input) && input.message.Some?
    requires exists t :: t in db.txs && existing == db.txs[t]
                         && HasKey(db.txs[t], CommandOf(input).providerId, CommandOf(input).idempotencyKey)
    requires existing.command.payloadHash == CommandOf(input).payloadHash
    ensures DataInv(CompleteInbox(db, SubmitJob(input), OutcomeReplay, existing.id), cfg)
  {
    hide DataInv, WalletsOk, LedgerOk, TxsOk, KeysOk, ReversalsOk, MoneyInv, EventsInv;
    TablesHold(cfg, db);
    var t :| t in db.txs && existing == db.txs[t]
             && HasKey(db.txs[t], CommandOf(input).providerId, CommandOf(input).idempotencyKey);
    CommittedIsReadBefore(cfg, db, t);
    var m := input.message.value;
    var row := InboxRow(m.bodyHash, OutcomeReplay, existing.id);
    CompleteKeepsInbox(db.inbox, db.txs, m.id, row);
    CompleteKeepsData(db, cfg, m.id, row);
  }

  lemma ParkedRowIsOpen(cfg: Settings, db: DB, t: Id)
    requires TxsOk(db, cfg) && t in db.txs && db.txs[t].status == PendingReference
    ensures Open(Retry, db.txs[t]) && Current(db, Retry, db.txs[t]) && db.txs[t].id == t
    ensures db.txs[t].command.walletId in db.wallets && db.txs[t].command.kind != Opening
    ensures db.txs[t].command.providerId != Empty && db.txs[t].command.externalId != Empty
  {
    assert TxOk(db.wallets, cfg, db.txs[t]);
  }

  lemma GiveUpKeepsData(cfg: Settings, db: DB, t: Id, now: Time)
    requires DataInv(db, cfg) && t in db.txs && MarkFailed(db.txs[t], now).Ok? && now > 0
    ensures DataInv(db.(txs := db.txs[t := MarkFailed(db.txs[t], now).value]), cfg)
  {
    hide DataInv, TxOk, WalletsOk, LedgerOk, KeysOk, InboxOk, ReversalsOk, MoneyInv, EventsInv;
    TablesHold(cfg, db);
    assert TxOk(db.wallets, cfg, db.txs[t]);
    FailedRowIsOk(db.wallets, cfg, db.txs[t], now);
    FailKeepsData(db, cfg, t, MarkFailed(db.txs[t], now).value);
  }

  /** Every item of the atomic service keeps every invariant of the tables. */
  lemma ServeKeepsData(cfg: Settings, db: DB, item: Item)
    requires ValidSettings(cfg) && DataInv(db, cfg) && Sound(item)
    ensures DataInv(Serve(cfg, db, item), cfg)
  {
    hide DataInv, WalletsOk, LedgerOk, TxsOk, KeysOk, InboxOk, ReversalsOk, MoneyInv, EventsInv, SettleNow, Submit,
         MarkFailed, Open, Current;
    TablesHold(cfg, db);
    match item
    case Deliver(_, _, _, _, _) => SubmitKeepsData(cfg, db, item);
    case RetryRow(row, at, entryId) =>
      if row in db.txs && db.txs[row].status == PendingReference {
        ParkedRowIsOpen(cfg, db, row);
        SettleNowKeepsData(cfg, db, Retry, RetryJob, db.txs[row], entryId, at);
      }
    case GiveUpRow(row, at) =>
      if row in db.txs && MarkFailed(db.txs[row], at).Ok? {
        GiveUpKeepsData(cfg, db, row, at);
      }
  }

  lemma {:induction false} ServeAllKeepsData(cfg: Settings, db: DB, items: seq<Item>)
    requires ValidSettings(cfg) && DataInv(db, cfg) && forall i :: 0 <= i < |items| ==> Sound(items[i])
    ensures DataInv(ServeAll(cfg, db, items), cfg)
    decreases |items|
  {
    hide DataInv, Serve;
    if items != [] {
      ServeKeepsData(cfg, db, items[0]);
      ServeAllKeepsData(cfg, Serve(cfg, db, items[0]), items[1..]);
    }
  }
}
