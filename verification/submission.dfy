/** The use cases as they run inside one transaction: submit an operation, retry a parked one, give up on one. */
module UseCases {
  import opened Values
  import opened Ledgers
  import opened Wallets
  import opened Wagering
  import opened Decisions
  import opened Settlements
  import opened Databases
  import opened DataInvariants
  import opened Protocol
  import opened UnitSteps
  import opened Refinement
  import opened Duplicates
  import opened Registries

  /** What every reachable state of the tables satisfies and a lone transaction relies on. */
  predicate Consistent(db: DB, cfg: Settings) {
    WalletsOk(db) && TxsOk(db, cfg) && KeysOk(db.txs) && InboxOk(db)
  }

  /** The answer of one atomic submission. */
  ghost function SubmitAnswer(cfg: Settings, db: DB, d: Item): Result<Answer>
    requires d.Deliver?
  {
    var command := CommandOf(d.input);
    if d.input.message.Some? && d.input.message.value.id in db.inbox then
      InboxAnswer(db, db.inbox[d.input.message.value.id], d.input.message.value)
    else
      var op :- NewExternal(command, d.id, d.now);
      if !KeysFree(db.txs, op) || op.id in db.txs then ReplayAnswer(db, command)
      else if op.command.walletId !in db.wallets then Err(WalletNotFound)
      else
        var e :- AtomicSettle(Submission, cfg, db, op, d.entryId, d.now);
        Ok(AnswerOf(e.op, false))
  }

  function InboxAnswer(db: DB, row: InboxRow, message: Message): Result<Answer> {
    if row.bodyHash != message.bodyHash then Err(PayloadMismatch)
    else if row.outcome == NoOutcome || row.transactionId !in db.txs then Err(Transient)
    else Ok(AnswerOf(db.txs[row.transactionId], true))
  }

  ghost function ReplayAnswer(db: DB, command: Command): Result<Answer> {
    match FindByKey(db.txs, command.providerId, command.idempotencyKey)
    case Some(existing) =>
      if existing.command.payloadHash != command.payloadHash then Err(IdempotencyKeyConflict(existing.id))
      else Ok(AnswerOf(existing, true))
    case None =>
      match FindByExternalId(db.txs, command.providerId, command.externalId)
      case Some(reused) => Err(ExternalIdConflict(reused.id))
      case None => Err(Transient)
  }

  // ---- the pieces ----

  /** resolveReference; a submission asks for reversals only when it is one itself. */
  method ResolveReference(registry: Registry, op: Transaction) returns (reference: Option<Reference>)
    requires KeysOk(registry.txs)
    ensures var c := op.command;
            var original := FindByExternalId(registry.txs, c.providerId, c.referenceExternalId);
            reference == if c.referenceExternalId == Empty || original.None? then None
                         else Some(Reference(original.value,
                                             c.kind.Reversal() && HasReversal(registry.txs, original.value.id)))
  {
    if op.command.referenceExternalId == Empty {
      return None;
    }
    var original := registry.FindByExternal(op.command.providerId, op.command.referenceExternalId);
    if original.None? {
      return None;
    }
    var reversed := false;
    if op.command.kind.Reversal() {
      reversed := registry.HasSuccessfulReversal(original.value.id);
    }
    return Some(Reference(original.value, reversed));
  }

  lemma OwnRowKeepsKeys(db: DB, door: Door, op: Tx)
    requires KeysOk(db.txs) && Current(db, door, op) && op.command.kind != Opening
    ensures KeysOk(Visible(db, op))
  {
  }

  lemma OnlyReversalsLookBack(account: WalletState, op: Tx, original: Tx, a: bool, b: bool, now: Time)
    requires !op.command.kind.Reversal()
    ensures Decide(account, op, Some(Reference(original, a)), now) == Decide(account, op, Some(Reference(original, b)), now)
  {
  }

  /** What the unit read decides like what one atomic step would read. */
  lemma ReadDecidesAtomically(cfg: Settings, db: DB, door: Door, op: Tx, reference: Option<Reference>, entryId: Id,
                              now: Time)
    requires Open(door, op) && Current(db, door, op) && op.command.walletId in db.wallets
    requires var original := FindOriginal(db, op);
             reference == if original.None? then None
                          else Some(Reference(original.value,
                                              op.command.kind.Reversal()
                                              && HasReversal(Visible(db, op), original.value.id)))
    ensures Settle(door, cfg, db.wallets[op.command.walletId], op, reference, entryId, now)
         == AtomicSettle(door, cfg, db, op, entryId, now)
  {
    hide Settle, Decide, FindOriginal, HasReversal, Open, Current, Visible;
    var account := db.wallets[op.command.walletId];
    var original := FindOriginal(db, op);
    if original.Some? {
      OwnRowReversesNothing(db, door, op, original.value.id);
      if !op.command.kind.Reversal() {
        OnlyReversalsLookBack(account, op, original.value, false, HasReversal(db.txs, original.value.id), now);
      }
      SameDecisionSettlesAlike(door, cfg, account, op, reference, CommittedReference(db, op), entryId, now);
    }
  }

  lemma SettledStatus(door: Door, cfg: Settings, account: WalletState, op: Tx, reference: Option<Reference>,
                      entryId: Id, now: Time)
    ensures var r := Settle(door, cfg, account, op, reference, entryId, now);
            r.Ok? ==> r.value.op.status == PendingReference || r.value.op.status.Terminal()
    ensures var r := Settle(door, cfg, account, op, reference, entryId, now);
            r.Ok? ==> r.value.op.id == op.id && r.value.op.command == op.command && r.value.account.id == account.id
  {
    hide Decide, NewLedgerEntry, SettlementEvents, ApplyDirection;
  }

  /** The rows the statement wakes are the rows asleep for the operation. */
  lemma WaitingAreAsleep(db: DB, op: Tx, after: Tx, now: Time)
    requires op.command.kind != Opening && op.command.providerId != Empty && op.command.externalId != Empty
    requires after.status != PendingReference
    ensures WaitingRows(db.txs[op.id := after], op.command.providerId, op.command.externalId, now)
         == set t | t in db.txs && Asleep(db, op, now, t)
  {
  }

  lemma WakeNobody(txs: map<Id, Tx>, now: Time)
    ensures WakeRows(txs, {}, now) == txs
  {
  }

  // ---- submit ----

  /** The answer is the row it names: its status, its balance, its failure code. */
  predicate Tells(a: Answer, txs: map<Id, Tx>) {
    && a.transactionId in txs
    && a.status == txs[a.transactionId].status && a.balance == txs[a.transactionId].resultBalance
    && a.failureCode == txs[a.transactionId].failureCode
  }

  lemma RowsAreTheirs(cfg: Settings, db: DB)
    requires TxsOk(db, cfg)
    ensures forall t :: t in db.txs ==> db.txs[t].id == t
  {
  }

  /** The settled operation is among the rows an atomic settlement leaves. */
  lemma SettledRowIsThere(cfg: Settings, db: DB, job: Job, op: Tx, entryId: Id, now: Time)
    requires op.command.walletId in db.wallets && AtomicSettle(Submission, cfg, db, op, entryId, now).Ok?
    requires op.command.walletId in db.ledger && op.command.walletId in db.outbox
    requires db.wallets[op.command.walletId].id == op.command.walletId
    ensures var e := AtomicSettle(Submission, cfg, db, op, entryId, now).value;
            var after := SettleNow(cfg, db, Submission, job, op, entryId, now);
            e.op.id == op.id && e.op.id in after.txs && after.txs[e.op.id] == e.op
  {
    hide Settle, Asleep;
    SettledStatus(Submission, cfg, db.wallets[op.command.walletId], op, CommittedReference(db, op), entryId, now);
    assert !Asleep(db, op, now, op.id) by {
      NotAsleepForItself(db, op, now);
    }
  }

  lemma NotAsleepForItself(db: DB, op: Tx, now: Time)
    ensures !Asleep(db, op, now, op.id)
  {
  }

  /** replay: the unique keys were taken. */
  method Replay(registry: Registry, input: Input, ghost db: DB) returns (r: Result<Answer>)
    requires KeysOk(registry.txs) && registry.txs == db.txs && forall t :: t in db.txs ==> db.txs[t].id == t
    requires input.message.Some? ==>
               registry.inbox == db.inbox[input.message.value.id := InboxRow(input.message.value.bodyHash, NoOutcome, NIL)]
    requires input.message.None? ==> registry.inbox == db.inbox
    modifies registry`inbox
    ensures r == ReplayAnswer(db, CommandOf(input))
    ensures r.Ok? ==> FindByKey(db.txs, CommandOf(input).providerId, CommandOf(input).idempotencyKey).Some?
    ensures r.Ok? ==>
              registry.inbox == CompleteInbox(db, SubmitJob(input), OutcomeReplay,
                FindByKey(db.txs, CommandOf(input).providerId, CommandOf(input).idempotencyKey).value.id).inbox
    ensures r.Ok? ==> Tells(r.value, db.txs) && r.value.replay
  {
    var command := CommandOf(input);
    var existing := registry.FindByIdempotencyKey(command.providerId, command.idempotencyKey);
    if existing.Some? {
      FoundByKey(db.txs, command.providerId, command.idempotencyKey);
      if existing.value.command.payloadHash != command.payloadHash {
        return Err(IdempotencyKeyConflict(existing.value.id));
      }
      if input.message.Some? {
        var failure := registry.CompleteInboxRow(input.message.value.id, OutcomeReplay, existing.value.id);
        assert failure.None?;
      }
      return Ok(AnswerOf(existing.value, true));
    }
    var reused := registry.FindByExternal(command.providerId, command.externalId);
    if reused.Some? {
      return Err(ExternalIdConflict(reused.value.id));
    }
    return Err(Transient);
  }

  /** Read the reference, decide and write, shared by both doors. */
  method DecideAndSettle(registry: Registry, door: Door, cfg: Settings, account: Wallet, op: Transaction, entryId: Id,
                         now: Time, ghost db: DB)
    returns (failure: Option<Error>)
    requires Open(door, op.Value()) && Current(db, door, op.Value()) && op.command.walletId in db.wallets
    requires registry.txs == Visible(db, op.Value()) && registry.wallets == db.wallets && KeysOk(registry.txs)
    requires Holding(registry, account, op)
    modifies registry`ledger, registry`wallets, registry`txs, registry`outbox, registry`parked, account, op
    ensures var spec := AtomicSettle(door, cfg, db, old(op.Value()), entryId, now);
            match spec
            case Err(e) => failure == Some(e)
            case Ok(e) =>
              && failure == None && op.Value() == e.op && e.account.id == account.id
              && registry.Tables() == Persist(old(registry.Tables()), e)
  {
    hide Settle, AtomicSettle, FindByExternalId, HasReversal, Rehydrate, KeysOk, Persist, Current, Open;
    var reference := ResolveReference(registry, op);
    ReadDecidesAtomically(cfg, db, door, op.Value(), reference, entryId, now);
    SettledStatus(door, cfg, account.State(), op.Value(), reference, entryId, now);
    failure := SettleInPlace(registry, door, cfg, account, op, reference, entryId, now);
  }

  /** The tables after the settlement, the wake-up and the inbox row, against those of one atomic step. */
  lemma SettledTables(cfg: Settings, db: DB, door: Door, job: Job, op: Tx, entryId: Id, now: Time,
                      inbox: map<Text, InboxRow>)
    requires op.command.walletId in db.wallets && AtomicSettle(door, cfg, db, op, entryId, now).Ok?
    requires op.command.walletId in db.ledger && op.command.walletId in db.outbox
    requires db.wallets[op.command.walletId].id == op.command.walletId
    requires op.command.kind != Opening && op.command.providerId != Empty && op.command.externalId != Empty
    requires FromQueue(job) ==>
               job.input.message.value.id in inbox
               && inbox[job.input.message.value.id].bodyHash == job.input.message.value.bodyHash
               && inbox == db.inbox[job.input.message.value.id := inbox[job.input.message.value.id]]
    requires !FromQueue(job) ==> inbox == db.inbox
    ensures var e := AtomicSettle(door, cfg, db, op, entryId, now).value;
            var mid := db.(txs := db.txs[op.id := op], inbox := inbox);
            && e.account.id in mid.ledger && e.account.id in mid.outbox && e.op.id == op.id && e.op.command == op.command
            && var settled := Persist(mid, e);
               var woken := if e.op.status.Terminal()
                            then settled.(txs := WakeRows(settled.txs, WaitingRows(settled.txs, op.command.providerId,
                                                                                   op.command.externalId, now), now))
                            else settled;
               var done := if FromQueue(job)
                           then woken.(inbox := inbox[job.input.message.value.id :=
                                         inbox[job.input.message.value.id].(outcome := OutcomeOf(e.op.status),
                                                                            transactionId := op.id)])
                           else woken;
               done == SettleNow(cfg, db, door, job, op, entryId, now)
  {
    hide Settle, FindByExternalId, HasReversal, WaitingRows, Asleep, WakeRows;
    SettledStatus(door, cfg, db.wallets[op.command.walletId], op, CommittedReference(db, op), entryId, now);
    var e := AtomicSettle(door, cfg, db, op, entryId, now).value;
    var txs := db.txs[op.id := e.op];
    assert db.txs[op.id := op][op.id := e.op] == txs;
    WakeNobody(txs, now);
    if e.op.status.Terminal() {
      WaitingAreAsleep(db, op, e.op, now);
    }
  }

  /** The part of run that follows a successful insert. */
  method SettleInserted(registry: Registry, cfg: Settings, input: Input, now: Time, born: Tx, entryId: Id, ghost db: DB)
    returns (r: Result<Answer>)
    requires Consistent(db, cfg) && now > 0 && NewExternal(CommandOf(input), born.id, now) == Ok(born)
    requires KeysFree(db.txs, born) && born.id !in db.txs && born.command.walletId in db.wallets
    requires registry.Tables() == db.(txs := db.txs[born.id := born], inbox := registry.inbox)
    requires input.message.Some? ==>
               registry.inbox == db.inbox[input.message.value.id := InboxRow(input.message.value.bodyHash, NoOutcome, NIL)]
    requires input.message.None? ==> registry.inbox == db.inbox
    modifies registry
    ensures var spec := AtomicSettle(Submission, cfg, db, born, entryId, now);
            match spec
            case Err(e) => r == Err(e)
            case Ok(e) =>
              && r == Ok(AnswerOf(e.op, false))
              && registry.Tables() == SettleNow(cfg, db, Submission, SubmitJob(input), born, entryId, now)
    ensures r.Ok? ==> Tells(r.value, registry.txs) && r.value.transactionId == born.id && !r.value.replay
  {
    hide NewExternal, KeysFree, TxsOk, KeysOk, InboxOk, AtomicSettle, SettleNow, Rehydrate, WaitingRows, WakeRows, Persist;
    NewExternalIsOpen(CommandOf(input), born.id, now);
    BornAs(CommandOf(input), born.id, now);
    OwnRowKeepsKeys(db, Submission, born);
    var op := new Transaction(born);
    var found := registry.FindForUpdate(born.command.walletId);
    var failure := DecideAndSettle(registry, Submission, cfg, found.value, op, entryId, now, db);
    if failure.Some? {
      return Err(failure.value);
    }
    SettledTables(cfg, db, Submission, SubmitJob(input), born, entryId, now, registry.inbox);
    SettledRowIsThere(cfg, db, SubmitJob(input), born, entryId, now);
    if op.status.Terminal() {
      var _ := registry.WakeUpWaitingFor(op.command.providerId, op.command.externalId, now);
    }
    if input.message.Some? {
      var completed := registry.CompleteInboxRow(input.message.value.id, OutcomeOf(op.status), op.id);
      assert completed.None?;
    }
    return Ok(AnswerOf(op.Value(), false));
  }

  /** run: whatever it finds, it answers and writes what one atomic submission on the same tables does; a failure
      leaves a transaction that rolls back. The answer is the row the tables then hold, and it says that it is a replay
      exactly when the operation was there before. */
  method Run(registry: Registry, cfg: Settings, input: Input, now: Time, id: Id, entryId: Id) returns (r: Result<Answer>)
    requires Consistent(registry.Tables(), cfg) && now > 0
    modifies registry
    ensures var d := Deliver(input, now, id, entryId, true);
            && r == SubmitAnswer(cfg, old(registry.Tables()), d)
            && (r.Ok? ==> registry.Tables() == Submit(cfg, old(registry.Tables()), d))
            && (r.Err? ==> Submit(cfg, old(registry.Tables()), d) == old(registry.Tables()))
    ensures r.Ok? ==>
              && r.value.transactionId in registry.txs
              && var t := registry.txs[r.value.transactionId];
                 r.value.status == t.status && r.value.balance == t.resultBalance && r.value.failureCode == t.failureCode
    ensures r.Ok? ==> (r.value.replay <==> r.value.transactionId in old(registry.txs))
  {
    hide NewExternal, KeysFree, TxsOk, KeysOk, InboxOk, FindByKey, FindByExternalId, AtomicSettle, SettleNow, WalletsOk;
    ghost var db := registry.Tables();
    ghost var d := Deliver(input, now, id, entryId, true);
    RowsAreTheirs(cfg, db);
    if input.message.Some? {
      var message := input.message.value;
      var registered := registry.InsertInbox(message);
      if !registered {
        var row := registry.inbox[message.id];
        if row.bodyHash != message.bodyHash {
          return Err(PayloadMismatch);
        }
        if row.outcome == NoOutcome || row.transactionId !in registry.txs {
          return Err(Transient);
        }
        return Ok(AnswerOf(registry.txs[row.transactionId], true));
      }
    }
    var born := NewExternal(CommandOf(input), id, now);
    if born.Err? {
      return Err(born.error);
    }
    var op := born.value;
    BornAs(CommandOf(input), id, now);
    var inserted := registry.InsertTransaction(op);
    if inserted.Err? {
      return Err(inserted.error);
    }
    if !inserted.value {
      r := Replay(registry, input, db);
      return;
    }
    r := SettleInserted(registry, cfg, input, now, op, entryId, db);
    RefusedSettlementWritesNothing(cfg, db, op, SubmitJob(input), entryId, now);
  }

  lemma RefusedSettlementWritesNothing(cfg: Settings, db: DB, op: Tx, job: Job, entryId: Id, now: Time)
    requires op.command.walletId in db.wallets
    ensures AtomicSettle(Submission, cfg, db, op, entryId, now).Err? ==>
              SettleNow(cfg, db, Submission, job, op, entryId, now) == db
  {
    hide AtomicSettle;
  }
}
