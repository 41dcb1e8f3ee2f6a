/** What each unit knows about the committed tables at the statement it has reached. */
module UnitKnowledge {
  import opened Values
  import opened Wagering
  import opened Decisions
  import opened Settlements
  import opened Databases
  import opened Protocol

  predicate NowOk(clock: Time, now: Time) {
    0 < now <= clock
  }

  /** A queue job that has passed registration owns its message id: no committed row carries it. */
  predicate InboxFree(db: DB, job: Job) {
    FromQueue(job) ==> job.input.message.value.id !in db.inbox
  }

  // ---- before the wallet ----

  predicate StartOk(db: DB, clock: Time, u: Unit) {
    && (u.job.SubmitJob? ==> ValidInput(u.job.input))
    && (u.Registering? ==> FromQueue(u.job) && NowOk(clock, u.now))
    && (u.Inserting? ==> u.job.SubmitJob? && NowOk(clock, u.now))
    && (u.Claiming? ==> u.job.RetryJob? && NowOk(clock, u.now))
    && (u.Inserting? || u.HasOp() || u.Replaying? ==> InboxFree(db, u.job))
  }

  /** The operation is new under free keys, or it is the committed row the worker claimed when it was due. */
  predicate OperationOk(cfg: Settings, db: DB, used: set<Id>, clock: Time, job: Job, now: Time, op: Tx) {
    && NowOk(clock, now)
    && Open(DoorOf(job), op) && Current(db, DoorOf(job), op)
    && op.id in used && op.command.walletId in db.wallets
    && (job.SubmitJob? ==> op.command == CommandOf(job.input) && op.createdAt == now && op.attempts == 0)
    && (job.RetryJob? ==> op.nextAttemptAt <= now && op.deadlineAt == op.createdAt + cfg.referenceTtl)
  }

  /** Between the row lock and the end of the unit the committed wallet is the one the unit read. */
  predicate WalletOk(db: DB, u: Unit)
    requires u.HasWallet()
  {
    u.op.command.walletId in db.wallets && db.wallets[u.op.command.walletId] == u.account
  }

  // ---- the reference ----

  predicate PastFinding(u: Unit) {
    u.Checking? || HasReference(u)
  }

  predicate HasReference(u: Unit) {
    u.Deciding? || u.Waking? || u.Committing?
  }

  function OriginalOf(u: Unit): Option<Tx>
    requires PastFinding(u)
  {
    if u.Checking? then Some(u.original)
    else if u.reference.Some? then Some(u.reference.value.transaction)
    else None
  }

  /** What was read may be behind the table, but identity never changes and a terminal row never changes. */
  predicate ReadBefore(db: DB, t: Tx) {
    && t.id in db.txs && SameIdentity(t, db.txs[t.id])
    && (t.status.Terminal() ==> db.txs[t.id] == t)
  }

  predicate OriginalOk(db: DB, op: Tx, original: Tx) {
    && Names(op, original) && Rehydrate(original).Ok?
    && (original.id == op.id ==> original == op)
    && (original.id != op.id ==> ReadBefore(db, original))
  }

  predicate SettledOn(t: Tx, w: Id) {
    t.command.walletId == w && (t.status == Processed || t.status == Rejected)
  }

  /** An original settled on the wallet of the operation is exactly the one the unit read. */
  predicate SettledSeen(db: DB, op: Tx, original: Option<Tx>) {
    forall t :: t in db.txs && t != op.id && Names(op, db.txs[t]) && SettledOn(db.txs[t], op.command.walletId) ==>
      original == Some(db.txs[t])
  }

  /** A row named on the wallet of the operation is the row the unit read, perhaps in an earlier state;
      an operation that names itself found itself. */
  predicate NamedSeen(db: DB, op: Tx, original: Option<Tx>) {
    && (Names(op, op) ==> original == Some(op))
    && (forall t :: t in db.txs && t != op.id && Names(op, db.txs[t])
                    && db.txs[t].command.walletId == op.command.walletId ==>
          original.Some? && original.value.id == t)
  }

  /** The parked row kept its distance from the deadline: one base per attempt. */
  predicate NotEarly(cfg: Settings, t: Tx) {
    t.nextAttemptAt >= t.createdAt + cfg.referenceBackoff + t.attempts * cfg.backoffBase
  }

  predicate ReferenceOk(cfg: Settings, db: DB, job: Job, op: Tx, original: Option<Tx>) {
    && (original.Some? ==> OriginalOk(db, op, original.value))
    && SettledSeen(db, op, original) && NamedSeen(db, op, original)
    && (job.RetryJob? && (original.Some? ==> !original.value.status.Terminal()) ==> NotEarly(cfg, op))
  }

  /** On the wallet of the operation, the answer of HasSuccessfulReversal still holds. */
  ghost predicate ReversedOk(db: DB, op: Tx, reference: Option<Reference>) {
    op.command.kind.Reversal() && reference.Some?
    && reference.value.transaction.command.walletId == op.command.walletId ==>
      (reference.value.alreadyReversed <==> HasReversal(db.txs, reference.value.transaction.id))
  }

  // ---- the effect ----

  predicate EffectOk(cfg: Settings, u: Unit)
    requires u.Waking? || u.Committing?
  {
    && u.entryId != NIL
    && Settle(DoorOf(u.job), cfg, u.account, u.op, u.reference, u.entryId, u.now) == Ok(u.effect)
    && (u.Waking? ==> u.effect.op.status != PendingReference)
  }

  /** The parked rows of the same wallet that wait for the operation. */
  predicate RowWaits(db: DB, op: Tx, t: Id) {
    && t in db.txs && t != op.id && db.txs[t].status == PendingReference && Names(db.txs[t], op)
    && db.txs[t].command.walletId == op.command.walletId
  }

  predicate WokenOk(db: DB, op: Tx, woken: set<Id>) {
    forall t :: t in woken ==> t in db.txs && t != op.id && db.txs[t].status == PendingReference && Names(db.txs[t], op)
  }

  /** After the wake-up every waiting row will be due, except one that the give-up path was holding. */
  ghost predicate WakeDone(db: DB, clock: Time, missed: set<Skip>, op: Tx, woken: set<Id>) {
    forall t :: RowWaits(db, op, t) ==> t in woken || db.txs[t].nextAttemptAt <= clock
                                          || Skip(t, op.id, db.txs[t].nextAttemptAt) in missed
  }

  ghost predicate CommitOk(db: DB, clock: Time, missed: set<Skip>, u: Unit)
    requires u.Committing?
  {
    && WokenOk(db, u.op, u.woken)
    && (u.effect.op.status != PendingReference ==> WakeDone(db, clock, missed, u.op, u.woken))
    && (u.effect.op.status == PendingReference ==> u.woken == {})
  }

  // ---- replays and ends ----

  /** The operation the input asks for, by provider, key and payload. */
  predicate AnswersInput(t: Tx, input: Input) {
    && t.command.kind != Opening
    && t.command.providerId == input.request.providerId
    && t.command.idempotencyKey == input.request.idempotencyKey
    && t.command.payloadHash == Digest(FieldsOf(input.request))
  }

  predicate ExistingOk(db: DB, job: Job, existing: Tx) {
    job.SubmitJob? && existing.status != Pending && ReadBefore(db, existing) && AnswersInput(existing, job.input)
  }

  /** The inbox row of the message is complete and names the operation. */
  predicate Acknowledged(db: DB, job: Job, transactionId: Id) {
    FromQueue(job) ==>
      var m := job.input.message.value.id;
      m in db.inbox && db.inbox[m].outcome != NoOutcome && db.inbox[m].transactionId == transactionId
  }

  /** An answer names a committed operation of its key and payload, and repeats its outcome once that is final. */
  predicate AnswerHolds(db: DB, job: Job, answer: Answer) {
    && job.SubmitJob? && answer.transactionId in db.txs
    && var t := db.txs[answer.transactionId];
       && AnswersInput(t, job.input)
       && answer.status != Pending
       && (answer.status.Terminal() ==>
             t.status == answer.status && t.resultBalance == answer.balance && t.failureCode == answer.failureCode)
       && Acknowledged(db, job, answer.transactionId)
  }

  predicate EndOk(db: DB, u: Unit) {
    && (u.Replaying? ==> ExistingOk(db, u.job, u.existing))
    && (u.Answering? ==> ExistingOk(db, u.job, u.existing) && Acknowledged(db, u.job, u.existing.id))
    && (u.Ended? && u.end.Answered? ==> AnswerHolds(db, u.job, u.end.answer))
  }

  predicate GiveUpOk(db: DB, clock: Time, u: Unit) {
    && (u.GivingUp? ==> u.job.RetryJob? && u.target in db.txs)
    && (u.Failing? ==>
          u.job.RetryJob? && NowOk(clock, u.now) && u.target in db.txs && u.row == Some(db.txs[u.target]))
  }

  ghost predicate UnitOk(cfg: Settings, db: DB, used: set<Id>, clock: Time, missed: set<Skip>, u: Unit) {
    && StartOk(db, clock, u)
    && (u.HasOp() ==> OperationOk(cfg, db, used, clock, u.job, u.now, u.op))
    && (u.HasWallet() ==> WalletOk(db, u))
    && (PastFinding(u) ==> ReferenceOk(cfg, db, u.job, u.op, OriginalOf(u)))
    && (HasReference(u) ==> ReversedOk(db, u.op, u.reference))
    && (u.Waking? || u.Committing? ==> EffectOk(cfg, u))
    && (u.Committing? ==> CommitOk(db, clock, missed, u))
    && EndOk(db, u) && GiveUpOk(db, clock, u)
  }

  ghost predicate UnitsOk(cfg: Settings, s: State) {
    forall p :: p in s.units ==> UnitOk(cfg, s.db, s.used, s.clock, s.missed, s.units[p])
  }

  /** Knowledge survives later clock readings, fresh identifiers and rows missed elsewhere. */
  lemma KnowledgeAges(cfg: Settings, db: DB, used: set<Id>, clock: Time, missed: set<Skip>, u: Unit,
                      used': set<Id>, clock': Time, missed': set<Skip>)
    requires UnitOk(cfg, db, used, clock, missed, u)
    requires used <= used' && clock <= clock' && missed <= missed'
    ensures UnitOk(cfg, db, used', clock', missed', u)
  {
  }
}
