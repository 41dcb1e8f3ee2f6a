/** One settlement: the decision turned into the rows, the entry and the events it writes. */
module Settlements {
  import opened Values
  import opened Moneys
  import opened Ledgers
  import opened Wallets
  import opened Wagering
  import opened Decisions
  import opened Backoffs

  datatype Event =
    | TransactionProcessed(transactionId: Id, balance: Money, referenceId: Id, at: Time)
    | TransactionRejected(transactionId: Id, code: FailureCode, balance: Money, at: Time)
    | TransactionPending(transactionId: Id, nextAttemptAt: Time, deadlineAt: Time, at: Time)
    | BalanceChanged(transactionId: Id, entry: LedgerEntry)

  /** The two doors a settlement comes through: a submission, or the retry worker. */
  datatype Door = Submission | Retry

  datatype Settings = Settings(referenceBackoff: Int64, referenceTtl: Int64, backoffBase: Int64, backoffMax: Int64)

  /** The ordering the configuration enforces, with durations far from the int64 limit. */
  predicate ValidSettings(cfg: Settings) {
    && 0 < cfg.backoffBase <= cfg.backoffMax < DOUBLING_LIMIT
    && 0 < cfg.referenceBackoff < cfg.referenceTtl
  }

  datatype Effect = Effect(op: Tx, account: WalletState, entry: Option<LedgerEntry>, events: seq<Event>)

  /** newEnvelope together with NewOutboxEvent, for an event about `op`. */
  function Envelope(op: Tx, occurredAt: Time, now: Time, event: Event): Result<seq<Event>> {
    if op.id == NIL || op.command.walletId == NIL then Err(MissingIdentifier)
    else if op.command.correlationId == Empty then Err(MissingField)
    else if occurredAt == 0 || now == 0 then Err(MissingTimestamp)
    else Ok([event])
  }

  function SettlementEvents(op: Tx, entry: Option<LedgerEntry>, balance: Money, now: Time): Result<seq<Event>> {
    match op.status
    case Processed =>
      var processed :- Envelope(op, op.completedAt, now,
                                TransactionProcessed(op.id, balance, op.referenceId, op.completedAt));
      if entry.None? then Ok(processed)
      else
        var changed :- Envelope(op, entry.value.createdAt, now, BalanceChanged(op.id, entry.value));
        Ok(processed + changed)
    case Rejected =>
      Envelope(op, op.completedAt, now, TransactionRejected(op.id, op.failureCode, balance, op.completedAt))
    case PendingReference =>
      Envelope(op, op.updatedAt, now, TransactionPending(op.id, op.nextAttemptAt, op.deadlineAt, op.updatedAt))
    case _ => Ok([])
  }

  function ApplyFinancialMovement(account: WalletState, op: Tx, movement: Movement, referenceId: Id, entryId: Id,
                                  now: Time): Result<(Tx, WalletState, LedgerEntry)>
  {
    var direction := if movement.direction == Debit then Debit else Credit;
    var moved :- Move(account, direction, op.id, movement.amount, entryId, now);
    var processed :- MarkProcessed(op, moved.0.balance, referenceId, now);
    Ok((processed, moved.0, moved.1))
  }

  /** What a unit writes once the wallet is locked and the reference read. */
  function Settle(door: Door, cfg: Settings, account: WalletState, op: Tx, reference: Option<Reference>, entryId: Id,
                  now: Time): Result<Effect>
  {
    var decision :- Decide(account, op, reference, now);
    match decision
    case WaitReference => Wait(door, cfg, account, op, now)
    case Reject(code) =>
      var rejected :- MarkRejected(op, code, account.balance, now);
      var events :- SettlementEvents(rejected, None, account.balance, now);
      Ok(Effect(rejected, account, None, events))
    case Process(movement, referenceId) =>
      if !movement.Present() then
        var processed :- MarkProcessed(op, account.balance, referenceId, now);
        var events :- SettlementEvents(processed, None, account.balance, now);
        Ok(Effect(processed, account, None, events))
      else
        var (processed, moved, entry) :- ApplyFinancialMovement(account, op, movement, referenceId, entryId, now);
        var events :- SettlementEvents(processed, Some(entry), moved.balance, now);
        Ok(Effect(processed, moved, Some(entry), events))
  }

  /** A submission parks the operation and announces it; the worker only postpones it. */
  function Wait(door: Door, cfg: Settings, account: WalletState, op: Tx, now: Time): Result<Effect> {
    match door
    case Submission =>
      var parked :- MarkPendingReference(op, now + cfg.referenceBackoff, op.createdAt + cfg.referenceTtl, now);
      var events :- SettlementEvents(parked, None, account.balance, now);
      Ok(Effect(parked, account, None, events))
    case Retry =>
      var postponed :- Reschedule(op, now + Backoff(cfg.backoffBase, cfg.backoffMax, op.attempts + 1), now);
      Ok(Effect(postponed, account, None, []))
  }

  // ---- what a settlement needs and what it promises ----

  /** The operation a unit holds when it decides: new, or parked and claimed again. */
  predicate Open(door: Door, op: Tx) {
    && Rehydrate(op).Ok?
    && op.command.kind != Opening
    && op.createdAt > 0 && op.resultBalance == NO_MONEY
    && op.status == (if door == Submission then Pending else PendingReference)
  }

  /** A reference is an accepted row; the row of the operation itself is the operation. */
  predicate ReferenceFits(op: Tx, reference: Option<Reference>) {
    reference.Some? ==>
      && Rehydrate(reference.value.transaction).Ok?
      && (reference.value.transaction.id == op.id ==> reference.value.transaction == op)
  }

  predicate Ready(door: Door, cfg: Settings, account: WalletState, op: Tx, reference: Option<Reference>, entryId: Id,
                  now: Time)
  {
    && ValidSettings(cfg) && ValidWallet(account) && account.id == op.command.walletId
    && Open(door, op) && ReferenceFits(op, reference)
    && entryId != NIL && now > 0
  }

  predicate SameIdentity(before: Tx, after: Tx) {
    before.id == after.id && before.command == after.command && before.createdAt == after.createdAt
  }

  /** The direction in which each kind of processed operation moves money. */
  function KindDirection(kind: Kind, original: Kind): Direction {
    match kind
    case Bet => Debit
    case Win | Opening => Credit
    case Refund | Rollback => ReversalDirection(kind, original)
    case _ => NoDirection
  }

  /** The reference a processed reversal consumed. */
  predicate Consumes(op: Tx, reference: Option<Reference>, after: Tx) {
    && reference.Some? && !reference.value.alreadyReversed
    && var original := reference.value.transaction;
       && original.status == Processed && original.id == after.referenceId && original.id != op.id
       && Reversible(op.command.kind, original.command.kind)
       && SameRound(op, original) && op.command.amount == original.command.amount
  }

  function OriginalKind(reference: Option<Reference>): Kind {
    if reference.Some? then reference.value.transaction.command.kind else UnknownKind
  }

  predicate ProcessedEffect(account: WalletState, op: Tx, reference: Option<Reference>, e: Effect, now: Time) {
    && e.op.status == Processed && e.op.completedAt == now
    && e.op.resultBalance == e.account.balance
    && (op.command.kind.Reversal() ==> Consumes(op, reference, e.op))
    && (!op.command.kind.Reversal() && e.op.referenceId != NIL ==> op.command.kind == Win)
    && (op.command.kind == Loss ==> e.entry.None? && e.account == account)
    && (op.command.kind != Loss ==> e.entry.Some? && MovementEffect(account, op, reference, e))
    && e.events == [TransactionProcessed(op.id, e.account.balance, e.op.referenceId, now)]
                   + (if e.entry.Some? then [BalanceChanged(op.id, e.entry.value)] else [])
  }

  predicate MovementEffect(account: WalletState, op: Tx, reference: Option<Reference>, e: Effect)
    requires e.entry.Some?
  {
    var entry := e.entry.value;
    && WellFormed(entry)
    && entry.walletId == account.id && entry.transactionId == op.id && entry.amount == op.command.amount
    && entry.direction == KindDirection(op.command.kind, OriginalKind(reference))
    && entry.balanceBefore == account.balance && entry.walletVersion == account.version + 1
    && e.account == account.(balance := entry.balanceAfter, version := entry.walletVersion,
                             updatedAt := e.account.updatedAt)
  }

  predicate RejectedEffect(account: WalletState, e: Effect, now: Time) {
    && e.op.status == Rejected && e.op.completedAt == now
    && e.account == account && e.entry.None?
    && e.op.resultBalance == account.balance && e.op.referenceId == NIL
    && e.events == [TransactionRejected(e.op.id, e.op.failureCode, account.balance, now)]
  }

  /** Waiting needs a reference that is missing or not settled, and a deadline not yet reached. */
  predicate WaitingEffect(door: Door, cfg: Settings, account: WalletState, op: Tx, reference: Option<Reference>,
                          e: Effect, now: Time)
  {
    && e.op.status == PendingReference && e.account == account && e.entry.None?
    && e.op.referenceId == NIL && e.op.resultBalance == op.resultBalance
    && op.command.kind.Reversal()
    && !DeadlineReached(op, now)
    && (reference.Some? ==> !reference.value.transaction.status.Terminal())
    && (door == Submission ==>
          && e.op.nextAttemptAt == now + cfg.referenceBackoff && e.op.deadlineAt == op.createdAt + cfg.referenceTtl
          && e.op.attempts == 0
          && e.events == [TransactionPending(op.id, e.op.nextAttemptAt, e.op.deadlineAt, now)])
    && (door == Retry ==>
          && e.op.nextAttemptAt == now + Backoff(cfg.backoffBase, cfg.backoffMax, op.attempts + 1)
          && e.op.deadlineAt == op.deadlineAt && e.op.attempts == op.attempts + 1
          && e.events == [])
  }

  predicate EffectFollows(door: Door, cfg: Settings, account: WalletState, op: Tx, reference: Option<Reference>,
                          e: Effect, now: Time)
  {
    && SameIdentity(op, e.op) && Rehydrate(e.op).Ok? && ValidWallet(e.account)
    && (e.op.status != PendingReference ==> e.op.attempts == op.attempts)
    && match e.op.status
       case Processed => ProcessedEffect(account, op, reference, e, now)
       case Rejected => RejectedEffect(account, e, now)
       case PendingReference => WaitingEffect(door, cfg, account, op, reference, e, now)
       case _ => false
  }

  /** Does the decision move money? */
  predicate Moves(account: WalletState, op: Tx, reference: Option<Reference>, now: Time) {
    var d := Decide(account, op, reference, now);
    d.Ok? && d.value.Process? && d.value.movement.Present()
  }

  lemma DecisionIsSound(account: WalletState, op: Tx, reference: Option<Reference>, now: Time)
    requires ValidWallet(account) && account.id == op.command.walletId
    requires Rehydrate(op).Ok? && op.command.kind != Opening && ReferenceFits(op, reference)
    ensures Decide(account, op, reference, now).Ok?
    ensures var d := Decide(account, op, reference, now).value;
            && (d.Reject? ==> d.code.Valid() && d.code != PermanentFailure)
            && (d.WaitReference? ==>
                  && op.command.kind.Reversal() && !DeadlineReached(op, now)
                  && (reference.Some? ==> !reference.value.transaction.status.Terminal()))
            && (d.Process? ==> op.command.amount.currency == account.balance.currency)
            && (d.Process? && op.command.kind == Loss ==> d.movement == NO_MOVEMENT && d.referenceId == NIL)
            && (d.Process? && op.command.kind != Loss ==>
                  && d.movement == Movement(KindDirection(op.command.kind, OriginalKind(reference)), op.command.amount)
                  && 0 <= account.balance.minor + SignedAmount(d.movement.direction, op.command.amount) <= MAX_INT64)
  {
  }

  lemma DecidedReference(account: WalletState, op: Tx, reference: Option<Reference>, now: Time)
    requires ValidWallet(account) && account.id == op.command.walletId
    requires Rehydrate(op).Ok? && !op.status.Terminal() && op.command.kind != Opening && ReferenceFits(op, reference)
    requires Decide(account, op, reference, now).Ok? && Decide(account, op, reference, now).value.Process?
    ensures var referenceId := Decide(account, op, reference, now).value.referenceId;
            && referenceId != op.id
            && (op.command.kind.Reversal() ==>
                  && referenceId != NIL && reference.Some? && !reference.value.alreadyReversed
                  && reference.value.transaction.id == referenceId
                  && reference.value.transaction.status == Processed
                  && Reversible(op.command.kind, reference.value.transaction.command.kind)
                  && SameRound(op, reference.value.transaction)
                  && op.command.amount == reference.value.transaction.command.amount)
            && (!op.command.kind.Reversal() && referenceId != NIL ==>
                  op.command.kind == Win && op.command.referenceExternalId != Empty)
  {
  }

  /** An event is wrapped exactly for an operation with identifiers and a correlation id, at known moments. */
  lemma EnvelopeExactlyWhen(op: Tx, occurredAt: Time, now: Time, event: Event)
    ensures Envelope(op, occurredAt, now, event).Ok? <==>
              op.id != NIL && op.command.walletId != NIL && op.command.correlationId != Empty && occurredAt != 0 && now != 0
    ensures Envelope(op, occurredAt, now, event).Ok? ==> Envelope(op, occurredAt, now, event).value == [event]
  {
  }

  lemma EnvelopeSucceeds(op: Tx, occurredAt: Time, now: Time, event: Event)
    requires Rehydrate(op).Ok? && occurredAt != 0 && now != 0
    ensures Envelope(op, occurredAt, now, event) == Ok([event])
  {
  }

  /** MarkProcessed accepts what a decision to process hands it. */
  lemma ProcessedIsAccepted(op: Tx, balance: Money, referenceId: Id, now: Time)
    requires Rehydrate(op).Ok? && !op.status.Terminal() && now != 0
    requires balance.Valid() && balance.minor >= 0 && balance.currency == op.command.amount.currency
    requires referenceId != op.id && (op.command.kind.Reversal() ==> referenceId != NIL)
    requires !op.command.kind.Reversal() && referenceId != NIL ==>
               op.command.kind == Win && op.command.referenceExternalId != Empty
    ensures var r := MarkProcessed(op, balance, referenceId, now);
            && r.Ok? && Rehydrate(r.value).Ok? && SameIdentity(op, r.value)
            && r.value.status == Processed && r.value.completedAt == now && r.value.resultBalance == balance
            && r.value.referenceId == referenceId && r.value.attempts == op.attempts
  {
  }

  lemma MovementIsApplied(account: WalletState, op: Tx, movement: Movement, referenceId: Id, entryId: Id, now: Time)
    requires ValidWallet(account) && Rehydrate(op).Ok? && !op.status.Terminal()
    requires entryId != NIL && now != 0
    requires referenceId != op.id && (op.command.kind.Reversal() ==> referenceId != NIL)
    requires !op.command.kind.Reversal() && referenceId != NIL ==>
               op.command.kind == Win && op.command.referenceExternalId != Empty
    requires movement.Present() && movement.amount == op.command.amount && op.command.kind != Loss
    requires op.command.amount.currency == account.balance.currency
    requires 0 <= account.balance.minor + SignedAmount(movement.direction, op.command.amount) <= MAX_INT64
    ensures var r := ApplyFinancialMovement(account, op, movement, referenceId, entryId, now);
            && (r.Ok? <==> account.version < MAX_INT64)
            && (r.Ok? ==>
                  var (processed, moved, entry) := r.value;
                  && MarkProcessed(op, moved.balance, referenceId, now) == Ok(processed)
                  && Move(account, movement.direction, op.id, movement.amount, entryId, now) == Ok((moved, entry))
                  && entry.createdAt == now)
  {
    MoveSucceeds(account, movement.direction, op.id, movement.amount, entryId, now);
    var moved := Move(account, movement.direction, op.id, movement.amount, entryId, now);
    if moved.Ok? {
      ProcessedIsAccepted(op, moved.value.0.balance, referenceId, now);
    }
  }

  lemma ProcessingSucceeds(door: Door, cfg: Settings, account: WalletState, op: Tx, reference: Option<Reference>,
                           entryId: Id, now: Time)
    requires Ready(door, cfg, account, op, reference, entryId, now)
    requires Decide(account, op, reference, now).Ok? && Decide(account, op, reference, now).value.Process?
    ensures var r := Settle(door, cfg, account, op, reference, entryId, now);
            && (r.Ok? <==> (Moves(account, op, reference, now) ==> account.version < MAX_INT64))
            && (r.Ok? ==> EffectFollows(door, cfg, account, op, reference, r.value, now))
  {
    DecisionIsSound(account, op, reference, now);
    DecidedReference(account, op, reference, now);
    var d := Decide(account, op, reference, now).value;
    if d.movement.Present() {
      MovingSucceeds(door, cfg, account, op, reference, d, entryId, now);
    } else {
      StandingSucceeds(door, cfg, account, op, reference, d, entryId, now);
    }
  }

  lemma StandingSucceeds(door: Door, cfg: Settings, account: WalletState, op: Tx, reference: Option<Reference>,
                         d: Decision, entryId: Id, now: Time)
    requires Ready(door, cfg, account, op, reference, entryId, now)
    requires Decide(account, op, reference, now) == Ok(d) && d.Process? && !d.movement.Present()
    requires op.command.kind == Loss && d.referenceId == NIL
    requires op.command.amount.currency == account.balance.currency
    ensures var r := Settle(door, cfg, account, op, reference, entryId, now);
            r.Ok? && EffectFollows(door, cfg, account, op, reference, r.value, now)
  {
    ProcessedIsAccepted(op, account.balance, d.referenceId, now);
    var processed := MarkProcessed(op, account.balance, d.referenceId, now).value;
    EnvelopeSucceeds(processed, now, now, TransactionProcessed(op.id, account.balance, NIL, now));
  }

  lemma MovingSucceeds(door: Door, cfg: Settings, account: WalletState, op: Tx, reference: Option<Reference>,
                       d: Decision, entryId: Id, now: Time)
    requires Ready(door, cfg, account, op, reference, entryId, now)
    requires Decide(account, op, reference, now) == Ok(d) && d.Process? && d.movement.Present()
    requires op.command.kind != Loss && op.command.amount.currency == account.balance.currency
    requires d.movement == Movement(KindDirection(op.command.kind, OriginalKind(reference)), op.command.amount)
    requires 0 <= account.balance.minor + SignedAmount(d.movement.direction, op.command.amount) <= MAX_INT64
    requires d.referenceId != op.id && (op.command.kind.Reversal() ==> d.referenceId != NIL)
    requires !op.command.kind.Reversal() && d.referenceId != NIL ==>
               op.command.kind == Win && op.command.referenceExternalId != Empty
    requires op.command.kind.Reversal() ==>
               && reference.Some? && !reference.value.alreadyReversed
               && var original := reference.value.transaction;
                  && original.id == d.referenceId && original.status == Processed
                  && Reversible(op.command.kind, original.command.kind)
                  && SameRound(op, original) && op.command.amount == original.command.amount
    ensures var r := Settle(door, cfg, account, op, reference, entryId, now);
            && (r.Ok? <==> account.version < MAX_INT64)
            && (r.Ok? ==> EffectFollows(door, cfg, account, op, reference, r.value, now))
  {
    MovementIsApplied(account, op, d.movement, d.referenceId, entryId, now);
    var applied := ApplyFinancialMovement(account, op, d.movement, d.referenceId, entryId, now);
    if applied.Ok? {
      var (processed, moved, entry) := applied.value;
      MoveSucceeds(account, d.movement.direction, op.id, d.movement.amount, entryId, now);
      ProcessedIsAccepted(op, moved.balance, d.referenceId, now);
      EnvelopeSucceeds(processed, now, now, TransactionProcessed(op.id, moved.balance, d.referenceId, now));
      EnvelopeSucceeds(processed, now, now, BalanceChanged(op.id, entry));
      assert SettlementEvents(processed, Some(entry), moved.balance, now)
          == Ok([TransactionProcessed(op.id, moved.balance, d.referenceId, now)] + [BalanceChanged(op.id, entry)]);
    }
  }

  lemma RejectionSucceeds(door: Door, cfg: Settings, account: WalletState, op: Tx, reference: Option<Reference>,
                          entryId: Id, now: Time)
    requires Ready(door, cfg, account, op, reference, entryId, now)
    requires Decide(account, op, reference, now).Ok? && Decide(account, op, reference, now).value.Reject?
    ensures var r := Settle(door, cfg, account, op, reference, entryId, now);
            r.Ok? && EffectFollows(door, cfg, account, op, reference, r.value, now)
  {
    DecisionIsSound(account, op, reference, now);
  }

  lemma WaitingSucceeds(door: Door, cfg: Settings, account: WalletState, op: Tx, reference: Option<Reference>,
                        entryId: Id, now: Time)
    requires Ready(door, cfg, account, op, reference, entryId, now)
    requires Decide(account, op, reference, now).Ok? && Decide(account, op, reference, now).value.WaitReference?
    ensures var r := Settle(door, cfg, account, op, reference, entryId, now);
            r.Ok? && EffectFollows(door, cfg, account, op, reference, r.value, now)
  {
    DecisionIsSound(account, op, reference, now);
    BackoffIsCappedDoubling(cfg.backoffBase, cfg.backoffMax, op.attempts + 1);
  }

  /** Decide is complete for the write path. From a valid wallet and an open operation on it, whatever Decide
      answers, the movement and the transition that follow cannot fail for funds, limit, currency, reference or
      status: the settlement fails only if it moves money and the int64 version counter is exhausted. What it
      writes is the effect the decision stands for, and never a PENDING row. */
  lemma SettlementIsComplete(door: Door, cfg: Settings, account: WalletState, op: Tx, reference: Option<Reference>,
                             entryId: Id, now: Time)
    requires Ready(door, cfg, account, op, reference, entryId, now)
    ensures var r := Settle(door, cfg, account, op, reference, entryId, now);
            && (r.Ok? <==> (Moves(account, op, reference, now) ==> account.version < MAX_INT64))
            && (r.Ok? ==> EffectFollows(door, cfg, account, op, reference, r.value, now))
  {
    DecisionIsSound(account, op, reference, now);
    match Decide(account, op, reference, now).value
    case Process(_, _) => ProcessingSucceeds(door, cfg, account, op, reference, entryId, now);
    case Reject(_) => RejectionSucceeds(door, cfg, account, op, reference, entryId, now);
    case WaitReference => WaitingSucceeds(door, cfg, account, op, reference, entryId, now);
  }
}
