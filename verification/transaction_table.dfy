/** What the state machine of an operation means: exactly which operations are born, which rows are accepted, and which
    transitions are allowed, with what they leave. */
module TransactionTable {
  import opened Values
  import opened Moneys
  import opened Wagering

  // ---- birth ----

  predicate Identified(c: Command, id: Id) {
    id != NIL && c.walletId != NIL && c.playerId != NIL
  }

  predicate ByProvider(c: Command) {
    c.origin == Http || c.origin == Queue
  }

  predicate OfProviderKind(c: Command) {
    c.kind == Bet || c.kind == Win || c.kind == Loss || c.kind == Refund || c.kind == Rollback
  }

  predicate FilledIn(c: Command) {
    && c.providerId.Word? && c.externalId.Word? && c.idempotencyKey.Word?
    && c.roundId.Word? && c.gameId.Word? && c.correlationId.Word?
  }

  /** A loss is for nothing, everything else is for something. */
  predicate AmountFits(c: Command) {
    if c.kind == Loss then c.amount.minor == 0 else c.amount.minor > 0
  }

  /** A reversal names what it reverses, a bet and a loss name nothing, a win may name its bet. */
  predicate ReferenceFitsKind(c: Command) {
    && (c.kind == Refund || c.kind == Rollback ==> c.referenceExternalId != Empty)
    && (c.kind == Bet || c.kind == Loss ==> c.referenceExternalId == Empty)
  }

  /** An operation of a provider is born exactly when its request is complete and fits its kind; it is then pending,
      dated by the clock, with nothing decided. */
  lemma BornExactlyWhen(c: Command, id: Id, now: Time)
    ensures var r := NewExternal(c, id, now);
            && (r.Ok? <==>
                  && Identified(c, id) && now != 0 && ByProvider(c) && OfProviderKind(c) && FilledIn(c)
                  && c.payloadHash.Digest? && c.amount.currency.Supported() && AmountFits(c) && ReferenceFitsKind(c))
            && (r.Ok? ==> r.value == Tx(id, c, now, Pending, NIL, NoFailure, NO_MONEY, 0, 0, 0, now, 0))
  {
  }

  /** And otherwise the error names the first thing that is wrong. */
  lemma RefusedBirthSaysWhy(c: Command, id: Id, now: Time, e: Error)
    ensures var identified := Identified(c, id);
            var dated := identified && now != 0;
            var sent := dated && ByProvider(c);
            var kinded := sent && OfProviderKind(c);
            var filled := kinded && FilledIn(c);
            var hashed := filled && c.payloadHash.Digest?;
            var priced := hashed && c.amount.currency.Supported();
            var fitting := priced && AmountFits(c);
            NewExternal(c, id, now) == Err(e) <==>
              match e
              case MissingIdentifier => !identified
              case MissingTimestamp => identified && !dated
              case InvalidOrigin => dated && !sent
              case InvalidKind => sent && !kinded
              case MissingField => kinded && !filled
              case InvalidPayloadHash => filled && !hashed
              case MoneyInvalidCurrency => hashed && !priced
              case InvalidAmount => priced && !fitting
              case ReferenceRequired =>
                fitting && (c.kind == Refund || c.kind == Rollback) && c.referenceExternalId == Empty
              case ReferenceForbidden => fitting && (c.kind == Bet || c.kind == Loss) && c.referenceExternalId != Empty
              case _ => false
  {
  }

  /** The opening of a wallet is born exactly for identifiers, a moment, a correlation id and money; it is processed from
      the start, for the balance it creates. */
  lemma OpeningBornExactlyWhen(id: Id, walletId: Id, playerId: Id, amount: Money, correlationId: Text, now: Time)
    ensures var r := NewOpening(id, walletId, playerId, amount, correlationId, now);
            && (r.Ok? <==>
                  && id != NIL && walletId != NIL && playerId != NIL && now != 0 && correlationId.Word?
                  && amount.currency.Supported() && amount.minor > 0)
            && (r.Ok? ==>
                  && r.value.id == id && r.value.status == Processed && r.value.resultBalance == amount
                  && r.value.createdAt == now && r.value.updatedAt == now && r.value.completedAt == now
                  && r.value.referenceId == NIL && r.value.failureCode == NoFailure && r.value.attempts == 0
                  && r.value.nextAttemptAt == 0 && r.value.deadlineAt == 0
                  && r.value.command == Command(Internal, Opening, Empty, Empty, Empty, NoHash, playerId, walletId, Empty,
                                                Empty, amount, Empty, correlationId))
  {
  }

  // ---- the rows a database may hold ----

  /** The part of a row that never changes is one that can be born. */
  predicate Bearable(t: Tx) {
    var c := t.command;
    if c.kind == Opening then
      && t.id != NIL && c.walletId != NIL && c.playerId != NIL && t.createdAt != 0 && c.correlationId.Word?
      && c.amount.currency.Supported() && c.amount.minor > 0
      && c == Command(Internal, Opening, Empty, Empty, Empty, NoHash, c.playerId, c.walletId, Empty, Empty, c.amount, Empty,
                      c.correlationId)
    else
      && Identified(c, t.id) && t.createdAt != 0 && ByProvider(c) && OfProviderKind(c) && FilledIn(c)
      && c.payloadHash.Digest? && c.amount.currency.Supported() && AmountFits(c) && ReferenceFitsKind(c)
  }

  predicate IsReversal(t: Tx) {
    t.command.kind == Refund || t.command.kind == Rollback
  }

  predicate Funds(m: Money) {
    m.currency.Supported() && m.minor >= 0
  }

  predicate Unscheduled(t: Tx) {
    t.nextAttemptAt == 0 && t.deadlineAt == 0
  }

  /** What each status says about the rest of the row. */
  predicate StatusFits(t: Tx) {
    match t.status
    case Pending =>
      t.completedAt == 0 && Unscheduled(t) && t.failureCode == NoFailure && !t.resultBalance.currency.Supported()
      && t.referenceId == NIL
    case PendingReference =>
      IsReversal(t) && t.completedAt == 0 && t.nextAttemptAt != 0 && t.deadlineAt != 0 && t.failureCode == NoFailure
      && !t.resultBalance.currency.Supported() && t.referenceId == NIL
    case Processed =>
      t.completedAt != 0 && Unscheduled(t) && t.failureCode == NoFailure && Funds(t.resultBalance)
      && t.resultBalance.currency == t.command.amount.currency && (IsReversal(t) ==> t.referenceId != NIL)
    case Rejected =>
      t.completedAt != 0 && Unscheduled(t) && Funds(t.resultBalance)
      && t.failureCode !in {NoFailure, UnknownFailure, PermanentFailure}
    case Failed =>
      IsReversal(t) && t.completedAt != 0 && Unscheduled(t) && t.failureCode == PermanentFailure
      && !t.resultBalance.currency.Supported()
    case UnknownStatus => false
  }

  /** A row is accepted exactly when it could have been born, its bookkeeping is sound, and its status agrees with the rest
      of it; an opening is always processed for its own amount. */
  lemma AcceptedExactlyWhen(t: Tx)
    ensures Rehydrate(t).Ok? <==>
              && Bearable(t) && t.updatedAt != 0 && t.attempts >= 0 && StatusFits(t) && t.referenceId != t.id
              && (t.referenceId != NIL ==>
                    t.command.referenceExternalId != Empty && t.command.kind != Bet && t.command.kind != Loss)
              && (t.command.kind == Opening ==>
                    t.status == Processed && t.resultBalance == t.command.amount && t.referenceId == NIL)
  {
  }

  // ---- the transitions ----

  predicate Unsettled(t: Tx) {
    t.status == Pending || t.status == PendingReference
  }

  /** From an accepted operation each transition succeeds exactly when its status, its arguments and its kind allow it, and
      changes exactly what it says: settling closes the schedule, parking opens it, postponing counts, failing is for the
      parked alone. */
  lemma TransitsExactlyWhen(t: Tx, a: Transition)
    requires Rehydrate(t).Ok?
    ensures Transit(t, a).Ok? <==>
              match a
              case ToProcessed(balance, referenceId, now) =>
                && now != 0 && Unsettled(t) && Funds(balance) && balance.currency == t.command.amount.currency
                && referenceId != t.id && (IsReversal(t) ==> referenceId != NIL)
                && (referenceId != NIL ==> t.command.referenceExternalId != Empty)
              case ToRejected(code, balance, now) =>
                now != 0 && Unsettled(t) && Funds(balance) && code !in {NoFailure, UnknownFailure, PermanentFailure}
              case ToPendingReference(nextAttemptAt, deadlineAt, now) =>
                now != 0 && nextAttemptAt != 0 && deadlineAt != 0 && t.status == Pending && IsReversal(t)
              case ToRescheduled(nextAttemptAt, now) =>
                now != 0 && nextAttemptAt != 0 && t.status == PendingReference
              case ToFailed(now) => now != 0 && t.status == PendingReference
    ensures Transit(t, a).Ok? ==>
              var after := Transit(t, a).value;
              match a
              case ToProcessed(balance, referenceId, now) =>
                after == Tx(t.id, t.command, t.createdAt, Processed, referenceId, NoFailure, balance, t.attempts, 0, 0, now,
                            now)
              case ToRejected(code, balance, now) =>
                after == Tx(t.id, t.command, t.createdAt, Rejected, NIL, code, balance, t.attempts, 0, 0, now, now)
              case ToPendingReference(nextAttemptAt, deadlineAt, now) =>
                after == Tx(t.id, t.command, t.createdAt, PendingReference, NIL, NoFailure, t.resultBalance, 0,
                            nextAttemptAt, deadlineAt, now, 0)
              case ToRescheduled(nextAttemptAt, now) =>
                after == Tx(t.id, t.command, t.createdAt, PendingReference, NIL, NoFailure, t.resultBalance, t.attempts + 1,
                            nextAttemptAt, t.deadlineAt, now, 0)
              case ToFailed(now) =>
                after == Tx(t.id, t.command, t.createdAt, Failed, NIL, PermanentFailure, t.resultBalance, t.attempts, 0, 0,
                            now, now)
  {
    AcceptedExactlyWhen(t);
  }
}
