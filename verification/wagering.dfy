/** The wager transaction: its vocabulary, its constructors and its state machine. */
module Wagering {
  import opened Values
  import opened Moneys

  datatype Kind = Opening | Bet | Win | Loss | Refund | Rollback | UnknownKind {
    predicate Valid() {
      this != UnknownKind
    }

    predicate External() {
      Valid() && this != Opening
    }

    predicate Reversal() {
      this == Refund || this == Rollback
    }

    predicate RequiresReference() {
      Reversal()
    }

    predicate ForbidsReference() {
      this == Bet || this == Loss
    }
  }

  datatype Status = Pending | PendingReference | Processed | Rejected | Failed | UnknownStatus {
    predicate Terminal() {
      this == Processed || this == Rejected || this == Failed
    }
  }

  datatype Origin = Internal | Http | Queue | UnknownOrigin {
    predicate External() {
      this == Http || this == Queue
    }
  }

  datatype FailureCode =
    | NoFailure | InsufficientFunds | ReversalInsufficientFunds | BalanceLimitExceeded | ReferenceNotFound
    | ReferenceNotProcessed | ReferenceMismatch | ReferenceKindNotAllowed | AlreadyReversed | CurrencyMismatch
    | WalletPlayerMismatch | PermanentFailure | UnknownFailure
  {
    predicate Valid() {
      this != NoFailure && this != UnknownFailure
    }
  }

  /** The nine business fields the canonical payload is made of. */
  datatype PayloadFields = PayloadFields(
    providerId: Text, externalId: Text, playerId: Id, walletId: Id, roundId: Text, gameId: Text,
    kind: Kind, amount: Money, referenceExternalId: Text)

  /** SHA-256 is opaque and injective: a well-formed digest stands for the fields it was computed from. */
  datatype PayloadHash = NoHash | Malformed(code: nat) | Digest(fields: PayloadFields)

  datatype Command = Command(
    origin: Origin, kind: Kind, providerId: Text, externalId: Text, idempotencyKey: Text, payloadHash: PayloadHash,
    playerId: Id, walletId: Id, roundId: Text, gameId: Text, amount: Money, referenceExternalId: Text,
    correlationId: Text)

  datatype Tx = Tx(
    id: Id, command: Command, createdAt: Time, status: Status, referenceId: Id, failureCode: FailureCode,
    resultBalance: Money, attempts: int, nextAttemptAt: Time, deadlineAt: Time, updatedAt: Time, completedAt: Time)

  // ---- constructors ----

  function CheckAmountPolicy(kind: Kind, amount: Money): Option<Error> {
    if !amount.Valid() then Some(MoneyInvalidCurrency)
    else if kind == Loss then (if amount.minor != 0 then Some(InvalidAmount) else None)
    else if !amount.IsPositive() then Some(InvalidAmount)
    else None
  }

  function NewExternal(command: Command, id: Id, now: Time): Result<Tx> {
    if id == NIL || command.walletId == NIL || command.playerId == NIL then Err(MissingIdentifier)
    else if now == 0 then Err(MissingTimestamp)
    else if !command.origin.External() then Err(InvalidOrigin)
    else if !command.kind.External() then Err(InvalidKind)
    else if command.providerId.Blank() || command.externalId.Blank() || command.idempotencyKey.Blank()
            || command.roundId.Blank() || command.gameId.Blank() || command.correlationId.Blank() then Err(MissingField)
    else if !command.payloadHash.Digest? then Err(InvalidPayloadHash)
    else if CheckAmountPolicy(command.kind, command.amount).Some? then
      Err(CheckAmountPolicy(command.kind, command.amount).value)
    else if command.kind.RequiresReference() && command.referenceExternalId == Empty then Err(ReferenceRequired)
    else if command.kind.ForbidsReference() && command.referenceExternalId != Empty then Err(ReferenceForbidden)
    else Ok(Tx(id, command, now, Pending, NIL, NoFailure, NO_MONEY, 0, 0, 0, now, 0))
  }

  function OpeningCommand(walletId: Id, playerId: Id, amount: Money, correlationId: Text): Command {
    Command(Internal, Opening, Empty, Empty, Empty, NoHash, playerId, walletId, Empty, Empty, amount, Empty,
            correlationId)
  }

  function NewOpening(id: Id, walletId: Id, playerId: Id, amount: Money, correlationId: Text, now: Time): Result<Tx> {
    if id == NIL || walletId == NIL || playerId == NIL then Err(MissingIdentifier)
    else if now == 0 then Err(MissingTimestamp)
    else if correlationId.Blank() then Err(MissingField)
    else if !amount.Valid() || !amount.IsPositive() then Err(InvalidAmount)
    else Ok(Tx(id, OpeningCommand(walletId, playerId, amount, correlationId), now, Processed, NIL, NoFailure, amount,
               0, 0, 0, now, now))
  }

  // ---- rehydration: the checks a persisted row has to pass ----

  function ValidateSnapshot(s: Tx): Option<Error> {
    var c := s.command;
    var identity :=
      if c.kind == Opening then
        if c.origin != Internal || s.status != Processed || c.providerId != Empty || c.externalId != Empty
           || c.idempotencyKey != Empty || c.payloadHash != NoHash || c.roundId != Empty || c.gameId != Empty
           || c.referenceExternalId != Empty || s.referenceId != NIL then Some(InvalidSnapshot)
        else match NewOpening(s.id, c.walletId, c.playerId, c.amount, c.correlationId, s.createdAt)
             case Err(e) => Some(e)
             case Ok(_) => if s.resultBalance != c.amount then Some(InvalidSnapshot) else None
      else match NewExternal(c, s.id, s.createdAt) case Err(e) => Some(e) case Ok(_) => None;
    if identity.Some? then identity
    else if s.attempts < 0 || s.referenceId == s.id
            || (s.referenceId != NIL && (c.kind.ForbidsReference() || c.referenceExternalId == Empty)) then
      Some(InvalidSnapshot)
    else if s.status.Terminal() == (s.completedAt == 0) then Some(InvalidSnapshot)
    else if s.status == PendingReference && (!c.kind.Reversal() || s.nextAttemptAt == 0 || s.deadlineAt == 0) then
      Some(InvalidSnapshot)
    else if s.status != PendingReference && (s.nextAttemptAt != 0 || s.deadlineAt != 0) then Some(InvalidSnapshot)
    else ValidateOutcome(s)
  }

  function ValidateOutcome(s: Tx): Option<Error> {
    match s.status
    case Processed | Rejected =>
      if !s.resultBalance.Valid() || s.resultBalance.IsNegative() then Some(InvalidAmount)
      else if s.status == Processed then
        if s.failureCode != NoFailure || s.resultBalance.currency != s.command.amount.currency
           || (s.command.kind.Reversal() && s.referenceId == NIL) then Some(InvalidSnapshot) else None
      else if !s.failureCode.Valid() || s.failureCode == PermanentFailure then Some(InvalidFailureCode) else None
    case Failed =>
      if !s.command.kind.Reversal() || s.failureCode != PermanentFailure || s.resultBalance.Valid() then
        Some(InvalidSnapshot) else None
    case _ =>
      if s.failureCode != NoFailure || s.resultBalance.Valid() || s.referenceId != NIL then
        Some(InvalidSnapshot) else None
  }

  function Rehydrate(s: Tx): Result<Tx> {
    if s.id == NIL || s.command.walletId == NIL || s.command.playerId == NIL then Err(MissingIdentifier)
    else if s.command.origin == UnknownOrigin then Err(InvalidOrigin)
    else if !s.command.kind.Valid() then Err(InvalidKind)
    else if s.status == UnknownStatus then Err(InvalidStatus)
    else if s.failureCode != NoFailure && !s.failureCode.Valid() then Err(InvalidFailureCode)
    else if s.createdAt == 0 || s.updatedAt == 0 then Err(MissingTimestamp)
    else match ValidateSnapshot(s)
         case Some(e) => Err(e)
         case None => Ok(s)
  }

  // ---- the state machine ----

  function CanSettle(t: Tx, now: Time): Option<Error> {
    if now == 0 then Some(MissingTimestamp)
    else if t.status != Pending && t.status != PendingReference then Some(TransitionNotAllowed)
    else None
  }

  function MarkProcessed(t: Tx, resultBalance: Money, referenceId: Id, now: Time): Result<Tx> {
    if CanSettle(t, now).Some? then Err(CanSettle(t, now).value)
    else if !resultBalance.Valid() || resultBalance.IsNegative()
            || resultBalance.currency != t.command.amount.currency then Err(InvalidAmount)
    else if t.command.kind.Reversal() && referenceId == NIL then Err(ReferenceRequired)
    else if referenceId == t.id
            || (referenceId != NIL && (t.command.kind.ForbidsReference() || t.command.referenceExternalId == Empty)) then
      Err(ReferenceForbidden)
    else Ok(t.(status := Processed, resultBalance := resultBalance,
               referenceId := if referenceId != NIL then referenceId else t.referenceId,
               completedAt := now, updatedAt := now, nextAttemptAt := 0, deadlineAt := 0))
  }

  function MarkRejected(t: Tx, code: FailureCode, resultBalance: Money, now: Time): Result<Tx> {
    if CanSettle(t, now).Some? then Err(CanSettle(t, now).value)
    else if !code.Valid() || code == PermanentFailure then Err(InvalidFailureCode)
    else if !resultBalance.Valid() || resultBalance.IsNegative() then Err(InvalidAmount)
    else Ok(t.(status := Rejected, failureCode := code, resultBalance := resultBalance,
               completedAt := now, updatedAt := now, nextAttemptAt := 0, deadlineAt := 0))
  }

  function MarkPendingReference(t: Tx, nextAttemptAt: Time, deadlineAt: Time, now: Time): Result<Tx> {
    if now == 0 || nextAttemptAt == 0 || deadlineAt == 0 then Err(MissingTimestamp)
    else if t.status != Pending then Err(TransitionNotAllowed)
    else if !t.command.kind.Reversal() then Err(InvalidKind)
    else Ok(t.(status := PendingReference, nextAttemptAt := nextAttemptAt, deadlineAt := deadlineAt, attempts := 0,
               updatedAt := now))
  }

  function Reschedule(t: Tx, nextAttemptAt: Time, now: Time): Result<Tx> {
    if now == 0 || nextAttemptAt == 0 then Err(MissingTimestamp)
    else if t.status != PendingReference then Err(TransitionNotAllowed)
    else Ok(t.(attempts := t.attempts + 1, nextAttemptAt := nextAttemptAt, updatedAt := now))
  }

  function MarkFailed(t: Tx, now: Time): Result<Tx> {
    if now == 0 then Err(MissingTimestamp)
    else if t.status != PendingReference then Err(TransitionNotAllowed)
    else Ok(t.(status := Failed, failureCode := PermanentFailure, completedAt := now, updatedAt := now,
               nextAttemptAt := 0, deadlineAt := 0))
  }

  /** Everything the state machine can be asked to do to one operation, and the database's wake-up. */
  datatype Transition =
    | ToProcessed(balance: Money, referenceId: Id, now: Time)
    | ToRejected(code: FailureCode, balance: Money, now: Time)
    | ToPendingReference(nextAttemptAt: Time, deadlineAt: Time, now: Time)
    | ToRescheduled(nextAttemptAt: Time, now: Time)
    | ToFailed(now: Time)

  function Transit(t: Tx, a: Transition): Result<Tx> {
    match a
    case ToProcessed(balance, referenceId, now) => MarkProcessed(t, balance, referenceId, now)
    case ToRejected(code, balance, now) => MarkRejected(t, code, balance, now)
    case ToPendingReference(next, deadline, now) => MarkPendingReference(t, next, deadline, now)
    case ToRescheduled(next, now) => Reschedule(t, next, now)
    case ToFailed(now) => MarkFailed(t, now)
  }

  /** Refused actions leave the operation as it was. */
  function TransitAll(t: Tx, actions: seq<Transition>): Tx
    decreases |actions|
  {
    if actions == [] then t
    else
      var next := match Transit(t, actions[0]) case Ok(after) => after case Err(_) => t;
      TransitAll(next, actions[1..])
  }

  lemma TransitKeepsAcceptance(t: Tx, a: Transition)
    requires Rehydrate(t).Ok? && Transit(t, a).Ok?
    ensures Rehydrate(Transit(t, a).value) == Ok(Transit(t, a).value)
    ensures Transit(t, a).value.id == t.id && Transit(t, a).value.command == t.command
            && Transit(t, a).value.createdAt == t.createdAt
    ensures !t.status.Terminal()
  {
  }

  /** Whatever sequence of settlement actions is tried on an accepted operation, allowed or refused,
      the result is an operation Rehydrate accepts unchanged, with the identity it started with;
      once it is terminal no further action changes it. */
  lemma {:induction false} TransitAllKeepsAcceptance(t: Tx, actions: seq<Transition>)
    requires Rehydrate(t).Ok?
    ensures Rehydrate(TransitAll(t, actions)) == Ok(TransitAll(t, actions))
    ensures var after := TransitAll(t, actions);
            after.id == t.id && after.command == t.command && after.createdAt == t.createdAt
    ensures t.status.Terminal() ==> TransitAll(t, actions) == t
    decreases |actions|
  {
    if actions != [] {
      var a := actions[0];
      var step := Transit(t, a);
      if step.Ok? {
        TransitKeepsAcceptance(t, a);
        TransitAllKeepsAcceptance(step.value, actions[1..]);
      } else {
        TransitAllKeepsAcceptance(t, actions[1..]);
      }
    }
  }

  lemma BirthIsAccepted(command: Command, id: Id, now: Time)
    ensures NewExternal(command, id, now).Ok? ==>
              Rehydrate(NewExternal(command, id, now).value) == Ok(NewExternal(command, id, now).value)
  {
  }

  lemma OpeningIsAccepted(id: Id, walletId: Id, playerId: Id, amount: Money, correlationId: Text, now: Time)
    ensures var r := NewOpening(id, walletId, playerId, amount, correlationId, now);
            r.Ok? ==> Rehydrate(r.value) == Ok(r.value)
  {
  }

  /** The state after a transition and the error answered are those of the specification. */
  predicate Obeys(spec: Result<Tx>, before: Tx, after: Tx, failure: Option<Error>) {
    match spec
    case Ok(changed) => failure == None && after == changed
    case Err(e) => failure == Some(e) && after == before
  }

  /** The object the code updates in place; a refused transition leaves it untouched. */
  class Transaction {
    const id: Id
    const command: Command
    const createdAt: Time
    var status: Status
    var referenceId: Id
    var failureCode: FailureCode
    var resultBalance: Money
    var attempts: int
    var nextAttemptAt: Time
    var deadlineAt: Time
    var updatedAt: Time
    var completedAt: Time

    function Value(): Tx
      reads this
    {
      Tx(id, command, createdAt, status, referenceId, failureCode, resultBalance, attempts, nextAttemptAt, deadlineAt,
         updatedAt, completedAt)
    }

    constructor (t: Tx)
      ensures Value() == t
    {
      id, command, createdAt := t.id, t.command, t.createdAt;
      status, referenceId, failureCode, resultBalance := t.status, t.referenceId, t.failureCode, t.resultBalance;
      attempts, nextAttemptAt, deadlineAt := t.attempts, t.nextAttemptAt, t.deadlineAt;
      updatedAt, completedAt := t.updatedAt, t.completedAt;
    }

    method ClearSchedule()
      modifies this`nextAttemptAt, this`deadlineAt
      ensures nextAttemptAt == 0 && deadlineAt == 0
    {
      nextAttemptAt := 0;
      deadlineAt := 0;
    }

    method Process(balance: Money, reference: Id, now: Time) returns (failure: Option<Error>)
      modifies this
      ensures Obeys(MarkProcessed(old(Value()), balance, reference, now), old(Value()), Value(), failure)
    {
      var refused := CanSettle(Value(), now);
      if refused.Some? {
        return refused;
      }
      if !balance.Valid() || balance.IsNegative() || balance.currency != command.amount.currency {
        return Some(InvalidAmount);
      }
      if command.kind.Reversal() && reference == NIL {
        return Some(ReferenceRequired);
      }
      if reference == id
         || (reference != NIL && (command.kind.ForbidsReference() || command.referenceExternalId == Empty)) {
        return Some(ReferenceForbidden);
      }
      status := Processed;
      resultBalance := balance;
      if reference != NIL {
        referenceId := reference;
      }
      completedAt := now;
      updatedAt := now;
      ClearSchedule();
      return None;
    }

    method Reject(code: FailureCode, balance: Money, now: Time) returns (failure: Option<Error>)
      modifies this
      ensures Obeys(MarkRejected(old(Value()), code, balance, now), old(Value()), Value(), failure)
    {
      var refused := CanSettle(Value(), now);
      if refused.Some? {
        return refused;
      }
      if !code.Valid() || code == PermanentFailure {
        return Some(InvalidFailureCode);
      }
      if !balance.Valid() || balance.IsNegative() {
        return Some(InvalidAmount);
      }
      status := Rejected;
      failureCode := code;
      resultBalance := balance;
      completedAt := now;
      updatedAt := now;
      ClearSchedule();
      return None;
    }

    method Park(next: Time, deadline: Time, now: Time) returns (failure: Option<Error>)
      modifies this
      ensures Obeys(MarkPendingReference(old(Value()), next, deadline, now), old(Value()), Value(), failure)
    {
      if now == 0 || next == 0 || deadline == 0 {
        return Some(MissingTimestamp);
      }
      if status != Pending {
        return Some(TransitionNotAllowed);
      }
      if !command.kind.Reversal() {
        return Some(InvalidKind);
      }
      status := PendingReference;
      nextAttemptAt := next;
      deadlineAt := deadline;
      attempts := 0;
      updatedAt := now;
      return None;
    }

    method Postpone(next: Time, now: Time) returns (failure: Option<Error>)
      modifies this
      ensures Obeys(Reschedule(old(Value()), next, now), old(Value()), Value(), failure)
    {
      if now == 0 || next == 0 {
        return Some(MissingTimestamp);
      }
      if status != PendingReference {
        return Some(TransitionNotAllowed);
      }
      attempts := attempts + 1;
      nextAttemptAt := next;
      updatedAt := now;
      return None;
    }

    method Fail(now: Time) returns (failure: Option<Error>)
      modifies this
      ensures Obeys(MarkFailed(old(Value()), now), old(Value()), Value(), failure)
    {
      if now == 0 {
        return Some(MissingTimestamp);
      }
      if status != PendingReference {
        return Some(TransitionNotAllowed);
      }
      status := Failed;
      failureCode := PermanentFailure;
      completedAt := now;
      updatedAt := now;
      ClearSchedule();
      return None;
    }
  }
}
