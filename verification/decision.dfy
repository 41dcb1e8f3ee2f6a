/** The decision table: what an operation does to a wallet, given the operation it refers to. */
module Decisions {
  import opened Values
  import opened Moneys
  import opened Ledgers
  import opened Wallets
  import opened Wagering

  datatype Movement = Movement(direction: Direction, amount: Money) {
    predicate Present() {
      direction != NoDirection
    }
  }

  const NO_MOVEMENT := Movement(NoDirection, NO_MONEY)

  datatype Decision =
    | Process(movement: Movement, referenceId: Id)
    | Reject(code: FailureCode)
    | WaitReference

  datatype Reference = Reference(transaction: Tx, alreadyReversed: bool)

  function Decide(account: WalletState, operation: Tx, reference: Option<Reference>, now: Time): Result<Decision> {
    if account.id != operation.command.walletId then Err(MissingIdentifier)
    else if account.playerId != operation.command.playerId then Ok(Reject(WalletPlayerMismatch))
    else if operation.command.amount.currency != account.balance.currency then Ok(Reject(CurrencyMismatch))
    else match operation.command.kind
      case Bet => DecideBet(account, operation)
      case Win => DecideWin(account, operation, reference)
      case Loss => Ok(Process(NO_MOVEMENT, NIL))
      case Refund | Rollback => DecideReversal(account, operation, reference, now)
      case _ => Err(InvalidKind)
  }

  function DecideBet(account: WalletState, operation: Tx): Result<Decision> {
    var affordable :- account.balance.Cmp(operation.command.amount);
    if affordable < 0 then Ok(Reject(InsufficientFunds))
    else Ok(Process(Movement(Debit, operation.command.amount), NIL))
  }

  function DecideWin(account: WalletState, operation: Tx, reference: Option<Reference>): Result<Decision> {
    if operation.command.referenceExternalId != Empty && reference.Some? then
      var original := reference.value.transaction;
      if original.command.kind != Bet then Ok(Reject(ReferenceKindNotAllowed))
      else if !SameRound(operation, original) then Ok(Reject(ReferenceMismatch))
      else CreditOrLimit(account, operation, original.id)
    else CreditOrLimit(account, operation, NIL)
  }

  /** A credit that does not fit in int64 is a business rejection, not a failure. */
  function CreditOrLimit(account: WalletState, operation: Tx, referenceId: Id): Result<Decision> {
    match account.balance.Add(operation.command.amount)
    case Err(e) => if e == MoneyOverflow then Ok(Reject(BalanceLimitExceeded)) else Err(e)
    case Ok(_) => Ok(Process(Movement(Credit, operation.command.amount), referenceId))
  }

  function DecideReversal(account: WalletState, operation: Tx, reference: Option<Reference>, now: Time)
    : Result<Decision>
  {
    var expired := DeadlineReached(operation, now);
    if reference.None? then Ok(if expired then Reject(ReferenceNotFound) else WaitReference)
    else
      var original := reference.value.transaction;
      if original.status == Pending || original.status == PendingReference then
        Ok(if expired then Reject(ReferenceNotProcessed) else WaitReference)
      else if original.status == Rejected || original.status == Failed then Ok(Reject(ReferenceNotProcessed))
      else if !Reversible(operation.command.kind, original.command.kind) then Ok(Reject(ReferenceKindNotAllowed))
      else if !SameRound(operation, original) || operation.command.amount != original.command.amount then
        Ok(Reject(ReferenceMismatch))
      else if reference.value.alreadyReversed then Ok(Reject(AlreadyReversed))
      else if ReversalDirection(operation.command.kind, original.command.kind) == Debit then
        var affordable :- account.balance.Cmp(operation.command.amount);
        if affordable < 0 then Ok(Reject(ReversalInsufficientFunds))
        else Ok(Process(Movement(Debit, operation.command.amount), original.id))
      else CreditOrLimit(account, operation, original.id)
  }

  predicate Reversible(reversal: Kind, original: Kind) {
    match reversal
    case Refund => original == Bet
    case Rollback => original == Bet || original == Win || original == Refund
    case _ => false
  }

  function ReversalDirection(reversal: Kind, original: Kind): Direction {
    if reversal == Refund then Credit
    else if original == Bet then Credit
    else Debit
  }

  predicate SameRound(operation: Tx, original: Tx) {
    && operation.command.providerId == original.command.providerId
    && operation.command.playerId == original.command.playerId
    && operation.command.walletId == original.command.walletId
    && operation.command.roundId == original.command.roundId
    && operation.command.amount.currency == original.command.amount.currency
  }

  predicate DeadlineReached(operation: Tx, now: Time) {
    operation.deadlineAt != 0 && now >= operation.deadlineAt
  }
}
