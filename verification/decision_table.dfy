/** What the decisions mean: exactly when an operation is processed, waits, or is rejected, and with which code. */
module DecisionTable {
  import opened Values
  import opened Moneys
  import opened Ledgers
  import opened Wallets
  import opened Wagering
  import opened Decisions
  import opened Settlements

  /** The operation belongs to the owner and the currency of the wallet. */
  predicate OwnWallet(account: WalletState, op: Tx) {
    account.playerId == op.command.playerId && account.balance.currency == op.command.amount.currency
  }

  /** The balance after the movement stays between zero and the int64 limit. */
  predicate Affords(account: WalletState, op: Tx, direction: Direction) {
    if direction == Debit then op.command.amount.minor <= account.balance.minor
    else account.balance.minor + op.command.amount.minor <= 0x7FFF_FFFF_FFFF_FFFF
  }

  // The table says in its own words what the code asks of a pair of operations and of the clock.

  /** Two operations of one provider, player, wallet, round and currency. */
  predicate OneRound(op: Tx, original: Tx) {
    && op.command.providerId == original.command.providerId && op.command.playerId == original.command.playerId
    && op.command.walletId == original.command.walletId && op.command.roundId == original.command.roundId
    && op.command.amount.currency == original.command.amount.currency
  }

  /** What each reversal undoes. */
  predicate Undoes(reversal: Kind, original: Kind) {
    || (reversal == Refund && original == Bet)
    || (reversal == Rollback && (original == Bet || original == Win || original == Refund))
  }

  /** Undoing a bet gives the money back, undoing a win or a refund takes it. */
  function UndoDirection(original: Kind): Direction {
    if original == Bet then Credit else Debit
  }

  predicate InTime(op: Tx, now: Time) {
    op.deadlineAt == 0 || now < op.deadlineAt
  }

  predicate IsReversal(op: Tx) {
    op.command.kind == Refund || op.command.kind == Rollback
  }

  predicate OriginalPending(reference: Option<Reference>) {
    reference.None? || reference.value.transaction.status == Pending
    || reference.value.transaction.status == PendingReference
  }

  /** A win may name a bet of its round; a name that does not resolve is not held against it. */
  predicate WinMayName(op: Tx, reference: Option<Reference>) {
    op.command.referenceExternalId != Empty && reference.Some? ==>
      reference.value.transaction.command.kind == Bet && OneRound(op, reference.value.transaction)
  }

  /** A reversal consumes a processed operation of its round, of a kind it reverses, for the same amount, once. */
  predicate MayReverse(op: Tx, reference: Option<Reference>) {
    && reference.Some? && !reference.value.alreadyReversed
    && var original := reference.value.transaction;
       && original.status == Processed && Undoes(op.command.kind, original.command.kind)
       && OneRound(op, original) && op.command.amount == original.command.amount
  }

  predicate Decidable(account: WalletState, op: Tx, reference: Option<Reference>) {
    && ValidWallet(account) && account.id == op.command.walletId
    && Rehydrate(op).Ok? && op.command.kind != Opening && ReferenceFits(op, reference)
  }

  /** Processed exactly when the rules of its kind and the balance allow it. */
  lemma ProcessedExactlyWhen(account: WalletState, op: Tx, reference: Option<Reference>, now: Time)
    requires Decidable(account, op, reference)
    ensures Decide(account, op, reference, now).Ok?
    ensures Decide(account, op, reference, now).value.Process? <==>
              && OwnWallet(account, op)
              && match op.command.kind
                 case Bet => Affords(account, op, Debit)
                 case Win => WinMayName(op, reference) && Affords(account, op, Credit)
                 case Loss => true
                 case Refund | Rollback => MayReverse(op, reference)
                                           && Affords(account, op, UndoDirection(OriginalKind(reference)))
                 case _ => false
  {
  }

  /** And then it moves its own amount in the direction of its kind, and consumes the operation it names. */
  lemma ProcessedMovesItsAmount(account: WalletState, op: Tx, reference: Option<Reference>, now: Time)
    requires Decidable(account, op, reference)
    requires Decide(account, op, reference, now).Ok? && Decide(account, op, reference, now).value.Process?
    ensures var d := Decide(account, op, reference, now).value;
            match op.command.kind
            case Bet => d == Process(Movement(Debit, op.command.amount), NIL)
            case Win =>
              d == Process(Movement(Credit, op.command.amount),
                           if op.command.referenceExternalId != Empty && reference.Some?
                           then reference.value.transaction.id else NIL)
            case Loss => d == Process(Movement(NoDirection, NO_MONEY), NIL)
            case Refund | Rollback =>
              && reference.Some?
              && d == Process(Movement(UndoDirection(OriginalKind(reference)), op.command.amount),
                              reference.value.transaction.id)
            case _ => false
  {
  }

  /** Waiting exactly when a reversal has no final original yet and time is left. */
  lemma WaitsExactlyWhen(account: WalletState, op: Tx, reference: Option<Reference>, now: Time)
    requires Decidable(account, op, reference)
    ensures Decide(account, op, reference, now) == Ok(WaitReference) <==>
              OwnWallet(account, op) && IsReversal(op) && OriginalPending(reference) && InTime(op, now)
  {
  }

  predicate ReversalFails(account: WalletState, op: Tx) {
    OwnWallet(account, op) && IsReversal(op)
  }

  /** Every rejection code stands for its own condition, in the order of precedence of the table. */
  lemma RejectedExactlyWhen(account: WalletState, op: Tx, reference: Option<Reference>, now: Time, code: FailureCode)
    requires Decidable(account, op, reference)
    ensures var original := if reference.Some? then reference.value.transaction else op;
            var kind := op.command.kind;
            var mismatch := reference.Some? && !OneRound(op, original);
            Decide(account, op, reference, now) == Ok(Reject(code)) <==>
              match code
              case WalletPlayerMismatch => account.playerId != op.command.playerId
              case CurrencyMismatch =>
                account.playerId == op.command.playerId && account.balance.currency != op.command.amount.currency
              case InsufficientFunds => OwnWallet(account, op) && kind == Bet && !Affords(account, op, Debit)
              case ReferenceNotFound => ReversalFails(account, op) && reference.None? && !InTime(op, now)
              case ReferenceNotProcessed =>
                && ReversalFails(account, op) && reference.Some? && original.status != Processed
                && (OriginalPending(reference) ==> !InTime(op, now))
              case ReferenceKindNotAllowed =>
                || (OwnWallet(account, op) && kind == Win && op.command.referenceExternalId != Empty && reference.Some?
                    && original.command.kind != Bet)
                || (ReversalFails(account, op) && reference.Some? && original.status == Processed
                    && !Undoes(kind, original.command.kind))
              case ReferenceMismatch =>
                || (OwnWallet(account, op) && kind == Win && op.command.referenceExternalId != Empty
                    && original.command.kind == Bet && mismatch)
                || (ReversalFails(account, op) && reference.Some? && original.status == Processed
                    && Undoes(kind, original.command.kind)
                    && (mismatch || op.command.amount != original.command.amount))
              case AlreadyReversed =>
                && ReversalFails(account, op) && reference.Some? && reference.value.alreadyReversed
                && MayReverse(op, Some(reference.value.(alreadyReversed := false)))
              case ReversalInsufficientFunds =>
                && ReversalFails(account, op) && MayReverse(op, reference)
                && UndoDirection(original.command.kind) == Debit && !Affords(account, op, Debit)
              case BalanceLimitExceeded =>
                || (OwnWallet(account, op) && kind == Win && WinMayName(op, reference) && !Affords(account, op, Credit))
                || (ReversalFails(account, op) && MayReverse(op, reference)
                    && UndoDirection(original.command.kind) == Credit && !Affords(account, op, Credit))
              case _ => false
  {
  }

  /** The settlement writes what was decided: the status, the rejection code, the reference consumed. */
  lemma SettlementFollowsDecision(door: Door, cfg: Settings, account: WalletState, op: Tx, reference: Option<Reference>,
                                  entryId: Id, now: Time)
    requires Ready(door, cfg, account, op, reference, entryId, now)
    ensures var r := Settle(door, cfg, account, op, reference, entryId, now);
            r.Ok? ==>
              match Decide(account, op, reference, now).value
              case Process(_, referenceId) => r.value.op.status == Processed && r.value.op.referenceId == referenceId
              case Reject(code) => r.value.op.status == Rejected && r.value.op.failureCode == code
              case WaitReference => r.value.op.status == PendingReference
    ensures Decide(account, op, reference, now).Ok?
  {
    DecisionIsSound(account, op, reference, now);
    OpenHasNoReference(door, op);
    hide Move, SettlementEvents, Rehydrate;
  }

  lemma OpenHasNoReference(door: Door, op: Tx)
    requires Open(door, op)
    ensures op.referenceId == NIL
  {
  }
}
