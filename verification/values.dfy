/** Values shared by every layer: identifiers, moments, opaque texts, errors. */
module Values {

  datatype Option<+T> = None | Some(value: T)

  /** A UUID. Only equality and the nil UUID matter to the program. */
  type Id = nat
  const NIL: Id := 0

  /** A moment in the resolution of the database; 0 is Go's zero time. */
  type Time = int

  /** An opaque text: the program only asks whether it is empty, whether it is
      blank once trimmed, and whether two texts are equal. */
  datatype Text = Empty | Spaces(n: nat) | Word(code: nat) {
    predicate Blank() {
      !Word?
    }
  }

  /** The sentinel errors of the domain packages and of the unit of work. */
  datatype Error =
    | MoneyInvalidAmount | MoneyInvalidCurrency | MoneyCurrencyMismatch | MoneyOverflow
    | WalletMissingIdentifier | WalletMissingTimestamp | WalletInvalidAmount | WalletNegativeBalance
    | WalletInsufficientFunds | WalletInvalidDirection | WalletInvalidVersion | WalletInconsistentEntry
    | WalletNotFound | WalletVersionChanged | WalletAlreadyExists
    | MissingIdentifier | MissingTimestamp | MissingField | InvalidKind | InvalidOrigin | InvalidStatus
    | InvalidFailureCode | InvalidAmount | InvalidPayloadHash | ReferenceRequired | ReferenceForbidden
    | TransitionNotAllowed | InvalidSnapshot | TransactionNotFound
    | PayloadMismatch
    | IdempotencyKeyConflict(existing: Id) | ExternalIdConflict(existing: Id)
    | Transient | LockTimeout | CommitOutcomeUnknown | RecoveredPanic | Cancelled

  datatype Result<+T> = Ok(value: T) | Err(error: Error) {
    predicate IsFailure() {
      Err?
    }

    function PropagateFailure<U>(): Result<U>
      requires Err?
    {
      Err(error)
    }

    function Extract(): T
      requires Ok?
    {
      value
    }
  }
}
