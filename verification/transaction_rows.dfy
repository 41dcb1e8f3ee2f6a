/** The row of an operation: nullable columns, written and scanned back through the wallet join. */
module TransactionRows {
  import opened Values
  import opened Moneys
  import opened Wagering
  import opened Settlements
  import opened Databases
  import opened Protocol
  import opened Guarantees

  /** One row; the columns below the first group may be NULL. The result balance is stored without its currency. */
  datatype TxRow = TxRow(
    id: Id, origin: Origin, kind: Kind, status: Status, walletId: Id, playerId: Id, amountMinor: Int64,
    currency: Currency, correlationId: Text, attempts: int, createdAt: Time, updatedAt: Time,
    providerId: Option<Text>, externalId: Option<Text>, idempotencyKey: Option<Text>, payloadHash: Option<PayloadHash>,
    roundId: Option<Text>, gameId: Option<Text>, referenceExternalId: Option<Text>, referenceId: Option<Id>,
    failureCode: Option<FailureCode>, resultBalanceMinor: Option<Int64>, nextAttemptAt: Option<Time>,
    deadlineAt: Option<Time>, completedAt: Option<Time>)

  /** nullString, nullUUID, nullTime: the zero value is stored as NULL. */
  function Nullable<T(==)>(value: T, zero: T): Option<T> {
    if value == zero then None else Some(value)
  }

  function NullableMoney(value: Money): Option<Int64> {
    if value.Valid() then Some(value.minor) else None
  }

  /** text, moment: NULL is read as the zero value. */
  function OrZero<T>(column: Option<T>, zero: T): T {
    match column case None => zero case Some(value) => value
  }

  function InsertRow(t: Tx): TxRow {
    var c := t.command;
    TxRow(t.id, c.origin, c.kind, t.status, c.walletId, c.playerId, c.amount.minor, c.amount.currency, c.correlationId,
          t.attempts, t.createdAt, t.updatedAt,
          Nullable(c.providerId, Empty), Nullable(c.externalId, Empty), Nullable(c.idempotencyKey, Empty),
          Nullable(c.payloadHash, NoHash), Nullable(c.roundId, Empty), Nullable(c.gameId, Empty),
          Nullable(c.referenceExternalId, Empty), Nullable(t.referenceId, NIL), Nullable(t.failureCode, NoFailure),
          NullableMoney(t.resultBalance), Nullable(t.nextAttemptAt, 0), Nullable(t.deadlineAt, 0),
          Nullable(t.completedAt, 0))
  }

  /** UPDATE writes only the columns the state machine changes. */
  function UpdateRow(row: TxRow, t: Tx): TxRow {
    row.(status := t.status, failureCode := Nullable(t.failureCode, NoFailure),
         resultBalanceMinor := NullableMoney(t.resultBalance), referenceId := Nullable(t.referenceId, NIL),
         attempts := t.attempts, nextAttemptAt := Nullable(t.nextAttemptAt, 0), deadlineAt := Nullable(t.deadlineAt, 0),
         completedAt := Nullable(t.completedAt, 0), updatedAt := t.updatedAt)
  }

  /** The result balance takes the currency of the joined wallet row. */
  function ScanBalance(minor: Option<Int64>, walletCurrency: Currency): Result<Money> {
    match minor
    case None => Ok(NO_MONEY)
    case Some(value) => FromMinor(value, walletCurrency)
  }

  /** The snapshot read from the columns. */
  function Snapshot(row: TxRow, walletCurrency: Currency): Result<Tx> {
    var amount :- FromMinor(row.amountMinor, row.currency);
    var resultBalance :- ScanBalance(row.resultBalanceMinor, walletCurrency);
    var command := Command(row.origin, row.kind, OrZero(row.providerId, Empty), OrZero(row.externalId, Empty),
                           OrZero(row.idempotencyKey, Empty), OrZero(row.payloadHash, NoHash), row.playerId,
                           row.walletId, OrZero(row.roundId, Empty), OrZero(row.gameId, Empty), amount,
                           OrZero(row.referenceExternalId, Empty), row.correlationId);
    Ok(Tx(row.id, command, row.createdAt, row.status, OrZero(row.referenceId, NIL),
          OrZero(row.failureCode, NoFailure), resultBalance, row.attempts, OrZero(row.nextAttemptAt, 0),
          OrZero(row.deadlineAt, 0), row.updatedAt, OrZero(row.completedAt, 0)))
  }

  function ScanTransaction(row: TxRow, walletCurrency: Currency): Result<Tx> {
    var snapshot :- Snapshot(row, walletCurrency);
    Rehydrate(snapshot)
  }

  /** What the result balance must be for the join to bring it back. */
  predicate BalanceFits(t: Tx, walletCurrency: Currency) {
    if t.resultBalance.Valid() then t.resultBalance.currency == walletCurrency else t.resultBalance == NO_MONEY
  }

  lemma ReadsBack<T>(value: T, zero: T)
    ensures OrZero(Nullable(value, zero), zero) == value
  {
  }

  lemma SnapshotRoundTrip(t: Tx, walletCurrency: Currency)
    ensures Snapshot(InsertRow(t), walletCurrency) == Ok(t) <==>
              t.command.amount.Valid() && BalanceFits(t, walletCurrency)
  {
    hide Nullable, OrZero;
    ReadsBack(t.command.providerId, Empty);
    ReadsBack(t.command.externalId, Empty);
    ReadsBack(t.command.idempotencyKey, Empty);
    ReadsBack(t.command.payloadHash, NoHash);
    ReadsBack(t.command.roundId, Empty);
    ReadsBack(t.command.gameId, Empty);
    ReadsBack(t.command.referenceExternalId, Empty);
    ReadsBack(t.referenceId, NIL);
    ReadsBack(t.failureCode, NoFailure);
    ReadsBack(t.nextAttemptAt, 0);
    ReadsBack(t.deadlineAt, 0);
    ReadsBack(t.completedAt, 0);
  }

  /** A written row scans back to the same operation exactly when Rehydrate accepts the operation and its result
      balance is in the currency of the wallet, or absent. */
  lemma RowRoundTrip(t: Tx, walletCurrency: Currency)
    ensures ScanTransaction(InsertRow(t), walletCurrency) == Ok(t) <==>
              Rehydrate(t).Ok? && t.command.amount.Valid() && BalanceFits(t, walletCurrency)
  {
    hide Rehydrate, Snapshot, BalanceFits;
    SnapshotRoundTrip(t, walletCurrency);
    RehydrateIsIdentity(t);
    var read := Snapshot(InsertRow(t), walletCurrency);
    if read.Ok? {
      RehydrateIsIdentity(read.value);
    }
  }

  lemma RehydrateIsIdentity(t: Tx)
    ensures Rehydrate(t).Ok? ==> Rehydrate(t) == Ok(t) && t.command.amount.Valid()
  {
  }

  /** An update after any allowed transitions leaves the row an insert of the new state would have written. */
  lemma UpdateIsInsert(before: Tx, after: Tx)
    requires SameIdentity(before, after)
    ensures UpdateRow(InsertRow(before), after) == InsertRow(after)
  {
  }

  lemma {:induction false} BalanceStaysBlank(t: Tx, actions: seq<Transition>)
    requires t.resultBalance.Valid() || t.resultBalance == NO_MONEY
    ensures TransitAll(t, actions).resultBalance.Valid() || TransitAll(t, actions).resultBalance == NO_MONEY
    decreases |actions|
  {
    if actions != [] {
      var step := Transit(t, actions[0]);
      BalanceStaysBlank(if step.Ok? then step.value else t, actions[1..]);
    }
  }

  /** A submitted operation, after any sequence of transitions tried on it, comes back equal from its row, through
      the insert or the update, as long as its result balance is in the currency of its wallet. */
  lemma SubmittedRowsRoundTrip(command: Command, id: Id, now: Time, actions: seq<Transition>, walletCurrency: Currency)
    requires NewExternal(command, id, now).Ok?
    ensures var born := NewExternal(command, id, now).value;
            var t := TransitAll(born, actions);
            && UpdateRow(InsertRow(born), t) == InsertRow(t)
            && (ScanTransaction(InsertRow(t), walletCurrency) == Ok(t) <==>
                  (t.resultBalance.Valid() ==> t.resultBalance.currency == walletCurrency))
  {
    var born := NewExternal(command, id, now).value;
    BirthIsAccepted(command, id, now);
    TransitAllKeepsAcceptance(born, actions);
    BalanceStaysBlank(born, actions);
    var t := TransitAll(born, actions);
    UpdateIsInsert(born, t);
    RowRoundTrip(t, walletCurrency);
    RehydrateIsIdentity(t);
  }

  /** An opening operation comes back equal under the currency of its own amount. */
  lemma OpeningRowsRoundTrip(id: Id, walletId: Id, playerId: Id, amount: Money, correlationId: Text, now: Time,
                             actions: seq<Transition>)
    requires NewOpening(id, walletId, playerId, amount, correlationId, now).Ok?
    ensures var t := TransitAll(NewOpening(id, walletId, playerId, amount, correlationId, now).value, actions);
            ScanTransaction(InsertRow(t), amount.currency) == Ok(t)
  {
    var born := NewOpening(id, walletId, playerId, amount, correlationId, now).value;
    OpeningIsAccepted(id, walletId, playerId, amount, correlationId, now);
    TransitAllKeepsAcceptance(born, actions);
    RowRoundTrip(born, amount.currency);
  }

  /** Every committed row of every reachable state scans back equal with the currency its wallet has. */
  lemma CommittedRowsRoundTrip(cfg: Settings, s: State, t: Id)
    requires ValidSettings(cfg) && Reachable(cfg, s) && t in s.db.txs
    ensures var row := s.db.txs[t];
            && row.command.walletId in s.db.wallets
            && ScanTransaction(InsertRow(row), s.db.wallets[row.command.walletId].balance.currency) == Ok(row)
  {
    hide Reachable, Rehydrate;
    ReachableTables(cfg, s);
    assert TxOk(s.db.wallets, cfg, s.db.txs[t]);
    RowRoundTrip(s.db.txs[t], s.db.wallets[s.db.txs[t].command.walletId].balance.currency);
    RehydrateIsIdentity(s.db.txs[t]);
  }
}
