/** The committed tables, and what one unit of work writes to them. The ledger and the outbox are kept
    per wallet in commit order; `parked` remembers the operations ever committed as PENDING_REFERENCE. */
module Databases {
  import opened Values
  import opened Moneys
  import opened Ledgers
  import opened Wallets
  import opened Wagering
  import opened Decisions
  import opened Settlements

  /** SHA-256 of a raw message body: opaque and injective, so it determines what the body asks for. */
  datatype BodyHash = BodyHash(fields: PayloadFields, idempotencyKey: Text, rest: nat)

  datatype InboxOutcome = NoOutcome | OutcomeProcessed | OutcomeRejected | OutcomePendingReference | OutcomeReplay

  datatype InboxRow = InboxRow(bodyHash: BodyHash, outcome: InboxOutcome, transactionId: Id)

  datatype DB = DB(
    wallets: map<Id, WalletState>, txs: map<Id, Tx>, ledger: map<Id, seq<LedgerEntry>>, outbox: map<Id, seq<Event>>,
    inbox: map<Text, InboxRow>, parked: set<Id>)

  // ---- reads ----

  predicate HasExternalId(t: Tx, providerId: Text, externalId: Text) {
    t.command.kind != Opening && t.command.providerId == providerId && t.command.externalId == externalId
  }

  predicate HasKey(t: Tx, providerId: Text, key: Text) {
    t.command.kind != Opening && t.command.providerId == providerId && t.command.idempotencyKey == key
  }

  /** The row the operation names as its reference. */
  predicate Names(op: Tx, original: Tx) {
    op.command.referenceExternalId != Empty
    && HasExternalId(original, op.command.providerId, op.command.referenceExternalId)
  }

  /** A row that HasSuccessfulReversal finds for `original`. */
  predicate Reverses(txs: map<Id, Tx>, r: Id, original: Id) {
    r in txs && txs[r].status == Processed && txs[r].command.kind.Reversal() && txs[r].referenceId == original
  }

  ghost predicate HasReversal(txs: map<Id, Tx>, original: Id) {
    exists r :: Reverses(txs, r, original)
  }

  /** No committed row carries the idempotency key or the external id of the operation. */
  predicate KeysFree(txs: map<Id, Tx>, op: Tx) {
    forall t :: t in txs ==>
      && !HasKey(txs[t], op.command.providerId, op.command.idempotencyKey)
      && !HasExternalId(txs[t], op.command.providerId, op.command.externalId)
  }

  // ---- writes ----

  /** The rows of one settlement. */
  function Persist(db: DB, e: Effect): DB
    requires e.account.id in db.ledger && e.account.id in db.outbox
  {
    var w := e.account.id;
    db.(wallets := db.wallets[w := e.account],
        txs := db.txs[e.op.id := e.op],
        ledger := db.ledger[w := db.ledger[w] + EntriesOf(e.entry)],
        outbox := db.outbox[w := db.outbox[w] + e.events],
        parked := if e.op.status == PendingReference then db.parked + {e.op.id} else db.parked)
  }

  /** WakeUpWaitingFor: the parked rows chosen become due at `now`. */
  function Wake(db: DB, woken: set<Id>, now: Time): DB {
    db.(txs := WakeRows(db.txs, woken, now))
  }

  function WakeRows(txs: map<Id, Tx>, woken: set<Id>, now: Time): map<Id, Tx> {
    map t | t in txs :: if t in woken then txs[t].(nextAttemptAt := now, updatedAt := now) else txs[t]
  }

  // ---- invariants of the committed tables ----

  // Each invariant is stated over just the tables it speaks of, so that a write elsewhere keeps it by congruence.

  predicate ValidWallets(wallets: map<Id, WalletState>) {
    forall w :: w in wallets ==> ValidWallet(wallets[w]) && wallets[w].id == w
  }

  predicate WalletsOk(db: DB) {
    db.ledger.Keys == db.wallets.Keys && db.outbox.Keys == db.wallets.Keys && ValidWallets(db.wallets)
  }

  predicate Chained(wallets: map<Id, WalletState>, ledger: map<Id, seq<LedgerEntry>>) {
    forall w :: w in wallets && w in ledger ==> Chain(ledger[w], w, wallets[w].balance, wallets[w].version)
  }

  predicate LedgerOk(db: DB) {
    Chained(db.wallets, db.ledger)
  }

  /** An accepted row of an existing wallet; PENDING is never committed. */
  predicate TxOk(wallets: map<Id, WalletState>, cfg: Settings, tx: Tx) {
    && Rehydrate(tx).Ok? && tx.status != Pending && tx.createdAt > 0
    && tx.command.walletId in wallets
    && (if tx.resultBalance.Valid() then tx.resultBalance.currency == wallets[tx.command.walletId].balance.currency
        else tx.resultBalance == NO_MONEY)
    && (tx.status == PendingReference ==> tx.deadlineAt == tx.createdAt + cfg.referenceTtl)
  }

  predicate RowsOk(wallets: map<Id, WalletState>, txs: map<Id, Tx>, cfg: Settings) {
    forall t :: t in txs ==> txs[t].id == t && TxOk(wallets, cfg, txs[t])
  }

  predicate TxsOk(db: DB, cfg: Settings) {
    RowsOk(db.wallets, db.txs, cfg)
  }

  /** The entry at position i of a wallet records the movement of a processed operation of that wallet. */
  predicate EntryOk(txs: map<Id, Tx>, e: LedgerEntry) {
    && e.transactionId in txs
    && var t := txs[e.transactionId];
       && t.status == Processed && t.command.kind != Loss && t.command.walletId == e.walletId
       && t.command.amount == e.amount
       && e.direction == KindDirection(t.command.kind,
                                       if t.referenceId in txs then txs[t.referenceId].command.kind else UnknownKind)
  }

  predicate EntriesMatch(ledger: map<Id, seq<LedgerEntry>>, txs: map<Id, Tx>) {
    && (forall w, i :: w in ledger && 0 <= i < |ledger[w]| ==> EntryOk(txs, ledger[w][i]))
    && (forall w, i, j :: w in ledger && 0 <= i < j < |ledger[w]| ==>
          ledger[w][i].transactionId != ledger[w][j].transactionId)
  }

  predicate EntriesOk(db: DB) {
    EntriesMatch(db.ledger, db.txs)
  }

  predicate Recorded(entries: seq<LedgerEntry>, t: Id) {
    exists i :: 0 <= i < |entries| && entries[i].transactionId == t
  }

  /** Every processed operation that moves money has its entry. */
  predicate AllRecorded(ledger: map<Id, seq<LedgerEntry>>, txs: map<Id, Tx>) {
    forall t :: t in txs && txs[t].status == Processed && txs[t].command.kind != Loss ==>
      txs[t].command.walletId in ledger && Recorded(ledger[txs[t].command.walletId], t)
  }

  predicate MovementsRecorded(db: DB) {
    AllRecorded(db.ledger, db.txs)
  }

  /** A processed reversal consumed a processed operation of the same round, for the same amount. */
  predicate ReversalOk(txs: map<Id, Tx>, r: Id)
    requires r in txs
  {
    txs[r].status == Processed && txs[r].command.kind.Reversal() ==>
      && txs[r].referenceId in txs && txs[r].referenceId != r
      && var original := txs[txs[r].referenceId];
         && original.status == Processed
         && Reversible(txs[r].command.kind, original.command.kind)
         && SameRound(txs[r], original) && txs[r].command.amount == original.command.amount
  }

  predicate ReversalsOk(txs: map<Id, Tx>) {
    forall r :: r in txs ==> ReversalOk(txs, r)
  }

  /** REFUND or ROLLBACK, an operation has at most one processed reversal. */
  ghost predicate OneReversalEach(txs: map<Id, Tx>) {
    forall r, s, t :: Reverses(txs, r, t) && Reverses(txs, s, t) ==> r == s
  }

  predicate KeysOk(txs: map<Id, Tx>) {
    forall t, u :: t in txs && u in txs && t != u && txs[t].command.kind != Opening ==>
      && !HasKey(txs[u], txs[t].command.providerId, txs[t].command.idempotencyKey)
      && !HasExternalId(txs[u], txs[t].command.providerId, txs[t].command.externalId)
  }

  // ---- a settlement that may be committed ----

  /** The operation of the unit is still what the unit holds. */
  predicate Current(db: DB, door: Door, op: Tx) {
    match door
    case Submission => op.id !in db.txs && KeysFree(db.txs, op)
    case Retry => op.id in db.txs && db.txs[op.id] == op
  }

  /** A reversal about to be processed still finds its original processed and not reversed. */
  ghost predicate ReferenceHolds(db: DB, e: Effect) {
    e.op.status == Processed && e.op.command.kind.Reversal() ==>
      && e.op.referenceId in db.txs
      && var original := db.txs[e.op.referenceId];
         && original.status == Processed
         && Reversible(e.op.command.kind, original.command.kind)
         && SameRound(e.op, original) && e.op.command.amount == original.command.amount
         && !HasReversal(db.txs, e.op.referenceId)
  }

  /** What a unit relies on when it commits: the wallet, the operation and the reference it used are current. */
  ghost predicate Committable(db: DB, door: Door, cfg: Settings, account: WalletState, op: Tx,
                              reference: Option<Reference>, e: Effect, now: Time)
  {
    && account.id in db.wallets && db.wallets[account.id] == account
    && account.id == op.command.walletId
    && Open(door, op) && Current(db, door, op) && now > 0
    && (door == Submission ==> op.createdAt == now)
    && EffectFollows(door, cfg, account, op, reference, e, now)
    && ReferenceHolds(db, e)
    && (e.op.status == Processed && e.op.command.kind.Reversal() ==>
          reference.Some? && db.txs[e.op.referenceId].command.kind == reference.value.transaction.command.kind)
  }

  /** How a settlement moves the wallet: not at all, or by exactly its entry. */
  predicate AccountStep(account: WalletState, e: Effect) {
    && ValidWallet(e.account) && e.account.id == account.id
    && e.account.balance.currency == account.balance.currency
    && (e.entry.None? ==> e.account == account)
    && (e.entry.Some? ==>
          var entry := e.entry.value;
          && WellFormed(entry) && entry.walletId == account.id
          && entry.balanceBefore == account.balance && entry.balanceAfter == e.account.balance
          && entry.walletVersion == account.version + 1 && e.account.version == entry.walletVersion)
  }

  lemma EffectMovesAccount(door: Door, cfg: Settings, account: WalletState, op: Tx, reference: Option<Reference>,
                           e: Effect, now: Time)
    requires EffectFollows(door, cfg, account, op, reference, e, now)
    ensures AccountStep(account, e)
  {
  }

  lemma PersistKeepsWallets(db: DB, account: WalletState, e: Effect)
    requires WalletsOk(db)
    requires account.id in db.wallets && db.wallets[account.id] == account && AccountStep(account, e)
    ensures WalletsOk(Persist(db, e))
  {
  }

  lemma EntriesExtend(entries: seq<LedgerEntry>, account: WalletState, e: Effect)
    requires Chain(entries, account.id, account.balance, account.version) && AccountStep(account, e)
    ensures Chain(entries + EntriesOf(e.entry), account.id, e.account.balance, e.account.version)
  {
    if e.entry.Some? {
      ChainExtends(entries, account.id, account.balance, account.version, e.entry.value);
      assert EntriesOf(e.entry) == [e.entry.value];
    } else {
      assert entries + EntriesOf(e.entry) == entries;
    }
  }

  lemma PersistKeepsLedger(db: DB, account: WalletState, e: Effect)
    requires WalletsOk(db) && LedgerOk(db)
    requires account.id in db.wallets && db.wallets[account.id] == account && AccountStep(account, e)
    ensures LedgerOk(Persist(db, e))
  {
    var after := Persist(db, e);
    forall w | w in after.wallets && w in after.ledger
      ensures Chain(after.ledger[w], w, after.wallets[w].balance, after.wallets[w].version)
    {
      if w == account.id {
        EntriesExtend(db.ledger[w], account, e);
      } else {
        assert after.ledger[w] == db.ledger[w] && after.wallets[w] == db.wallets[w];
      }
    }
  }

  /** How a settlement changes the row of its operation. */
  predicate RowStep(door: Door, cfg: Settings, account: WalletState, op: Tx, e: Effect) {
    && SameIdentity(op, e.op) && Rehydrate(e.op).Ok?
    && (e.op.status == Processed || e.op.status == Rejected || e.op.status == PendingReference)
    && (e.op.resultBalance.Valid() ==> e.op.resultBalance.currency == account.balance.currency)
    && (e.op.status == PendingReference ==> e.op.resultBalance == op.resultBalance)
    && (e.op.status == PendingReference ==>
          e.op.deadlineAt == if door == Submission then op.createdAt + cfg.referenceTtl else op.deadlineAt)
  }

  lemma EffectMovesRow(door: Door, cfg: Settings, account: WalletState, op: Tx, reference: Option<Reference>,
                       e: Effect, now: Time)
    requires EffectFollows(door, cfg, account, op, reference, e, now)
    ensures RowStep(door, cfg, account, op, e)
  {
    EffectMovesAccount(door, cfg, account, op, reference, e, now);
  }

  lemma PersistKeepsTxs(db: DB, door: Door, cfg: Settings, account: WalletState, op: Tx, e: Effect)
    requires WalletsOk(db) && TxsOk(db, cfg)
    requires account.id in db.wallets && db.wallets[account.id] == account && AccountStep(account, e)
    requires account.id == op.command.walletId && op.createdAt > 0 && op.resultBalance == NO_MONEY
    requires RowStep(door, cfg, account, op, e) && Current(db, door, op)
    requires door == Retry ==> op.status == PendingReference
    ensures TxsOk(Persist(db, e), cfg)
  {
    var after := Persist(db, e);
    forall t | t in after.txs
      ensures after.txs[t].id == t && TxOk(after.wallets, cfg, after.txs[t])
    {
      if t == e.op.id {
        if door == Retry {
          assert TxOk(db.wallets, cfg, db.txs[t]);
        }
      } else {
        assert TxOk(db.wallets, cfg, db.txs[t]);
      }
    }
  }

  lemma PersistKeepsKeys(db: DB, door: Door, e: Effect, op: Tx)
    requires KeysOk(db.txs) && Current(db, door, op) && SameIdentity(op, e.op)
    requires e.account.id in db.ledger && e.account.id in db.outbox
    ensures KeysOk(Persist(db, e).txs)
  {
  }
}
