/** The invariant of the committed tables and the writes that keep it. */
module DataInvariants {
  import opened Values
  import opened Ledgers
  import opened Wallets
  import opened Wagering
  import opened Decisions
  import opened Settlements
  import opened Databases
  import opened LedgerInvariants
  import opened Conservation
  import opened EventMirror

  /** The operation a message body asks for. */
  predicate Answers(t: Tx, body: BodyHash) {
    && t.command.kind != Opening
    && t.command.payloadHash == Digest(body.fields)
    && t.command.providerId == body.fields.providerId && t.command.idempotencyKey == body.idempotencyKey
  }

  /** A committed inbox row is complete and names the committed operation its body asked for. */
  predicate InboxComplete(inbox: map<Text, InboxRow>, txs: map<Id, Tx>) {
    forall m :: m in inbox ==>
      && inbox[m].outcome != NoOutcome
      && inbox[m].transactionId in txs
      && Answers(txs[inbox[m].transactionId], inbox[m].bodyHash)
  }

  predicate InboxOk(db: DB) {
    InboxComplete(db.inbox, db.txs)
  }

  ghost predicate MoneyInv(db: DB) {
    && EntriesOk(db) && MovementsRecorded(db) && ReversalsOk(db.txs) && OneReversalEach(db.txs) && Conserved(db)
  }

  predicate EventsInv(db: DB, cfg: Settings) {
    LedgerAnnounced(db) && StatusAnnounced(db, cfg) && EventsKnown(db) && ParkedOk(db)
  }

  ghost predicate DataInv(db: DB, cfg: Settings) {
    && WalletsOk(db) && LedgerOk(db) && TxsOk(db, cfg) && KeysOk(db.txs) && InboxOk(db)
    && MoneyInv(db) && EventsInv(db, cfg)
  }

  // ---- a settlement ----

  lemma PersistKeepsConserved(db: DB, op: Tx, account: WalletState, e: Effect)
    requires WalletsOk(db) && LedgerOk(db) && MoneyInv(db)
    requires account.id in db.wallets && db.wallets[account.id] == account && AccountStep(account, e)
    requires op.id == e.op.id && e.op.command.walletId == account.id && EntryStep(db.txs, op, e)
    requires RowWritten(db.txs, db.txs[e.op.id := e.op], e.op)
    requires ReversalOk(db.txs[e.op.id := e.op], e.op.id) && e.op.referenceId != op.id
    requires e.op.status == Processed && e.op.command.kind.Reversal() ==> !HasReversal(db.txs, e.op.referenceId)
    requires e.op.command.kind.Valid()
    ensures Conserved(Persist(db, e))
  {
    var after := Persist(db, e);
    WriteKeepsReversals(db.txs, after.txs, e.op);
    forall w | w in after.wallets && w in after.ledger
      ensures after.wallets[w].balance.minor == LiveSum(after.txs, after.ledger[w])
    {
      if e.op.status == Processed {
        SumAfterProcessing(db, account, e, w);
      } else {
        SumAfterRefusal(db, account, e, w);
      }
    }
  }

  lemma SumAfterRefusal(db: DB, account: WalletState, e: Effect, w: Id)
    requires WalletsOk(db) && EntriesOk(db) && Conserved(db) && w in db.wallets
    requires account.id in db.wallets && db.wallets[account.id] == account && AccountStep(account, e)
    requires EntryStep(db.txs, e.op, e) && e.op.status != Processed
    requires RowWritten(db.txs, db.txs[e.op.id := e.op], e.op)
    ensures var after := Persist(db, e);
            after.wallets[w].balance.minor == LiveSum(after.txs, after.ledger[w])
  {
    var after := Persist(db, e);
    assert after.wallets[w] == db.wallets[w];
    assert db.ledger[w] + [] == db.ledger[w];
    EntriesAreProcessed(db, w);
    EntriesAvoid(db, w, e.op.id);
    QuietSum(db.txs, after.txs, e.op, db.ledger[w]);
  }

  /** A row that is not processed, before or after, adds nothing; the rows listed keep their share. */
  lemma {:induction false} QuietSum(txs: map<Id, Tx>, after: map<Id, Tx>, op: Tx, entries: seq<LedgerEntry>)
    requires RowWritten(txs, after, op) && op.status != Processed
    requires forall i :: 0 <= i < |entries| ==> entries[i].transactionId in txs && entries[i].transactionId != op.id
    ensures LiveSum(txs, entries) == LiveSum(after, entries)
  {
    if entries != [] {
      QuietSum(txs, after, op, entries[..|entries| - 1]);
      QuietLive(txs, after, op, entries[|entries| - 1].transactionId);
    }
  }

  lemma {:induction false} QuietLive(txs: map<Id, Tx>, after: map<Id, Tx>, op: Tx, t: Id)
    requires RowWritten(txs, after, op) && op.status != Processed
    requires t in txs && t != op.id
    ensures Live(txs, t) == Live(after, t)
    decreases Rank(txs[t].command.kind)
  {
    forall r
      ensures Reverses(txs, r, t) == Reverses(after, r, t)
    {
      ReversesAfterWrite(txs, after, op, r, t);
    }
    forall r | Reverses(txs, r, t) && Rank(txs[r].command.kind) < Rank(txs[t].command.kind)
      ensures Live(txs, r) == Live(after, r)
    {
      QuietLive(txs, after, op, r);
    }
  }

  lemma EntriesAreProcessed(db: DB, w: Id)
    requires EntriesOk(db) && w in db.ledger
    ensures forall i :: 0 <= i < |db.ledger[w]| ==>
              db.ledger[w][i].transactionId in db.txs && db.txs[db.ledger[w][i].transactionId].status == Processed
    ensures DistinctIds(db.ledger[w])
  {
    forall i | 0 <= i < |db.ledger[w]|
      ensures EntryOk(db.txs, db.ledger[w][i])
    {
    }
  }

  lemma EntriesAvoid(db: DB, w: Id, t: Id)
    requires EntriesOk(db) && w in db.ledger && NotProcessed(db.txs, t)
    ensures forall i :: 0 <= i < |db.ledger[w]| ==> db.ledger[w][i].transactionId != t
  {
    EntriesAreProcessed(db, w);
  }

  /** Another wallet of the same table: nothing listed there shifts. */
  lemma SumElsewhere(db: DB, after: DB, op: Tx, w: Id)
    requires WalletsOk(db) && EntriesOk(db) && w in db.ledger && w != op.command.walletId
    requires ProcessedWrite(db.txs, after.txs, op)
    requires forall i :: 0 <= i < |db.ledger[w]| ==> db.ledger[w][i].transactionId in db.txs
                                                      && db.ledger[w][i].transactionId != op.id
    requires LedgerOk(db)
    ensures LiveSum(after.txs, db.ledger[w]) == LiveSum(db.txs, db.ledger[w])
  {
    SumShifts(db.txs, after.txs, op, db.ledger[w]);
    forall i | 0 <= i < |db.ledger[w]|
      ensures Shift(db.txs, op, db.ledger[w][i].transactionId) == 0
    {
      var t := db.ledger[w][i].transactionId;
      assert EntryOk(db.txs, db.ledger[w][i]);
      EntriesOfWallet(db, w);
      if op.command.kind.Reversal() {
        ReversalShifts(db.txs, after.txs, op);
      }
    }
    NoShift(db.txs, op, db.ledger[w]);
  }

  lemma EntriesOfWallet(db: DB, w: Id)
    requires WalletsOk(db) && LedgerOk(db) && w in db.ledger
    ensures forall i :: 0 <= i < |db.ledger[w]| ==> db.ledger[w][i].walletId == w
  {
    forall i | 0 <= i < |db.ledger[w]|
      ensures db.ledger[w][i].walletId == w
    {
      assert EntryAt(db.ledger[w], i, w, db.wallets[w].balance.currency, db.wallets[w].version);
    }
  }

  /** The wallet of the operation: the sum moves with the balance. */
  lemma SumHere(db: DB, after: DB, account: WalletState, op: Tx, e: Effect)
    requires WalletsOk(db) && LedgerOk(db) && MoneyInv(db)
    requires account.id in db.wallets && db.wallets[account.id] == account && AccountStep(account, e)
    requires e.op == op && op.command.walletId == account.id && EntryStep(db.txs, op, e)
    requires ProcessedWrite(db.txs, after.txs, op) && op.command.kind.Valid()
    ensures LiveSum(after.txs, db.ledger[account.id] + EntriesOf(e.entry)) == e.account.balance.minor
  {
    var w := account.id;
    EntriesAreProcessed(db, w);
    EntriesAvoid(db, w, op.id);
    ShiftedRowIsListed(db, after, op, w);
    SumFollowsMovement(db.txs, after.txs, op, db.ledger[w], e.entry);
    assert account.balance.minor == LiveSum(db.txs, db.ledger[w]);
  }

  lemma SumFollowsMovement(txs: map<Id, Tx>, after: map<Id, Tx>, op: Tx, entries: seq<LedgerEntry>,
                           entry: Option<LedgerEntry>)
    requires ProcessedWrite(txs, after, op) && op.command.kind.Valid() && DistinctIds(entries)
    requires forall i :: 0 <= i < |entries| ==> entries[i].transactionId in txs && entries[i].transactionId != op.id
    requires entry.Some? <==> op.command.kind != Loss
    requires entry.Some? ==>
               && entry.value.transactionId == op.id && entry.value.amount == op.command.amount
               && entry.value.direction == KindDirection(op.command.kind,
                    if op.referenceId in txs then txs[op.referenceId].command.kind else UnknownKind)
    requires op.command.kind.Reversal() ==> Recorded(entries, ShiftedRow(txs, op))
    ensures LiveSum(after, entries + EntriesOf(entry))
         == LiveSum(txs, entries) + if entry.Some? then Signed(entry.value) else 0
  {
    if entry.Some? {
      SumFollowsEntry(txs, after, op, entries, entry.value);
    } else {
      SumShifts(txs, after, op, entries);
      NoShift(txs, op, entries);
      assert entries + EntriesOf(entry) == entries;
    }
  }

  lemma ShiftedRowIsListed(db: DB, after: DB, op: Tx, w: Id)
    requires MovementsRecorded(db) && w in db.ledger && op.command.walletId == w
    requires ProcessedWrite(db.txs, after.txs, op)
    ensures op.command.kind.Reversal() ==> Recorded(db.ledger[w], ShiftedRow(db.txs, op))
  {
    if op.command.kind.Reversal() {
      ReversalShifts(db.txs, after.txs, op);
    }
  }

  lemma SumAfterProcessing(db: DB, account: WalletState, e: Effect, w: Id)
    requires WalletsOk(db) && LedgerOk(db) && MoneyInv(db) && w in db.wallets
    requires account.id in db.wallets && db.wallets[account.id] == account && AccountStep(account, e)
    requires e.op.command.walletId == account.id && EntryStep(db.txs, e.op, e)
    requires ProcessedWrite(db.txs, db.txs[e.op.id := e.op], e.op) && e.op.command.kind.Valid()
    ensures var after := Persist(db, e);
            after.wallets[w].balance.minor == LiveSum(after.txs, after.ledger[w])
  {
    var after := Persist(db, e);
    if w == account.id {
      SumHere(db, after, account, e.op, e);
    } else {
      EntriesAreProcessed(db, w);
      EntriesAvoid(db, w, e.op.id);
      SumElsewhere(db, after, e.op, w);
    }
  }

  lemma SettlementKeepsMoney(db: DB, door: Door, cfg: Settings, account: WalletState, op: Tx,
                             reference: Option<Reference>, e: Effect, now: Time)
    requires WalletsOk(db) && LedgerOk(db) && MoneyInv(db)
    requires Committable(db, door, cfg, account, op, reference, e, now)
    ensures MoneyInv(Persist(db, e))
  {
    EffectMovesAccount(door, cfg, account, op, reference, e, now);
    EffectMovesRow(door, cfg, account, op, reference, e, now);
    EffectMovesEntry(db, door, cfg, account, op, reference, e, now);
    CommittableWrites(db, door, cfg, account, op, reference, e, now);
    MoneyWrites(db, account, op, e);
  }

  lemma MoneyWrites(db: DB, account: WalletState, op: Tx, e: Effect)
    requires WalletsOk(db) && LedgerOk(db) && MoneyInv(db)
    requires account.id in db.wallets && db.wallets[account.id] == account && AccountStep(account, e)
    requires op.id == e.op.id && e.op.command.walletId == account.id && EntryStep(db.txs, op, e)
    requires RowWritten(db.txs, db.txs[e.op.id := e.op], e.op)
    requires ReversalOk(db.txs[e.op.id := e.op], e.op.id) && e.op.referenceId != op.id
    requires e.op.status == Processed && e.op.command.kind.Reversal() ==> !HasReversal(db.txs, e.op.referenceId)
    requires e.op.command.kind.Valid()
    ensures MoneyInv(Persist(db, e))
  {
    PersistKeepsEntries(db, account, op, e);
    PersistKeepsMovements(db, account, op, e);
    WriteKeepsReversals(db.txs, db.txs[e.op.id := e.op], e.op);
    WriteKeepsOneReversal(db.txs, db.txs[e.op.id := e.op], e.op);
    PersistKeepsConserved(db, op, account, e);
  }

  lemma SettlementKeepsEvents(db: DB, door: Door, cfg: Settings, account: WalletState, op: Tx,
                              reference: Option<Reference>, e: Effect, now: Time)
    requires WalletsOk(db) && EventsInv(db, cfg)
    requires Committable(db, door, cfg, account, op, reference, e, now)
    ensures EventsInv(Persist(db, e), cfg)
  {
    EffectMovesAccount(door, cfg, account, op, reference, e, now);
    EffectMovesRow(door, cfg, account, op, reference, e, now);
    CommittableWrites(db, door, cfg, account, op, reference, e, now);
    EffectListsEvents(db, door, cfg, account, op, reference, e, now);
    ListedEventsStep(cfg, door, op, e);
    EventWrites(db, cfg, door, op, e);
  }

  lemma EventWrites(db: DB, cfg: Settings, door: Door, op: Tx, e: Effect)
    requires WalletsOk(db) && EventsInv(db, cfg)
    requires e.account.id in db.wallets && e.op.command.walletId == e.account.id && e.op.status != Failed
    requires RowWritten(db.txs, db.txs[e.op.id := e.op], e.op)
    requires Current(db, door, op) && SameIdentity(op, e.op) && EventStep(cfg, door, op, e)
    requires door == Retry ==> op.status == PendingReference
    ensures EventsInv(Persist(db, e), cfg)
  {
    PersistKeepsLedgerAnnounced(db, e);
    PersistKeepsEventsKnown(db, op, e);
    PersistKeepsStatusAnnounced(db, cfg, door, op, e);
    PersistKeepsParked(db, e);
  }

  lemma SettlementKeepsRows(db: DB, door: Door, cfg: Settings, account: WalletState, op: Tx,
                            reference: Option<Reference>, e: Effect, now: Time)
    requires WalletsOk(db) && LedgerOk(db) && TxsOk(db, cfg) && KeysOk(db.txs) && InboxOk(db)
    requires Committable(db, door, cfg, account, op, reference, e, now)
    ensures var after := Persist(db, e);
            WalletsOk(after) && LedgerOk(after) && TxsOk(after, cfg) && KeysOk(after.txs) && InboxOk(after)
  {
    EffectMovesAccount(door, cfg, account, op, reference, e, now);
    EffectMovesRow(door, cfg, account, op, reference, e, now);
    CommittableWrites(db, door, cfg, account, op, reference, e, now);
    PersistKeepsWallets(db, account, e);
    PersistKeepsLedger(db, account, e);
    PersistKeepsTxs(db, door, cfg, account, op, e);
    PersistKeepsKeys(db, door, e, op);
    PersistKeepsInbox(db, e);
  }

  lemma PersistKeepsInbox(db: DB, e: Effect)
    requires WalletsOk(db) && InboxOk(db) && e.account.id in db.wallets
    requires RowWritten(db.txs, db.txs[e.op.id := e.op], e.op)
    ensures InboxOk(Persist(db, e))
  {
  }

  /** A settlement whose wallet, operation and reference are current keeps every invariant of the tables:
      the ledger chain, one reversal at most, conservation, unique keys, and the mirrored events. */
  lemma SettlementKeepsData(db: DB, door: Door, cfg: Settings, account: WalletState, op: Tx,
                            reference: Option<Reference>, e: Effect, now: Time)
    requires DataInv(db, cfg)
    requires Committable(db, door, cfg, account, op, reference, e, now)
    ensures e.account.id in db.ledger && e.account.id in db.outbox && DataInv(Persist(db, e), cfg)
  {
    SettlementKeepsRows(db, door, cfg, account, op, reference, e, now);
    SettlementKeepsMoney(db, door, cfg, account, op, reference, e, now);
    SettlementKeepsEvents(db, door, cfg, account, op, reference, e, now);
  }
}
