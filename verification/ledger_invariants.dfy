/** What one settlement keeps about ledger entries, reversals and the operations they belong to. */
module LedgerInvariants {
  import opened Values
  import opened Ledgers
  import opened Wallets
  import opened Wagering
  import opened Decisions
  import opened Settlements
  import opened Databases

  /** The settlement records an entry exactly when it processes a kind that moves money. */
  predicate EntryStep(txs: map<Id, Tx>, op: Tx, e: Effect) {
    && (e.entry.Some? <==> e.op.status == Processed && e.op.command.kind != Loss)
    && (e.entry.Some? ==>
          var entry := e.entry.value;
          && entry.transactionId == op.id && entry.walletId == e.op.command.walletId == e.account.id
          && entry.amount == e.op.command.amount
          && entry.direction == KindDirection(e.op.command.kind,
                                              if e.op.referenceId in txs then txs[e.op.referenceId].command.kind
                                              else UnknownKind))
  }

  lemma EffectMovesEntry(db: DB, door: Door, cfg: Settings, account: WalletState, op: Tx,
                         reference: Option<Reference>, e: Effect, now: Time)
    requires Committable(db, door, cfg, account, op, reference, e, now)
    ensures EntryStep(db.txs, op, e)
  {
  }

  /** Before it is settled, the operation is not a processed row. */
  predicate NotProcessed(txs: map<Id, Tx>, t: Id) {
    t in txs ==> txs[t].status != Processed
  }

  lemma CurrentIsNotProcessed(db: DB, door: Door, op: Tx)
    requires Open(door, op) && Current(db, door, op)
    ensures NotProcessed(db.txs, op.id)
  {
  }

  /** Rows keep their identity when the row of one operation is written. */
  predicate RowWritten(txs: map<Id, Tx>, after: map<Id, Tx>, op: Tx) {
    && after == txs[op.id := op]
    && NotProcessed(txs, op.id)
    && (op.id in txs ==> txs[op.id].command == op.command)
  }

  lemma OtherEntriesStay(txs: map<Id, Tx>, after: map<Id, Tx>, op: Tx, e: LedgerEntry)
    requires RowWritten(txs, after, op) && ReversalsOk(txs)
    requires EntryOk(txs, e)
    ensures EntryOk(after, e)
  {
    var t := txs[e.transactionId];
    assert ReversalOk(txs, e.transactionId);
    assert e.transactionId != op.id;
  }

  lemma PersistKeepsEntries(db: DB, account: WalletState, op: Tx, e: Effect)
    requires WalletsOk(db) && EntriesOk(db) && ReversalsOk(db.txs)
    requires account.id in db.wallets && e.account.id == account.id
    requires op.id == e.op.id && EntryStep(db.txs, op, e) && RowWritten(db.txs, db.txs[e.op.id := e.op], e.op)
    requires e.op.referenceId != op.id
    ensures EntriesOk(Persist(db, e))
  {
    var after := Persist(db, e);
    forall w, i | w in after.ledger && 0 <= i < |after.ledger[w]|
      ensures EntryOk(after.txs, after.ledger[w][i])
    {
      if w in db.ledger && i < |db.ledger[w]| {
        assert after.ledger[w][i] == db.ledger[w][i];
        OtherEntriesStay(db.txs, after.txs, e.op, db.ledger[w][i]);
      } else {
        assert after.ledger[w][i] == e.entry.value;
      }
    }
    forall w, i, j | w in after.ledger && 0 <= i < j < |after.ledger[w]|
      ensures after.ledger[w][i].transactionId != after.ledger[w][j].transactionId
    {
      assert after.ledger[w][i] == db.ledger[w][i] && EntryOk(db.txs, db.ledger[w][i]);
      if j < |db.ledger[w]| {
        assert after.ledger[w][j] == db.ledger[w][j];
      } else {
        assert after.ledger[w][j].transactionId == op.id;
      }
    }
  }

  lemma RecordedExtends(entries: seq<LedgerEntry>, more: seq<LedgerEntry>, t: Id)
    requires Recorded(entries, t) || Recorded(more, t)
    ensures Recorded(entries + more, t)
  {
    if Recorded(entries, t) {
      var i :| 0 <= i < |entries| && entries[i].transactionId == t;
      assert (entries + more)[i].transactionId == t;
    } else {
      var i :| 0 <= i < |more| && more[i].transactionId == t;
      assert (entries + more)[|entries| + i].transactionId == t;
    }
  }

  lemma PersistKeepsMovements(db: DB, account: WalletState, op: Tx, e: Effect)
    requires WalletsOk(db) && MovementsRecorded(db)
    requires account.id in db.wallets && e.account.id == account.id == e.op.command.walletId
    requires op.id == e.op.id && EntryStep(db.txs, op, e)
    ensures MovementsRecorded(Persist(db, e))
  {
    var after := Persist(db, e);
    forall t | t in after.txs && after.txs[t].status == Processed && after.txs[t].command.kind != Loss
      ensures after.txs[t].command.walletId in after.ledger
      ensures Recorded(after.ledger[after.txs[t].command.walletId], t)
    {
      var w := after.txs[t].command.walletId;
      if t == e.op.id {
        assert EntriesOf(e.entry)[0].transactionId == t;
        RecordedExtends(db.ledger[w], EntriesOf(e.entry), t);
      } else if w == account.id {
        RecordedExtends(db.ledger[w], EntriesOf(e.entry), t);
      }
    }
  }

  // ---- reversals ----

  lemma WriteKeepsReversals(txs: map<Id, Tx>, after: map<Id, Tx>, op: Tx)
    requires ReversalsOk(txs) && RowWritten(txs, after, op)
    requires ReversalOk(after, op.id)
    ensures ReversalsOk(after)
  {
    forall r | r in after
      ensures ReversalOk(after, r)
    {
      if r != op.id {
        assert ReversalOk(txs, r);
      }
    }
  }

  lemma ReversesAfterWrite(txs: map<Id, Tx>, after: map<Id, Tx>, op: Tx, r: Id, t: Id)
    requires RowWritten(txs, after, op)
    ensures Reverses(after, r, t) <==>
              Reverses(txs, r, t)
              || (r == op.id && op.status == Processed && op.command.kind.Reversal() && op.referenceId == t)
  {
  }

  lemma WriteKeepsOneReversal(txs: map<Id, Tx>, after: map<Id, Tx>, op: Tx)
    requires OneReversalEach(txs) && RowWritten(txs, after, op)
    requires op.status == Processed && op.command.kind.Reversal() ==> !HasReversal(txs, op.referenceId)
    ensures OneReversalEach(after)
  {
    forall r, s, t | Reverses(after, r, t) && Reverses(after, s, t)
      ensures r == s
    {
      ReversesAfterWrite(txs, after, op, r, t);
      ReversesAfterWrite(txs, after, op, s, t);
    }
  }

  lemma CommittableWrites(db: DB, door: Door, cfg: Settings, account: WalletState, op: Tx,
                          reference: Option<Reference>, e: Effect, now: Time)
    requires Committable(db, door, cfg, account, op, reference, e, now)
    ensures RowWritten(db.txs, db.txs[e.op.id := e.op], e.op)
    ensures ReversalOk(db.txs[e.op.id := e.op], e.op.id)
    ensures e.op.referenceId != op.id
    ensures e.op.status == Processed && e.op.command.kind.Reversal() ==> !HasReversal(db.txs, e.op.referenceId)
  {
    CurrentIsNotProcessed(db, door, op);
  }
}
