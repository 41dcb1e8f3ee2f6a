/** Conservation of money: a balance is what the live bets and wins of the wallet add up to. */
module Conservation {
  import opened Values
  import opened Ledgers
  import opened Wallets
  import opened Wagering
  import opened Decisions
  import opened Settlements
  import opened Databases
  import opened LedgerInvariants

  /** A rollback undoes a refund, a refund undoes a bet: a reversal is of lower rank than what it reverses. */
  function Rank(k: Kind): nat {
    match k
    case Rollback => 0
    case Refund => 1
    case _ => 2
  }

  /** A processed operation is live unless a live operation reversed it. */
  ghost predicate Live(txs: map<Id, Tx>, t: Id)
    decreases if t in txs then Rank(txs[t].command.kind) else 0
  {
    && t in txs && txs[t].status == Processed
    && forall r :: Reverses(txs, r, t) && Rank(txs[r].command.kind) < Rank(txs[t].command.kind) ==> !Live(txs, r)
  }

  /** What a live operation adds to the balance; reversals add nothing of their own. */
  ghost function Contribution(txs: map<Id, Tx>, t: Id): int {
    if !Live(txs, t) then 0
    else
      var minor: int := txs[t].command.amount.minor;
      match txs[t].command.kind
      case Opening | Win => minor
      case Bet => -minor
      case _ => 0
  }

  /** The sum over the operations of a wallet, in the order of its ledger. */
  ghost function LiveSum(txs: map<Id, Tx>, entries: seq<LedgerEntry>): int {
    if entries == [] then 0
    else LiveSum(txs, entries[..|entries| - 1]) + Contribution(txs, entries[|entries| - 1].transactionId)
  }

  ghost predicate Balanced(wallets: map<Id, WalletState>, ledger: map<Id, seq<LedgerEntry>>, txs: map<Id, Tx>) {
    forall w :: w in wallets && w in ledger ==> wallets[w].balance.minor == LiveSum(txs, ledger[w])
  }

  ghost predicate Conserved(db: DB) {
    Balanced(db.wallets, db.ledger, db.txs)
  }

  // ---- writes that change no processed row ----

  /** The two tables agree on everything liveness looks at. */
  predicate SameForMoney(txs: map<Id, Tx>, after: map<Id, Tx>) {
    && (forall t :: t in txs ==> t in after && after[t].command == txs[t].command
                                 && (after[t].status == Processed <==> txs[t].status == Processed)
                                 && after[t].referenceId == txs[t].referenceId)
    && (forall t :: t in after && t !in txs ==> after[t].status != Processed)
  }

  lemma {:induction false} SameLive(txs: map<Id, Tx>, after: map<Id, Tx>, t: Id)
    requires SameForMoney(txs, after) && t in txs
    ensures Live(txs, t) == Live(after, t)
    decreases Rank(txs[t].command.kind)
  {
    forall r | (Reverses(txs, r, t) || Reverses(after, r, t))
               && r in txs && Rank(txs[r].command.kind) < Rank(txs[t].command.kind)
      ensures Live(txs, r) == Live(after, r)
    {
      SameLive(txs, after, r);
    }
    forall r
      ensures Reverses(txs, r, t) == Reverses(after, r, t)
    {
    }
  }

  lemma {:induction false} SameSum(txs: map<Id, Tx>, after: map<Id, Tx>, entries: seq<LedgerEntry>)
    requires SameForMoney(txs, after)
    requires forall i :: 0 <= i < |entries| ==> entries[i].transactionId in txs
    ensures LiveSum(txs, entries) == LiveSum(after, entries)
  {
    if entries != [] {
      SameSum(txs, after, entries[..|entries| - 1]);
      SameLive(txs, after, entries[|entries| - 1].transactionId);
    }
  }

  // ---- one processed operation more ----

  /** `op` becomes a processed row of `after`, consuming its original when it is a reversal. */
  ghost predicate ProcessedWrite(txs: map<Id, Tx>, after: map<Id, Tx>, op: Tx) {
    && RowWritten(txs, after, op) && op.status == Processed
    && ReversalsOk(txs) && ReversalsOk(after) && OneReversalEach(txs)
    && op.referenceId != op.id
    && (op.command.kind.Reversal() ==> !HasReversal(txs, op.referenceId))
  }

  predicate ReversalOf(op: Tx, t: Id) {
    op.command.kind.Reversal() && op.referenceId == t
  }

  /** The refund that a rollback undoes had itself undone this bet. */
  predicate RestoredBy(txs: map<Id, Tx>, op: Tx, t: Id) {
    op.command.kind.Reversal() && Reverses(txs, op.referenceId, t)
  }

  /** Nothing reverses an operation that was not processed before. */
  lemma NewIsNotReversed(txs: map<Id, Tx>, after: map<Id, Tx>, op: Tx, r: Id)
    requires ProcessedWrite(txs, after, op)
    ensures !Reverses(after, r, op.id) && !Reverses(txs, r, op.id)
  {
    ReversesAfterWrite(txs, after, op, r, op.id);
    assert r in txs ==> ReversalOk(txs, r);
  }

  lemma NewIsLive(txs: map<Id, Tx>, after: map<Id, Tx>, op: Tx)
    requires ProcessedWrite(txs, after, op)
    ensures Live(after, op.id)
  {
    forall r
      ensures !Reverses(after, r, op.id)
    {
      NewIsNotReversed(txs, after, op, r);
    }
  }

  lemma {:induction false} UntouchedLive(txs: map<Id, Tx>, after: map<Id, Tx>, op: Tx, t: Id)
    requires ProcessedWrite(txs, after, op) && t in txs && t != op.id
    requires !ReversalOf(op, t) && !RestoredBy(txs, op, t)
    ensures Live(txs, t) == Live(after, t)
    decreases Rank(txs[t].command.kind)
  {
    forall r
      ensures Reverses(txs, r, t) == Reverses(after, r, t)
    {
      ReversesAfterWrite(txs, after, op, r, t);
    }
    forall r | Reverses(txs, r, t) && Rank(txs[r].command.kind) < Rank(txs[t].command.kind)
      ensures Live(txs, r) == Live(after, r)
    {
      assert ReversalOk(txs, r) && ReversalOk(after, op.id);
      assert op.referenceId in txs ==> ReversalOk(txs, op.referenceId);
      UntouchedLive(txs, after, op, r);
    }
  }

  lemma ReversedDies(txs: map<Id, Tx>, after: map<Id, Tx>, op: Tx)
    requires ProcessedWrite(txs, after, op) && op.command.kind.Reversal()
    ensures Live(txs, op.referenceId) && !Live(after, op.referenceId)
  {
    var t := op.referenceId;
    assert ReversalOk(after, op.id);
    assert t in txs && txs[t].status == Processed;
    assert forall r :: !Reverses(txs, r, t);
    NewIsLive(txs, after, op);
    assert Reverses(after, op.id, t);
  }

  lemma RestoredLives(txs: map<Id, Tx>, after: map<Id, Tx>, op: Tx, t: Id)
    requires ProcessedWrite(txs, after, op) && RestoredBy(txs, op, t)
    ensures t in txs && t != op.id && txs[t].command.kind == Bet
    ensures txs[op.referenceId].command.kind == Refund
    ensures txs[t].command.amount == op.command.amount
    ensures !Live(txs, t) && Live(after, t)
  {
    var refund := op.referenceId;
    ReversedDies(txs, after, op);
    assert ReversalOk(txs, refund) && ReversalOk(after, op.id);
    NewIsNotReversed(txs, after, op, refund);
    forall r | Reverses(after, r, t)
      ensures !Live(after, r)
    {
      ReversesAfterWrite(txs, after, op, r, t);
      assert r == refund;
    }
  }

  /** How much the row's contribution changes, for a row that was already there. */
  ghost function Shift(txs: map<Id, Tx>, op: Tx, t: Id): int {
    if t !in txs || t == op.id then 0
    else
      var minor: int := txs[t].command.amount.minor;
      if ReversalOf(op, t) then
        (match txs[t].command.kind case Win => -minor case Bet => minor case _ => 0)
      else if RestoredBy(txs, op, t) then -minor
      else 0
  }

  lemma ContributionShifts(txs: map<Id, Tx>, after: map<Id, Tx>, op: Tx, t: Id)
    requires ProcessedWrite(txs, after, op) && t in txs && t != op.id
    ensures Contribution(after, t) == Contribution(txs, t) + Shift(txs, op, t)
  {
    if ReversalOf(op, t) {
      ReversedDies(txs, after, op);
      assert ReversalOk(after, op.id);
    } else if RestoredBy(txs, op, t) {
      RestoredLives(txs, after, op, t);
    } else {
      UntouchedLive(txs, after, op, t);
    }
  }

  ghost function ShiftSum(txs: map<Id, Tx>, op: Tx, entries: seq<LedgerEntry>): int {
    if entries == [] then 0
    else ShiftSum(txs, op, entries[..|entries| - 1]) + Shift(txs, op, entries[|entries| - 1].transactionId)
  }

  lemma {:induction false} SumShifts(txs: map<Id, Tx>, after: map<Id, Tx>, op: Tx, entries: seq<LedgerEntry>)
    requires ProcessedWrite(txs, after, op)
    requires forall i :: 0 <= i < |entries| ==> entries[i].transactionId in txs && entries[i].transactionId != op.id
    ensures LiveSum(after, entries) == LiveSum(txs, entries) + ShiftSum(txs, op, entries)
  {
    if entries != [] {
      SumShifts(txs, after, op, entries[..|entries| - 1]);
      ContributionShifts(txs, after, op, entries[|entries| - 1].transactionId);
    }
  }

  predicate DistinctIds(entries: seq<LedgerEntry>) {
    forall i, j :: 0 <= i < j < |entries| ==> entries[i].transactionId != entries[j].transactionId
  }

  lemma {:induction false} NoShift(txs: map<Id, Tx>, op: Tx, entries: seq<LedgerEntry>)
    requires forall i :: 0 <= i < |entries| ==> Shift(txs, op, entries[i].transactionId) == 0
    ensures ShiftSum(txs, op, entries) == 0
  {
    if entries != [] {
      NoShift(txs, op, entries[..|entries| - 1]);
    }
  }

  /** When one row alone shifts, and it is listed once, the sum shifts by that much. */
  lemma {:induction false} OneShift(txs: map<Id, Tx>, op: Tx, entries: seq<LedgerEntry>, t: Id)
    requires DistinctIds(entries) && Recorded(entries, t)
    requires forall u :: u != t ==> Shift(txs, op, u) == 0
    ensures ShiftSum(txs, op, entries) == Shift(txs, op, t)
  {
    var init, last := entries[..|entries| - 1], entries[|entries| - 1].transactionId;
    if last == t {
      NoShift(txs, op, init);
    } else {
      var i :| 0 <= i < |entries| && entries[i].transactionId == t;
      assert init[i].transactionId == t;
      OneShift(txs, op, init, t);
    }
  }

  /** The only row whose contribution moves when `op` is processed. */
  ghost function ShiftedRow(txs: map<Id, Tx>, op: Tx): Id {
    if op.referenceId in txs && txs[op.referenceId].command.kind == Refund then txs[op.referenceId].referenceId
    else op.referenceId
  }

  /** Undoing shifts the live sum by exactly the signed amount the undo moves. */
  lemma ReversalShifts(txs: map<Id, Tx>, after: map<Id, Tx>, op: Tx)
    requires ProcessedWrite(txs, after, op) && op.command.kind.Reversal()
    ensures var t := ShiftedRow(txs, op);
            && t in txs && txs[t].status == Processed && txs[t].command.walletId == op.command.walletId
            && txs[t].command.kind != Loss
            && (forall u :: u != t ==> Shift(txs, op, u) == 0)
            && Shift(txs, op, t)
               == SignedAmount(ReversalDirection(op.command.kind, txs[op.referenceId].command.kind), op.command.amount)
  {
    assert ReversalOk(after, op.id);
    var original := op.referenceId;
    assert ReversalOk(txs, original);
    var t := ShiftedRow(txs, op);
    if txs[original].command.kind == Refund {
      assert Reverses(txs, original, t);
      RestoredLives(txs, after, op, t);
    }
  }

  /** The entry of a processed operation moves the balance by what the live sum moves. */
  lemma SumFollowsEntry(txs: map<Id, Tx>, after: map<Id, Tx>, op: Tx, entries: seq<LedgerEntry>, entry: LedgerEntry)
    requires ProcessedWrite(txs, after, op)
    requires forall i :: 0 <= i < |entries| ==> entries[i].transactionId in txs && entries[i].transactionId != op.id
    requires DistinctIds(entries)
    requires entry.transactionId == op.id && entry.amount == op.command.amount
    requires entry.direction == KindDirection(op.command.kind,
               if op.referenceId in txs then txs[op.referenceId].command.kind else UnknownKind)
    requires op.command.kind in {Bet, Win, Opening, Refund, Rollback}
    requires op.command.kind.Reversal() ==> Recorded(entries, ShiftedRow(txs, op))
    ensures LiveSum(after, entries + [entry]) == LiveSum(txs, entries) + Signed(entry)
  {
    SumShifts(txs, after, op, entries);
    NewIsLive(txs, after, op);
    assert (entries + [entry])[..|entries|] == entries;
    assert LiveSum(after, entries + [entry]) == LiveSum(after, entries) + Contribution(after, op.id);
    if op.command.kind.Reversal() {
      ReversalShifts(txs, after, op);
      OneShift(txs, op, entries, ShiftedRow(txs, op));
    } else {
      NoShift(txs, op, entries);
    }
  }
}
