/** Interference: what other units know survives a commit, because a commit touches only what its unit holds. */
module Interference {
  import opened Values
  import opened Wagering
  import opened Settlements
  import opened Databases
  import opened Protocol
  import opened UnitKnowledge

  predicate RowAdvances(before: Tx, after: Tx) {
    SameIdentity(before, after) && (before.status.Terminal() ==> after == before)
  }

  /** The tables only move forward: rows keep their identity, and final rows and inbox rows never change. */
  predicate Evolves(db: DB, after: DB) {
    && (forall w :: w in db.wallets ==> w in after.wallets)
    && (forall t :: t in db.txs ==> t in after.txs && RowAdvances(db.txs[t], after.txs[t]))
    && (forall m :: m in db.inbox ==> m in after.inbox && after.inbox[m] == db.inbox[m])
  }

  predicate SameRow(db: DB, after: DB, t: Id) {
    (t in db.txs <==> t in after.txs) && (t in db.txs ==> after.txs[t] == db.txs[t])
  }

  /** No operation was added, settled or postponed on the wallet; parked rows were at most woken. */
  predicate Untouched(db: DB, after: DB, clock: Time, w: Id) {
    && w in db.wallets && w in after.wallets && after.wallets[w] == db.wallets[w]
    && (forall t :: t in after.txs && after.txs[t].command.walletId == w ==> t in db.txs)
    && (forall t :: t in after.txs && SettledOn(after.txs[t], w) ==> t in db.txs && db.txs[t] == after.txs[t])
    && (forall t :: t in after.txs && after.txs[t].status == PendingReference && after.txs[t].command.walletId == w ==>
          SleepsNoLonger(db, after.txs[t], t) || after.txs[t].nextAttemptAt <= clock)
  }

  predicate SleepsNoLonger(db: DB, row: Tx, t: Id) {
    && t in db.txs && db.txs[t].status == PendingReference && db.txs[t].command == row.command
    && db.txs[t].nextAttemptAt == row.nextAttemptAt
  }

  /** The write stayed clear of everything the unit holds. */
  ghost predicate Respects(db: DB, after: DB, clock: Time, u: Unit) {
    && (forall t :: Holds(u, RowKey(t)) ==> SameRow(db, after, t))
    && (u.HasOp() && u.job.SubmitJob? ==> KeysFree(after.txs, u.op))
    && (u.Inserting? || u.HasOp() || u.Replaying? ==> InboxFree(after, u.job))
    && (u.HasWallet() ==> Untouched(db, after, clock, u.op.command.walletId))
  }

  lemma OperationSurvives(cfg: Settings, db: DB, after: DB, used: set<Id>, clock: Time, u: Unit)
    requires u.HasOp() && OperationOk(cfg, db, used, clock, u.job, u.now, u.op)
    requires Evolves(db, after) && Respects(db, after, clock, u)
    ensures OperationOk(cfg, after, used, clock, u.job, u.now, u.op)
  {
    assert Holds(u, RowKey(u.op.id));
  }

  lemma ReferenceSurvives(cfg: Settings, db: DB, after: DB, clock: Time, u: Unit)
    requires PastFinding(u) && ReferenceOk(cfg, db, u.job, u.op, OriginalOf(u))
    requires Evolves(db, after) && Untouched(db, after, clock, u.op.command.walletId)
    ensures ReferenceOk(cfg, after, u.job, u.op, OriginalOf(u))
  {
  }

  lemma WalletSurvives(db: DB, after: DB, clock: Time, u: Unit)
    requires u.HasWallet() && WalletOk(db, u) && Untouched(db, after, clock, u.op.command.walletId)
    ensures WalletOk(after, u)
  {
  }

  lemma ReversalOutlives(db: DB, after: DB, r: Id, t: Id)
    requires Evolves(db, after) && Reverses(db.txs, r, t)
    ensures Reverses(after.txs, r, t)
  {
  }

  lemma NoNewReversal(db: DB, after: DB, clock: Time, w: Id, r: Id, original: Tx)
    requires Evolves(db, after) && Untouched(db, after, clock, w) && ReversalsOk(after.txs)
    requires original.id in after.txs ==> after.txs[original.id].command == original.command
    requires original.command.walletId == w && Reverses(after.txs, r, original.id)
    ensures Reverses(db.txs, r, original.id)
  {
    assert ReversalOk(after.txs, r);
  }

  lemma ReversedSurvives(cfg: Settings, db: DB, after: DB, used: set<Id>, clock: Time, u: Unit)
    requires HasReference(u) && ReversedOk(db, u.op, u.reference)
    requires OperationOk(cfg, after, used, clock, u.job, u.now, u.op)
    requires ReferenceOk(cfg, after, u.job, u.op, OriginalOf(u))
    requires Evolves(db, after) && Untouched(db, after, clock, u.op.command.walletId) && ReversalsOk(after.txs)
    ensures ReversedOk(after, u.op, u.reference)
  {
    if u.op.command.kind.Reversal() && u.reference.Some?
       && u.reference.value.transaction.command.walletId == u.op.command.walletId {
      var original := u.reference.value.transaction;
      if HasReversal(db.txs, original.id) {
        var r :| Reverses(db.txs, r, original.id);
        ReversalOutlives(db, after, r, original.id);
      }
      if HasReversal(after.txs, original.id) {
        var r :| Reverses(after.txs, r, original.id);
        NoNewReversal(db, after, clock, u.op.command.walletId, r, original);
      }
    }
  }

  lemma WakeSurvives(db: DB, after: DB, clock: Time, missed: set<Skip>, u: Unit)
    requires u.Committing? && CommitOk(db, clock, missed, u)
    requires Evolves(db, after) && Respects(db, after, clock, u)
    ensures CommitOk(after, clock, missed, u)
  {
    forall t | t in u.woken
      ensures SameRow(db, after, t)
    {
      assert Holds(u, RowKey(t));
    }
    forall t | u.effect.op.status != PendingReference && RowWaits(after, u.op, t)
      ensures t in u.woken || after.txs[t].nextAttemptAt <= clock
              || Skip(t, u.op.id, after.txs[t].nextAttemptAt) in missed
    {
      if SleepsNoLonger(db, after.txs[t], t) {
        assert RowWaits(db, u.op, t);
      }
    }
  }

  lemma EndSurvives(db: DB, after: DB, u: Unit)
    requires EndOk(db, u) && Evolves(db, after)
    ensures EndOk(after, u)
  {
  }

  lemma GiveUpSurvives(db: DB, after: DB, clock: Time, u: Unit)
    requires GiveUpOk(db, clock, u) && Evolves(db, after) && Respects(db, after, clock, u)
    ensures GiveUpOk(after, clock, u)
  {
    if u.Failing? {
      assert Holds(u, RowKey(u.target));
    }
  }

  /** A write that moves the tables forward and respects what a unit holds leaves its knowledge true. */
  lemma KnowledgeSurvives(cfg: Settings, db: DB, after: DB, used: set<Id>, clock: Time, missed: set<Skip>, u: Unit)
    requires UnitOk(cfg, db, used, clock, missed, u)
    requires Evolves(db, after) && Respects(db, after, clock, u) && ReversalsOk(after.txs)
    ensures UnitOk(cfg, after, used, clock, missed, u)
  {
    hide Evolves, ReversalsOk, OperationOk, ReferenceOk, ReversedOk, CommitOk, EndOk, GiveUpOk, EffectOk, Untouched;
    EndSurvives(db, after, u);
    GiveUpSurvives(db, after, clock, u);
    if u.HasOp() {
      OperationSurvives(cfg, db, after, used, clock, u);
    }
    if u.HasWallet() {
      WalletSurvives(db, after, clock, u);
    }
    if PastFinding(u) {
      ReferenceSurvives(cfg, db, after, clock, u);
    }
    if HasReference(u) {
      ReversedSurvives(cfg, db, after, used, clock, u);
    }
    if u.Committing? {
      WakeSurvives(db, after, clock, missed, u);
    }
  }
}
