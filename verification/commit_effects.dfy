/** The rest of what a commit keeps: the bound on postponements, the wake-ups, the answer it gives. */
module CommitEffects {
  import opened Values
  import opened Wagering
  import opened Settlements
  import opened Backoffs
  import opened Databases
  import opened Protocol
  import opened UnitKnowledge
  import opened ProtocolInvariant
  import opened Interference
  import opened Commits

  // ---- postponements ----

  lemma TerminalOriginalStays(db: DB, after: DB, op: Tx)
    requires Evolves(db, after) && OriginalTerminal(db.txs, op)
    ensures OriginalTerminal(after.txs, op)
  {
    var o :| o in db.txs && Names(op, db.txs[o]) && db.txs[o].status.Terminal();
    assert o in after.txs && after.txs[o] == db.txs[o];
  }

  lemma OneMore(attempts: int, base: int)
    ensures (attempts + 1) * base == attempts * base + base
  {
  }

  /** A postponement moves the next attempt at least one base closer to the fixed deadline. */
  lemma WaitingIsBounded(cfg: Settings, db: DB, used: set<Id>, clock: Time, u: Unit)
    requires ValidSettings(cfg)
    requires u.Committing? && OperationOk(cfg, db, used, clock, u.job, u.now, u.op)
    requires ReferenceOk(cfg, db, u.job, u.op, OriginalOf(u))
    requires WaitingEffect(DoorOf(u.job), cfg, u.account, u.op, u.reference, u.effect, u.now)
    requires SameIdentity(u.op, u.effect.op)
    ensures NotEarly(cfg, u.effect.op) && u.effect.op.attempts >= 0
    ensures u.effect.op.attempts >= 1 ==>
              (u.effect.op.attempts - 1) * cfg.backoffBase < cfg.referenceTtl - cfg.referenceBackoff
  {
    if u.job.RetryJob? {
      assert NotEarly(cfg, u.op);
      assert u.op.attempts >= 0;
      OneMore(u.op.attempts, cfg.backoffBase);
      BackoffIsCappedDoubling(cfg.backoffBase, cfg.backoffMax, u.op.attempts + 1);
    }
  }

  lemma OtherRowKeepsAttempts(cfg: Settings, db: DB, after: DB, t: Id)
    requires Evolves(db, after) && t in db.txs && t in after.txs && AttemptOk(cfg, db.txs, t)
    requires after.txs[t].attempts == db.txs[t].attempts
    requires after.txs[t].status == PendingReference ==>
               after.txs[t] == db.txs[t] || OriginalTerminal(after.txs, after.txs[t])
    ensures AttemptOk(cfg, after.txs, t)
  {
    if after.txs[t].status == PendingReference && after.txs[t] == db.txs[t] && OriginalTerminal(db.txs, db.txs[t]) {
      TerminalOriginalStays(db, after, db.txs[t]);
    }
  }

  lemma FinalRowKeepsAttempts(cfg: Settings, db: DB, used: set<Id>, clock: Time, u: Unit, after: DB)
    requires ValidSettings(cfg) && AttemptsOk(cfg, db.txs)
    requires u.Committing? && OperationOk(cfg, db, used, clock, u.job, u.now, u.op)
    requires u.op.id in after.txs && after.txs[u.op.id] == u.effect.op
    requires u.effect.op.status != PendingReference && u.effect.op.attempts == u.op.attempts
    ensures AttemptOk(cfg, after.txs, u.op.id)
  {
    if u.job.RetryJob? {
      assert AttemptOk(cfg, db.txs, u.op.id);
    }
  }

  lemma SettledRowKeepsAttempts(cfg: Settings, db: DB, used: set<Id>, clock: Time, missed: set<Skip>, u: Unit, after: DB)
    requires ValidSettings(cfg) && WalletsOk(db) && AttemptsOk(cfg, db.txs)
    requires u.Committing? && UnitOk(cfg, db, used, clock, missed, u)
    requires Writes(u, db.txs, after.txs)
    ensures AttemptOk(cfg, after.txs, u.op.id)
  {
    hide AttemptsOk, OperationOk, ReferenceOk, EffectOk, WalletOk, CommitOk, ReversedOk, ProcessedEffect,
         RejectedEffect, WaitingEffect, OriginalTerminal, NotEarly;
    CommitterIsReady(cfg, db, used, clock, u);
    if u.effect.op.status == PendingReference {
      WaitingIsBounded(cfg, db, used, clock, u);
    } else {
      FinalRowKeepsAttempts(cfg, db, used, clock, u, after);
    }
  }

  lemma SettlementKeepsAttempts(cfg: Settings, db: DB, used: set<Id>, clock: Time, missed: set<Skip>, u: Unit, after: DB)
    requires ValidSettings(cfg) && WalletsOk(db) && AttemptsOk(cfg, db.txs)
    requires u.Committing? && UnitOk(cfg, db, used, clock, missed, u)
    requires Writes(u, db.txs, after.txs) && Evolves(db, after)
    requires u.effect.op.status.Terminal() || u.woken == {}
    ensures AttemptsOk(cfg, after.txs)
  {
    forall t | t in after.txs
      ensures AttemptOk(cfg, after.txs, t)
    {
      if t == u.op.id {
        SettledRowKeepsAttempts(cfg, db, used, clock, missed, u, after);
      } else {
        assert AttemptOk(cfg, db.txs, t);
        if t in u.woken {
          WokenRowHasTerminalOriginal(db, u, after, t);
        }
        OtherRowKeepsAttempts(cfg, db, after, t);
      }
    }
  }

  lemma WokenRowHasTerminalOriginal(db: DB, u: Unit, after: DB, t: Id)
    requires u.Committing? && WokenOk(db, u.op, u.woken) && t in u.woken && u.effect.op.status.Terminal()
    requires Writes(u, db.txs, after.txs)
    ensures t in after.txs && OriginalTerminal(after.txs, after.txs[t])
  {
    assert Names(after.txs[t], after.txs[u.op.id]);
  }

  lemma FailureKeepsAttempts(cfg: Settings, db: DB, u: Unit, clock: Time)
    requires u.Failing? && GiveUpOk(db, clock, u) && Evolves(db, Applied(db, u)) && AttemptsOk(cfg, db.txs)
    ensures AttemptsOk(cfg, Applied(db, u).txs)
  {
    var after := Applied(db, u);
    forall t | t in after.txs
      ensures AttemptOk(cfg, after.txs, t)
    {
      assert AttemptOk(cfg, db.txs, t);
      OtherRowKeepsAttempts(cfg, db, after, t);
    }
  }

  lemma EffectStatus(cfg: Settings, db: DB, used: set<Id>, clock: Time, missed: set<Skip>, u: Unit)
    requires ValidSettings(cfg) && WalletsOk(db) && u.Committing? && UnitOk(cfg, db, used, clock, missed, u)
    ensures u.effect.op.status == PendingReference || u.effect.op.status == Processed || u.effect.op.status == Rejected
    ensures u.effect.op.status == PendingReference ==> u.woken == {}
    ensures u.effect.account.id == u.op.command.walletId
    ensures SameIdentity(u.op, u.effect.op) && u.op.id !in u.woken
  {
    CommitterIsReady(cfg, db, used, clock, u);
  }

  lemma CommitKeepsAttempts(cfg: Settings, db: DB, used: set<Id>, clock: Time, missed: set<Skip>, u: Unit)
    requires ValidSettings(cfg) && WalletsOk(db) && AttemptsOk(cfg, db.txs)
    requires Finishes(u) && UnitOk(cfg, db, used, clock, missed, u)
    ensures u.Committing? ==> u.effect.account.id in db.ledger && u.effect.account.id in db.outbox
    ensures AttemptsOk(cfg, Applied(db, u).txs)
  {
    hide AttemptsOk, Evolves;
    CommitEvolves(cfg, db, used, clock, missed, u);
    match u
    case Committing(_, _, _, _, _, _, _, _) =>
      EffectStatus(cfg, db, used, clock, missed, u);
      CommitWrites(db, u);
      SettlementKeepsAttempts(cfg, db, used, clock, missed, u, Applied(db, u));
    case Failing(_, _, _, _) => FailureKeepsAttempts(cfg, db, u, clock);
    case _ =>
  }

  // ---- wake-ups ----

  /** The unit that waits did look at its original: it is not settled on the wallet. */
  lemma WaitingRowIsNotOverslept(cfg: Settings, db: DB, used: set<Id>, clock: Time, missed: set<Skip>, u: Unit, after: DB)
    requires ValidSettings(cfg) && WalletsOk(db) && u.Committing? && UnitOk(cfg, db, used, clock, missed, u)
    requires Writes(u, db.txs, after.txs) && u.woken == {} && u.effect.op.status == PendingReference
    ensures forall o :: !Overslept(after.txs, clock, u.op.id, o)
  {
    CommitterIsReady(cfg, db, used, clock, u);
    forall o | o in after.txs && o != u.op.id && Names(u.effect.op, after.txs[o])
      ensures !SettledOn(after.txs[o], u.effect.op.command.walletId)
    {
      assert Names(u.op, db.txs[o]);
    }
  }

  lemma OtherRowIsNotOverslept(db: DB, clock: Time, missed: set<Skip>, u: Unit, after: DB, t: Id, o: Id)
    requires u.Committing? && CommitOk(db, clock, missed, u) && OnlySkippedOversleep(db.txs, clock, missed)
    requires Writes(u, db.txs, after.txs) && u.now <= clock
    requires u.effect.op.status == PendingReference || u.effect.op.status == Processed || u.effect.op.status == Rejected
    requires t != u.op.id && Overslept(after.txs, clock, t, o)
    ensures Skip(t, o, after.txs[t].nextAttemptAt) in missed
  {
    var row := after.txs[t];
    assert t !in u.woken && row == db.txs[t];
    if o == u.op.id {
      assert Names(row, u.op);
      assert RowWaits(db, u.op, t);
    } else {
      assert Overslept(db.txs, clock, t, o);
    }
  }

  lemma SettlementKeepsWakes(cfg: Settings, db: DB, used: set<Id>, clock: Time, missed: set<Skip>, u: Unit, after: DB)
    requires ValidSettings(cfg) && WalletsOk(db) && OnlySkippedOversleep(db.txs, clock, missed)
    requires u.Committing? && UnitOk(cfg, db, used, clock, missed, u) && Writes(u, db.txs, after.txs)
    ensures OnlySkippedOversleep(after.txs, clock, missed)
  {
    EffectStatus(cfg, db, used, clock, missed, u);
    forall t, o | Overslept(after.txs, clock, t, o)
      ensures Skip(t, o, after.txs[t].nextAttemptAt) in missed
    {
      if t != u.op.id {
        OtherRowIsNotOverslept(db, clock, missed, u, after, t, o);
      } else if u.effect.op.status == PendingReference {
        WaitingRowIsNotOverslept(cfg, db, used, clock, missed, u, after);
      }
    }
  }

  lemma FailureKeepsWakes(cfg: Settings, db: DB, clock: Time, missed: set<Skip>, u: Unit)
    requires u.Failing? && GiveUpOk(db, clock, u) && OnlySkippedOversleep(db.txs, clock, missed)
    ensures OnlySkippedOversleep(Applied(db, u).txs, clock, missed)
  {
    var after := Applied(db, u);
    forall t, o | Overslept(after.txs, clock, t, o)
      ensures Skip(t, o, after.txs[t].nextAttemptAt) in missed
    {
      assert Overslept(db.txs, clock, t, o);
    }
  }

  lemma CommitKeepsWakes(cfg: Settings, db: DB, used: set<Id>, clock: Time, missed: set<Skip>, u: Unit)
    requires ValidSettings(cfg) && WalletsOk(db) && OnlySkippedOversleep(db.txs, clock, missed)
    requires Finishes(u) && UnitOk(cfg, db, used, clock, missed, u)
    ensures u.Committing? ==> u.effect.account.id in db.ledger && u.effect.account.id in db.outbox
    ensures OnlySkippedOversleep(Applied(db, u).txs, clock, missed)
  {
    match u
    case Committing(_, _, _, _, _, _, _, _) =>
      EffectStatus(cfg, db, used, clock, missed, u);
      CommitWrites(db, u);
      SettlementKeepsWakes(cfg, db, used, clock, missed, u, Applied(db, u));
    case Failing(_, _, _, _) => FailureKeepsWakes(cfg, db, clock, missed, u);
    case _ =>
  }

  // ---- the answer ----

  lemma SettlementIsAcknowledged(db: DB, u: Unit)
    requires u.Committing? && u.effect.account.id in db.ledger && u.effect.account.id in db.outbox
    requires u.op.id == u.effect.op.id
    ensures Acknowledged(Applied(db, u), u.job, u.effect.op.id)
  {
  }

  lemma SettlementReplies(cfg: Settings, db: DB, used: set<Id>, clock: Time, missed: set<Skip>, u: Unit)
    requires ValidSettings(cfg) && WalletsOk(db) && u.Committing? && UnitOk(cfg, db, used, clock, missed, u)
    requires u.effect.account.id in db.ledger && u.effect.account.id in db.outbox && u.job.SubmitJob?
    ensures AnswerHolds(Applied(db, u), u.job, AnswerOf(u.effect.op, false))
  {
    EffectStatus(cfg, db, used, clock, missed, u);
    CommitWrites(db, u);
    SettlementIsAcknowledged(db, u);
    assert u.op.command == CommandOf(u.job.input);
    assert AnswersInput(u.effect.op, u.job.input);
  }

  /** What a confirmed commit answers is what the tables then hold. */
  lemma CommitReplies(cfg: Settings, db: DB, used: set<Id>, clock: Time, missed: set<Skip>, u: Unit)
    requires ValidSettings(cfg) && WalletsOk(db) && Finishes(u) && UnitOk(cfg, db, used, clock, missed, u)
    ensures u.Committing? ==> u.effect.account.id in db.ledger && u.effect.account.id in db.outbox
    ensures UnitOk(cfg, Applied(db, u), used, clock, missed, Ended(u.job, Reply(u)))
  {
    match u
    case Committing(_, _, _, _, _, _, _, _) =>
      CommitterIsCommittable(cfg, db, used, clock, missed, u);
      if u.job.SubmitJob? {
        SettlementReplies(cfg, db, used, clock, missed, u);
      }
    case _ =>
  }
}
