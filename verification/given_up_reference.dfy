/** A run in which a commit is not one atomic settlement: the original is given up between the read and the commit. */
module GivenUpReference {
  import opened Values
  import opened Wagering
  import opened Decisions
  import opened Settlements
  import opened Databases
  import opened Protocol
  import opened UnitSteps
  import opened Refinement
  import opened LostWakeUp

  /** A rollback that names the parked refund. */
  const UNDO := SubmitJob(Request(Rollback, 3, Word(1)))
  const UNDOING := Born(UNDO, 30, 20)

  lemma UndoIsBorn()
    ensures NewExternal(CommandOf(UNDO.input), 30, 20) == Ok(UNDOING)
  {
  }

  lemma UndoFindsRefund(db: DB)
    requires db.txs == map[10 := PARKED]
    ensures FindOriginal(db, UNDOING) == Some(PARKED) && !HasReversal(Visible(db, UNDOING), 10)
  {
    var visible := Visible(db, UNDOING);
    FoundByExternalId(visible, Word(0), Word(1));
    assert HasExternalId(visible[10], Word(0), Word(1));
  }

  const READ := Some(Reference(PARKED, false))

  lemma UndoWaits()
    ensures var r := Settle(Submission, CFG, OWNER, UNDOING, READ, 31, 20);
            r.Ok? && r.value.entry.None? && r.value.account == OWNER && r.value.op.status == PendingReference
  {
  }

  lemma FindsAndChecks(cfg: Settings, s: State, p: Pid, original: Tx)
    requires Reachable(cfg, s) && Enabled(s, Find(p)) && s.units[p].op.command.kind.Reversal()
    requires FindOriginal(s.db, s.units[p].op) == Some(original)
    requires !HasReversal(Visible(s.db, s.units[p].op), original.id)
    ensures var u := s.units[p];
            Reachable(cfg, s.(units := s.units[p := Deciding(u.job, u.now, u.op, u.account,
                                                             Some(Reference(original, false)))]))
  {
    hide Reachable, FindOriginal, HasReversal;
    var u := s.units[p];
    var s1 := s.(units := s.units[p := Checking(u.job, u.now, u.op, u.account, original)]);
    Takes(cfg, s, Find(p), s1);
    var last := Deciding(u.job, u.now, u.op, u.account, Some(Reference(original, false)));
    assert s1.units[p := last] == s.units[p := last];
    Takes(cfg, s1, Check(p), s.(units := s.units[p := last]));
  }

  lemma UndoDecides() returns (s: State)
    ensures Reachable(CFG, s)
    ensures Scene(s, FIRST_UNITS[2 := GivingUp(RetryJob, 10)][3 := Deciding(UNDO, 20, UNDOING, OWNER, READ)],
                  SubmitLocks(map[], 3, UNDOING), map[10 := PARKED], {NIL, 1, 2, 3, 10, 11, 30}, 20, {})
  {
    hide NewExternal, Reachable, FindOriginal, HasReversal;
    var s0 := WorkerFails();
    UndoIsBorn();
    SubmitFinds(CFG, s0, 3, UNDO, 20, UNDOING);
    var s1 := s0.(units := s0.units[3 := Finding(UNDO, 20, UNDOING, OWNER)], locks := SubmitLocks(s0.locks, 3, UNDOING),
                  used := s0.used + {30}, clock := MaxTime(s0.clock, 20));
    UndoFindsRefund(s1.db);
    FindsAndChecks(CFG, s1, 3, PARKED);
    var last := Deciding(UNDO, 20, UNDOING, OWNER, READ);
    s := s1.(units := s1.units[3 := last]);
    assert s.units == FIRST_UNITS[2 := GivingUp(RetryJob, 10)][3 := last];
  }

  lemma UndoWillWait() returns (s: State, effect: Effect)
    ensures Reachable(CFG, s) && effect.op.status == PendingReference
    ensures Scene(s, FIRST_UNITS[2 := GivingUp(RetryJob, 10)]
                                [3 := Committing(UNDO, 20, UNDOING, OWNER, READ, 31, effect, {})],
                  SubmitLocks(map[], 3, UNDOING), map[10 := PARKED], {NIL, 1, 2, 3, 10, 11, 30, 31}, 20, {})
  {
    hide Settle, Reachable;
    var s0 := UndoDecides();
    UndoWaits();
    effect := Settle(Submission, CFG, OWNER, UNDOING, READ, 31, 20).value;
    DecidesOn(CFG, s0, 3, 31, effect);
    var u := Committing(UNDO, 20, UNDOING, OWNER, READ, 31, effect, {});
    s := s0.(units := s0.units[3 := u], used := s0.used + {31});
    assert s.units == FIRST_UNITS[2 := GivingUp(RetryJob, 10)][3 := u];
  }

  const FAILED_REFUND := PARKED.(status := Failed, failureCode := PermanentFailure, completedAt := 20, updatedAt := 20,
                                 nextAttemptAt := 0, deadlineAt := 0)

  /** The give-up transaction locks its row, marks it, and commits. */
  lemma GivesUp(cfg: Settings, s: State, p: Pid, now: Time, row: Tx, failed: Tx)
    requires Reachable(cfg, s) && Enabled(s, LockTarget(p, now)) && s.units[p].target in s.db.txs
    requires s.db.txs[s.units[p].target] == row && row.status == PendingReference && MarkFailed(row, now) == Ok(failed)
    ensures var u := s.units[p];
            Reachable(cfg, s.(
              units := s.units[p := Ended(u.job, Finished)], locks := Release(s.locks[RowKey(u.target) := p], p),
              clock := MaxTime(s.clock, now), db := s.db.(txs := s.db.txs[u.target := failed])))
  {
    hide Reachable, MarkFailed;
    var u := s.units[p];
    var s1 := s.(units := s.units[p := Failing(u.job, u.target, now, Some(row))], locks := s.locks[RowKey(u.target) := p],
                 clock := MaxTime(s.clock, now));
    Takes(cfg, s, LockTarget(p, now), s1);
    var s2 := s1.(units := s.units[p := Ended(u.job, Finished)], locks := Release(s1.locks, p),
                  db := s.db.(txs := s.db.txs[u.target := failed]));
    assert s2.units == s1.units[p := Ended(u.job, Finished)];
    Takes(cfg, s1, Commit(p, Confirmed), s2);
  }

  lemma RefundIsGivenUp() returns (s: State, effect: Effect)
    ensures Reachable(CFG, s) && effect.op.status == PendingReference
    ensures 3 in s.units && s.units[3] == Committing(UNDO, 20, UNDOING, OWNER, READ, 31, effect, {})
    ensures s.db.txs == map[10 := FAILED_REFUND] && s.db.wallets == map[1 := OWNER]
  {
    hide Reachable;
    var s0;
    s0, effect := UndoWillWait();
    assert MarkFailed(PARKED, 20) == Ok(FAILED_REFUND);
    GivesUp(CFG, s0, 2, 20, PARKED, FAILED_REFUND);
    s := s0.(units := s0.units[2 := Ended(RetryJob, Finished)], locks := Release(s0.locks[RowKey(10) := 2], 2),
             clock := MaxTime(s0.clock, 20), db := s0.db.(txs := s0.db.txs[10 := FAILED_REFUND]));
    assert map[10 := PARKED][10 := FAILED_REFUND] == map[10 := FAILED_REFUND];
  }

  lemma UndoNamesFailed(db: DB)
    requires db.txs == map[10 := FAILED_REFUND]
    ensures FindOriginal(db, UNDOING) == Some(FAILED_REFUND)
  {
    var visible := Visible(db, UNDOING);
    FoundByExternalId(visible, Word(0), Word(1));
    assert HasExternalId(visible[10], Word(0), Word(1));
  }

  /** The condition of the refinement is needed: in a reachable state a unit is about to park its operation, although
      the tables already say that its original, on its own wallet, has failed, so that one atomic settlement would
      have rejected it. */
  lemma CommitsCanLagBehindGiveUp() returns (s: State, p: Pid)
    ensures ValidSettings(CFG) && Reachable(CFG, s) && p in s.units && s.units[p].Committing?
    ensures NamedOnOwnWallet(s.db, s.units[p].op) && NamedGaveUp(s.db, s.units[p].op)
    ensures var u := s.units[p];
            && u.op.command.walletId in s.db.wallets
            && AtomicSettle(DoorOf(u.job), CFG, s.db, u.op, u.entryId, u.now) != Ok(u.effect)
  {
    hide Reachable, FindOriginal, AtomicSettle;
    var effect;
    s, effect := RefundIsGivenUp();
    p := 3;
    UndoNamesFailed(s.db);
    CommitRefinesAtomicSettle(CFG, s, p);
  }
}
