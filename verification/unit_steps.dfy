/** Steps that leave the committed tables alone: what the stepping unit knows afterwards. */
module UnitSteps {
  import opened Values
  import opened Wagering
  import opened Settlements
  import opened Databases
  import opened DataInvariants
  import opened Protocol
  import opened LockDiscipline
  import opened UnitKnowledge
  import opened ProtocolInvariant

  /** A unit outside a transaction that answered nothing knows nothing. */
  lemma OutsideIsOk(cfg: Settings, s: State, u: Unit)
    requires u.job.SubmitJob? ==> ValidInput(u.job.input)
    requires u.Idle? || (u.Ended? && !u.end.Answered?)
    ensures UnitOk(cfg, s.db, s.used, s.clock, s.missed, u)
  {
  }

  lemma NewExternalIsOpen(command: Command, id: Id, now: Time)
    requires now > 0 && NewExternal(command, id, now).Ok?
    ensures var op := NewExternal(command, id, now).value;
            Open(Submission, op) && op.id == id && op.command == command && op.createdAt == now && op.attempts == 0
  {
    BirthIsAccepted(command, id, now);
  }

  lemma InsertedIsOk(cfg: Settings, s: State, u: Unit, op: Tx)
    requires u.Inserting? && UnitOk(cfg, s.db, s.used, s.clock, s.missed, u)
    requires NewExternal(CommandOf(u.job.input), op.id, u.now) == Ok(op)
    requires op.id !in s.db.txs && KeysFree(s.db.txs, op) && op.command.walletId in s.db.wallets
    ensures UnitOk(cfg, s.db, s.used + {op.id}, s.clock, s.missed, Locking(u.job, u.now, op))
  {
    NewExternalIsOpen(CommandOf(u.job.input), op.id, u.now);
  }

  lemma FoundByKey(txs: map<Id, Tx>, providerId: Text, key: Text)
    ensures var r := FindByKey(txs, providerId, key);
            && (r.Some? ==> exists t :: t in txs && r.value == txs[t] && HasKey(txs[t], providerId, key))
            && (r.None? ==> forall t :: t in txs ==> !HasKey(txs[t], providerId, key))
  {
  }

  lemma FoundByExternalId(txs: map<Id, Tx>, providerId: Text, externalId: Text)
    ensures var r := FindByExternalId(txs, providerId, externalId);
            && (r.Some? ==> exists t :: t in txs && r.value == txs[t] && HasExternalId(txs[t], providerId, externalId))
            && (r.None? ==> forall t :: t in txs ==> !HasExternalId(txs[t], providerId, externalId))
  {
  }

  lemma CommittedIsReadBefore(cfg: Settings, db: DB, t: Id)
    requires TxsOk(db, cfg) && t in db.txs
    ensures ReadBefore(db, db.txs[t]) && db.txs[t].status != Pending && Rehydrate(db.txs[t]).Ok? && db.txs[t].id == t
    ensures db.txs[t].command.walletId in db.wallets && db.txs[t].createdAt > 0
  {
    assert TxOk(db.wallets, cfg, db.txs[t]);
  }

  lemma ReplayingIsOk(cfg: Settings, s: State, u: Unit)
    requires u.Inserting? && UnitOk(cfg, s.db, s.used, s.clock, s.missed, u) && TxsOk(s.db, cfg)
    requires ReplayUnit(s.db, u).Replaying?
    ensures UnitOk(cfg, s.db, s.used, s.clock, s.missed, ReplayUnit(s.db, u))
  {
    var command := CommandOf(u.job.input);
    FoundByKey(s.db.txs, command.providerId, command.idempotencyKey);
    var existing := FindByKey(s.db.txs, command.providerId, command.idempotencyKey).value;
    var t :| t in s.db.txs && existing == s.db.txs[t] && HasKey(s.db.txs[t], command.providerId, command.idempotencyKey);
    CommittedIsReadBefore(cfg, s.db, t);
    assert ExistingOk(s.db, u.job, existing);
  }

  lemma InsertKeepsUnit(cfg: Settings, s: State, p: Pid, id: Id)
    requires UnitsOk(cfg, s) && UsedOk(s) && TxsOk(s.db, cfg) && Enabled(s, Insert(p, id))
    ensures var after := InsertStep(s, p, s.units[p], id);
            UnitOk(cfg, after.db, after.used, after.clock, after.missed, after.units[p])
  {
    hide UnitOk, TxsOk, NewExternal, KeysFree, UsedOk, ReplayUnit;
    var u := s.units[p];
    var after := InsertStep(s, p, u, id);
    var born := NewExternal(CommandOf(u.job.input), id, u.now);
    if born.Ok? && KeysFree(s.db.txs, born.value) && born.value.command.walletId in s.db.wallets {
      BornAs(CommandOf(u.job.input), id, u.now);
      FreshIsAbsent(s, id);
      InsertedIsOk(cfg, s, u, born.value);
    } else if born.Ok? && !KeysFree(s.db.txs, born.value) && ReplayUnit(s.db, u).Replaying? {
      ReplayingIsOk(cfg, s, u);
    } else {
      KnownJob(cfg, s, u);
      ReplayEnds(s.db, u);
      OutsideIsOk(cfg, after, after.units[p]);
    }
  }

  lemma BornAs(command: Command, id: Id, now: Time)
    ensures NewExternal(command, id, now).Ok? ==>
              NewExternal(command, id, now).value.id == id && NewExternal(command, id, now).value.command == command
              && command.kind != Opening && command.providerId != Empty && command.externalId != Empty
  {
  }

  lemma FreshIsAbsent(s: State, id: Id)
    requires UsedOk(s) && id !in s.used
    ensures id !in s.db.txs
  {
  }

  lemma ReplayEnds(db: DB, u: Unit)
    requires u.Inserting? && u.job.SubmitJob?
    ensures var next := ReplayUnit(db, u); next.job == u.job && (next.Replaying? || (next.Ended? && !next.end.Answered?))
  {
  }

  lemma KnownJob(cfg: Settings, s: State, u: Unit)
    requires UnitOk(cfg, s.db, s.used, s.clock, s.missed, u)
    ensures u.job.SubmitJob? ==> ValidInput(u.job.input)
  {
  }

  lemma AnsweringIsOk(cfg: Settings, s: State, u: Unit, row: InboxRow)
    requires u.Registering? && UnitOk(cfg, s.db, s.used, s.clock, s.missed, u) && TxsOk(s.db, cfg)
    requires u.job.input.message.value.id in s.db.inbox && s.db.inbox[u.job.input.message.value.id] == row
    requires row.bodyHash == u.job.input.message.value.bodyHash && row.outcome != NoOutcome
    requires row.transactionId in s.db.txs && Answers(s.db.txs[row.transactionId], row.bodyHash)
    ensures UnitOk(cfg, s.db, s.used, s.clock, s.missed, Answering(u.job, s.db.txs[row.transactionId]))
  {
    CommittedIsReadBefore(cfg, s.db, row.transactionId);
    assert ExistingOk(s.db, u.job, s.db.txs[row.transactionId]);
  }

  lemma RegisterKeepsUnit(cfg: Settings, s: State, p: Pid)
    requires UnitsOk(cfg, s) && TxsOk(s.db, cfg) && InboxOk(s.db) && Enabled(s, Register(p))
    ensures var after := RegisterStep(s, p, s.units[p]);
            UnitOk(cfg, after.db, after.used, after.clock, after.missed, after.units[p])
  {
    var u := s.units[p];
    var after := RegisterStep(s, p, u);
    assert UnitOk(cfg, s.db, s.used, s.clock, s.missed, u);
    var m := u.job.input.message.value.id;
    if after.units[p].Answering? {
      AnsweringIsOk(cfg, s, u, s.db.inbox[m]);
    } else if after.units[p].Ended? {
      OutsideIsOk(cfg, after, after.units[p]);
    }
  }

  lemma ClaimKeepsUnit(cfg: Settings, s: State, u: Unit, t: Id)
    requires u.Claiming? && UnitOk(cfg, s.db, s.used, s.clock, s.missed, u) && UsedOk(s)
    requires t in s.db.txs && s.db.txs[t].id == t && TxOk(s.db.wallets, cfg, s.db.txs[t])
    requires s.db.txs[t].status == PendingReference && s.db.txs[t].nextAttemptAt <= u.now
    ensures UnitOk(cfg, s.db, s.used, s.clock, s.missed, Locking(u.job, u.now, s.db.txs[t]))
  {
  }

  lemma LockWalletKeepsUnit(cfg: Settings, s: State, u: Unit)
    requires u.Locking? && UnitOk(cfg, s.db, s.used, s.clock, s.missed, u)
    ensures u.op.command.walletId in s.db.wallets
    ensures UnitOk(cfg, s.db, s.used, s.clock, s.missed,
                   Finding(u.job, u.now, u.op, s.db.wallets[u.op.command.walletId]))
  {
  }

  // ---- reading the reference ----

  /** Names picks at most one visible row. */
  lemma NamedIsUnique(db: DB, door: Door, op: Tx, t: Id, o: Id)
    requires KeysOk(db.txs) && Current(db, door, op) && op.command.kind != Opening
    requires t in Visible(db, op) && Names(op, Visible(db, op)[t])
    requires o in Visible(db, op) && Names(op, Visible(db, op)[o])
    ensures t == o
  {
  }

  lemma FoundIsOk(cfg: Settings, db: DB, op: Tx, o: Id)
    requires TxsOk(db, cfg) && Rehydrate(op).Ok?
    requires o in Visible(db, op) && Names(op, Visible(db, op)[o])
    ensures OriginalOk(db, op, Visible(db, op)[o])
  {
    if o != op.id {
      CommittedIsReadBefore(cfg, db, o);
    }
  }

  lemma VisibleRows(db: DB, door: Door, op: Tx, t: Id)
    requires Current(db, door, op) && t in db.txs
    ensures t in Visible(db, op) && Visible(db, op)[t] == db.txs[t]
  {
  }

  lemma FoundOriginal(cfg: Settings, db: DB, door: Door, op: Tx)
    requires TxsOk(db, cfg) && KeysOk(db.txs) && Open(door, op) && Current(db, door, op)
    ensures var r := FindOriginal(db, op);
            && (r.Some? ==> OriginalOk(db, op, r.value))
            && (Names(op, op) ==> r == Some(op))
            && (forall t :: t in db.txs && Names(op, db.txs[t]) ==> r == Some(db.txs[t]))
  {
    hide TxsOk, KeysOk, Current, OriginalOk, Rehydrate;
    var visible := Visible(db, op);
    FoundByExternalId(visible, op.command.providerId, op.command.referenceExternalId);
    var r := FindOriginal(db, op);
    if r.Some? {
      var o :| o in visible && r.value == visible[o] && Names(op, visible[o]);
      FoundIsOk(cfg, db, op, o);
      if Names(op, op) {
        NamedIsUnique(db, door, op, op.id, o);
      }
      forall t | t in db.txs && Names(op, db.txs[t])
        ensures r == Some(db.txs[t])
      {
        VisibleRows(db, door, op, t);
        NamedIsUnique(db, door, op, t, o);
      }
    } else {
      assert op.id in visible && visible[op.id] == op;
      forall t | t in db.txs
        ensures t in visible && visible[t] == db.txs[t]
      {
        VisibleRows(db, door, op, t);
      }
    }
  }

  lemma FoundReferenceIsOk(cfg: Settings, s: State, u: Unit)
    requires TxsOk(s.db, cfg) && KeysOk(s.db.txs) && AttemptsOk(cfg, s.db.txs)
    requires u.Finding? && UnitOk(cfg, s.db, s.used, s.clock, s.missed, u)
    ensures ReferenceOk(cfg, s.db, u.job, u.op, FindOriginal(s.db, u.op))
  {
    var original := FindOriginal(s.db, u.op);
    FoundOriginal(cfg, s.db, DoorOf(u.job), u.op);
    if u.job.RetryJob? && (original.Some? ==> !original.value.status.Terminal()) {
      assert AttemptOk(cfg, s.db.txs, u.op.id);
      assert !OriginalTerminal(s.db.txs, u.op);
    }
  }

  lemma FoundKeepsUnit(cfg: Settings, s: State, u: Unit, next: Unit)
    requires u.Finding? && UnitOk(cfg, s.db, s.used, s.clock, s.missed, u)
    requires next.Checking? || (next.Deciding? && (next.reference.Some? ==> !u.op.command.kind.Reversal()))
    requires next.job == u.job && next.now == u.now && next.op == u.op && next.account == u.account
    requires ReferenceOk(cfg, s.db, u.job, u.op, OriginalOf(next))
    ensures UnitOk(cfg, s.db, s.used, s.clock, s.missed, next)
  {
    hide OperationOk, ReferenceOk, Rehydrate;
  }

  lemma FindKeepsUnit(cfg: Settings, s: State, p: Pid, u: Unit)
    requires TxsOk(s.db, cfg) && KeysOk(s.db.txs) && AttemptsOk(cfg, s.db.txs)
    requires u.Finding? && UnitOk(cfg, s.db, s.used, s.clock, s.missed, u)
    ensures UnitOk(cfg, s.db, s.used, s.clock, s.missed, FindStep(s, p, u).units[p])
  {
    hide TxsOk, KeysOk, AttemptsOk, FindOriginal, UnitOk, ReferenceOk;
    FoundReferenceIsOk(cfg, s, u);
    FoundKeepsUnit(cfg, s, u, FindStep(s, p, u).units[p]);
  }

  lemma OwnRowReversesNothing(db: DB, door: Door, op: Tx, t: Id)
    requires Open(door, op) && Current(db, door, op)
    ensures HasReversal(Visible(db, op), t) <==> HasReversal(db.txs, t)
  {
    forall r
      ensures Reverses(Visible(db, op), r, t) <==> Reverses(db.txs, r, t)
    {
    }
    if HasReversal(Visible(db, op), t) {
      var r :| Reverses(Visible(db, op), r, t);
      assert Reverses(db.txs, r, t);
    }
    if HasReversal(db.txs, t) {
      var r :| Reverses(db.txs, r, t);
      assert Reverses(Visible(db, op), r, t);
    }
  }

  lemma CheckKeepsUnit(cfg: Settings, s: State, p: Pid, u: Unit)
    requires u.Checking? && UnitOk(cfg, s.db, s.used, s.clock, s.missed, u)
    ensures UnitOk(cfg, s.db, s.used, s.clock, s.missed, CheckStep(s, p, u).units[p])
  {
    OwnRowReversesNothing(s.db, DoorOf(u.job), u.op, u.original.id);
  }

  lemma FailureKeepsUnit(cfg: Settings, s: State, u: Unit, e: Error)
    requires UnitOk(cfg, s.db, s.used, s.clock, s.missed, u)
    ensures UnitOk(cfg, s.db, s.used, s.clock, s.missed, AfterFailure(u, e))
  {
  }

  lemma RestartKeepsUnit(cfg: Settings, s: State, u: Unit)
    requires UnitOk(cfg, s.db, s.used, s.clock, s.missed, u)
    ensures UnitOk(cfg, s.db, s.used, s.clock, s.missed, AfterRestart(u))
  {
  }

  lemma DecideKeepsUnit(cfg: Settings, s: State, p: Pid, u: Unit, entryId: Id)
    requires u.Deciding? && UnitOk(cfg, s.db, s.used, s.clock, s.missed, u)
    requires NIL in s.used && entryId !in s.used
    ensures var after := DecideStep(cfg, s, p, u, entryId);
            UnitOk(cfg, after.db, after.used, after.clock, after.missed, after.units[p])
  {
    hide UnitOk, Settle;
    match Settle(DoorOf(u.job), cfg, u.account, u.op, u.reference, entryId, u.now)
    case Err(e) => FailureKeepsUnit(cfg, s, u, e);
    case Ok(effect) =>
      if VersionMatches(s.db, u.account, effect) {
        DecidedKeepsKnowledge(cfg, s, u, entryId, effect,
                              DecideStep(cfg, s, p, u, entryId).units[p]);
      } else {
        FailureKeepsUnit(cfg, s, u, WalletVersionChanged);
      }
  }

  lemma DecidedKeepsKnowledge(cfg: Settings, s: State, u: Unit, entryId: Id, effect: Effect, next: Unit)
    requires u.Deciding? && UnitOk(cfg, s.db, s.used, s.clock, s.missed, u)
    requires NIL in s.used && entryId !in s.used
    requires Settle(DoorOf(u.job), cfg, u.account, u.op, u.reference, entryId, u.now) == Ok(effect)
    requires next == if effect.op.status == PendingReference
                     then Committing(u.job, u.now, u.op, u.account, u.reference, entryId, effect, {})
                     else Waking(u.job, u.now, u.op, u.account, u.reference, entryId, effect)
    ensures UnitOk(cfg, s.db, s.used + {entryId}, s.clock, s.missed, next)
  {
    assert EffectOk(cfg, next);
  }

  // ---- waking ----

  /** A submission's external id is free; the worker's operation is the row that carries it. */
  lemma SettlerKnows(cfg: Settings, db: DB, used: set<Id>, clock: Time, missed: set<Skip>, u: Unit)
    requires u.HasOp() && UnitOk(cfg, db, used, clock, missed, u)
    ensures u.job.SubmitJob? ==>
              forall t :: t in db.txs ==> !HasExternalId(db.txs[t], u.op.command.providerId, u.op.command.externalId)
    ensures u.job.RetryJob? ==>
              u.op.id in db.txs && HasExternalId(db.txs[u.op.id], u.op.command.providerId, u.op.command.externalId)
  {
  }

  /** Two units that could settle the same external id are one unit. */
  lemma SettlersAreUnique(cfg: Settings, s: State, p: Pid, q: Pid)
    requires LockInv(s) && UnitsOk(cfg, s) && KeysOk(s.db.txs)
    requires p in s.units && q in s.units && s.units[p].HasOp() && s.units[q].HasOp()
    requires s.units[p].op.command.providerId == s.units[q].op.command.providerId
    requires s.units[p].op.command.externalId == s.units[q].op.command.externalId
    ensures p == q
  {
    var a, b := s.units[p], s.units[q];
    assert UnitOk(cfg, s.db, s.used, s.clock, s.missed, a) && UnitOk(cfg, s.db, s.used, s.clock, s.missed, b);
    SettlerKnows(cfg, s.db, s.used, s.clock, s.missed, a);
    SettlerKnows(cfg, s.db, s.used, s.clock, s.missed, b);
    if a.job.SubmitJob? && b.job.SubmitJob? {
      HoldingsAreExclusive(s, p, q, ExternalKey(a.op.command.providerId, a.op.command.externalId));
    } else if a.job.RetryJob? && b.job.RetryJob? {
      assert a.op.id == b.op.id;
      HoldingsAreExclusive(s, p, q, RowKey(a.op.id));
    }
  }

  /** Who can hold the lock of a committed row. */
  lemma RowHolder(cfg: Settings, db: DB, used: set<Id>, clock: Time, missed: set<Skip>, u: Unit, t: Id)
    requires UnitOk(cfg, db, used, clock, missed, u) && Holds(u, RowKey(t)) && t in db.txs
    ensures || u.Failing?
            || (u.HasOp() && t == u.op.id && db.txs[t].nextAttemptAt <= clock)
            || (u.Committing? && t in u.woken && Names(db.txs[t], u.op))
  {
  }

  /** A waiting row that is locked is held by the give-up path, or by a worker that found it due. */
  lemma LockedRowIsDue(cfg: Settings, s: State, p: Pid, t: Id)
    requires LockInv(s) && UnitsOk(cfg, s) && KeysOk(s.db.txs)
    requires p in s.units && s.units[p].Waking? && RowWaits(s.db, s.units[p].op, t) && RowKey(t) in s.locks
    ensures HeldByGiveUp(s, t) || s.db.txs[t].nextAttemptAt <= s.clock
  {
    hide LockInv, UnitOk, KeysOk;
    var q := s.locks[RowKey(t)];
    LockHolder(s, RowKey(t));
    var b := s.units[q];
    RowHolder(cfg, s.db, s.used, s.clock, s.missed, b, t);
    if b.Committing? && Names(s.db.txs[t], b.op) {
      SettlersAreUnique(cfg, s, p, q);
    }
  }

  lemma LockHolder(s: State, r: Resource)
    requires LockInv(s) && r in s.locks
    ensures s.locks[r] in s.units && Holds(s.units[s.locks[r]], r)
  {
    assert HeldBy(s.units, s.locks[r], r);
  }

  lemma WakeIsDone(cfg: Settings, s: State, p: Pid)
    requires LockInv(s) && UnitsOk(cfg, s) && KeysOk(s.db.txs) && p in s.units && s.units[p].Waking?
    requires NowOk(s.clock, s.units[p].now)
    ensures var after := WakeStep(s, p, s.units[p]);
            WakeDone(s.db, s.clock, after.missed, s.units[p].op, Awakened(s, s.units[p]))
  {
    hide LockInv, UnitsOk, KeysOk;
    var u := s.units[p];
    var after := WakeStep(s, p, u);
    forall t | RowWaits(s.db, u.op, t)
      ensures t in Awakened(s, u) || s.db.txs[t].nextAttemptAt <= s.clock
              || Skip(t, u.op.id, s.db.txs[t].nextAttemptAt) in after.missed
    {
      if RowKey(t) in s.locks {
        LockedRowIsDue(cfg, s, p, t);
      }
    }
  }

  lemma WakeKeepsUnit(cfg: Settings, s: State, u: Unit, woken: set<Id>, missed: set<Skip>)
    requires u.Waking? && UnitOk(cfg, s.db, s.used, s.clock, s.missed, u)
    requires s.missed <= missed && WokenOk(s.db, u.op, woken) && WakeDone(s.db, s.clock, missed, u.op, woken)
    ensures UnitOk(cfg, s.db, s.used, s.clock, missed,
                   Committing(u.job, u.now, u.op, u.account, u.reference, u.entryId, u.effect, woken))
  {
    var next := Committing(u.job, u.now, u.op, u.account, u.reference, u.entryId, u.effect, woken);
    assert EffectOk(cfg, next) && CommitOk(s.db, s.clock, missed, next);
  }

  lemma WakeStepKeepsUnit(cfg: Settings, s: State, p: Pid)
    requires LockInv(s) && UnitsOk(cfg, s) && KeysOk(s.db.txs) && Enabled(s, WakeUp(p))
    ensures var after := WakeStep(s, p, s.units[p]);
            UnitOk(cfg, after.db, after.used, after.clock, after.missed, after.units[p])
  {
    var u := s.units[p];
    assert UnitOk(cfg, s.db, s.used, s.clock, s.missed, u);
    assert NowOk(s.clock, u.now);
    hide LockInv, UnitsOk, KeysOk, UnitOk;
    WakeIsDone(cfg, s, p);
    WakeKeepsUnit(cfg, s, u, Awakened(s, u), WakeStep(s, p, u).missed);
  }

  lemma LockTargetKeepsUnit(cfg: Settings, s: State, u: Unit, now: Time)
    requires u.GivingUp? && UnitOk(cfg, s.db, s.used, s.clock, s.missed, u) && now > 0
    ensures u.target in s.db.txs
    ensures UnitOk(cfg, s.db, s.used, MaxTime(s.clock, now), s.missed,
                   Failing(u.job, u.target, now, Some(s.db.txs[u.target])))
  {
  }

  lemma ClockKeepsUnit(cfg: Settings, s: State, u: Unit, now: Time)
    requires u.Idle? && UnitOk(cfg, s.db, s.used, s.clock, s.missed, u) && now > 0
    ensures UnitOk(cfg, s.db, s.used, MaxTime(s.clock, now), s.missed, AfterClock(u.job, now))
  {
  }

  lemma StepperKnows(cfg: Settings, s: State, a: Action)
    requires UnitsOk(cfg, s) && UsedOk(s) && TxsOk(s.db, cfg) && Enabled(s, a) && !a.Spawn? && !a.OpenNew?
    ensures UnitOk(cfg, s.db, s.used, s.clock, s.missed, s.units[a.p]) && NIL in s.used
    ensures a.Claim? ==> s.db.txs[a.t].id == a.t && TxOk(s.db.wallets, cfg, s.db.txs[a.t])
  {
    hide UnitOk, TxOk;
  }

  /** A step that leaves the tables alone leaves the stepping unit with true knowledge. */
  lemma LocalStepKeepsUnit(cfg: Settings, s: State, a: Action)
    requires UnitsOk(cfg, s) && LockInv(s) && UsedOk(s) && AttemptsOk(cfg, s.db.txs)
    requires TxsOk(s.db, cfg) && KeysOk(s.db.txs) && InboxOk(s.db)
    requires Enabled(s, a) && !a.Commit? && !a.OpenNew?
    ensures var after := Step(cfg, s, a);
            UnitOk(cfg, after.db, after.used, after.clock, after.missed, after.units[a.p])
  {
    hide UnitsOk, LockInv, AttemptsOk, TxsOk, KeysOk, InboxOk, UnitOk, UsedOk, TxOk, Settle, NewExternal, KeysFree,
         FindOriginal, HasReversal, ReplayUnit, Awakened, Skipped, FindByKey, FindByExternalId;
    if a.Spawn? {
      OutsideIsOk(cfg, s, Idle(a.job));
    } else {
      var u := s.units[a.p];
      StepperKnows(cfg, s, a);
      match a
      case ReadClock(_, now) => ClockKeepsUnit(cfg, s, u, now);
      case Register(p) => RegisterKeepsUnit(cfg, s, p);
      case Insert(p, id) => InsertKeepsUnit(cfg, s, p, id);
      case Claim(p, t) => ClaimKeepsUnit(cfg, s, u, t);
      case LockWallet(p) => LockWalletKeepsUnit(cfg, s, u);
      case Find(p) => FindKeepsUnit(cfg, s, p, u);
      case Check(p) => CheckKeepsUnit(cfg, s, p, u);
      case DecideIt(p, entryId) => DecideKeepsUnit(cfg, s, p, u, entryId);
      case WakeUp(p) => WakeStepKeepsUnit(cfg, s, p);
      case Abort(p, error) => FailureKeepsUnit(cfg, s, u, error);
      case Restart(p) => RestartKeepsUnit(cfg, s, u);
      case LockTarget(p, now) => LockTargetKeepsUnit(cfg, s, u, now);
    }
  }
}
