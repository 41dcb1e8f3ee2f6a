/** The interleaved run refines one atomic settlement per commit. */
module Refinement {
  import opened Values
  import opened Wallets
  import opened Wagering
  import opened Decisions
  import opened DecisionTable
  import opened Settlements
  import opened Databases
  import opened DataInvariants
  import opened Protocol
  import opened LockDiscipline
  import opened UnitKnowledge
  import opened ProtocolInvariant
  import opened UnitSteps
  import opened Commits
  import opened Safety

  // ---- the atomic specification ----

  /** The reference as one atomic step would read it. */
  ghost function CommittedReference(db: DB, op: Tx): Option<Reference> {
    match FindOriginal(db, op)
    case None => None
    case Some(original) => Some(Reference(original, HasReversal(db.txs, original.id)))
  }

  /** Lock, read, decide, move and mark in one indivisible step on the committed tables. */
  ghost function AtomicSettle(door: Door, cfg: Settings, db: DB, op: Tx, entryId: Id, now: Time): Result<Effect>
    requires op.command.walletId in db.wallets
  {
    Settle(door, cfg, db.wallets[op.command.walletId], op, CommittedReference(db, op), entryId, now)
  }

  /** The reference the operation names, if it exists, is on the wallet the unit has locked. */
  ghost predicate NamedOnOwnWallet(db: DB, op: Tx) {
    var named := FindOriginal(db, op);
    named.Some? ==> named.value.command.walletId == op.command.walletId
  }

  ghost predicate NamedGaveUp(db: DB, op: Tx) {
    var named := FindOriginal(db, op);
    named.Some? && named.value.status == Failed
  }

  // ---- what was read against what is committed ----

  /** The reference read may be behind in one way only: the original was still parked and has since been FAILED. */
  predicate Behind(op: Tx, read: Option<Reference>, now: Option<Reference>) {
    && (read.None? <==> now.None?)
    && (read.Some? && now.Some? ==>
          var (a, b) := (read.value.transaction, now.value.transaction);
          && a.id == b.id && a.command == b.command
          && (a.status == b.status
              || (!a.status.Terminal() && a.status != UnknownStatus && (b.status == PendingReference || b.status == Failed)))
          && (op.command.kind.Reversal() ==> (read.value.alreadyReversed <==> now.value.alreadyReversed)))
  }

  lemma SelfOrCommitted(cfg: Settings, db: DB, door: Door, op: Tx)
    requires TxsOk(db, cfg) && KeysOk(db.txs) && Open(door, op) && Current(db, door, op)
    ensures var named := FindOriginal(db, op);
            named.Some? ==>
              && Names(op, named.value)
              && (named.value == op || (named.value.id in db.txs && named.value.id != op.id
                                        && db.txs[named.value.id] == named.value && named.value.status != Pending))
    ensures Names(op, op) ==> FindOriginal(db, op) == Some(op)
    ensures forall t :: t in db.txs && Names(op, db.txs[t]) ==> FindOriginal(db, op) == Some(db.txs[t])
  {
    hide TxsOk, KeysOk, Current, Rehydrate, OriginalOk;
    FoundOriginal(cfg, db, door, op);
    var visible := Visible(db, op);
    FoundByExternalId(visible, op.command.providerId, op.command.referenceExternalId);
    var named := FindOriginal(db, op);
    if named.Some? {
      var o :| o in visible && named.value == visible[o] && Names(op, visible[o]);
      if o != op.id {
        CommittedIsReadBefore(cfg, db, o);
      }
    }
  }

  lemma NothingReadNothingThere(cfg: Settings, db: DB, used: set<Id>, clock: Time, u: Unit)
    requires TxsOk(db, cfg) && KeysOk(db.txs)
    requires HasReference(u) && OperationOk(cfg, db, used, clock, u.job, u.now, u.op)
    requires ReferenceOk(cfg, db, u.job, u.op, OriginalOf(u)) && NamedOnOwnWallet(db, u.op)
    ensures u.reference.None? <==> FindOriginal(db, u.op).None?
    ensures u.reference.Some? ==> u.reference.value.transaction.id == FindOriginal(db, u.op).value.id
  {
    hide TxsOk, KeysOk, Open, Current;
    SelfOrCommitted(cfg, db, DoorOf(u.job), u.op);
  }

  lemma ReadIsBehind(cfg: Settings, db: DB, used: set<Id>, clock: Time, missed: set<Skip>, u: Unit)
    requires TxsOk(db, cfg) && KeysOk(db.txs)
    requires HasReference(u) && UnitOk(cfg, db, used, clock, missed, u) && NamedOnOwnWallet(db, u.op)
    ensures Behind(u.op, u.reference, CommittedReference(db, u.op))
  {
    hide TxsOk, KeysOk, Open, Current, Rehydrate, EffectOk, CommitOk, HasReversal;
    NothingReadNothingThere(cfg, db, used, clock, u);
    SelfOrCommitted(cfg, db, DoorOf(u.job), u.op);
    if u.reference.Some? {
      var a, b := u.reference.value.transaction, FindOriginal(db, u.op).value;
      if a.id == u.op.id {
        assert a == b == u.op;
      } else {
        assert b == db.txs[a.id] && ReadBefore(db, a);
        AcceptedIsKnown(a);
        AcceptedRowIsKnown(cfg, db, a.id);
      }
    }
  }

  lemma AcceptedIsKnown(t: Tx)
    requires Rehydrate(t).Ok?
    ensures t.status != UnknownStatus
  {
  }

  lemma AcceptedRowIsKnown(cfg: Settings, db: DB, t: Id)
    requires TxsOk(db, cfg) && t in db.txs
    ensures db.txs[t].status != UnknownStatus && db.txs[t].status != Pending
  {
    CommittedIsReadBefore(cfg, db, t);
    AcceptedIsKnown(db.txs[t]);
  }

  /** Being behind changes the decision only for an operation that decided to wait. */
  lemma BehindDecidesAlike(account: WalletState, op: Tx, read: Option<Reference>, now: Option<Reference>, at: Time)
    requires Behind(op, read, now)
    ensures var (a, b) := (Decide(account, op, read, at), Decide(account, op, now, at));
            a == b <==> !(a == Ok(WaitReference) && now.Some? && now.value.transaction.status == Failed)
  {
  }

  lemma SettlementWaits(door: Door, cfg: Settings, account: WalletState, op: Tx, reference: Option<Reference>,
                        entryId: Id, now: Time)
    requires Ready(door, cfg, account, op, reference, entryId, now)
    ensures var r := Settle(door, cfg, account, op, reference, entryId, now);
            r.Ok? ==> (r.value.op.status == PendingReference <==> Decide(account, op, reference, now) == Ok(WaitReference))
  {
    DecisionIsSound(account, op, reference, now);
  }

  lemma RefusalIsNotWaiting(door: Door, cfg: Settings, account: WalletState, op: Tx, reference: Option<Reference>,
                            entryId: Id, now: Time)
    requires Decide(account, op, reference, now).Ok? && !Decide(account, op, reference, now).value.WaitReference?
    ensures var r := Settle(door, cfg, account, op, reference, entryId, now);
            r.Ok? ==> r.value.op.status != PendingReference
  {
  }

  /** What a unit is about to commit is what one atomic settlement of the committed tables would write, exactly
      when it does not wait for an original that was meanwhile given up. */
  lemma CommitRefinesAtomicSettle(cfg: Settings, s: State, p: Pid)
    requires ValidSettings(cfg) && Reachable(cfg, s)
    requires p in s.units && s.units[p].Committing? && NamedOnOwnWallet(s.db, s.units[p].op)
    ensures var u := s.units[p];
            && u.op.command.walletId in s.db.wallets
            && (AtomicSettle(DoorOf(u.job), cfg, s.db, u.op, u.entryId, u.now) == Ok(u.effect)
                <==> !(u.effect.op.status == PendingReference && NamedGaveUp(s.db, u.op)))
  {
    hide Inv, Reachable, UnitOk, TxsOk, KeysOk, WalletsOk, NamedOnOwnWallet, DataInv, LockInv, UsedOk, AttemptsOk, WakesOk,
         LedgerOk, InboxOk;
    ReachableInv(cfg, s);
    InvParts(cfg, s);
    var u := s.units[p];
    ReadIsBehind(cfg, s.db, s.used, s.clock, s.missed, u);
    CommitterKnows(cfg, s.db, s.used, s.clock, s.missed, u);
    AtomicAgrees(cfg, s.db, u);
  }

  lemma CommitterKnows(cfg: Settings, db: DB, used: set<Id>, clock: Time, missed: set<Skip>, u: Unit)
    requires ValidSettings(cfg) && WalletsOk(db) && u.Committing? && UnitOk(cfg, db, used, clock, missed, u)
    ensures Ready(DoorOf(u.job), cfg, u.account, u.op, u.reference, u.entryId, u.now)
    ensures Settle(DoorOf(u.job), cfg, u.account, u.op, u.reference, u.entryId, u.now) == Ok(u.effect)
    ensures u.op.command.walletId in db.wallets && db.wallets[u.op.command.walletId] == u.account
  {
    CommitterIsReady(cfg, db, used, clock, u);
  }

  lemma AtomicAgrees(cfg: Settings, db: DB, u: Unit)
    requires u.Committing? && u.op.command.walletId in db.wallets && db.wallets[u.op.command.walletId] == u.account
    requires Ready(DoorOf(u.job), cfg, u.account, u.op, u.reference, u.entryId, u.now)
    requires Settle(DoorOf(u.job), cfg, u.account, u.op, u.reference, u.entryId, u.now) == Ok(u.effect)
    requires Behind(u.op, u.reference, CommittedReference(db, u.op))
    ensures AtomicSettle(DoorOf(u.job), cfg, db, u.op, u.entryId, u.now) == Ok(u.effect)
            <==> !(u.effect.op.status == PendingReference && NamedGaveUp(db, u.op))
  {
    var now := CommittedReference(db, u.op);
    BehindDecidesAlike(u.account, u.op, u.reference, now, u.now);
    SettlementWaits(DoorOf(u.job), cfg, u.account, u.op, u.reference, u.entryId, u.now);
    DecisionIsSound(u.account, u.op, u.reference, u.now);
    if u.effect.op.status == PendingReference && NamedGaveUp(db, u.op) {
      FailedOriginalRefuses(u.account, u.op, now, u.now);
      RefusalIsNotWaiting(DoorOf(u.job), cfg, u.account, u.op, now, u.entryId, u.now);
    } else {
      SameDecisionSettlesAlike(DoorOf(u.job), cfg, u.account, u.op, u.reference, now, u.entryId, u.now);
    }
  }

  lemma SameDecisionSettlesAlike(door: Door, cfg: Settings, account: WalletState, op: Tx, a: Option<Reference>,
                                 b: Option<Reference>, entryId: Id, now: Time)
    requires Decide(account, op, a, now) == Decide(account, op, b, now)
    ensures Settle(door, cfg, account, op, a, entryId, now) == Settle(door, cfg, account, op, b, entryId, now)
  {
  }

  lemma FailedOriginalRefuses(account: WalletState, op: Tx, reference: Option<Reference>, now: Time)
    requires account.id == op.command.walletId && op.command.kind.Reversal()
    requires reference.Some? && reference.value.transaction.status == Failed
    ensures Decide(account, op, reference, now).Ok? && !Decide(account, op, reference, now).value.WaitReference?
  {
  }

  // ---- references anywhere ----

  /** How far an original has come: not there, not final, or final. */
  datatype Standing = Absent | Waiting | Final(status: Status)

  function StandingOf(reference: Option<Reference>): Standing {
    if reference.None? then Absent
    else if reference.value.transaction.status.Terminal() then Final(reference.value.transaction.status)
    else Waiting
  }

  /** Whatever wallet the original is on, its identity never changes and neither does a final state; an original that
      was not seen is on another wallet; and reversals on the own wallet are still counted right. */
  predicate Earlier(op: Tx, read: Option<Reference>, now: Option<Reference>) {
    && (read.Some? ==>
          && now.Some?
          && var (a, b) := (read.value.transaction, now.value.transaction);
             && a.id == b.id && a.command == b.command && a.status != UnknownStatus
             && (a.status.Terminal() ==> a.status == b.status)
             && (op.command.kind.Reversal() && a.command.walletId == op.command.walletId ==>
                   (read.value.alreadyReversed <==> now.value.alreadyReversed)))
    && (now.Some? ==> now.value.transaction.status != UnknownStatus)
    && (read.None? && now.Some? ==> now.value.transaction.command.walletId != op.command.walletId)
  }

  /** The standing of the original has not moved in a way that changes the answer. */
  predicate StillTheAnswer(account: WalletState, op: Tx, read: Option<Reference>, now: Option<Reference>, at: Time) {
    || !OwnWallet(account, op)
    || match op.command.kind
       case Win => op.command.referenceExternalId == Empty || (read.None? <==> now.None?)
       case Refund | Rollback =>
         || StandingOf(read) == StandingOf(now)
         || (if DeadlineReached(op, at) then
               StandingOf(read) == Waiting && (StandingOf(now) == Final(Rejected) || StandingOf(now) == Final(Failed))
             else !StandingOf(read).Final? && !StandingOf(now).Final?)
       case _ => true
  }

  lemma EarlierDecidesAlike(account: WalletState, op: Tx, read: Option<Reference>, now: Option<Reference>, at: Time)
    requires Earlier(op, read, now) && ValidWallet(account) && account.id == op.command.walletId
    requires Rehydrate(op).Ok? && op.command.kind != Opening
    ensures Decide(account, op, read, at) == Decide(account, op, now, at) <==> StillTheAnswer(account, op, read, now, at)
  {
  }

  /** Decisions that differ for an earlier reading differ in more than the reference they consume. */
  lemma EarlierProcessesAlike(account: WalletState, op: Tx, read: Option<Reference>, now: Option<Reference>, at: Time)
    requires Earlier(op, read, now) && ValidWallet(account) && account.id == op.command.walletId
    requires Rehydrate(op).Ok? && op.command.kind != Opening
    requires Decide(account, op, read, at).Ok? && Decide(account, op, read, at).value.Process?
    requires Decide(account, op, now, at).Ok? && Decide(account, op, now, at).value.Process?
    ensures Decide(account, op, read, at) == Decide(account, op, now, at)
  {
  }

  lemma ReadIsEarlier(cfg: Settings, db: DB, used: set<Id>, clock: Time, missed: set<Skip>, u: Unit)
    requires TxsOk(db, cfg) && KeysOk(db.txs)
    requires HasReference(u) && UnitOk(cfg, db, used, clock, missed, u)
    ensures Earlier(u.op, u.reference, CommittedReference(db, u.op))
    ensures ReferenceFits(u.op, CommittedReference(db, u.op))
  {
    hide TxsOk, KeysOk, Open, Current, Rehydrate, EffectOk, CommitOk, HasReversal, FindOriginal;
    OperationIsCurrent(cfg, db, used, clock, u);
    SelfOrCommitted(cfg, db, DoorOf(u.job), u.op);
    FoundOriginal(cfg, db, DoorOf(u.job), u.op);
    OpenIsKnown(DoorOf(u.job), u.op);
    var named := FindOriginal(db, u.op);
    if named.Some? {
      AcceptedIsKnown(named.value);
    }
    if u.reference.Some? {
      AcceptedIsKnown(u.reference.value.transaction);
    }
  }

  lemma OperationIsCurrent(cfg: Settings, db: DB, used: set<Id>, clock: Time, u: Unit)
    requires u.HasOp() && OperationOk(cfg, db, used, clock, u.job, u.now, u.op)
    ensures Open(DoorOf(u.job), u.op) && Current(db, DoorOf(u.job), u.op)
  {
  }

  lemma OpenIsKnown(door: Door, op: Tx)
    requires Open(door, op)
    ensures op.status != UnknownStatus && Rehydrate(op).Ok? && op.command.kind != Opening
  {
  }

  /** What is written tells the decisions apart. */
  lemma DifferentDecisionsShow(door: Door, cfg: Settings, account: WalletState, op: Tx, read: Option<Reference>,
                               now: Option<Reference>, entryId: Id, at: Time)
    requires Ready(door, cfg, account, op, read, entryId, at) && Ready(door, cfg, account, op, now, entryId, at)
    requires Earlier(op, read, now) && Decide(account, op, read, at) != Decide(account, op, now, at)
    requires Settle(door, cfg, account, op, read, entryId, at).Ok?
    ensures Settle(door, cfg, account, op, now, entryId, at) != Settle(door, cfg, account, op, read, entryId, at)
  {
    hide Settle, Decide, Earlier;
    SettlementFollowsDecision(door, cfg, account, op, read, entryId, at);
    SettlementFollowsDecision(door, cfg, account, op, now, entryId, at);
    OpenIsKnown(door, op);
    if Decide(account, op, read, at).value.Process? && Decide(account, op, now, at).value.Process? {
      EarlierProcessesAlike(account, op, read, now, at);
    }
  }

  lemma SettlesAlikeExactly(cfg: Settings, db: DB, u: Unit)
    requires u.Committing? && u.op.command.walletId in db.wallets && db.wallets[u.op.command.walletId] == u.account
    requires Ready(DoorOf(u.job), cfg, u.account, u.op, u.reference, u.entryId, u.now)
    requires Settle(DoorOf(u.job), cfg, u.account, u.op, u.reference, u.entryId, u.now) == Ok(u.effect)
    requires Earlier(u.op, u.reference, CommittedReference(db, u.op))
    requires ReferenceFits(u.op, CommittedReference(db, u.op))
    ensures AtomicSettle(DoorOf(u.job), cfg, db, u.op, u.entryId, u.now) == Ok(u.effect)
            <==> StillTheAnswer(u.account, u.op, u.reference, CommittedReference(db, u.op), u.now)
  {
    hide Settle, Decide, Earlier, StillTheAnswer, CommittedReference, Open;
    var now := CommittedReference(db, u.op);
    OpenIsKnown(DoorOf(u.job), u.op);
    EarlierDecidesAlike(u.account, u.op, u.reference, now, u.now);
    if Decide(u.account, u.op, u.reference, u.now) == Decide(u.account, u.op, now, u.now) {
      SameDecisionSettlesAlike(DoorOf(u.job), cfg, u.account, u.op, u.reference, now, u.entryId, u.now);
    } else {
      DifferentDecisionsShow(DoorOf(u.job), cfg, u.account, u.op, u.reference, now, u.entryId, u.now);
    }
  }

  /** Wherever the reference is: what a unit is about to commit is what one atomic settlement of the committed tables
      would write if and only if its original's standing has not moved, since the unit read it, in a way that changes
      the answer. */
  lemma CommitIsAtomicExactlyWhen(cfg: Settings, s: State, p: Pid)
    requires ValidSettings(cfg) && Reachable(cfg, s) && p in s.units && s.units[p].Committing?
    ensures var u := s.units[p];
            && u.op.command.walletId in s.db.wallets
            && (AtomicSettle(DoorOf(u.job), cfg, s.db, u.op, u.entryId, u.now) == Ok(u.effect)
                <==> StillTheAnswer(u.account, u.op, u.reference, CommittedReference(s.db, u.op), u.now))
  {
    hide Inv, Reachable, UnitOk, TxsOk, KeysOk, WalletsOk, DataInv, LockInv, UsedOk, AttemptsOk, WakesOk, LedgerOk, InboxOk,
         StillTheAnswer, CommittedReference;
    ReachableInv(cfg, s);
    InvParts(cfg, s);
    var u := s.units[p];
    ReadIsEarlier(cfg, s.db, s.used, s.clock, s.missed, u);
    CommitterKnows(cfg, s.db, s.used, s.clock, s.missed, u);
    SettlesAlikeExactly(cfg, s.db, u);
  }
}
