/** What holds in every reachable state of the settlement protocol. */
module Guarantees {
  import opened Values
  import opened Moneys
  import opened Ledgers
  import opened Wallets
  import opened Wagering
  import opened Settlements
  import opened Databases
  import opened Conservation
  import opened EventMirror
  import opened DataInvariants
  import opened TableWrites
  import opened Protocol
  import opened LockDiscipline
  import opened UnitKnowledge
  import opened ProtocolInvariant
  import opened UnitSteps
  import opened Interference
  import opened Commits
  import opened Safety

  lemma ReachableTables(cfg: Settings, s: State)
    requires ValidSettings(cfg) && Reachable(cfg, s)
    ensures WalletsOk(s.db) && LedgerOk(s.db) && TxsOk(s.db, cfg) && KeysOk(s.db.txs) && InboxOk(s.db)
    ensures MoneyInv(s.db) && EventsInv(s.db, cfg)
    ensures LockInv(s) && UnitsOk(cfg, s) && UsedOk(s) && AttemptsOk(cfg, s.db.txs) && WakesOk(s)
  {
    hide Inv, Reachable, DataInv, LockInv, UnitsOk, UsedOk, AttemptsOk, WakesOk, WalletsOk, LedgerOk, TxsOk, KeysOk,
         InboxOk, MoneyInv, EventsInv;
    ReachableInv(cfg, s);
    InvParts(cfg, s);
    TablesHold(cfg, s.db);
  }

  // ---- the write path ----

  lemma DeciderIsReady(cfg: Settings, db: DB, used: set<Id>, clock: Time, missed: set<Skip>, u: Unit, entryId: Id)
    requires ValidSettings(cfg) && WalletsOk(db) && entryId != NIL
    requires u.Deciding? && UnitOk(cfg, db, used, clock, missed, u)
    ensures Ready(DoorOf(u.job), cfg, u.account, u.op, u.reference, entryId, u.now)
    ensures u.account.id in db.wallets && db.wallets[u.account.id] == u.account
  {
  }

  lemma DecidingGoesOn(cfg: Settings, s: State, p: Pid, u: Unit, entryId: Id)
    requires u.Deciding? && Ready(DoorOf(u.job), cfg, u.account, u.op, u.reference, entryId, u.now)
    requires u.account.id in s.db.wallets && s.db.wallets[u.account.id] == u.account
    ensures var next := DecideStep(cfg, s, p, u, entryId).units[p];
            next.Waking? || next.Committing? <==>
              (Moves(u.account, u.op, u.reference, u.now) ==> u.account.version < MAX_INT64)
  {
    SettlementIsComplete(DoorOf(u.job), cfg, u.account, u.op, u.reference, entryId, u.now);
    hide Settle, Moves, Ready, EffectFollows;
  }

  /** In every interleaving the version guard of the wallet row always matches, and a settlement that has read its
      wallet and reference always reaches its commit, unless it moves money and the int64 version is exhausted. */
  lemma SettlementsNeverFail(cfg: Settings, s: State, p: Pid, entryId: Id)
    requires ValidSettings(cfg) && Reachable(cfg, s) && Enabled(s, DecideIt(p, entryId))
    ensures var u := s.units[p];
            && u.account.id in s.db.wallets && s.db.wallets[u.account.id] == u.account
            && var next := Step(cfg, s, DecideIt(p, entryId)).units[p];
               next.Waking? || next.Committing? <==>
                 (Moves(u.account, u.op, u.reference, u.now) ==> u.account.version < MAX_INT64)
  {
    hide Reachable, Settle, Moves, Ready, UnitOk, WalletsOk, LedgerOk, TxsOk, KeysOk, InboxOk, MoneyInv, EventsInv,
         LockInv, AttemptsOk, WakesOk;
    ReachableTables(cfg, s);
    DeciderIsReady(cfg, s.db, s.used, s.clock, s.missed, s.units[p], entryId);
    DecidingGoesOn(cfg, s, p, s.units[p], entryId);
  }

  /** And the guard is there: had the version of the row moved on, a settlement that moves money would not reach its
      commit. */
  lemma MovedVersionIsRefused(cfg: Settings, s: State, p: Pid, u: Unit, entryId: Id)
    requires u.Deciding? && Settle(DoorOf(u.job), cfg, u.account, u.op, u.reference, entryId, u.now).Ok?
    requires Settle(DoorOf(u.job), cfg, u.account, u.op, u.reference, entryId, u.now).value.entry.Some?
    requires u.account.id !in s.db.wallets || s.db.wallets[u.account.id].version != u.account.version
    ensures var next := DecideStep(cfg, s, p, u, entryId).units[p];
            next == Ended(u.job, Refused(WalletVersionChanged)) || next == GivingUp(u.job, u.op.id)
  {
    hide Settle;
  }

  /** A unit that holds its wallet holds the committed wallet, until it ends. */
  lemma LockedWalletIsCommitted(cfg: Settings, s: State, p: Pid)
    requires ValidSettings(cfg) && Reachable(cfg, s) && p in s.units && s.units[p].HasWallet()
    ensures var u := s.units[p];
            u.op.command.walletId in s.db.wallets && s.db.wallets[u.op.command.walletId] == u.account
  {
    ReachableInv(cfg, s);
    assert UnitOk(cfg, s.db, s.used, s.clock, s.missed, s.units[p]);
  }

  /** No committed row is PENDING, and Rehydrate accepts every one. */
  lemma CommittedRowsAreAccepted(cfg: Settings, s: State, t: Id)
    requires ValidSettings(cfg) && Reachable(cfg, s) && t in s.db.txs
    ensures s.db.txs[t].id == t && Rehydrate(s.db.txs[t]) == Ok(s.db.txs[t]) && s.db.txs[t].status != Pending
    ensures s.db.txs[t].command.walletId in s.db.wallets
  {
    hide Reachable, Rehydrate;
    ReachableTables(cfg, s);
    CommittedIsReadBefore(cfg, s.db, t);
    AcceptedIsItself(s.db.txs[t]);
  }

  lemma AcceptedIsItself(t: Tx)
    requires Rehydrate(t).Ok?
    ensures Rehydrate(t) == Ok(t)
  {
  }

  // ---- reversals ----

  /** REFUND and ROLLBACK together, every operation has at most one processed reversal, on the strength of the
      wallet lock, the round check and the reversal read alone. */
  lemma AtMostOneReversal(cfg: Settings, s: State, t: Id, r1: Id, r2: Id)
    requires ValidSettings(cfg) && Reachable(cfg, s)
    requires Reverses(s.db.txs, r1, t) && Reverses(s.db.txs, r2, t)
    ensures r1 == r2
  {
    hide Reachable, Reverses;
    ReachableTables(cfg, s);
  }

  /** A reversal chain is a rollback of a refund of a bet at the longest, and nothing reverses itself. */
  lemma ReversalChainsAreShort(cfg: Settings, s: State, a: Id, b: Id)
    requires ValidSettings(cfg) && Reachable(cfg, s) && Reverses(s.db.txs, a, b)
    ensures a != b && b in s.db.txs && s.db.txs[b].status == Processed
            && s.db.txs[b].command.walletId == s.db.txs[a].command.walletId
            && s.db.txs[b].command.amount == s.db.txs[a].command.amount
    ensures forall c :: Reverses(s.db.txs, b, c) ==>
              && s.db.txs[a].command.kind == Rollback && s.db.txs[b].command.kind == Refund
              && c in s.db.txs && s.db.txs[c].command.kind == Bet
    ensures (exists c :: Reverses(s.db.txs, b, c)) ==> forall d :: !Reverses(s.db.txs, d, a)
  {
    hide Reachable, WalletsOk, LedgerOk, TxsOk, KeysOk, InboxOk, EventsInv, LockInv, UnitsOk, AttemptsOk, WakesOk, UsedOk,
         EntriesOk, MovementsRecorded, Conserved, OneReversalEach, ReversalsOk;
    ReachableTables(cfg, s);
    ReversalLinks(s.db.txs, a, b);
  }

  lemma ReversalLinks(txs: map<Id, Tx>, a: Id, b: Id)
    requires ReversalsOk(txs) && Reverses(txs, a, b)
    ensures a != b && b in txs && txs[b].status == Processed
            && txs[b].command.walletId == txs[a].command.walletId && txs[b].command.amount == txs[a].command.amount
    ensures forall c :: Reverses(txs, b, c) ==>
              && txs[a].command.kind == Rollback && txs[b].command.kind == Refund
              && c in txs && txs[c].command.kind == Bet
    ensures (exists c :: Reverses(txs, b, c)) ==> forall d :: !Reverses(txs, d, a)
  {
    assert ReversalOk(txs, a) && ReversalOk(txs, b);
    forall d
      ensures Reverses(txs, d, a) ==> txs[a].command.kind != Rollback
    {
      assert d in txs ==> ReversalOk(txs, d);
    }
  }

  // ---- money ----

  /** Each ledger is a chain from zero to the balance, and reconciliation reports difference zero. */
  lemma LedgersAreChained(cfg: Settings, s: State, w: Id)
    requires ValidSettings(cfg) && Reachable(cfg, s) && w in s.db.wallets
    ensures var account := s.db.wallets[w];
            && w in s.db.ledger && 0 <= account.balance.minor <= MAX_INT64
            && Chain(s.db.ledger[w], w, account.balance, account.version)
            && Reconcile(account.balance, s.db.ledger[w])
               == Ok(ReconciliationReport(account.balance, account.balance, Money(0, account.balance.currency), true,
                                          |s.db.ledger[w]|))
  {
    hide Reachable, Reconcile;
    ReachableTables(cfg, s);
    hide TxsOk, KeysOk, InboxOk, MoneyInv, EventsInv, LockInv, UnitsOk, AttemptsOk, WakesOk;
    ChainReconciles(s.db.ledger[w], w, s.db.wallets[w].balance, s.db.wallets[w].version);
  }

  /** The entry of operation t, on the wallet of t. */
  predicate IsEntryOf(db: DB, t: Id, w: Id, i: int) {
    w in db.ledger && 0 <= i < |db.ledger[w]| && db.ledger[w][i].transactionId == t
  }

  /** An operation has an entry exactly when it is processed and moves money: one entry, on its wallet, for its
      amount, in its direction. */
  lemma OneEntryPerMovement(cfg: Settings, s: State, t: Id)
    requires ValidSettings(cfg) && Reachable(cfg, s) && t in s.db.txs
    ensures var op := s.db.txs[t];
            (exists w, i :: IsEntryOf(s.db, t, w, i)) <==> op.status == Processed && op.command.kind != Loss
    ensures forall w, i :: IsEntryOf(s.db, t, w, i) ==>
              && w == s.db.txs[t].command.walletId && s.db.ledger[w][i].amount == s.db.txs[t].command.amount
              && EntryOk(s.db.txs, s.db.ledger[w][i])
    ensures forall w, v, i, j :: IsEntryOf(s.db, t, w, i) && IsEntryOf(s.db, t, v, j) ==> w == v && i == j
  {
    hide Reachable, WalletsOk, LedgerOk, TxsOk, KeysOk, InboxOk, EventsInv, LockInv, UnitsOk, AttemptsOk, WakesOk, UsedOk,
         EntriesOk, MovementsRecorded, Conserved, OneReversalEach, ReversalsOk, IsEntryOf, EntryOk;
    ReachableTables(cfg, s);
    EntriesAreOfTheirOperation(s.db, t);
    EntriesAreUnique(s.db, t);
    if s.db.txs[t].status == Processed && s.db.txs[t].command.kind != Loss {
      MovementHasEntry(s.db, t);
    }
  }

  lemma EntriesAreOfTheirOperation(db: DB, t: Id)
    requires WalletsOk(db) && LedgerOk(db) && EntriesOk(db) && t in db.txs
    ensures forall w, i :: IsEntryOf(db, t, w, i) ==>
              && w == db.txs[t].command.walletId && db.ledger[w][i].amount == db.txs[t].command.amount
              && EntryOk(db.txs, db.ledger[w][i])
              && db.txs[t].status == Processed && db.txs[t].command.kind != Loss
  {
    hide Chained, ValidWallets;
    forall w, i | IsEntryOf(db, t, w, i)
      ensures w == db.txs[t].command.walletId && EntryOk(db.txs, db.ledger[w][i])
    {
      EntriesOfWallet(db, w);
    }
  }

  lemma EntriesAreUnique(db: DB, t: Id)
    requires WalletsOk(db) && LedgerOk(db) && EntriesOk(db) && t in db.txs
    ensures forall w, v, i, j :: IsEntryOf(db, t, w, i) && IsEntryOf(db, t, v, j) ==> w == v && i == j
  {
    hide EntryOk, WalletsOk, LedgerOk;
    EntriesAreOfTheirOperation(db, t);
  }

  lemma MovementHasEntry(db: DB, t: Id)
    requires MovementsRecorded(db) && t in db.txs && db.txs[t].status == Processed && db.txs[t].command.kind != Loss
    ensures exists w, i :: IsEntryOf(db, t, w, i)
  {
    var entries := db.ledger[db.txs[t].command.walletId];
    var i :| 0 <= i < |entries| && entries[i].transactionId == t;
    assert IsEntryOf(db, t, db.txs[t].command.walletId, i);
  }

  /** A balance is the opening amount plus the live wins minus the live bets of the wallet. */
  lemma BalancesAreConserved(cfg: Settings, s: State, w: Id)
    requires ValidSettings(cfg) && Reachable(cfg, s) && w in s.db.wallets
    ensures w in s.db.ledger && s.db.wallets[w].balance.minor == LiveSum(s.db.txs, s.db.ledger[w])
  {
    hide Reachable, LiveSum;
    ReachableTables(cfg, s);
  }

  // ---- events ----

  /** The outbox of a wallet: its balance events are its ledger entry for entry, the status events of every
      operation are those its history dictates, and there is nothing else. */
  lemma EventsMirrorTables(cfg: Settings, s: State, w: Id)
    requires ValidSettings(cfg) && Reachable(cfg, s) && w in s.db.wallets
    ensures w in s.db.outbox && w in s.db.ledger && AnnouncedEntries(s.db.outbox[w]) == s.db.ledger[w]
    ensures forall t :: t in s.db.txs && s.db.txs[t].command.walletId == w ==>
              StatusEvents(s.db.outbox[w], t) == Dictated(cfg, s.db.txs[t], t in s.db.parked)
    ensures forall i :: 0 <= i < |s.db.outbox[w]| ==>
              s.db.outbox[w][i].transactionId in s.db.txs
              && s.db.txs[s.db.outbox[w][i].transactionId].command.walletId == w
  {
    hide Reachable, AnnouncedEntries, StatusEvents, Dictated;
    ReachableTables(cfg, s);
    hide LedgerOk, TxsOk, KeysOk, InboxOk, MoneyInv, LockInv, UnitsOk, AttemptsOk, WakesOk;
  }

  // ---- waiting ----

  function CeilDiv(a: int, b: int): int
    requires b > 0
  {
    (a + b - 1) / b
  }

  lemma BelowCeil(k: int, b: int, a: int)
    requires b > 0 && (k - 1) * b < a
    ensures k <= CeilDiv(a, b)
  {
    var q := CeilDiv(a, b);
    assert a <= q * b;
    Cancel(k - 1, q, b);
  }

  lemma Cancel(x: int, y: int, b: int)
    requires b > 0 && x * b < y * b
    ensures x < y
  {
    assert (y - x) * b > 0;
  }

  /** Whatever the clocks do, an operation is postponed at most ceil((TTL - backoff) / base) times. */
  lemma PostponementsAreBounded(cfg: Settings, s: State, t: Id)
    requires ValidSettings(cfg) && Reachable(cfg, s) && t in s.db.txs
    ensures 0 <= s.db.txs[t].attempts <= CeilDiv(cfg.referenceTtl - cfg.referenceBackoff, cfg.backoffBase)
  {
    hide Reachable, WalletsOk, LedgerOk, TxsOk, KeysOk, InboxOk, MoneyInv, EventsInv, LockInv, UnitsOk, WakesOk,
         UsedOk, OriginalTerminal, CeilDiv;
    ReachableTables(cfg, s);
    assert AttemptOk(cfg, s.db.txs, t);
    var attempts := s.db.txs[t].attempts;
    if attempts >= 1 {
      BelowCeil(attempts, cfg.backoffBase, cfg.referenceTtl - cfg.referenceBackoff);
    } else {
      BelowCeil(1, cfg.backoffBase, cfg.referenceTtl - cfg.referenceBackoff);
    }
  }

  /** A parked row whose original was settled on its wallet is due by a clock already read; otherwise the wake-up of
      that very original skipped it, because the give-up path was holding it, and its next attempt is still the one it
      had then. */
  lemma WakeUpsAreNotLost(cfg: Settings, s: State, t: Id, o: Id)
    requires ValidSettings(cfg) && Reachable(cfg, s) && t in s.db.txs && s.db.txs[t].status == PendingReference
    requires o in s.db.txs && o != t && Names(s.db.txs[t], s.db.txs[o])
    requires SettledOn(s.db.txs[o], s.db.txs[t].command.walletId)
    ensures s.db.txs[t].nextAttemptAt <= s.clock || Skip(t, o, s.db.txs[t].nextAttemptAt) in s.missed
  {
    hide Reachable, Names;
    ReachableTables(cfg, s);
    RowsAreKeyed(cfg, s.db);
    assert s.db.txs[t].nextAttemptAt > s.clock ==> Overslept(s.db.txs, s.clock, t, o);
  }

  /** Exactly those: of the rows that wait for an operation and are not due by any clock, its wake-up takes the ones
      the give-up path does not hold. */
  lemma WakeUpTakesAllButGiveUps(cfg: Settings, s: State, p: Pid, t: Id)
    requires ValidSettings(cfg) && Reachable(cfg, s) && p in s.units && s.units[p].Waking?
    requires RowWaits(s.db, s.units[p].op, t) && s.db.txs[t].nextAttemptAt > s.clock
    ensures t in Awakened(s, s.units[p]) <==> !HeldByGiveUp(s, t)
    ensures var skip := Skip(t, s.units[p].op.id, s.db.txs[t].nextAttemptAt);
            skip in WakeStep(s, p, s.units[p]).missed <==> skip in s.missed || HeldByGiveUp(s, t)
  {
    hide Reachable, WalletsOk, LedgerOk, TxsOk, KeysOk, InboxOk, MoneyInv, EventsInv, LockInv, AttemptsOk, WakesOk, UsedOk,
         UnitOk;
    ReachableTables(cfg, s);
    var u := s.units[p];
    WakerKnowsTheTime(cfg, s, u);
    if RowKey(t) in s.locks {
      LockedRowIsDue(cfg, s, p, t);
    }
  }

  lemma WakerKnowsTheTime(cfg: Settings, s: State, u: Unit)
    requires u.Waking? && UnitOk(cfg, s.db, s.used, s.clock, s.missed, u)
    ensures 0 < u.now <= s.clock
  {
  }

  // ---- answers ----

  predicate SameRequest(a: Input, b: Input) {
    && a.request.providerId == b.request.providerId && a.request.idempotencyKey == b.request.idempotencyKey
    && FieldsOf(a.request) == FieldsOf(b.request)
  }

  predicate Got(s: State, p: Pid, answer: Answer) {
    p in s.units && s.units[p].Ended? && s.units[p].end == Answered(answer) && s.units[p].job.SubmitJob?
  }

  /** All successful answers for one provider, key and payload name one operation; final answers are equal. */
  lemma AnswersAgree(cfg: Settings, s: State, p: Pid, q: Pid, a: Answer, b: Answer)
    requires ValidSettings(cfg) && Reachable(cfg, s) && Got(s, p, a) && Got(s, q, b)
    requires SameRequest(s.units[p].job.input, s.units[q].job.input)
    ensures a.transactionId == b.transactionId && a.transactionId in s.db.txs
    ensures a.status.Terminal() && b.status.Terminal() ==>
              a.status == b.status && a.balance == b.balance && a.failureCode == b.failureCode
  {
    hide Reachable;
    ReachableTables(cfg, s);
    hide WalletsOk, LedgerOk, InboxOk, MoneyInv, EventsInv, LockInv, AttemptsOk, WakesOk;
    assert UnitOk(cfg, s.db, s.used, s.clock, s.missed, s.units[p]);
    assert UnitOk(cfg, s.db, s.used, s.clock, s.missed, s.units[q]);
    var t, u := s.db.txs[a.transactionId], s.db.txs[b.transactionId];
    assert HasKey(u, t.command.providerId, t.command.idempotencyKey);
  }

  /** An answer from the queue is backed by a committed, complete inbox row that names the operation it asked for. */
  lemma AnswersAreRecorded(cfg: Settings, s: State, p: Pid, a: Answer)
    requires ValidSettings(cfg) && Reachable(cfg, s) && Got(s, p, a) && FromQueue(s.units[p].job)
    ensures var m := s.units[p].job.input.message.value.id;
            && m in s.db.inbox && s.db.inbox[m].outcome != NoOutcome && s.db.inbox[m].transactionId == a.transactionId
            && a.transactionId in s.db.txs && AnswersInput(s.db.txs[a.transactionId], s.units[p].job.input)
  {
    ReachableInv(cfg, s);
    assert UnitOk(cfg, s.db, s.used, s.clock, s.missed, s.units[p]);
  }

  // ---- history ----

  lemma OpenStepEvolves(cfg: Settings, s: State, a: Action)
    requires UsedOk(s) && Enabled(s, a) && a.OpenNew?
    ensures Evolves(s.db, Step(cfg, s, a).db)
  {
    hide Enabled, Step, Evolves;
    OpenStepOpens(cfg, s, a);
    var plan := PlanOpening(a.id, a.playerId, a.initial, a.openingId, a.entryId, a.correlationId, a.now);
    OpeningEvolves(s.db, plan.value.0, plan.value.1, plan.value.2, plan.value.3);
  }

  /** No step of any process loses a row, changes the identity of an operation, changes a final operation, or
      changes a committed inbox row. */
  lemma HistoryIsKept(cfg: Settings, s: State, a: Action)
    requires ValidSettings(cfg) && Reachable(cfg, s) && Enabled(s, a)
    ensures Evolves(s.db, Step(cfg, s, a).db)
  {
    hide Reachable, Enabled, Step, Evolves, UnitOk, WalletsOk, LedgerOk, TxsOk, KeysOk, InboxOk, MoneyInv, EventsInv,
         LockInv, AttemptsOk, WakesOk, UsedOk;
    ReachableTables(cfg, s);
    EvolvesSelf(s.db);
    if a.Commit? {
      CommitStepIs(cfg, s, a.p, a.result);
      CommitEvolves(cfg, s.db, s.used, s.clock, s.missed, s.units[a.p]);
    } else if a.OpenNew? {
      OpenStepEvolves(cfg, s, a);
    } else {
      LocalStepFrame(cfg, s, a);
    }
  }

  lemma EvolvesSelf(db: DB)
    ensures Evolves(db, db)
  {
  }

  /** Every row of a provider carries the hash of its own business fields. */
  predicate HonestHashes(txs: map<Id, Tx>) {
    forall t :: t in txs && txs[t].command.kind != Opening ==>
      txs[t].command.payloadHash == Digest(FieldsOf(txs[t].command))
  }

  lemma SubmittedIsHonest(cfg: Settings, db: DB, used: set<Id>, clock: Time, missed: set<Skip>, u: Unit)
    requires u.HasOp() && UnitOk(cfg, db, used, clock, missed, u) && HonestHashes(db.txs)
    ensures u.op.command.payloadHash == Digest(FieldsOf(u.op.command))
  {
  }

  lemma RowsStayHonest(cfg: Settings, s: State, u: Unit, after: DB)
    requires HonestHashes(s.db.txs) && UnitOk(cfg, s.db, s.used, s.clock, s.missed, u)
    requires forall t :: t in after.txs ==> RowChange(s.db, after, u, s.clock, t)
    ensures HonestHashes(after.txs)
  {
    hide UnitOk;
    forall t | t in after.txs && after.txs[t].command.kind != Opening
      ensures after.txs[t].command.payloadHash == Digest(FieldsOf(after.txs[t].command))
    {
      assert RowChange(s.db, after, u, s.clock, t);
      if u.Committing? {
        SubmittedIsHonest(cfg, s.db, s.used, s.clock, s.missed, u);
      }
    }
  }

  lemma OpeningStaysHonest(s: State, after: State, account: WalletState, entry: Option<LedgerEntry>, opening: Tx,
                           events: seq<Event>)
    requires HonestHashes(s.db.txs) && Opens(s, after, account, entry, opening, events)
    ensures HonestHashes(after.db.txs)
  {
  }

  lemma StepKeepsHonest(cfg: Settings, s: State, a: Action)
    requires ValidSettings(cfg) && Reachable(cfg, s) && Enabled(s, a) && HonestHashes(s.db.txs)
    ensures HonestHashes(Step(cfg, s, a).db.txs)
  {
    hide Reachable, Enabled, Step, UnitOk, WalletsOk, LedgerOk, TxsOk, KeysOk, InboxOk, MoneyInv, EventsInv, LockInv,
         AttemptsOk, WakesOk, UsedOk, HonestHashes, RowChange, Applied, Opens;
    ReachableTables(cfg, s);
    if a.Commit? {
      CommitStepIs(cfg, s, a.p, a.result);
      var u := s.units[a.p];
      var after := Applied(s.db, u);
      forall t | t in after.txs
        ensures RowChange(s.db, after, u, s.clock, t)
      {
        CommitChangesRow(cfg, s.db, s.used, s.clock, s.missed, u, t);
      }
      RowsStayHonest(cfg, s, u, after);
    } else if a.OpenNew? {
      OpenStepOpens(cfg, s, a);
      var plan := PlanOpening(a.id, a.playerId, a.initial, a.openingId, a.entryId, a.correlationId, a.now);
      OpeningStaysHonest(s, Step(cfg, s, a), plan.value.0, plan.value.1, plan.value.2, plan.value.3);
    } else {
      LocalStepFrame(cfg, s, a);
    }
  }

  lemma {:induction false} RunKeepsHonest(cfg: Settings, states: seq<State>, actions: seq<Action>, i: nat)
    requires ValidSettings(cfg) && Run(cfg, states, actions) && i < |states|
    ensures HonestHashes(states[i].db.txs)
  {
    hide Reachable, Enabled, Step;
    if i > 0 {
      RunKeepsHonest(cfg, states, actions, i - 1);
      RunReaches(cfg, states, actions, i - 1);
      assert Follows(cfg, states[i - 1], actions[i - 1], states[i]);
      StepKeepsHonest(cfg, states[i - 1], actions[i - 1]);
    }
  }

  /** In every reachable state a row of a provider carries the hash of its own business fields. */
  lemma HashesAreHonest(cfg: Settings, s: State)
    requires ValidSettings(cfg) && Reachable(cfg, s)
    ensures HonestHashes(s.db.txs)
  {
    hide Step, Enabled, HonestHashes;
    var states, actions :| Run(cfg, states, actions) && s == states[|states| - 1];
    RunKeepsHonest(cfg, states, actions, |states| - 1);
  }

  /** No chain of waiting processes closes into a cycle. */
  lemma NoDeadlock(cfg: Settings, s: State, ps: seq<Pid>)
    requires ValidSettings(cfg) && Reachable(cfg, s) && |ps| > 1 && WaitChain(s, ps)
    ensures ps[|ps| - 1] != ps[0]
  {
    hide Reachable, WaitChain, LockInv;
    ReachableTables(cfg, s);
    NoWaitCycle(s, ps);
  }
}
