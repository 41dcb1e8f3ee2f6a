/** What a caller is told: where a submission goes when it meets the keys, and that its answer is the row it names. */
module Replies {
  import opened Values
  import opened Wagering
  import opened Settlements
  import opened Databases
  import opened DataInvariants
  import opened Protocol
  import opened LockDiscipline
  import opened UnitKnowledge
  import opened ProtocolInvariant
  import opened UnitSteps
  import opened Commits
  import opened CommitEffects
  import opened Safety
  import opened Guarantees
  import opened Duplicates
  import opened Erasure

  /** The nine business fields two requests have in common. */
  predicate SameFields(a: Command, b: Command) {
    && a.providerId == b.providerId && a.externalId == b.externalId && a.playerId == b.playerId
    && a.walletId == b.walletId && a.roundId == b.roundId && a.gameId == b.gameId && a.kind == b.kind
    && a.amount == b.amount && a.referenceExternalId == b.referenceExternalId
  }

  /** The row is under the provider and the idempotency key of the request. */
  predicate UnderKey(t: Tx, c: Command) {
    t.command.kind != Opening && t.command.providerId == c.providerId && t.command.idempotencyKey == c.idempotencyKey
  }

  /** The row is under the provider and the external id of the request. */
  predicate UnderExternalId(t: Tx, c: Command) {
    t.command.kind != Opening && t.command.providerId == c.providerId && t.command.externalId == c.externalId
  }

  /** What WagerResult copies from a row. */
  predicate Reports(a: Answer, t: Tx) {
    a.transactionId == t.id && a.status == t.status && a.balance == t.resultBalance && a.failureCode == t.failureCode
  }

  // ---- where a submission goes ----

  lemma HashTellsFields(txs: map<Id, Tx>, t: Id, input: Input)
    requires HonestHashes(txs) && t in txs && txs[t].command.kind != Opening
    ensures txs[t].command.payloadHash == CommandOf(input).payloadHash <==> SameFields(txs[t].command, input.request)
  {
  }

  lemma FoundIsTheRow(txs: map<Id, Tx>, c: Command, t: Id)
    requires KeysOk(txs) && t in txs
    ensures UnderKey(txs[t], c) ==> FindByKey(txs, c.providerId, c.idempotencyKey) == Some(txs[t])
    ensures UnderExternalId(txs[t], c) ==> FindByExternalId(txs, c.providerId, c.externalId) == Some(txs[t])
    ensures UnderKey(txs[t], c) <==> HasKey(txs[t], c.providerId, c.idempotencyKey)
    ensures UnderExternalId(txs[t], c) <==> HasExternalId(txs[t], c.providerId, c.externalId)
  {
    FoundByKey(txs, c.providerId, c.idempotencyKey);
    FoundByExternalId(txs, c.providerId, c.externalId);
  }

  lemma ReplayedByKey(db: DB, u: Unit, t: Id)
    requires u.Inserting? && u.job.SubmitJob? && KeysOk(db.txs) && HonestHashes(db.txs) && t in db.txs
    requires db.txs[t].id == t && UnderKey(db.txs[t], u.job.input.request)
    ensures ReplayUnit(db, u) == if SameFields(db.txs[t].command, u.job.input.request) then Replaying(u.job, db.txs[t])
                                 else Ended(u.job, Refused(IdempotencyKeyConflict(t)))
  {
    hide KeysOk, HonestHashes, FindByKey, FindByExternalId, SameFields;
    FoundIsTheRow(db.txs, u.job.input.request, t);
    HashTellsFields(db.txs, t, u.job.input);
  }

  lemma ReplayedByExternalId(db: DB, u: Unit, t: Id)
    requires u.Inserting? && u.job.SubmitJob? && KeysOk(db.txs) && t in db.txs && db.txs[t].id == t
    requires UnderExternalId(db.txs[t], u.job.input.request)
    requires forall k :: k in db.txs ==> !UnderKey(db.txs[k], u.job.input.request)
    ensures ReplayUnit(db, u) == Ended(u.job, Refused(ExternalIdConflict(t)))
  {
    var c := u.job.input.request;
    FoundIsTheRow(db.txs, c, t);
    FoundByKey(db.txs, c.providerId, c.idempotencyKey);
    assert forall k :: k in db.txs && HasKey(db.txs[k], c.providerId, c.idempotencyKey) ==> UnderKey(db.txs[k], c);
  }

  lemma FreeKeys(txs: map<Id, Tx>, op: Tx)
    ensures KeysFree(txs, op) <==>
              forall t :: t in txs ==> !UnderKey(txs[t], op.command) && !UnderExternalId(txs[t], op.command)
  {
  }

  lemma BornFromRequest(input: Input, id: Id, now: Time)
    requires NewExternal(CommandOf(input), id, now).Ok?
    ensures var op := NewExternal(CommandOf(input), id, now).value;
            op.command == CommandOf(input) && op.id == id
            && op.command.providerId == input.request.providerId
            && op.command.idempotencyKey == input.request.idempotencyKey
            && op.command.externalId == input.request.externalId && op.command.walletId == input.request.walletId
  {
  }

  /** Where the insert of a submission leads, in every reachable state: a row under its key is replayed when all nine
      fields agree and is a conflict otherwise; then a row under its external id is a conflict; then the wallet has to
      exist; and only a new operation under free keys goes on to the wallet lock. */
  lemma InsertionIsDecidedByKeys(cfg: Settings, s: State, p: Pid, id: Id)
    requires ValidSettings(cfg) && Reachable(cfg, s) && Enabled(s, Insert(p, id))
    ensures var u := s.units[p];
            var c := u.job.input.request;
            var next := Step(cfg, s, Insert(p, id)).units[p];
            match NewExternal(CommandOf(u.job.input), id, u.now)
            case Err(e) => next == Ended(u.job, Refused(e))
            case Ok(op) =>
              && (forall t :: t in s.db.txs && UnderKey(s.db.txs[t], c) ==>
                    next == if SameFields(s.db.txs[t].command, c) then Replaying(u.job, s.db.txs[t])
                            else Ended(u.job, Refused(IdempotencyKeyConflict(t))))
              && ((forall t :: t in s.db.txs ==> !UnderKey(s.db.txs[t], c)) ==>
                    && (forall t :: t in s.db.txs && UnderExternalId(s.db.txs[t], c) ==>
                          next == Ended(u.job, Refused(ExternalIdConflict(t))))
                    && ((forall t :: t in s.db.txs ==> !UnderExternalId(s.db.txs[t], c)) ==>
                          next == if c.walletId in s.db.wallets then Locking(u.job, u.now, op)
                                  else Ended(u.job, Refused(WalletNotFound))))
  {
    hide Reachable, NewExternal, ReplayUnit, WalletsOk, LedgerOk, TxsOk, InboxOk, MoneyInv, EventsInv, LockInv, UnitsOk,
         AttemptsOk, WakesOk, UsedOk, KeysOk, HonestHashes, KeysFree, SameFields, UnderKey, UnderExternalId;
    ReachableTables(cfg, s);
    HashesAreHonest(cfg, s);
    RowsAreKeyed(cfg, s.db);
    var u := s.units[p];
    var c := u.job.input.request;
    if NewExternal(CommandOf(u.job.input), id, u.now).Ok? {
      BornFromRequest(u.job.input, id, u.now);
      AdmittedByKeys(s.db, NewExternal(CommandOf(u.job.input), id, u.now).value, c);
      forall t | t in s.db.txs && UnderKey(s.db.txs[t], c)
        ensures ReplayUnit(s.db, u) == if SameFields(s.db.txs[t].command, c) then Replaying(u.job, s.db.txs[t])
                                       else Ended(u.job, Refused(IdempotencyKeyConflict(t)))
      {
        ReplayedByKey(s.db, u, t);
      }
      if forall k :: k in s.db.txs ==> !UnderKey(s.db.txs[k], c) {
        forall t | t in s.db.txs && UnderExternalId(s.db.txs[t], c)
          ensures ReplayUnit(s.db, u) == Ended(u.job, Refused(ExternalIdConflict(t)))
        {
          ReplayedByExternalId(s.db, u, t);
        }
      }
    }
  }

  lemma AdmittedByKeys(db: DB, op: Tx, c: Command)
    requires op.command.providerId == c.providerId && op.command.idempotencyKey == c.idempotencyKey
    requires op.command.externalId == c.externalId
    ensures KeysFree(db.txs, op) <==>
              forall t :: t in db.txs ==> !UnderKey(db.txs[t], c) && !UnderExternalId(db.txs[t], c)
  {
    FreeKeys(db.txs, op);
  }

  /** Where the registration of a message leads: a message id seen with another body is a mismatch, one seen with this
      body is answered from the operation its row names, and only a new one goes on to the insert. The two transient
      branches of the code, an incomplete row and a missing operation, are never taken. */
  lemma RegistrationIsDecidedByTheInbox(cfg: Settings, s: State, p: Pid)
    requires ValidSettings(cfg) && Reachable(cfg, s) && Enabled(s, Register(p))
    ensures var u := s.units[p];
            var m := u.job.input.message.value;
            var next := Step(cfg, s, Register(p)).units[p];
            if m.id !in s.db.inbox then next == Inserting(u.job, u.now)
            else if s.db.inbox[m.id].bodyHash != m.bodyHash then next == Ended(u.job, Refused(PayloadMismatch))
            else s.db.inbox[m.id].transactionId in s.db.txs
                 && next == Answering(u.job, s.db.txs[s.db.inbox[m.id].transactionId])
  {
    hide Reachable;
    ReachableTables(cfg, s);
    hide WalletsOk, LedgerOk, TxsOk, KeysOk, MoneyInv, EventsInv, LockInv, UnitsOk, AttemptsOk, WakesOk, UsedOk;
  }

  // ---- an answer is the row it names ----

  lemma ReplyIsTheRow(cfg: Settings, db: DB, used: set<Id>, clock: Time, missed: set<Skip>, u: Unit)
    requires ValidSettings(cfg) && WalletsOk(db) && UnitOk(cfg, db, used, clock, missed, u)
    requires u.Committing? && u.job.SubmitJob?
    ensures u.effect.account.id in db.ledger && u.effect.account.id in db.outbox && u.op.id !in db.txs
    ensures Reply(u).Answered? && var a := Reply(u).answer; var after := Applied(db, u);
            && a.transactionId in after.txs && Reports(a, after.txs[a.transactionId]) && !a.replay
            && a.transactionId == u.op.id
            && (FromQueue(u.job) ==>
                  var m := u.job.input.message.value.id;
                  m in after.inbox && after.inbox[m].transactionId == a.transactionId
                  && after.inbox[m].outcome == match a.status
                                               case Rejected => OutcomeRejected
                                               case PendingReference => OutcomePendingReference
                                               case _ => OutcomeProcessed)
  {
    CommitterIsCommittable(cfg, db, used, clock, missed, u);
    EffectStatus(cfg, db, used, clock, missed, u);
    CommitWrites(db, u);
    hide EffectFollows, ReferenceHolds, ReferenceOk, Settle;
  }

  lemma ReplayIsTheRow(cfg: Settings, db: DB, used: set<Id>, clock: Time, missed: set<Skip>, u: Unit)
    requires UnitOk(cfg, db, used, clock, missed, u) && (u.Replaying? || u.Answering?)
    ensures u.existing.id in db.txs && u.job.SubmitJob?
    ensures Reply(u).Answered? && var a := Reply(u).answer; var after := Applied(db, u);
            && Reports(a, u.existing) && a.replay && after.txs == db.txs
            && (FromQueue(u.job) && u.Replaying? ==>
                  var m := u.job.input.message.value.id;
                  m in after.inbox && after.inbox[m].transactionId == a.transactionId
                  && after.inbox[m].outcome == OutcomeReplay)
            && (FromQueue(u.job) && u.Answering? ==> after.inbox == db.inbox)
  {
  }

  /** A confirmed commit of a submission answers what it committed: the first answer for an operation carries the
      status, the balance and the failure code of the row the commit adds, and is no replay; a repeated answer carries
      those of the row it read, and is one. The inbox row it completes tells the same outcome. */
  lemma ConfirmedAnswersAreTheRow(cfg: Settings, s: State, p: Pid)
    requires ValidSettings(cfg) && Reachable(cfg, s) && Enabled(s, Commit(p, Confirmed)) && s.units[p].job.SubmitJob?
    ensures var u := s.units[p];
            var next := Step(cfg, s, Commit(p, Confirmed));
            && next.units[p].Ended? && next.units[p].end.Answered?
            && var a := next.units[p].end.answer;
               && a.transactionId in next.db.txs
               && (a.replay <==> a.transactionId in s.db.txs) && (a.replay <==> !u.Committing?)
               && Reports(a, if u.Committing? then next.db.txs[a.transactionId] else u.existing)
               && (FromQueue(u.job) && !u.Answering? ==>
                     var m := u.job.input.message.value.id;
                     m in next.db.inbox && next.db.inbox[m].transactionId == a.transactionId
                     && next.db.inbox[m].outcome == if a.replay then OutcomeReplay
                                                    else match a.status
                                                         case Rejected => OutcomeRejected
                                                         case PendingReference => OutcomePendingReference
                                                         case _ => OutcomeProcessed)
  {
    hide Reachable, Enabled, Step, UnitOk, WalletsOk, LedgerOk, TxsOk, KeysOk, InboxOk, MoneyInv, EventsInv, LockInv,
         AttemptsOk, WakesOk, UsedOk, Applied, Reply;
    ReachableTables(cfg, s);
    CommitStepIs(cfg, s, p, Confirmed);
    UnitKnows(cfg, s, p);
    var u := s.units[p];
    if u.Committing? {
      ReplyIsTheRow(cfg, s.db, s.used, s.clock, s.missed, u);
    } else if u.Failing? {
      OnlyWorkersFail(cfg, s.db, s.used, s.clock, s.missed, u);
    } else {
      ReplayIsTheRow(cfg, s.db, s.used, s.clock, s.missed, u);
    }
  }

  lemma OnlyWorkersFail(cfg: Settings, db: DB, used: set<Id>, clock: Time, missed: set<Skip>, u: Unit)
    requires u.Failing? && UnitOk(cfg, db, used, clock, missed, u)
    ensures u.job.RetryJob?
  {
  }

  // ---- after a failure ----

  /** An abort takes nothing with it but the locks: the tables stay as they are, and the process gives up on a row exactly
      when it is the worker, holds the row, and the error is none of the four that another round can fix; in every other
      case the error ends it. */
  lemma AbortGivesUpExactlyWhen(cfg: Settings, s: State, p: Pid, e: Error)
    requires Enabled(s, Abort(p, e))
    ensures var u := s.units[p];
            var after := Step(cfg, s, Abort(p, e));
            && after.db == s.db && after.used == s.used && after.clock == s.clock && after.missed == s.missed
            && (forall r :: r in after.locks <==> r in s.locks && s.locks[r] != p)
            && (after.units[p].GivingUp? <==>
                  u.job.RetryJob? && u.HasOp() && e !in {Transient, LockTimeout, CommitOutcomeUnknown, Cancelled})
            && (after.units[p].GivingUp? ==> after.units[p] == GivingUp(u.job, u.op.id))
            && (!after.units[p].GivingUp? ==> after.units[p] == Ended(u.job, Refused(e)))
  {
    hide Settle;
  }

  /** A transaction run again starts over: a submission from its clock, the worker from its claim under the clock it read,
      and a give-up from its row. */
  lemma RestartStartsOver(cfg: Settings, s: State, p: Pid)
    requires Enabled(s, Restart(p))
    ensures var u := s.units[p];
            var after := Step(cfg, s, Restart(p));
            && after.db == s.db && after.used == s.used && after.clock == s.clock && after.missed == s.missed
            && (forall r :: r in after.locks <==> r in s.locks && s.locks[r] != p)
            && (u.job.SubmitJob? && !u.GivingUp? && !u.Failing? ==> after.units[p] == Idle(u.job))
            && (u.job.RetryJob? && u.HasOp() ==> after.units[p] == Claiming(u.job, u.now))
            && (u.GivingUp? || u.Failing? ==> after.units[p] == GivingUp(u.job, u.target))
  {
    hide Settle;
  }

  // ---- over a run ----

  /** The state at some moment up to i held exactly this row. */
  ghost predicate WasCommitted(states: seq<State>, i: int, t: Tx) {
    exists j :: 0 <= j <= i && j < |states| && t.id in states[j].db.txs && states[j].db.txs[t.id] == t
  }

  predicate Repeating(s: State, p: Pid, existing: Tx) {
    p in s.units && (s.units[p].Replaying? || s.units[p].Answering?) && s.units[p].existing == existing
  }

  lemma OnlyLookupsRepeat(cfg: Settings, s: State, a: Action, p: Pid, existing: Tx)
    requires Enabled(s, a) && Repeating(Step(cfg, s, a), p, existing) && !Repeating(s, p, existing)
    ensures (a.Register? || a.Insert?) && a.p == p
  {
    hide Settle, NewExternal, FindByKey, FindByExternalId, FindOriginal, HasReversal, KeysFree, Awakened, HeldByGiveUp,
         Applied;
  }

  lemma RegistrationReads(cfg: Settings, s: State, p: Pid, existing: Tx)
    requires RowsOk(s.db.wallets, s.db.txs, cfg) && Enabled(s, Register(p))
    requires Repeating(Step(cfg, s, Register(p)), p, existing)
    ensures existing.id in s.db.txs && s.db.txs[existing.id] == existing
  {
  }

  lemma InsertionReads(cfg: Settings, s: State, p: Pid, id: Id, existing: Tx)
    requires RowsOk(s.db.wallets, s.db.txs, cfg) && Enabled(s, Insert(p, id))
    requires Repeating(Step(cfg, s, Insert(p, id)), p, existing)
    ensures existing.id in s.db.txs && s.db.txs[existing.id] == existing
  {
    hide FindByKey, FindByExternalId, NewExternal, KeysFree, TxOk;
    var c := CommandOf(s.units[p].job.input);
    FoundByKey(s.db.txs, c.providerId, c.idempotencyKey);
  }

  lemma StepReads(cfg: Settings, s: State, a: Action, p: Pid, existing: Tx)
    requires ValidSettings(cfg) && Reachable(cfg, s) && Enabled(s, a)
    requires Repeating(Step(cfg, s, a), p, existing) && !Repeating(s, p, existing)
    ensures existing.id in s.db.txs && s.db.txs[existing.id] == existing
  {
    hide Reachable, Enabled, Step, Repeating, RowsOk;
    ReachableTables(cfg, s);
    OnlyLookupsRepeat(cfg, s, a, p, existing);
    hide WalletsOk, LedgerOk, KeysOk, InboxOk, MoneyInv, EventsInv, LockInv, UnitsOk, AttemptsOk, WakesOk, UsedOk;
    if a.Register? {
      RegistrationReads(cfg, s, p, existing);
    } else {
      InsertionReads(cfg, s, p, a.id, existing);
    }
  }

  lemma {:induction false} RepeatsWereRead(cfg: Settings, states: seq<State>, actions: seq<Action>, i: nat, p: Pid,
                                            existing: Tx)
    requires ValidSettings(cfg) && Run(cfg, states, actions) && i < |states| && Repeating(states[i], p, existing)
    ensures WasCommitted(states, i, existing)
  {
    hide Step, Enabled, Reachable;
    if i > 0 {
      assert Follows(cfg, states[i - 1], actions[i - 1], states[i]);
      if Repeating(states[i - 1], p, existing) {
        RepeatsWereRead(cfg, states, actions, i - 1, p, existing);
      } else {
        RunReaches(cfg, states, actions, i - 1);
        StepReads(cfg, states[i - 1], actions[i - 1], p, existing);
      }
    }
  }

  lemma OnlyCommitsAnswer(cfg: Settings, s: State, act: Action, p: Pid, a: Answer)
    requires Enabled(s, act) && Got(Step(cfg, s, act), p, a) && !Got(s, p, a)
    ensures act == Commit(p, Confirmed) && p in s.units && s.units[p].job.SubmitJob?
  {
    hide Settle, NewExternal, FindByKey, FindByExternalId, FindOriginal, HasReversal, KeysFree, Awakened, HeldByGiveUp,
         Applied;
  }

  /** The step that gave the answer. */
  ghost predicate GivenAt(cfg: Settings, states: seq<State>, actions: seq<Action>, k: int, p: Pid, a: Answer) {
    0 <= k < |actions| && k + 1 < |states| && actions[k] == Commit(p, Confirmed) && p in states[k].units
    && states[k].units[p].job.SubmitJob? && Got(states[k + 1], p, a)
  }

  lemma {:induction false} AnswersAreGiven(cfg: Settings, states: seq<State>, actions: seq<Action>, i: nat, p: Pid,
                                            a: Answer) returns (k: nat)
    requires Run(cfg, states, actions) && i < |states| && Got(states[i], p, a)
    ensures k < i && GivenAt(cfg, states, actions, k, p, a)
  {
    hide Step, Enabled;
    assert i > 0;
    assert Follows(cfg, states[i - 1], actions[i - 1], states[i]);
    if Got(states[i - 1], p, a) {
      k := AnswersAreGiven(cfg, states, actions, i - 1, p, a);
    } else {
      OnlyCommitsAnswer(cfg, states[i - 1], actions[i - 1], p, a);
      k := i - 1;
    }
  }

  /** A settlement of this process took effect at step k. */
  predicate SettledAt(states: seq<State>, actions: seq<Action>, k: int, p: Pid) {
    0 <= k < |actions| && k < |states| && Settles(states[k], actions[k]) && actions[k].p == p
  }

  lemma SettlementEnds(cfg: Settings, states: seq<State>, actions: seq<Action>, k: int, p: Pid)
    requires Run(cfg, states, actions) && SettledAt(states, actions, k, p)
    ensures p in states[k + 1].units && states[k + 1].units[p].Ended? && states[k].units[p].Committing?
  {
    hide Settle, Applied, Reply;
    assert Follows(cfg, states[k], actions[k], states[k + 1]);
  }

  lemma RepeatersNeverSettle(cfg: Settings, states: seq<State>, actions: seq<Action>, k: nat, m: int, p: Pid)
    requires Run(cfg, states, actions) && k + 1 < |states| && p in states[k].units && p in states[k + 1].units
    requires !states[k].units[p].Ended? && !states[k].units[p].Committing? && states[k + 1].units[p].Ended?
    ensures !SettledAt(states, actions, m, p)
  {
    hide Step, Enabled, Settles;
    if SettledAt(states, actions, m, p) {
      SettlementEnds(cfg, states, actions, m, p);
      if m < k {
        RunKeepsEnded(cfg, states, actions, m + 1, k, p);
      } else if k < m {
        RunKeepsEnded(cfg, states, actions, k + 1, m, p);
      }
    }
  }

  lemma FinishersAreNotEnded(s: State, p: Pid, result: CommitResult)
    requires Enabled(s, Commit(p, result))
    ensures p in s.units && !s.units[p].Ended?
    ensures !s.units[p].Committing? && !s.units[p].Failing? ==> s.units[p].Replaying? || s.units[p].Answering?
  {
  }

  lemma UnitKnows(cfg: Settings, s: State, p: Pid)
    requires ValidSettings(cfg) && Reachable(cfg, s) && p in s.units
    ensures UnitOk(cfg, s.db, s.used, s.clock, s.missed, s.units[p])
  {
    hide Reachable, UnitOk, WalletsOk, LedgerOk, TxsOk, KeysOk, InboxOk, MoneyInv, EventsInv, LockInv, AttemptsOk, WakesOk,
         UsedOk;
    ReachableTables(cfg, s);
  }

  lemma AnswerIsFor(cfg: Settings, s: State, p: Pid, a: Answer)
    requires ValidSettings(cfg) && Reachable(cfg, s) && Got(s, p, a)
    ensures a.transactionId in s.db.txs
    ensures UnderKey(s.db.txs[a.transactionId], s.units[p].job.input.request)
            && SameFields(s.db.txs[a.transactionId].command, s.units[p].job.input.request)
  {
    hide Reachable, SameFields, HonestHashes;
    HashesAreHonest(cfg, s);
    UnitKnows(cfg, s, p);
    HashTellsFields(s.db.txs, a.transactionId, s.units[p].job.input);
  }

  /** Every answer ever given was true: at some moment of the run the tables held a row with exactly its status,
      balance and failure code, and the operation it names is the one the request describes in all its fields. An
      answer says that it is no replay exactly when the process itself settled the operation. */
  lemma AnswersWereTrue(cfg: Settings, states: seq<State>, actions: seq<Action>, i: nat, p: Pid, a: Answer)
    requires ValidSettings(cfg) && Run(cfg, states, actions) && i < |states| && Got(states[i], p, a)
    ensures exists t :: WasCommitted(states, i, t) && Reports(a, t)
    ensures a.transactionId in states[i].db.txs
            && UnderKey(states[i].db.txs[a.transactionId], states[i].units[p].job.input.request)
            && SameFields(states[i].db.txs[a.transactionId].command, states[i].units[p].job.input.request)
    ensures !a.replay <==> exists k :: k < i && SettledAt(states, actions, k, p)
  {
    hide Step, Enabled, Reachable, SameFields, UnderKey;
    RunReaches(cfg, states, actions, i);
    AnswerIsFor(cfg, states[i], p, a);
    var k := AnswersAreGiven(cfg, states, actions, i, p, a);
    assert Follows(cfg, states[k], actions[k], states[k + 1]);
    RunReaches(cfg, states, actions, k);
    ConfirmedAnswersAreTheRow(cfg, states[k], p);
    FinishersAreNotEnded(states[k], p, Confirmed);
    var u := states[k].units[p];
    if u.Committing? {
      var t := states[k + 1].db.txs[a.transactionId];
      assert WasCommitted(states, i, t) && Reports(a, t);
      assert SettledAt(states, actions, k, p);
    } else {
      NotFailing(cfg, states[k], p);
      assert Repeating(states[k], p, u.existing);
      RepeatsWereRead(cfg, states, actions, k, p, u.existing);
      assert WasCommitted(states, i, u.existing) && Reports(a, u.existing);
      forall m: int
        ensures !SettledAt(states, actions, m, p)
      {
        RepeatersNeverSettle(cfg, states, actions, k, m, p);
      }
    }
  }

  lemma NotFailing(cfg: Settings, s: State, p: Pid)
    requires ValidSettings(cfg) && Reachable(cfg, s) && p in s.units && s.units[p].job.SubmitJob?
    ensures !s.units[p].Failing?
  {
    hide Reachable;
    UnitKnows(cfg, s, p);
  }

  /** Of all the answers ever given for one provider and key, at most one says that it is no replay. */
  lemma OneFirstAnswer(cfg: Settings, states: seq<State>, actions: seq<Action>, i: nat, p: Pid, q: Pid, a: Answer,
                       b: Answer)
    requires ValidSettings(cfg) && Run(cfg, states, actions) && i < |states|
    requires Got(states[i], p, a) && Got(states[i], q, b) && !a.replay && !b.replay
    requires var c, d := states[i].units[p].job.input.request, states[i].units[q].job.input.request;
             c.providerId == d.providerId && c.idempotencyKey == d.idempotencyKey
    ensures p == q
  {
    hide Step, Enabled, Reachable, SameFields, UnderKey, SettlesKey, Reports, WasCommitted;
    AnswersWereTrue(cfg, states, actions, i, p, a);
    AnswersWereTrue(cfg, states, actions, i, q, b);
    var c := states[i].units[p].job.input.request;
    var k :| k < i && SettledAt(states, actions, k, p);
    var m :| m < i && SettledAt(states, actions, m, q);
    SettlesItsKey(cfg, states, actions, k, i, p);
    SettlesItsKey(cfg, states, actions, m, i, q);
    EachKeySettlesOnce(cfg, states, actions, k, m, c.providerId, c.idempotencyKey);
  }

  lemma SettlesItsKey(cfg: Settings, states: seq<State>, actions: seq<Action>, k: nat, i: nat, p: Pid)
    requires ValidSettings(cfg) && Run(cfg, states, actions) && k < i < |states| && SettledAt(states, actions, k, p)
    requires p in states[i].units && states[i].units[p].job.SubmitJob?
    ensures var c := states[i].units[p].job.input.request;
            SettlesKey(states[k], actions[k], c.providerId, c.idempotencyKey)
  {
    hide Step, Enabled, Reachable, SettlesKey;
    RunReaches(cfg, states, actions, k);
    RunKeepsJobs(cfg, states, actions, k, i, p);
    var c := states[i].units[p].job.input.request;
    SettlingUnderKey(cfg, states[k], actions[k], c.providerId, c.idempotencyKey);
  }
}
