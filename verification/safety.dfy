/** The invariant holds in every reachable state, whatever the interleaving. */
module Safety {
  import opened Values
  import opened Ledgers
  import opened Wallets
  import opened Wagering
  import opened Settlements
  import opened Databases
  import opened DataInvariants
  import opened TableWrites
  import opened Protocol
  import opened LockDiscipline
  import opened UnitKnowledge
  import opened ProtocolInvariant
  import opened UnitSteps
  import opened Interference
  import opened Commits
  import opened CommitEffects

  // ---- steps that leave the tables alone ----

  predicate Local(a: Action) {
    !a.Commit? && !a.OpenNew?
  }

  lemma LocalStepFrame(cfg: Settings, s: State, a: Action)
    requires Enabled(s, a) && Local(a)
    ensures var after := Step(cfg, s, a);
            && after.db == s.db && s.used <= after.used && s.clock <= after.clock && s.missed <= after.missed
            && a.p in after.units && after.units == s.units[a.p := after.units[a.p]]
  {
    hide Settle, NewExternal, FindByKey, FindByExternalId, FindOriginal, HasReversal, KeysFree, Awakened, HeldByGiveUp;
  }

  lemma LocalStepKeepsUnits(cfg: Settings, s: State, a: Action)
    requires UnitsOk(cfg, s) && LockInv(s) && UsedOk(s) && AttemptsOk(cfg, s.db.txs)
    requires TxsOk(s.db, cfg) && KeysOk(s.db.txs) && InboxOk(s.db)
    requires Enabled(s, a) && Local(a)
    ensures UnitsOk(cfg, Step(cfg, s, a))
  {
    hide UnitOk, LockInv, AttemptsOk, TxsOk, KeysOk, InboxOk, UsedOk, Enabled, Step;
    var after := Step(cfg, s, a);
    LocalStepFrame(cfg, s, a);
    LocalStepKeepsUnit(cfg, s, a);
    forall q | q in after.units
      ensures UnitOk(cfg, after.db, after.used, after.clock, after.missed, after.units[q])
    {
      if q != a.p {
        KnowledgeAges(cfg, s.db, s.used, s.clock, s.missed, s.units[q], after.used, after.clock, after.missed);
      }
    }
  }

  lemma LaterKeepsWakes(s: State, after: State)
    requires WakesOk(s) && after.db == s.db && s.clock <= after.clock && s.missed <= after.missed
    ensures WakesOk(after)
  {
    forall t, o | Overslept(after.db.txs, after.clock, t, o)
      ensures Skip(t, o, after.db.txs[t].nextAttemptAt) in after.missed
    {
      assert Overslept(s.db.txs, s.clock, t, o);
    }
  }

  lemma InvParts(cfg: Settings, s: State)
    requires Inv(cfg, s)
    ensures ValidSettings(cfg) && DataInv(s.db, cfg) && LockInv(s) && UnitsOk(cfg, s) && UsedOk(s)
    ensures AttemptsOk(cfg, s.db.txs) && WakesOk(s)
    ensures WalletsOk(s.db) && LedgerOk(s.db) && TxsOk(s.db, cfg) && KeysOk(s.db.txs) && InboxOk(s.db)
  {
    hide DataInv, LockInv, UnitsOk, UsedOk, AttemptsOk, WakesOk, WalletsOk, LedgerOk, TxsOk, KeysOk, InboxOk;
    TablesHold(cfg, s.db);
  }

  lemma RowsAreKeyed(cfg: Settings, db: DB)
    requires TxsOk(db, cfg)
    ensures RowsKeyed(db.txs)
  {
  }

  lemma StepKeepsUsedLocally(s: State, after: State)
    requires UsedOk(s) && after.db == s.db && s.used <= after.used
    ensures UsedOk(after)
  {
  }

  lemma LocalStepKeepsInv(cfg: Settings, s: State, a: Action)
    requires Inv(cfg, s) && Enabled(s, a) && Local(a)
    ensures Inv(cfg, Step(cfg, s, a))
  {
    hide DataInv, LockInv, UnitsOk, UsedOk, AttemptsOk, WakesOk, WalletsOk, LedgerOk, TxsOk, KeysOk, InboxOk,
         RowsKeyed, Enabled, Step;
    InvParts(cfg, s);
    LocalStepFrame(cfg, s, a);
    LocalStepKeepsUnits(cfg, s, a);
    RowsAreKeyed(cfg, s.db);
    StepKeepsLocks(cfg, s, a);
    StepKeepsUsedLocally(s, Step(cfg, s, a));
    LaterKeepsWakes(s, Step(cfg, s, a));
  }

  // ---- commits ----

  lemma CommitStepIs(cfg: Settings, s: State, p: Pid, result: CommitResult)
    requires Enabled(s, Commit(p, result))
    ensures var u := s.units[p];
            var after := Step(cfg, s, Commit(p, result));
            && p in s.units && Finishes(u)
            && (u.Committing? ==> u.effect.account.id in s.db.ledger && u.effect.account.id in s.db.outbox)
            && after.units == s.units[p := Ended(u.job, if result == Confirmed then Reply(u) else OutcomeUnknown)]
            && after.used == s.used && after.clock == s.clock && after.missed == s.missed
            && after.db == if result == LostBefore then s.db else Applied(s.db, u)
  {
  }

  lemma CommitKeepsUnits(cfg: Settings, s: State, p: Pid, result: CommitResult)
    requires ValidSettings(cfg) && DataInv(s.db, cfg) && WalletsOk(s.db) && LockInv(s) && UnitsOk(cfg, s)
    requires Enabled(s, Commit(p, result))
    ensures UnitsOk(cfg, Step(cfg, s, Commit(p, result)))
  {
    hide DataInv, WalletsOk, LockInv, UnitOk, Enabled, Step;
    CommitStepIs(cfg, s, p, result);
    var u := s.units[p];
    var after := Step(cfg, s, Commit(p, result));
    forall q | q in after.units
      ensures UnitOk(cfg, after.db, after.used, after.clock, after.missed, after.units[q])
    {
      if q == p {
        EndIsOk(cfg, s, after, u, result);
      } else if result != LostBefore {
        CommitKeepsOthers(cfg, s, p, q);
      }
    }
  }

  lemma EndIsOk(cfg: Settings, s: State, after: State, u: Unit, result: CommitResult)
    requires ValidSettings(cfg) && WalletsOk(s.db) && Finishes(u)
    requires UnitOk(cfg, s.db, s.used, s.clock, s.missed, u)
    requires u.Committing? ==> u.effect.account.id in s.db.ledger && u.effect.account.id in s.db.outbox
    requires after.db == if result == LostBefore then s.db else Applied(s.db, u)
    requires after.used == s.used && after.clock == s.clock && after.missed == s.missed
    ensures UnitOk(cfg, after.db, after.used, after.clock, after.missed,
                   Ended(u.job, if result == Confirmed then Reply(u) else OutcomeUnknown))
  {
    hide WalletsOk, UnitOk;
    if result == Confirmed {
      CommitReplies(cfg, s.db, s.used, s.clock, s.missed, u);
    } else {
      KnownJob(cfg, s, u);
      OutsideIsOk(cfg, after, Ended(u.job, OutcomeUnknown));
    }
  }

  lemma CommitKeepsUsed(cfg: Settings, s: State, u: Unit)
    requires UsedOk(s) && ValidSettings(cfg) && WalletsOk(s.db) && Finishes(u)
    requires UnitOk(cfg, s.db, s.used, s.clock, s.missed, u)
    requires u.Committing? ==> u.effect.account.id in s.db.ledger && u.effect.account.id in s.db.outbox
    ensures UsedOk(s.(db := Applied(s.db, u)))
  {
    if u.Committing? {
      EffectStatus(cfg, s.db, s.used, s.clock, s.missed, u);
      CommitWrites(s.db, u);
    }
  }

  lemma UsedOkIs(s: State, after: State)
    requires UsedOk(s) && after.db == s.db && after.used == s.used
    ensures UsedOk(after)
  {
  }

  lemma CommitKeepsInv(cfg: Settings, s: State, p: Pid, result: CommitResult)
    requires Inv(cfg, s) && Enabled(s, Commit(p, result))
    ensures Inv(cfg, Step(cfg, s, Commit(p, result)))
  {
    hide DataInv, LockInv, UnitOk, UsedOk, AttemptsOk, WalletsOk, LedgerOk, TxsOk, KeysOk, InboxOk,
         RowsKeyed, Enabled, Step, OnlySkippedOversleep;
    InvParts(cfg, s);
    CommitStepIs(cfg, s, p, result);
    CommitKeepsUnits(cfg, s, p, result);
    RowsAreKeyed(cfg, s.db);
    StepKeepsLocks(cfg, s, Commit(p, result));
    var u, after := s.units[p], Step(cfg, s, Commit(p, result));
    if result == LostBefore {
      UsedOkIs(s, after);
    } else {
      CommitKeepsData(cfg, s.db, s.used, s.clock, s.missed, u);
      CommitKeepsUsed(cfg, s, u);
      UsedOkIs(s.(db := Applied(s.db, u)), after);
      CommitKeepsAttempts(cfg, s.db, s.used, s.clock, s.missed, u);
      CommitKeepsWakes(cfg, s.db, s.used, s.clock, s.missed, u);
    }
  }

  // ---- opening a wallet ----

  predicate Opens(s: State, after: State, account: WalletState, entry: Option<LedgerEntry>, opening: Tx,
                  events: seq<Event>)
  {
    && PlanFits(s.db, account, entry, opening, events)
    && account.id !in s.used && opening.id !in s.used
    && after == s.(db := OpenRows(s.db, account, entry, opening, events), used := after.used, clock := after.clock)
    && s.used + {account.id, opening.id} <= after.used && s.clock <= after.clock
  }

  lemma OpenStepOpens(cfg: Settings, s: State, a: Action)
    requires UsedOk(s) && Enabled(s, a) && a.OpenNew?
    ensures var plan := PlanOpening(a.id, a.playerId, a.initial, a.openingId, a.entryId, a.correlationId, a.now);
            plan.Some? && Opens(s, Step(cfg, s, a), plan.value.0, plan.value.1, plan.value.2, plan.value.3)
  {
    PlannedOpeningFits(s.db, a.id, a.playerId, a.initial, a.openingId, a.entryId, a.correlationId, a.now);
    hide PlanOpening, PlanFits;
  }

  lemma OpeningEvolves(db: DB, account: WalletState, entry: Option<LedgerEntry>, opening: Tx, events: seq<Event>)
    requires PlanFits(db, account, entry, opening, events)
    ensures Evolves(db, OpenRows(db, account, entry, opening, events))
  {
  }

  lemma HeldRowsAreUsed(cfg: Settings, s: State, u: Unit, t: Id)
    requires UsedOk(s) && UnitOk(cfg, s.db, s.used, s.clock, s.missed, u) && Holds(u, RowKey(t))
    ensures t in s.used
  {
  }

  lemma HeldWalletsAreThere(cfg: Settings, s: State, u: Unit)
    requires UsedOk(s) && UnitOk(cfg, s.db, s.used, s.clock, s.missed, u) && u.HasWallet()
    ensures u.op.command.walletId in s.db.wallets && u.op.command.walletId in s.used
  {
  }

  lemma OpeningLeavesWallet(s: State, after: State, w: Id, account: WalletState, entry: Option<LedgerEntry>,
                            opening: Tx, events: seq<Event>)
    requires Opens(s, after, account, entry, opening, events) && w in s.db.wallets && w in s.used
    ensures Untouched(s.db, after.db, s.clock, w)
  {
  }

  lemma OpeningRespects(cfg: Settings, s: State, after: State, u: Unit, account: WalletState,
                        entry: Option<LedgerEntry>, opening: Tx, events: seq<Event>)
    requires UsedOk(s) && UnitOk(cfg, s.db, s.used, s.clock, s.missed, u)
    requires Opens(s, after, account, entry, opening, events)
    ensures Respects(s.db, after.db, s.clock, u)
  {
    forall t | Holds(u, RowKey(t))
      ensures SameRow(s.db, after.db, t)
    {
      HeldRowsAreUsed(cfg, s, u, t);
    }
    if u.HasWallet() {
      HeldWalletsAreThere(cfg, s, u);
      OpeningLeavesWallet(s, after, u.op.command.walletId, account, entry, opening, events);
    }
    if u.HasOp() && u.job.SubmitJob? {
      assert KeysFree(s.db.txs, u.op);
    }
  }

  lemma OpeningKeepsUnits(cfg: Settings, s: State, after: State, account: WalletState, entry: Option<LedgerEntry>,
                          opening: Tx, events: seq<Event>)
    requires UsedOk(s) && UnitsOk(cfg, s) && DataInv(after.db, cfg)
    requires Opens(s, after, account, entry, opening, events)
    ensures UnitsOk(cfg, after)
  {
    hide UnitOk, DataInv, WalletsOk, LedgerOk, TxsOk, KeysOk, InboxOk, ReversalsOk, MoneyInv, EventsInv, Evolves,
         Respects, PlanFits, OpenRows;
    TablesHold(cfg, after.db);
    OpeningEvolves(s.db, account, entry, opening, events);
    forall q | q in after.units
      ensures UnitOk(cfg, after.db, after.used, after.clock, after.missed, after.units[q])
    {
      OpeningRespects(cfg, s, after, s.units[q], account, entry, opening, events);
      KnowledgeSurvives(cfg, s.db, after.db, s.used, s.clock, s.missed, s.units[q]);
      KnowledgeAges(cfg, after.db, s.used, s.clock, s.missed, s.units[q], after.used, after.clock, after.missed);
    }
  }

  lemma OpeningKeepsAttempts(cfg: Settings, db: DB, account: WalletState, entry: Option<LedgerEntry>, opening: Tx,
                             events: seq<Event>)
    requires AttemptsOk(cfg, db.txs) && PlanFits(db, account, entry, opening, events) && ValidSettings(cfg)
    requires opening.attempts == 0
    ensures AttemptsOk(cfg, OpenRows(db, account, entry, opening, events).txs)
  {
    var after := OpenRows(db, account, entry, opening, events);
    OpeningEvolves(db, account, entry, opening, events);
    forall t | t in after.txs
      ensures AttemptOk(cfg, after.txs, t)
    {
      if t in db.txs {
        assert AttemptOk(cfg, db.txs, t);
        OtherRowKeepsAttempts(cfg, db, after, t);
      }
    }
  }

  lemma OpeningKeepsWakes(s: State, after: State, account: WalletState, entry: Option<LedgerEntry>, opening: Tx,
                          events: seq<Event>)
    requires WakesOk(s) && Opens(s, after, account, entry, opening, events)
    ensures WakesOk(after)
  {
    forall t, o | Overslept(after.db.txs, after.clock, t, o)
      ensures Skip(t, o, after.db.txs[t].nextAttemptAt) in after.missed
    {
      assert Overslept(s.db.txs, s.clock, t, o);
    }
  }

  lemma OpeningKeepsUsed(s: State, after: State, account: WalletState, entry: Option<LedgerEntry>, opening: Tx,
                         events: seq<Event>)
    requires UsedOk(s) && Opens(s, after, account, entry, opening, events)
    ensures UsedOk(after)
  {
  }

  lemma OpeningHasNoAttempts(a: Action)
    requires a.OpenNew?
    ensures var plan := PlanOpening(a.id, a.playerId, a.initial, a.openingId, a.entryId, a.correlationId, a.now);
            plan.Some? ==> plan.value.2.attempts == 0
  {
  }

  lemma OpenKeepsInv(cfg: Settings, s: State, a: Action)
    requires Inv(cfg, s) && Enabled(s, a) && a.OpenNew?
    ensures Inv(cfg, Step(cfg, s, a))
  {
    hide DataInv, LockInv, UnitsOk, UsedOk, AttemptsOk, WakesOk, WalletsOk, LedgerOk, TxsOk, KeysOk, InboxOk,
         RowsKeyed, Enabled, Step, PlanFits, OpenRows, PlanOpening;
    InvParts(cfg, s);
    OpenStepOpens(cfg, s, a);
    var after := Step(cfg, s, a);
    var (account, entry, opening, events) :=
      PlanOpening(a.id, a.playerId, a.initial, a.openingId, a.entryId, a.correlationId, a.now).value;
    OpeningKeepsData(s.db, cfg, account, entry, opening, events);
    OpeningKeepsUnits(cfg, s, after, account, entry, opening, events);
    OpeningHasNoAttempts(a);
    OpeningKeepsAttempts(cfg, s.db, account, entry, opening, events);
    OpeningKeepsWakes(s, after, account, entry, opening, events);
    OpeningKeepsUsed(s, after, account, entry, opening, events);
    RowsAreKeyed(cfg, s.db);
    StepKeepsLocks(cfg, s, a);
  }

  // ---- runs ----

  /** Every step of every process keeps the invariant. */
  lemma StepKeepsInv(cfg: Settings, s: State, a: Action)
    requires Inv(cfg, s) && Enabled(s, a)
    ensures Inv(cfg, Step(cfg, s, a))
  {
    hide Inv, Step, Enabled;
    if a.Commit? {
      CommitKeepsInv(cfg, s, a.p, a.result);
    } else if a.OpenNew? {
      OpenKeepsInv(cfg, s, a);
    } else {
      LocalStepKeepsInv(cfg, s, a);
    }
  }

  lemma InitialInv(cfg: Settings)
    requires ValidSettings(cfg)
    ensures Inv(cfg, INITIAL)
  {
    forall t, o
      ensures !Overslept(INITIAL.db.txs, INITIAL.clock, t, o)
    {
    }
  }

  lemma {:induction false} RunKeepsInv(cfg: Settings, states: seq<State>, actions: seq<Action>, i: nat)
    requires ValidSettings(cfg) && Run(cfg, states, actions) && i < |states|
    ensures Inv(cfg, states[i])
  {
    hide Inv, Step, Enabled;
    if i == 0 {
      InitialInv(cfg);
    } else {
      RunKeepsInv(cfg, states, actions, i - 1);
      assert Follows(cfg, states[i - 1], actions[i - 1], states[i]);
      StepKeepsInv(cfg, states[i - 1], actions[i - 1]);
    }
  }

  lemma ReachableInv(cfg: Settings, s: State)
    requires ValidSettings(cfg) && Reachable(cfg, s)
    ensures Inv(cfg, s)
  {
    hide Inv, Step, Enabled;
    var states, actions :| Run(cfg, states, actions) && s == states[|states| - 1];
    RunKeepsInv(cfg, states, actions, |states| - 1);
  }

  lemma RunReaches(cfg: Settings, states: seq<State>, actions: seq<Action>, i: nat)
    requires Run(cfg, states, actions) && i < |states|
    ensures Reachable(cfg, states[i])
  {
    hide Step, Enabled;
    RunPrefix(cfg, states, actions, i);
    assert states[..i + 1][i] == states[i];
  }

  lemma RunPrefix(cfg: Settings, states: seq<State>, actions: seq<Action>, n: nat)
    requires Run(cfg, states, actions) && n <= |actions|
    ensures Run(cfg, states[..n + 1], actions[..n])
  {
    hide Step, Enabled;
    forall k | 0 <= k < n
      ensures Follows(cfg, states[..n + 1][k], actions[..n][k], states[..n + 1][k + 1])
    {
      assert Follows(cfg, states[k], actions[k], states[k + 1]);
    }
  }

  lemma RunExtends(cfg: Settings, states: seq<State>, actions: seq<Action>, a: Action)
    requires Run(cfg, states, actions) && Enabled(states[|states| - 1], a)
    ensures Run(cfg, states + [Step(cfg, states[|states| - 1], a)], actions + [a])
  {
    hide Step, Enabled;
    var s := states[|states| - 1];
    var longer, more := states + [Step(cfg, s, a)], actions + [a];
    forall i | 0 <= i < |more|
      ensures Follows(cfg, longer[i], more[i], longer[i + 1])
    {
      if i < |actions| {
        assert Follows(cfg, states[i], actions[i], states[i + 1]);
      } else {
        assert longer[i] == s && longer[i + 1] == Step(cfg, s, a);
      }
    }
  }

  lemma ReachesNext(cfg: Settings, s: State, a: Action)
    requires Reachable(cfg, s) && Enabled(s, a)
    ensures Reachable(cfg, Step(cfg, s, a))
  {
    hide Step, Enabled;
    var states, actions :| Run(cfg, states, actions) && s == states[|states| - 1];
    RunExtends(cfg, states, actions, a);
    var longer := states + [Step(cfg, s, a)];
    assert longer[|longer| - 1] == Step(cfg, s, a);
  }

  /** A process keeps its job to the end. */
  lemma StepKeepsJobs(cfg: Settings, s: State, a: Action, p: Pid)
    requires Enabled(s, a) && p in s.units
    ensures var after := Step(cfg, s, a); p in after.units && after.units[p].job == s.units[p].job
  {
    hide Settle, NewExternal, FindByKey, FindByExternalId, FindOriginal, HasReversal, KeysFree, Awakened, HeldByGiveUp,
         Applied;
  }
}
