/** A player has at most one wallet per currency, and a wallet keeps its owner and its currency for good. */
module WalletKeys {
  import opened Values
  import opened Ledgers
  import opened Wallets
  import opened Wagering
  import opened Decisions
  import opened Settlements
  import opened Databases
  import opened DataInvariants
  import opened TableWrites
  import opened Protocol
  import opened LockDiscipline
  import opened UnitKnowledge
  import opened ProtocolInvariant
  import opened Commits
  import opened Safety
  import opened Guarantees

  predicate OneEach(wallets: map<Id, WalletState>) {
    forall w, v :: w in wallets && v in wallets && w != v ==>
      wallets[w].playerId != wallets[v].playerId || wallets[w].balance.currency != wallets[v].balance.currency
  }

  /** No wallet disappears or changes hands or currency. */
  predicate SameOwners(wallets: map<Id, WalletState>, after: map<Id, WalletState>) {
    forall w :: w in wallets ==>
      && w in after && after[w].playerId == wallets[w].playerId
      && after[w].balance.currency == wallets[w].balance.currency && after[w].createdAt == wallets[w].createdAt
  }

  lemma EffectKeepsOwner(door: Door, cfg: Settings, account: WalletState, op: Tx, reference: Option<Reference>, e: Effect,
                         now: Time)
    requires EffectFollows(door, cfg, account, op, reference, e, now)
    ensures e.account.id == account.id && e.account.playerId == account.playerId
            && e.account.balance.currency == account.balance.currency && e.account.createdAt == account.createdAt
  {
  }

  lemma SettlementKeepsOwners(cfg: Settings, db: DB, used: set<Id>, clock: Time, missed: set<Skip>, u: Unit)
    requires ValidSettings(cfg) && WalletsOk(db) && u.Committing? && UnitOk(cfg, db, used, clock, missed, u)
    requires u.effect.account.id in db.ledger && u.effect.account.id in db.outbox
    ensures SameOwners(db.wallets, Applied(db, u).wallets) && Applied(db, u).wallets.Keys == db.wallets.Keys
  {
    hide UnitOk, Committable, WalletsOk, SameIdentity, RowChange;
    CommitterIsCommittable(cfg, db, used, clock, missed, u);
    CommittedAccount(cfg, db, u);
    CommittableKeepsIdentity(cfg, db, u);
    SettledWallets(db, u);
  }

  lemma SettledWallets(db: DB, u: Unit)
    requires u.Committing? && u.effect.account.id in db.ledger && u.effect.account.id in db.outbox
    ensures Applied(db, u).wallets == db.wallets[u.effect.account.id := u.effect.account]
  {
  }

  lemma CommittedAccount(cfg: Settings, db: DB, u: Unit)
    requires u.Committing?
    requires Committable(db, DoorOf(u.job), cfg, u.account, u.op, u.reference, u.effect, u.now)
    ensures u.account.id in db.wallets && db.wallets[u.account.id] == u.account
    ensures u.effect.account.id == u.account.id && u.effect.account.playerId == u.account.playerId
            && u.effect.account.balance.currency == u.account.balance.currency
            && u.effect.account.createdAt == u.account.createdAt
  {
    EffectKeepsOwner(DoorOf(u.job), cfg, u.account, u.op, u.reference, u.effect, u.now);
    hide EffectFollows, ReferenceHolds, Open, Current;
  }

  lemma CommitKeepsOwners(cfg: Settings, s: State, p: Pid, result: CommitResult)
    requires ValidSettings(cfg) && Reachable(cfg, s) && Enabled(s, Commit(p, result))
    ensures SameOwners(s.db.wallets, Step(cfg, s, Commit(p, result)).db.wallets)
    ensures Step(cfg, s, Commit(p, result)).db.wallets.Keys == s.db.wallets.Keys
  {
    hide Reachable, Enabled, Step, UnitOk, WalletsOk, LedgerOk, TxsOk, KeysOk, InboxOk, MoneyInv, EventsInv, LockInv,
         AttemptsOk, WakesOk, UsedOk;
    ReachableTables(cfg, s);
    CommitStepIs(cfg, s, p, result);
    if s.units[p].Committing? {
      SettlementKeepsOwners(cfg, s.db, s.used, s.clock, s.missed, s.units[p]);
    }
  }

  /** No step of any process takes a wallet away or changes its owner, its currency or its date. */
  lemma StepKeepsOwners(cfg: Settings, s: State, a: Action)
    requires ValidSettings(cfg) && Reachable(cfg, s) && Enabled(s, a)
    ensures SameOwners(s.db.wallets, Step(cfg, s, a).db.wallets)
    ensures !a.OpenNew? ==> Step(cfg, s, a).db.wallets.Keys == s.db.wallets.Keys
  {
    hide Reachable, Enabled, Step, SameOwners, Opens, Inv, UsedOk;
    ReachableInv(cfg, s);
    InvParts(cfg, s);
    if a.Commit? {
      CommitKeepsOwners(cfg, s, a.p, a.result);
    } else if a.OpenNew? {
      OpenStepOpens(cfg, s, a);
      var plan := PlanOpening(a.id, a.playerId, a.initial, a.openingId, a.entryId, a.correlationId, a.now);
      OpeningKeepsOwners(s, Step(cfg, s, a), plan.value.0, plan.value.1, plan.value.2, plan.value.3);
    } else {
      LocalStepFrame(cfg, s, a);
      AlreadyOwned(s.db.wallets);
    }
  }

  lemma OpeningKeepsOwners(s: State, after: State, account: WalletState, entry: Option<LedgerEntry>, opening: Tx,
                           events: seq<Event>)
    requires Opens(s, after, account, entry, opening, events)
    ensures SameOwners(s.db.wallets, after.db.wallets)
  {
  }

  lemma AlreadyOwned(wallets: map<Id, WalletState>)
    ensures SameOwners(wallets, wallets)
  {
  }

  lemma OpenIsForAnother(cfg: Settings, s: State, a: Action)
    requires Enabled(s, a) && a.OpenNew? && OneEach(s.db.wallets)
    ensures OneEach(Step(cfg, s, a).db.wallets)
  {
    PlannedExactlyWhen(a.id, a.playerId, a.initial, a.openingId, a.entryId, a.correlationId, a.now);
    hide PlanOpening;
  }

  lemma {:induction false} RunKeepsOneEach(cfg: Settings, states: seq<State>, actions: seq<Action>, i: nat)
    requires ValidSettings(cfg) && Run(cfg, states, actions) && i < |states|
    ensures OneEach(states[i].db.wallets)
  {
    hide Reachable, Enabled, Step;
    if i > 0 {
      RunKeepsOneEach(cfg, states, actions, i - 1);
      RunReaches(cfg, states, actions, i - 1);
      assert Follows(cfg, states[i - 1], actions[i - 1], states[i]);
      StepKeepsOwners(cfg, states[i - 1], actions[i - 1]);
      if actions[i - 1].OpenNew? {
        OpenIsForAnother(cfg, states[i - 1], actions[i - 1]);
      }
    }
  }

  /** In every reachable state a player has at most one wallet in each currency. */
  lemma OneWalletPerCurrency(cfg: Settings, s: State, w: Id, v: Id)
    requires ValidSettings(cfg) && Reachable(cfg, s) && w in s.db.wallets && v in s.db.wallets
    requires s.db.wallets[w].playerId == s.db.wallets[v].playerId
             && s.db.wallets[w].balance.currency == s.db.wallets[v].balance.currency
    ensures w == v
  {
    hide Step, Enabled;
    var states, actions :| Run(cfg, states, actions) && s == states[|states| - 1];
    RunKeepsOneEach(cfg, states, actions, |states| - 1);
  }
}
