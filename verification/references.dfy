/** What a processed operation consumed: in every reachable state it and the operation it names belong together. */
module ConsumedReferences {
  import opened Values
  import opened Ledgers
  import opened Wallets
  import opened Wagering
  import opened Decisions
  import opened DecisionTable
  import opened Settlements
  import opened Databases
  import opened DataInvariants
  import opened TableWrites
  import opened Protocol
  import opened LockDiscipline
  import opened UnitKnowledge
  import opened ProtocolInvariant
  import opened Interference
  import opened Commits
  import opened Safety
  import opened Guarantees

  /** What a processed operation consumed is the operation it named; a win found a bet of its round. */
  predicate ConsumedOk(txs: map<Id, Tx>, op: Tx) {
    op.status == Processed && op.referenceId != NIL ==>
      && op.referenceId in txs && Names(op, txs[op.referenceId])
      && (op.command.kind == Win ==>
            txs[op.referenceId].command.kind == Bet && OneRound(op, txs[op.referenceId]))
  }

  predicate AllConsumedOk(txs: map<Id, Tx>) {
    forall t :: t in txs ==> ConsumedOk(txs, txs[t])
  }

  lemma SettledReference(door: Door, cfg: Settings, account: WalletState, op: Tx, reference: Option<Reference>,
                         entryId: Id, now: Time)
    requires Ready(door, cfg, account, op, reference, entryId, now)
    requires Settle(door, cfg, account, op, reference, entryId, now).Ok?
    ensures var after := Settle(door, cfg, account, op, reference, entryId, now).value.op;
            after.command == op.command
            && (after.status == Processed && after.referenceId != NIL ==>
                  && reference.Some? && reference.value.transaction.id == after.referenceId && after.referenceId != op.id
                  && (op.command.kind == Win ==>
                        reference.value.transaction.command.kind == Bet && OneRound(op, reference.value.transaction)))
  {
    SettlementFollowsDecision(door, cfg, account, op, reference, entryId, now);
    SettlementIsComplete(door, cfg, account, op, reference, entryId, now);
    ProcessedExactlyWhen(account, op, reference, now);
    if Decide(account, op, reference, now).value.Process? {
      ProcessedMovesItsAmount(account, op, reference, now);
    }
    hide Settle, Decide, Rehydrate;
  }

  /** The reference was read among the committed rows as the one named, and its identity never changes. */
  lemma CommitterConsumesOk(cfg: Settings, db: DB, used: set<Id>, clock: Time, missed: set<Skip>, u: Unit)
    requires ValidSettings(cfg) && WalletsOk(db) && u.Committing? && UnitOk(cfg, db, used, clock, missed, u)
    ensures ConsumedOk(db.txs, u.effect.op)
  {
    CommitterIsReady(cfg, db, used, clock, u);
    SettledReference(DoorOf(u.job), cfg, u.account, u.op, u.reference, u.entryId, u.now);
    hide Settle, Rehydrate;
  }

  lemma ConsumedStaysOk(db: DB, after: DB, op: Tx)
    requires Evolves(db, after) && ConsumedOk(db.txs, op)
    ensures ConsumedOk(after.txs, op)
  {
  }

  lemma RowsStayConsumedOk(s: State, u: Unit, after: DB)
    requires AllConsumedOk(s.db.txs) && Evolves(s.db, after) && (u.Committing? ==> ConsumedOk(s.db.txs, u.effect.op))
    requires u.Committing? ==> u.op.id in after.txs && after.txs[u.op.id] == u.effect.op
    requires forall t :: t in after.txs ==> RowChange(s.db, after, u, s.clock, t)
    ensures AllConsumedOk(after.txs)
  {
    hide Evolves, ConsumedOk;
    forall t | t in after.txs
      ensures ConsumedOk(after.txs, after.txs[t])
    {
      assert RowChange(s.db, after, u, s.clock, t);
      if u.Committing? && t == u.op.id {
        ConsumedStaysOk(s.db, after, u.effect.op);
      } else if SameRow(s.db, after, t) {
        ConsumedStaysOk(s.db, after, s.db.txs[t]);
      } else {
        OpenRowsConsumeNothing(after.txs, after.txs[t]);
      }
    }
  }

  lemma OpenRowsConsumeNothing(txs: map<Id, Tx>, t: Tx)
    requires t.status != Processed
    ensures ConsumedOk(txs, t)
  {
  }

  lemma OpeningKeepsConsumed(s: State, after: State, account: WalletState, entry: Option<LedgerEntry>, opening: Tx,
                         events: seq<Event>)
    requires AllConsumedOk(s.db.txs) && Opens(s, after, account, entry, opening, events)
    ensures AllConsumedOk(after.db.txs)
  {
  }

  lemma CommitKeepsConsumed(cfg: Settings, s: State, p: Pid, result: CommitResult)
    requires ValidSettings(cfg) && Reachable(cfg, s) && Enabled(s, Commit(p, result)) && AllConsumedOk(s.db.txs)
    ensures AllConsumedOk(Step(cfg, s, Commit(p, result)).db.txs)
  {
    hide Reachable, Enabled, Step, UnitOk, WalletsOk, LedgerOk, TxsOk, KeysOk, InboxOk, MoneyInv, EventsInv, LockInv,
         AttemptsOk, WakesOk, UsedOk, AllConsumedOk, ConsumedOk, RowChange, Applied, Evolves, Committable;
    ReachableTables(cfg, s);
    CommitStepIs(cfg, s, p, result);
    var u := s.units[p];
    var after := Applied(s.db, u);
    CommitEvolves(cfg, s.db, s.used, s.clock, s.missed, u);
    if u.Committing? {
      CommitterConsumesOk(cfg, s.db, s.used, s.clock, s.missed, u);
      CommitterIsCommittable(cfg, s.db, s.used, s.clock, s.missed, u);
      CommittableKeepsIdentity(cfg, s.db, u);
      OwnRowIsNotWoken(cfg, s.db, s.used, s.clock, s.missed, u);
      CommitWrites(s.db, u);
    }
    forall t | t in after.txs
      ensures RowChange(s.db, after, u, s.clock, t)
    {
      CommitChangesRow(cfg, s.db, s.used, s.clock, s.missed, u, t);
    }
    RowsStayConsumedOk(s, u, after);
  }

  lemma OwnRowIsNotWoken(cfg: Settings, db: DB, used: set<Id>, clock: Time, missed: set<Skip>, u: Unit)
    requires u.Committing? && UnitOk(cfg, db, used, clock, missed, u)
    ensures u.op.id !in u.woken
  {
  }

  lemma StepKeepsConsumed(cfg: Settings, s: State, a: Action)
    requires ValidSettings(cfg) && Reachable(cfg, s) && Enabled(s, a) && AllConsumedOk(s.db.txs)
    ensures AllConsumedOk(Step(cfg, s, a).db.txs)
  {
    hide Reachable, Enabled, Step, AllConsumedOk, Opens, Inv, UsedOk;
    ReachableInv(cfg, s);
    InvParts(cfg, s);
    if a.Commit? {
      CommitKeepsConsumed(cfg, s, a.p, a.result);
    } else if a.OpenNew? {
      OpenStepOpens(cfg, s, a);
      var plan := PlanOpening(a.id, a.playerId, a.initial, a.openingId, a.entryId, a.correlationId, a.now);
      OpeningKeepsConsumed(s, Step(cfg, s, a), plan.value.0, plan.value.1, plan.value.2, plan.value.3);
    } else {
      LocalStepFrame(cfg, s, a);
    }
  }

  lemma {:induction false} RunKeepsConsumed(cfg: Settings, states: seq<State>, actions: seq<Action>, i: nat)
    requires ValidSettings(cfg) && Run(cfg, states, actions) && i < |states|
    ensures AllConsumedOk(states[i].db.txs)
  {
    hide Reachable, Enabled, Step;
    if i > 0 {
      RunKeepsConsumed(cfg, states, actions, i - 1);
      RunReaches(cfg, states, actions, i - 1);
      assert Follows(cfg, states[i - 1], actions[i - 1], states[i]);
      StepKeepsConsumed(cfg, states[i - 1], actions[i - 1]);
    }
  }

  lemma ReachableConsumed(cfg: Settings, s: State)
    requires ValidSettings(cfg) && Reachable(cfg, s)
    ensures AllConsumedOk(s.db.txs)
  {
    hide Step, Enabled, AllConsumedOk;
    var states, actions :| Run(cfg, states, actions) && s == states[|states| - 1];
    RunKeepsConsumed(cfg, states, actions, |states| - 1);
  }

  lemma AcceptedReference(t: Tx)
    requires Rehydrate(t).Ok? && t.status == Processed
    ensures t.referenceId != NIL ==> t.command.kind == Win || t.command.kind == Refund || t.command.kind == Rollback
    ensures t.command.kind == Refund || t.command.kind == Rollback ==> t.referenceId != NIL
  {
  }

  /** Whatever the interleaving, the operation a processed one consumed is the one it named by external id, of the same
      provider, player, wallet, round and currency; a win names a bet, a refund a bet, a rollback a bet, a win or a
      refund; and a reversal consumed a processed operation for exactly its amount. */
  lemma ConsumedReferencesMatch(cfg: Settings, s: State, t: Id)
    requires ValidSettings(cfg) && Reachable(cfg, s) && t in s.db.txs && s.db.txs[t].status == Processed
    ensures var op := s.db.txs[t];
            op.command.kind == Refund || op.command.kind == Rollback ==> op.referenceId != NIL
    ensures var op := s.db.txs[t];
            op.referenceId != NIL ==>
              && op.referenceId in s.db.txs && op.referenceId != t
              && var original := s.db.txs[op.referenceId];
                 && op.command.referenceExternalId == original.command.externalId
                 && op.command.providerId == original.command.providerId
                 && op.command.playerId == original.command.playerId
                 && op.command.walletId == original.command.walletId
                 && op.command.roundId == original.command.roundId
                 && op.command.amount.currency == original.command.amount.currency
                 && (op.command.kind == Win || op.command.kind == Refund || op.command.kind == Rollback)
                 && (op.command.kind != Rollback ==> original.command.kind == Bet)
                 && (op.command.kind == Rollback ==>
                       original.command.kind == Bet || original.command.kind == Win || original.command.kind == Refund)
                 && (op.command.kind != Win ==>
                       original.status == Processed && op.command.amount == original.command.amount)
  {
    hide Reachable, Inv, DataInv, WalletsOk, LedgerOk, KeysOk, InboxOk, MoneyInv, EventsInv, Rehydrate;
    ReachableInv(cfg, s);
    InvParts(cfg, s);
    TablesHold(cfg, s.db);
    ReachableConsumed(cfg, s);
    AcceptedReference(s.db.txs[t]);
    assert ReversalOk(s.db.txs, t) && ConsumedOk(s.db.txs, s.db.txs[t]);
  }
}
