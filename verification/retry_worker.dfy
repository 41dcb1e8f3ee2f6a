/** The retry worker: claims parked operations one by one, settles, postpones or gives up on each. */
module RetryWorker {
  import opened Values
  import opened Wagering
  import opened Settlements
  import opened Databases
  import opened DataInvariants
  import opened Protocol
  import opened Commits
  import opened Refinement
  import opened Duplicates
  import opened Registries
  import opened UseCases
  import opened AtomicService

  /** The transaction of one attempt. */
  method Attempt(registry: Registry, cfg: Settings, now: Time, entryId: Id, order: seq<Id>, skipped: set<Id>)
    returns (claimed: Option<Id>, failure: Option<Error>)
    requires Consistent(registry.Tables(), cfg) && now > 0
    modifies registry
    ensures claimed.Some? ==>
              claimed.value in order && claimed.value !in skipped && Due(old(registry.txs), now, claimed.value)
    ensures claimed.None? ==>
              && failure == None && registry.Tables() == old(registry.Tables())
              && forall t :: t in order && t !in skipped ==> !Due(old(registry.txs), now, t)
    ensures claimed.Some? ==>
              && old(registry.txs)[claimed.value].command.walletId in old(registry.wallets)
              && var spec := AtomicSettle(Retry, cfg, old(registry.Tables()), old(registry.txs)[claimed.value], entryId,
                                          now);
                 match spec
                 case Err(e) => failure == Some(e)
                 case Ok(_) =>
                   failure == None
                   && registry.Tables() == Serve(cfg, old(registry.Tables()), RetryRow(claimed.value, now, entryId))
  {
    hide TxsOk, KeysOk, InboxOk, AtomicSettle, SettleNow, Rehydrate, WaitingRows, WakeRows, Persist, Open, Current;
    ghost var db := registry.Tables();
    claimed := registry.ClaimDuePending(now, order, skipped);
    if claimed.None? {
      return None, None;
    }
    var t := claimed.value;
    ParkedRowIsOpen(cfg, db, t);
    assert registry.txs[t := registry.txs[t]] == registry.txs;
    var op := new Transaction(registry.txs[t]);
    var found := registry.FindForUpdate(op.command.walletId);
    failure := DecideAndSettle(registry, Retry, cfg, found.value, op, entryId, now, db);
    if failure.Some? {
      return;
    }
    SettledTables(cfg, db, Retry, RetryJob, db.txs[t], entryId, now, db.inbox);
    if op.status.Terminal() {
      var _ := registry.WakeUpWaitingFor(op.command.providerId, op.command.externalId, now);
    }
  }

  /** The transaction of a give-up: a row that is no longer parked is left alone, and nobody is woken. */
  method GiveUp(registry: Registry, cfg: Settings, target: Id, now: Time)
    requires Consistent(registry.Tables(), cfg) && now > 0
    modifies registry
    ensures registry.Tables() == Serve(cfg, old(registry.Tables()), GiveUpRow(target, now))
  {
    hide TxsOk, KeysOk, InboxOk, Rehydrate;
    RowsAreTheirs(cfg, registry.Tables());
    if target !in registry.txs || registry.txs[target].status != PendingReference {
      return;
    }
    var op := new Transaction(registry.txs[target]);
    var refused := op.Fail(now);
    assert refused.None?;
    var missing := registry.UpdateTransaction(op);
  }

  /** What the world hands one turn of the loop: a cancelled context, clocks, identifiers, the order and the locks of
      the table, an error of the transaction and of the give-up. `applied` and `gaveUp` say whether a commit whose answer
      was lost took effect. */
  datatype Turn = Turn(cancelled: bool, now: Time, entryId: Id, order: seq<Id>, skipped: set<Id>,
                       interrupted: Option<Error>, applied: bool,
                       failedAt: Time, giveUpFails: Option<Error>, gaveUp: bool)

  /** Only a commit whose outcome is unknown can have taken effect. */
  predicate SoundTurn(turn: Turn) {
    && turn.now > 0 && turn.entryId != NIL && turn.failedAt > 0
    && (turn.applied ==> turn.interrupted == Some(CommitOutcomeUnknown))
    && (turn.gaveUp ==> turn.giveUpFails == Some(CommitOutcomeUnknown))
  }

  /** The error of a turn that claims this row: that of the settlement, or else of its transaction. */
  ghost function TurnError(cfg: Settings, db: DB, row: Id, turn: Turn): Option<Error>
    requires row in db.txs && db.txs[row].command.walletId in db.wallets
  {
    match AtomicSettle(Retry, cfg, db, db.txs[row], turn.entryId, turn.now)
    case Err(e) => Some(e)
    case Ok(_) => turn.interrupted
  }

  /** The turn claimed this row, and this was its error. */
  ghost predicate Claimed(cfg: Settings, db: DB, turn: Turn, row: Id, error: Option<Error>) {
    && row in turn.order && row !in turn.skipped && row in db.txs && db.txs[row].command.walletId in db.wallets
    && db.txs[row].status == PendingReference && db.txs[row].nextAttemptAt <= turn.now
    && error == TurnError(cfg, db, row, turn)
  }

  /** The item is a give-up exactly when the error of its turn is one that another round cannot fix. */
  ghost predicate HandledAs(cfg: Settings, db: DB, turn: Turn, item: Item) {
    exists error :: Claimed(cfg, db, turn, RowOf(item), error) && !turn.cancelled
      && match item
         case RetryRow(_, at, entryId) =>
           && at == turn.now && entryId == turn.entryId
           && (error == None || (error == Some(CommitOutcomeUnknown) && turn.applied))
         case GiveUpRow(_, at) =>
           at == turn.failedAt && error.Some? && error.value !in {Transient, LockTimeout, CommitOutcomeUnknown, Cancelled}
         case _ => false
  }

  function RowOf(item: Item): Id {
    match item
    case RetryRow(row, _, _) => row
    case GiveUpRow(row, _) => row
    case Deliver(_, _, id, _, _) => id
  }

  /** The turn on which the loop stopped early: a cancelled context, an error another round can fix, or a give-up that
      failed itself. */
  ghost predicate StopsWith(cfg: Settings, db: DB, turn: Turn, failure: Error) {
    || (turn.cancelled && failure == Cancelled)
    || (exists row, error: Error ::
          && Claimed(cfg, db, turn, row, Some(error)) && !turn.cancelled
          && if error in {Transient, LockTimeout, CommitOutcomeUnknown, Cancelled} then failure == error
             else turn.giveUpFails == Some(failure))
  }

  lemma ServedOneMore(cfg: Settings, db: DB, items: seq<Item>, item: Item)
    ensures ServeAll(cfg, db, items + [item]) == Serve(cfg, ServeAll(cfg, db, items), item)
    decreases |items|
  {
    hide Serve;
    if items == [] {
      assert ([] + [item])[1..] == [];
    } else {
      assert (items + [item])[1..] == items[1..] + [item];
      ServedOneMore(cfg, Serve(cfg, db, items[0]), items[1..], item);
    }
  }

  lemma ConsistentTables(cfg: Settings, db: DB)
    requires DataInv(db, cfg)
    ensures Consistent(db, cfg)
  {
    hide DataInv, WalletsOk, LedgerOk, TxsOk, KeysOk, InboxOk, ReversalsOk, MoneyInv, EventsInv;
    TablesHold(cfg, db);
  }

  /** Retries and give-ups only. */
  predicate WorkerItems(items: seq<Item>) {
    forall i :: 0 <= i < |items| ==> (items[i].RetryRow? || items[i].GiveUpRow?) && Sound(items[i])
  }

  /** Execute: a transaction that fails is rolled back; a failure another round cannot fix makes the worker give up.
      The tables end as the atomic service leaves them after one item per operation handled, and perhaps one more when
      the answer of the last commit was lost. Each turn settles, gives up or stops by its own error alone. */
  method Execute(registry: Registry, cfg: Settings, batch: nat, world: seq<Turn>)
    returns (handled: nat, failure: Option<Error>, ghost items: seq<Item>)
    requires ValidSettings(cfg) && DataInv(registry.Tables(), cfg)
    requires |world| == batch && forall i :: 0 <= i < |world| ==> SoundTurn(world[i])
    modifies registry
    ensures registry.Tables() == ServeAll(cfg, old(registry.Tables()), items)
    ensures WorkerItems(items) && handled <= batch
    ensures |items| == handled || (failure == Some(CommitOutcomeUnknown) && |items| == handled + 1)
    ensures DataInv(registry.Tables(), cfg)
    ensures forall i :: 0 <= i < |items| ==>
              i < |world| && HandledAs(cfg, ServeAll(cfg, old(registry.Tables()), items[..i]), world[i], items[i])
    ensures failure.Some? ==>
              handled < batch
              && StopsWith(cfg, ServeAll(cfg, old(registry.Tables()), items[..handled]), world[handled], failure.value)
    ensures failure.None? && handled < batch ==>
              forall t :: t in world[handled].order && t !in world[handled].skipped ==>
                t !in registry.txs || registry.txs[t].status != PendingReference
                || registry.txs[t].nextAttemptAt > world[handled].now
  {
    hide DataInv, Consistent, Serve, AtomicSettle, HandledAs, StopsWith, Recoverable;
    handled, failure, items := 0, None, [];
    while handled < batch
      invariant registry.Tables() == ServeAll(cfg, old(registry.Tables()), items)
      invariant WorkerItems(items) && |items| == handled <= batch && failure == None
      invariant DataInv(registry.Tables(), cfg)
      invariant forall i :: 0 <= i < |items| ==>
                  HandledAs(cfg, ServeAll(cfg, old(registry.Tables()), items[..i]), world[i], items[i])
    {
      var turn := world[handled];
      ghost var db := registry.Tables();
      assert items[..handled] == items;
      if turn.cancelled {
        CancelledStops(cfg, db, turn);
        return handled, Some(Cancelled), items;
      }
      ConsistentTables(cfg, db);
      var scratch := new Registry(registry.Tables());
      var claimed, failed := Attempt(scratch, cfg, turn.now, turn.entryId, turn.order, turn.skipped);
      if claimed.None? {
        return;
      }
      var error := if failed.Some? then failed else turn.interrupted;
      var item := RetryRow(claimed.value, turn.now, turn.entryId);
      if failed.None? && (error.None? || turn.applied) {
        registry.Replace(scratch.Tables());
        RetryIsHandled(cfg, db, turn, claimed.value);
        failure := error;
      } else if Recoverable(error.value) {
        ErrorStops(cfg, db, turn, claimed.value, error.value);
        return handled, error, items;
      } else {
        item := GiveUpRow(claimed.value, turn.failedAt);
        if turn.giveUpFails.None? || turn.gaveUp {
          GiveUp(registry, cfg, claimed.value, turn.failedAt);
        } else {
          GiveUpIsHandled(cfg, db, turn, claimed.value, error.value);
          return handled, turn.giveUpFails, items;
        }
        GiveUpIsHandled(cfg, db, turn, claimed.value, error.value);
        failure := turn.giveUpFails;
      }
      ServedOneMore(cfg, old(registry.Tables()), items, item);
      ServeKeepsData(cfg, db, item);
      ghost var before := items;
      items := items + [item];
      assert items[..handled] == before && forall i :: 0 <= i < handled ==> items[..i] == before[..i];
      if failure.Some? {
        return handled, failure, items;
      }
      handled := handled + 1;
    }
  }

  lemma RetryIsHandled(cfg: Settings, db: DB, turn: Turn, row: Id)
    requires SoundTurn(turn) && !turn.cancelled && (turn.interrupted.None? || turn.applied)
    requires Claimed(cfg, db, turn, row, turn.interrupted)
    ensures HandledAs(cfg, db, turn, RetryRow(row, turn.now, turn.entryId))
    ensures turn.interrupted.Some? ==> StopsWith(cfg, db, turn, turn.interrupted.value)
  {
    hide Claimed;
    assert Claimed(cfg, db, turn, RowOf(RetryRow(row, turn.now, turn.entryId)), turn.interrupted);
  }

  lemma GiveUpIsHandled(cfg: Settings, db: DB, turn: Turn, row: Id, error: Error)
    requires Claimed(cfg, db, turn, row, Some(error)) && !turn.cancelled && !Recoverable(error)
    ensures HandledAs(cfg, db, turn, GiveUpRow(row, turn.failedAt))
    ensures turn.giveUpFails.Some? ==> StopsWith(cfg, db, turn, turn.giveUpFails.value)
  {
    hide Claimed;
    assert Claimed(cfg, db, turn, RowOf(GiveUpRow(row, turn.failedAt)), Some(error));
  }

  lemma CancelledStops(cfg: Settings, db: DB, turn: Turn)
    requires turn.cancelled
    ensures StopsWith(cfg, db, turn, Cancelled)
  {
  }

  lemma ErrorStops(cfg: Settings, db: DB, turn: Turn, row: Id, error: Error)
    requires Claimed(cfg, db, turn, row, Some(error)) && !turn.cancelled && Recoverable(error)
    ensures StopsWith(cfg, db, turn, error)
  {
    hide Claimed;
  }
}
