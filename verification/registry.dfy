/** The repositories bound to one transaction, and the statements a settlement runs through them. */
module Registries {
  import opened Values
  import opened Moneys
  import opened Ledgers
  import opened Wallets
  import opened Wagering
  import opened Decisions
  import opened Settlements
  import opened Backoffs
  import opened Databases
  import opened Protocol

  /** The rows WakeUpWaitingFor updates. */
  function WaitingRows(txs: map<Id, Tx>, providerId: Text, externalId: Text, now: Time): set<Id> {
    if providerId == Empty || externalId == Empty then {}
    else
      set t | t in txs && txs[t].status == PendingReference && txs[t].command.providerId == providerId
              && txs[t].command.referenceExternalId == externalId && txs[t].nextAttemptAt > now
  }

  /** What one transaction reads and writes: the committed rows and its own. */
  class Registry {
    var wallets: map<Id, WalletState>
    var txs: map<Id, Tx>
    var ledger: map<Id, seq<LedgerEntry>>
    var outbox: map<Id, seq<Event>>
    var inbox: map<Text, InboxRow>
    var parked: set<Id>

    function Tables(): DB
      reads this
    {
      DB(wallets, txs, ledger, outbox, inbox, parked)
    }

    constructor (db: DB)
      ensures Tables() == db
    {
      wallets, txs, ledger, outbox, inbox, parked := db.wallets, db.txs, db.ledger, db.outbox, db.inbox, db.parked;
    }

    /** COMMIT: the tables become what the transaction leaves. */
    method Replace(db: DB)
      modifies this
      ensures Tables() == db
    {
      wallets, txs, ledger, outbox, inbox, parked := db.wallets, db.txs, db.ledger, db.outbox, db.inbox, db.parked;
    }

    // ---- inbox ----

    method InsertInbox(message: Message) returns (inserted: bool)
      modifies this`inbox
      ensures inserted <==> message.id !in old(inbox)
      ensures inbox == if inserted then old(inbox)[message.id := InboxRow(message.bodyHash, NoOutcome, NIL)]
                       else old(inbox)
    {
      inserted := message.id !in inbox;
      if inserted {
        inbox := inbox[message.id := InboxRow(message.bodyHash, NoOutcome, NIL)];
      }
    }

    method CompleteInboxRow(messageId: Text, outcome: InboxOutcome, transactionId: Id) returns (failure: Option<Error>)
      modifies this`inbox
      ensures failure.None? <==> messageId in old(inbox)
      ensures failure.None? ==> inbox == old(inbox)[messageId := old(inbox)[messageId].(outcome := outcome,
                                                                                       transactionId := transactionId)]
      ensures failure.Some? ==> inbox == old(inbox)
    {
      if messageId !in inbox {
        return Some(MissingField);
      }
      inbox := inbox[messageId := inbox[messageId].(outcome := outcome, transactionId := transactionId)];
      return None;
    }

    // ---- operations ----

    /** ON CONFLICT DO NOTHING over the primary key and both unique keys; the foreign key is checked on the new row. */
    method InsertTransaction(op: Tx) returns (inserted: Result<bool>)
      requires op.command.kind != Opening
      modifies this`txs
      ensures inserted == if !KeysFree(old(txs), op) || op.id in old(txs) then Ok(false)
                          else if op.command.walletId !in wallets then Err(WalletNotFound) else Ok(true)
      ensures inserted != Ok(false) <==>
                op.id !in old(txs)
                && forall t :: t in old(txs) && old(txs)[t].command.kind != Opening
                               && old(txs)[t].command.providerId == op.command.providerId ==>
                     old(txs)[t].command.idempotencyKey != op.command.idempotencyKey
                     && old(txs)[t].command.externalId != op.command.externalId
      ensures txs == if inserted == Ok(true) then old(txs)[op.id := op] else old(txs)
    {
      if op.id in txs || !KeysFree(txs, op) {
        return Ok(false);
      }
      if op.command.walletId !in wallets {
        return Err(WalletNotFound);
      }
      txs := txs[op.id := op];
      return Ok(true);
    }

    /** The keys of an opening are NULL and conflict with nothing. */
    method InsertOpening(op: Tx) returns (inserted: bool)
      requires op.command.kind == Opening
      modifies this`txs
      ensures inserted <==> op.id !in old(txs)
      ensures txs == if inserted then old(txs)[op.id := op] else old(txs)
    {
      inserted := op.id !in txs;
      if inserted {
        txs := txs[op.id := op];
      }
    }

    method UpdateTransaction(op: Transaction) returns (failure: Option<Error>)
      modifies this`txs, this`parked
      ensures failure.None? <==> op.id in old(txs)
      ensures failure.None? ==> txs == old(txs)[op.id := op.Value()]
      ensures failure.None? ==> parked == if op.status == PendingReference then old(parked) + {op.id} else old(parked)
    {
      if op.id !in txs {
        return Some(TransactionNotFound);
      }
      txs := txs[op.id := op.Value()];
      if op.status == PendingReference {
        parked := parked + {op.id};
      }
      return None;
    }

    method FindByIdempotencyKey(providerId: Text, key: Text) returns (found: Option<Tx>)
      requires KeysOk(txs)
      ensures found == FindByKey(txs, providerId, key)
    {
      if t :| t in txs && HasKey(txs[t], providerId, key) {
        KeyIsUnique(txs, providerId, key, t);
        return Some(txs[t]);
      }
      return None;
    }

    method FindByExternal(providerId: Text, externalId: Text) returns (found: Option<Tx>)
      requires KeysOk(txs)
      ensures found == FindByExternalId(txs, providerId, externalId)
    {
      if t :| t in txs && HasExternalId(txs[t], providerId, externalId) {
        ExternalIdIsUnique(txs, providerId, externalId, t);
        return Some(txs[t]);
      }
      return None;
    }

    method HasSuccessfulReversal(original: Id) returns (reversed: bool)
      ensures reversed <==> HasReversal(txs, original)
    {
      reversed := exists r :: r in txs && Reverses(txs, r, original);
    }

    /** `order` lists the rows by next attempt, `skipped` are the rows other transactions hold. */
    method ClaimDuePending(now: Time, order: seq<Id>, skipped: set<Id>) returns (claimed: Option<Id>)
      ensures claimed.Some? ==> claimed.value in order && claimed.value !in skipped && Due(txs, now, claimed.value)
      ensures claimed.None? ==> forall t :: t in order && t !in skipped ==> !Due(txs, now, t)
      ensures claimed.Some? ==>
                exists k :: 0 <= k < |order| && order[k] == claimed.value
                            && forall j :: 0 <= j < k && order[j] !in skipped ==> !Due(txs, now, order[j])
      ensures claimed.Some? <==>
                exists t :: t in order && t !in skipped && t in txs
                            && txs[t].status == PendingReference && txs[t].nextAttemptAt <= now
    {
      for k := 0 to |order|
        invariant forall j :: 0 <= j < k && order[j] !in skipped ==> !Due(txs, now, order[j])
      {
        if order[k] !in skipped && Due(txs, now, order[k]) {
          return Some(order[k]);
        }
      }
      return None;
    }

    method WakeUpWaitingFor(providerId: Text, externalId: Text, now: Time) returns (awakened: nat)
      modifies this`txs
      ensures txs == WakeRows(old(txs), WaitingRows(old(txs), providerId, externalId, now), now)
      ensures awakened == |WaitingRows(old(txs), providerId, externalId, now)|
      ensures txs.Keys == old(txs).Keys
      ensures forall t :: t in txs ==>
                var row := old(txs)[t];
                txs[t] == if providerId != Empty && externalId != Empty && row.status == PendingReference
                             && row.command.providerId == providerId && row.command.referenceExternalId == externalId
                             && now < row.nextAttemptAt
                          then row.(nextAttemptAt := now, updatedAt := now) else row
    {
      if providerId == Empty || externalId == Empty {
        assert WakeRows(txs, {}, now) == txs;
        return 0;
      }
      var waiting := WaitingRows(txs, providerId, externalId, now);
      txs := WakeRows(txs, waiting, now);
      return |waiting|;
    }

    // ---- wallets, ledger, outbox ----

    method FindForUpdate(walletId: Id) returns (found: Option<Wallet>)
      ensures found.Some? <==> walletId in wallets
      ensures found.Some? ==> fresh(found.value) && found.value.State() == wallets[walletId]
    {
      if walletId !in wallets {
        return None;
      }
      var account := new Wallet(wallets[walletId]);
      return Some(account);
    }

    /** Unique by id and by player and currency. */
    method CreateWallet(account: WalletState) returns (failure: Option<Error>)
      requires account.id !in wallets
      modifies this`wallets, this`ledger, this`outbox
      ensures failure.Some? <==>
                exists w :: w in old(wallets) && old(wallets)[w].playerId == account.playerId
                            && old(wallets)[w].balance.currency == account.balance.currency
      ensures failure.Some? ==> failure == Some(WalletAlreadyExists)
                                && wallets == old(wallets) && ledger == old(ledger) && outbox == old(outbox)
      ensures failure.None? ==> wallets == old(wallets)[account.id := account]
                                && ledger == old(ledger)[account.id := []] && outbox == old(outbox)[account.id := []]
    {
      if HasWallet(wallets, account.playerId, account.balance.currency) {
        return Some(WalletAlreadyExists);
      }
      wallets := wallets[account.id := account];
      ledger := ledger[account.id := []];
      outbox := outbox[account.id := []];
      return None;
    }

    method UpdateWallet(account: Wallet, expectedVersion: Int64) returns (failure: Option<Error>)
      modifies this`wallets
      ensures failure.None? <==> account.id in old(wallets) && old(wallets)[account.id].version == expectedVersion
      ensures failure.None? ==>
                wallets == old(wallets)[account.id := old(wallets)[account.id].(
                             balance := account.balance, version := account.version, updatedAt := account.updatedAt)]
      ensures failure.Some? ==> failure == Some(WalletVersionChanged) && wallets == old(wallets)
    {
      if account.id !in wallets || wallets[account.id].version != expectedVersion {
        return Some(WalletVersionChanged);
      }
      wallets := wallets[account.id := wallets[account.id].(
                   balance := account.balance, version := account.version, updatedAt := account.updatedAt)];
      return None;
    }

    method AppendEntry(entry: LedgerEntry)
      requires entry.walletId in ledger
      modifies this`ledger
      ensures ledger == old(ledger)[entry.walletId := old(ledger)[entry.walletId] + [entry]]
    {
      ledger := ledger[entry.walletId := ledger[entry.walletId] + [entry]];
    }

    method AppendEvent(walletId: Id, event: Event)
      requires walletId in outbox
      modifies this`outbox
      ensures outbox == old(outbox)[walletId := old(outbox)[walletId] + [event]]
    {
      outbox := outbox[walletId := outbox[walletId] + [event]];
    }
  }

  predicate HasWallet(wallets: map<Id, WalletState>, playerId: Id, currency: Currency) {
    exists w :: w in wallets && wallets[w].playerId == playerId && wallets[w].balance.currency == currency
  }

  predicate Due(txs: map<Id, Tx>, now: Time, t: Id) {
    t in txs && txs[t].status == PendingReference && txs[t].nextAttemptAt <= now
  }

  lemma KeyIsUnique(txs: map<Id, Tx>, providerId: Text, key: Text, t: Id)
    requires KeysOk(txs) && t in txs && HasKey(txs[t], providerId, key)
    ensures FindByKey(txs, providerId, key) == Some(txs[t])
  {
  }

  lemma ExternalIdIsUnique(txs: map<Id, Tx>, providerId: Text, externalId: Text, t: Id)
    requires KeysOk(txs) && t in txs && HasExternalId(txs[t], providerId, externalId)
    ensures FindByExternalId(txs, providerId, externalId) == Some(txs[t])
  {
  }

  // ---- settling in place ----

  /** Builds the envelopes, then appends them one by one. */
  method AppendSettlementEvents(registry: Registry, op: Transaction, entry: Option<LedgerEntry>, balance: Money, now: Time)
    returns (failure: Option<Error>)
    requires op.command.walletId in registry.outbox
    modifies registry`outbox
    ensures var spec := SettlementEvents(op.Value(), entry, balance, now);
            match spec
            case Err(e) => failure == Some(e)
            case Ok(events) =>
              var w := op.command.walletId;
              failure == None && registry.outbox == old(registry.outbox)[w := old(registry.outbox)[w] + events]
  {
    var envelopes := SettlementEvents(op.Value(), entry, balance, now);
    if envelopes.Err? {
      return Some(envelopes.error);
    }
    var w, events := op.command.walletId, envelopes.value;
    assert registry.outbox[w] + [] == registry.outbox[w];
    assert registry.outbox[w := registry.outbox[w]] == registry.outbox;
    for k := 0 to |events|
      invariant w in registry.outbox
      invariant registry.outbox == old(registry.outbox)[w := old(registry.outbox)[w] + events[..k]]
    {
      registry.AppendEvent(w, events[k]);
      assert events[..k + 1] == events[..k] + [events[k]];
      AppendMore(old(registry.outbox), w, events[..k], events[k]);
    }
    assert events[..|events|] == events;
    return None;
  }

  lemma AppendMore(outbox: map<Id, seq<Event>>, w: Id, events: seq<Event>, event: Event)
    requires w in outbox
    ensures var sofar := outbox[w := outbox[w] + events];
            sofar[w := sofar[w] + [event]] == outbox[w := outbox[w] + (events + [event])]
  {
    assert outbox[w] + events + [event] == outbox[w] + (events + [event]);
  }

  /** The rows belong to the objects: the wallet row is the wallet read, the row of the operation is there. */
  predicate Holding(registry: Registry, account: Wallet, op: Transaction)
    reads registry, account, op
  {
    && account.id in registry.wallets && registry.wallets[account.id] == account.State()
    && account.id in registry.ledger && account.id in registry.outbox
    && op.id in registry.txs && op.command.walletId == account.id
  }

  /** applyFinancialMovement: move, append, update the row under its version, mark. */
  method ApplyMovement(registry: Registry, account: Wallet, op: Transaction, movement: Movement, referenceId: Id,
                       entryId: Id, now: Time)
    returns (r: Result<LedgerEntry>)
    requires Holding(registry, account, op)
    modifies registry`ledger, registry`wallets, account, op
    ensures var spec := ApplyFinancialMovement(old(account.State()), old(op.Value()), movement, referenceId, entryId, now);
            match spec
            case Err(e) => r == Err(e)
            case Ok((processed, moved, entry)) =>
              && r == Ok(entry) && op.Value() == processed && account.State() == moved
              && registry.wallets == old(registry.wallets)[account.id := moved]
              && registry.ledger == old(registry.ledger)[account.id := old(registry.ledger)[account.id] + [entry]]
  {
    var expectedVersion := account.version;
    var entry :- account.MoveBy(if movement.direction == Debit then Debit else Credit, op.id, movement.amount, entryId, now);
    EntryIsOnWallet(old(account.State()), if movement.direction == Debit then Debit else Credit, op.id, movement.amount,
                    entryId, now);
    registry.AppendEntry(entry);
    var changed := registry.UpdateWallet(account, expectedVersion);
    assert changed.None?;
    var failure := op.Process(account.balance, referenceId, now);
    if failure.Some? {
      return Err(failure.value);
    }
    return Ok(entry);
  }

  lemma EntryIsOnWallet(w: WalletState, direction: Direction, transactionId: Id, amount: Money, entryId: Id, now: Time)
    ensures var r := Move(w, direction, transactionId, amount, entryId, now);
            r.Ok? ==> r.value.1.walletId == w.id && r.value.0 == w.(balance := r.value.0.balance,
                                                                   version := r.value.0.version, updatedAt := now)
  {
  }

  lemma QuietPersist(db: DB, e: Effect)
    requires e.account.id in db.ledger && e.account.id in db.outbox
    ensures e.account.id in db.wallets && db.wallets[e.account.id] == e.account ==> Persist(db, e).wallets == db.wallets
    ensures e.entry.None? ==> Persist(db, e).ledger == db.ledger
    ensures e.events == [] ==> Persist(db, e).outbox == db.outbox
  {
    assert db.ledger[e.account.id] + [] == db.ledger[e.account.id];
    assert db.outbox[e.account.id] + [] == db.outbox[e.account.id];
  }

  /** The decision turned into writes, through either door. */
  method SettleInPlace(registry: Registry, door: Door, cfg: Settings, account: Wallet, op: Transaction,
                       reference: Option<Reference>, entryId: Id, now: Time)
    returns (failure: Option<Error>)
    requires Holding(registry, account, op)
    modifies registry`ledger, registry`wallets, registry`txs, registry`outbox, registry`parked, account, op
    ensures var spec := Settle(door, cfg, old(account.State()), old(op.Value()), reference, entryId, now);
            match spec
            case Err(e) => failure == Some(e)
            case Ok(effect) =>
              && failure == None && op.Value() == effect.op && account.State() == effect.account
              && effect.account.id == account.id && registry.Tables() == Persist(old(registry.Tables()), effect)
  {
    hide MarkProcessed, MarkRejected, MarkPendingReference, Reschedule, Move, Decide, SettlementEvents;
    var decision := Decide(account.State(), op.Value(), reference, now);
    if decision.Err? {
      return Some(decision.error);
    }
    var entry: Option<LedgerEntry> := None;
    match decision.value {
      case Reject(code) =>
        failure := op.Reject(code, account.balance, now);
      case WaitReference =>
        if door == Submission {
          failure := op.Park(now + cfg.referenceBackoff, op.createdAt + cfg.referenceTtl, now);
        } else {
          var delay := ComputeBackoff(cfg.backoffBase, cfg.backoffMax, op.attempts + 1);
          failure := op.Postpone(now + delay, now);
        }
      case Process(movement, referenceId) =>
        if movement.Present() {
          var r := ApplyMovement(registry, account, op, movement, referenceId, entryId, now);
          match r {
            case Err(e) => failure := Some(e);
            case Ok(e) => failure, entry := None, Some(e);
          }
        } else {
          failure := op.Process(account.balance, referenceId, now);
        }
    }
    if failure.Some? {
      return;
    }
    ghost var spec := Settle(door, cfg, old(account.State()), old(op.Value()), reference, entryId, now);
    if spec.Ok? {
      QuietPersist(old(registry.Tables()), spec.value);
    }
    failure := registry.UpdateTransaction(op);
    if !(door == Retry && decision.value.WaitReference?) {
      failure := AppendSettlementEvents(registry, op, entry, account.balance, now);
    }
  }
}
