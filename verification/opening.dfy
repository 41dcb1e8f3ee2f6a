/** Opening a wallet: the wallet row, and with money the operation, the entry and the events that account for it. */
module WalletOpenings {
  import opened Values
  import opened Moneys
  import opened Ledgers
  import opened Wallets
  import opened Wagering
  import opened Settlements
  import opened TableWrites
  import opened Registries

  method RecordOpeningBalance(registry: Registry, account: WalletState, entry: LedgerEntry, openingId: Id, initial: Money,
                              correlationId: Text, now: Time)
    returns (failure: Option<Error>)
    requires account.id in registry.ledger && account.id in registry.outbox && entry.walletId == account.id
    requires openingId !in registry.txs
    modifies registry`txs, registry`ledger, registry`outbox
    ensures var opening := NewOpening(openingId, account.id, account.playerId, initial, correlationId, now);
            if opening.Err? then failure == Some(opening.error)
            else
              match SettlementEvents(opening.value, Some(entry), account.balance, now)
              case Err(e) => failure == Some(e)
              case Ok(events) =>
                && failure == None && registry.txs == old(registry.txs)[openingId := opening.value]
                && registry.ledger == old(registry.ledger)[account.id := old(registry.ledger)[account.id] + [entry]]
                && registry.outbox == old(registry.outbox)[account.id := old(registry.outbox)[account.id] + events]
  {
    hide SettlementEvents;
    var opening := NewOpening(openingId, account.id, account.playerId, initial, correlationId, now);
    if opening.Err? {
      return Some(opening.error);
    }
    var _ := registry.InsertOpening(opening.value);
    registry.AppendEntry(entry);
    var op := new Transaction(opening.value);
    failure := AppendSettlementEvents(registry, op, Some(entry), account.balance, now);
  }

  /** Execute, inside its transaction and under fresh identifiers: the rows are those of the plan, and it opens exactly
      when its input is complete, its amount is not negative and the player has no wallet in the currency yet. */
  method OpenInPlace(registry: Registry, id: Id, playerId: Id, initial: Money, openingId: Id, entryId: Id,
                     correlationId: Text, now: Time)
    returns (failure: Option<Error>)
    requires id !in registry.wallets && openingId !in registry.txs
    modifies registry
    ensures var plan := PlanOpening(id, playerId, initial, openingId, entryId, correlationId, now);
            && (failure.None? <==>
                  && id != NIL && playerId != NIL && now != 0 && initial.currency.Supported() && initial.minor >= 0
                  && (initial.minor > 0 ==> openingId != NIL && entryId != NIL && !correlationId.Blank())
                  && forall w :: w in old(registry.wallets) ==>
                       old(registry.wallets)[w].playerId != playerId
                       || old(registry.wallets)[w].balance.currency != initial.currency)
            && (failure.None? ==>
                  plan.Some? &&
                  registry.Tables() == OpenRows(old(registry.Tables()), plan.value.0, plan.value.1, plan.value.2,
                                                plan.value.3))
  {
    hide SettlementEvents, NewLedgerEntry;
    PlannedExactlyWhen(id, playerId, initial, openingId, entryId, correlationId, now);
    var created := OpenWallet(id, playerId, initial, openingId, entryId, now);
    if created.Err? {
      return Some(created.error);
    }
    var (account, entry) := created.value;
    EntryIsOnOpenedWallet(id, playerId, initial, openingId, entryId, now);
    failure := registry.CreateWallet(account);
    if failure.Some? || entry.None? {
      return;
    }
    failure := RecordOpeningBalance(registry, account, entry.value, openingId, initial, correlationId, now);
    if failure.None? {
      assert [] + [entry.value] == EntriesOf(entry);
      ghost var opening := NewOpening(openingId, id, playerId, initial, correlationId, now).value;
      ghost var events := SettlementEvents(opening, entry, account.balance, now).value;
      assert [] + events == events && opening.id == openingId;
    }
  }

  lemma EntryIsOnOpenedWallet(id: Id, playerId: Id, initial: Money, openingId: Id, entryId: Id, now: Time)
    ensures var r := OpenWallet(id, playerId, initial, openingId, entryId, now);
            r.Ok? ==>
              && r.value.0.id == id && r.value.0.playerId == playerId && r.value.0.balance == initial
              && (r.value.1.Some? ==> r.value.1.value.walletId == id)
  {
  }
}
