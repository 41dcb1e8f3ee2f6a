/** The other writes to the tables: waking and failing parked rows, opening a wallet, completing an inbox row. */
module TableWrites {
  import opened Values
  import opened Moneys
  import opened Ledgers
  import opened Wallets
  import opened Wagering
  import opened Settlements
  import opened Databases
  import opened LedgerInvariants
  import opened Conservation
  import opened EventMirror
  import opened DataInvariants

  /** Only rows that are neither processed nor rejected change, and they keep their identity. */
  predicate Quiet(txs: map<Id, Tx>, after: map<Id, Tx>) {
    && after.Keys == txs.Keys
    && forall t :: t in txs && t in after ==> QuietRow(txs[t], after[t])
  }

  predicate QuietRow(before: Tx, after: Tx) {
    && SameIdentity(before, after) && before.referenceId == after.referenceId
    && (before.status == Processed || before.status == Rejected || after.status == Processed || after.status == Rejected
        ==> after == before)
  }

  lemma QuietEntry(txs: map<Id, Tx>, after: map<Id, Tx>, e: LedgerEntry)
    requires Quiet(txs, after) && EntryOk(txs, e)
    ensures EntryOk(after, e)
  {
  }

  lemma QuietReverses(txs: map<Id, Tx>, after: map<Id, Tx>, r: Id, t: Id)
    requires Quiet(txs, after)
    ensures Reverses(txs, r, t) == Reverses(after, r, t)
  {
  }

  lemma QuietKeepsReversals(txs: map<Id, Tx>, after: map<Id, Tx>)
    requires Quiet(txs, after) && ReversalsOk(txs) && OneReversalEach(txs)
    ensures ReversalsOk(after) && OneReversalEach(after)
  {
    forall r | r in after
      ensures ReversalOk(after, r)
    {
      assert ReversalOk(txs, r);
    }
    forall r, s, t | Reverses(after, r, t) && Reverses(after, s, t)
      ensures r == s
    {
      QuietReverses(txs, after, r, t);
      QuietReverses(txs, after, s, t);
    }
  }

  lemma QuietIsSameForMoney(txs: map<Id, Tx>, after: map<Id, Tx>)
    requires Quiet(txs, after)
    ensures SameForMoney(txs, after)
  {
  }

  lemma QuietKeepsEntries(db: DB, after: map<Id, Tx>)
    requires Quiet(db.txs, after) && EntriesOk(db) && MovementsRecorded(db)
    ensures EntriesOk(db.(txs := after)) && MovementsRecorded(db.(txs := after))
  {
    forall w, i | w in db.ledger && 0 <= i < |db.ledger[w]|
      ensures EntryOk(after, db.ledger[w][i])
    {
      QuietEntry(db.txs, after, db.ledger[w][i]);
    }
  }

  lemma QuietKeepsConserved(db: DB, after: map<Id, Tx>)
    requires Quiet(db.txs, after) && EntriesOk(db) && Conserved(db)
    ensures Conserved(db.(txs := after))
  {
    QuietIsSameForMoney(db.txs, after);
    forall w | w in db.wallets && w in db.ledger
      ensures db.wallets[w].balance.minor == LiveSum(after, db.ledger[w])
    {
      EntriesAreProcessed(db, w);
      SameSum(db.txs, after, db.ledger[w]);
    }
  }

  lemma QuietKeepsMoney(db: DB, after: map<Id, Tx>)
    requires Quiet(db.txs, after) && MoneyInv(db)
    ensures MoneyInv(db.(txs := after))
  {
    QuietKeepsEntries(db, after);
    QuietKeepsReversals(db.txs, after);
    QuietKeepsConserved(db, after);
  }

  /** No row becomes parked or failed that was not one of the two before. */
  predicate StillParked(txs: map<Id, Tx>, after: map<Id, Tx>) {
    forall t :: t in after && t in txs && (after[t].status == PendingReference || after[t].status == Failed) ==>
      txs[t].status == PendingReference || txs[t].status == Failed
  }

  lemma QuietKeepsStatus(outbox: map<Id, seq<Event>>, txs: map<Id, Tx>, after: map<Id, Tx>, parked: set<Id>,
                         cfg: Settings)
    requires Quiet(txs, after) && StatusMirrored(outbox, txs, parked, cfg)
    ensures StatusMirrored(outbox, after, parked, cfg)
  {
    forall t | t in after && after[t].command.walletId in outbox
      ensures StatusEvents(outbox[after[t].command.walletId], t) == Dictated(cfg, after[t], t in parked)
    {
      QuietIsDictatedAlike(cfg, txs[t], after[t], t in parked);
    }
  }

  lemma QuietIsDictatedAlike(cfg: Settings, before: Tx, after: Tx, parked: bool)
    requires QuietRow(before, after)
    ensures Dictated(cfg, before, parked) == Dictated(cfg, after, parked)
  {
  }

  lemma QuietKeepsParked(outbox: map<Id, seq<Event>>, txs: map<Id, Tx>, after: map<Id, Tx>, parked: set<Id>)
    requires Quiet(txs, after) && StillParked(txs, after)
    requires NoStrayEvents(outbox, txs) && ParkedMatch(txs, parked)
    ensures NoStrayEvents(outbox, after) && ParkedMatch(after, parked)
  {
  }

  lemma QuietKeepsEvents(db: DB, cfg: Settings, after: map<Id, Tx>)
    requires Quiet(db.txs, after) && StillParked(db.txs, after) && EventsInv(db, cfg)
    ensures EventsInv(db.(txs := after), cfg)
  {
    QuietKeepsStatus(db.outbox, db.txs, after, db.parked, cfg);
    QuietKeepsParked(db.outbox, db.txs, after, db.parked);
  }

  lemma QuietKeepsKeys(txs: map<Id, Tx>, after: map<Id, Tx>)
    requires Quiet(txs, after) && KeysOk(txs)
    ensures KeysOk(after)
  {
  }

  lemma QuietKeepsInbox(db: DB, after: map<Id, Tx>)
    requires Quiet(db.txs, after) && InboxOk(db)
    ensures InboxOk(db.(txs := after))
  {
  }

  /** A quiet write keeps every invariant of the tables, as long as the rows it writes are acceptable. */
  lemma QuietKeepsData(db: DB, cfg: Settings, after: map<Id, Tx>)
    requires DataInv(db, cfg) && Quiet(db.txs, after) && StillParked(db.txs, after)
    requires RowsOk(db.wallets, after, cfg)
    ensures DataInv(db.(txs := after), cfg)
  {
    QuietKeepsMoney(db, after);
    QuietKeepsEvents(db, cfg, after);
    QuietKeepsKeys(db.txs, after);
    QuietKeepsInbox(db, after);
  }

  lemma WakeIsQuiet(txs: map<Id, Tx>, woken: set<Id>, now: Time)
    requires forall t :: t in woken && t in txs ==> txs[t].status == PendingReference
    ensures Quiet(txs, WakeRows(txs, woken, now)) && StillParked(txs, WakeRows(txs, woken, now))
  {
  }

  lemma WokenRowIsOk(wallets: map<Id, WalletState>, cfg: Settings, tx: Tx, now: Time)
    requires TxOk(wallets, cfg, tx) && tx.status == PendingReference && now > 0
    ensures TxOk(wallets, cfg, tx.(nextAttemptAt := now, updatedAt := now))
  {
  }

  lemma WakeKeepsRows(wallets: map<Id, WalletState>, txs: map<Id, Tx>, cfg: Settings, woken: set<Id>, now: Time)
    requires RowsOk(wallets, txs, cfg) && now > 0
    requires forall t :: t in woken && t in txs ==> txs[t].status == PendingReference
    ensures RowsOk(wallets, WakeRows(txs, woken, now), cfg)
  {
    forall t | t in woken && t in txs
      ensures TxOk(wallets, cfg, txs[t].(nextAttemptAt := now, updatedAt := now))
    {
      WokenRowIsOk(wallets, cfg, txs[t], now);
    }
  }

  /** Waking parked rows keeps every invariant of the tables. */
  lemma WakeKeepsData(db: DB, cfg: Settings, woken: set<Id>, now: Time)
    requires DataInv(db, cfg) && now > 0
    requires forall t :: t in woken && t in db.txs ==> db.txs[t].status == PendingReference
    ensures DataInv(Wake(db, woken, now), cfg)
  {
    WakeIsQuiet(db.txs, woken, now);
    WakeKeepsRows(db.wallets, db.txs, cfg, woken, now);
    QuietKeepsData(db, cfg, WakeRows(db.txs, woken, now));
  }

  lemma FailedRowIsOk(wallets: map<Id, WalletState>, cfg: Settings, tx: Tx, now: Time)
    requires TxOk(wallets, cfg, tx) && tx.status == PendingReference && now > 0
    ensures MarkFailed(tx, now).Ok?
    ensures var failed := MarkFailed(tx, now).value;
            TxOk(wallets, cfg, failed) && QuietRow(tx, failed) && failed.status == Failed
  {
  }

  /** The give-up path: a parked row becomes FAILED, without moving money and without an event. */
  lemma FailKeepsData(db: DB, cfg: Settings, t: Id, failed: Tx)
    requires DataInv(db, cfg)
    requires t in db.txs && db.txs[t].status == PendingReference
    requires TxOk(db.wallets, cfg, failed) && QuietRow(db.txs[t], failed)
    ensures DataInv(db.(txs := db.txs[t := failed]), cfg)
  {
    FailIsQuiet(db.wallets, db.txs, cfg, t, failed);
    QuietKeepsData(db, cfg, db.txs[t := failed]);
  }

  lemma FailIsQuiet(wallets: map<Id, WalletState>, txs: map<Id, Tx>, cfg: Settings, t: Id, failed: Tx)
    requires RowsOk(wallets, txs, cfg) && t in txs && txs[t].status == PendingReference
    requires TxOk(wallets, cfg, failed) && QuietRow(txs[t], failed)
    ensures RowsOk(wallets, txs[t := failed], cfg) && Quiet(txs, txs[t := failed]) && StillParked(txs, txs[t := failed])
  {
  }

  lemma CompleteKeepsInbox(inbox: map<Text, InboxRow>, txs: map<Id, Tx>, m: Text, row: InboxRow)
    requires InboxComplete(inbox, txs)
    requires row.outcome != NoOutcome && row.transactionId in txs && Answers(txs[row.transactionId], row.bodyHash)
    ensures InboxComplete(inbox[m := row], txs)
  {
  }

  /** Completing an inbox row with an operation its body asked for. */
  lemma CompleteKeepsData(db: DB, cfg: Settings, m: Text, row: InboxRow)
    requires DataInv(db, cfg)
    requires InboxComplete(db.inbox[m := row], db.txs)
    ensures DataInv(db.(inbox := db.inbox[m := row]), cfg)
  {
  }

  // ---- opening a wallet ----

  /** The rows openWallet inserts: the wallet, and for a positive balance its OPENING operation, entry and events. */
  function OpenRows(db: DB, account: WalletState, entry: Option<LedgerEntry>, opening: Tx, events: seq<Event>): DB {
    db.(wallets := db.wallets[account.id := account],
        ledger := db.ledger[account.id := EntriesOf(entry)],
        outbox := db.outbox[account.id := events],
        txs := if entry.Some? then db.txs[opening.id := opening] else db.txs)
  }

  /** What Execute builds before it writes; `None` stands for an opening that fails. */
  function PlanOpening(id: Id, playerId: Id, initial: Money, openingId: Id, entryId: Id, correlationId: Text, now: Time)
    : Option<(WalletState, Option<LedgerEntry>, Tx, seq<Event>)>
  {
    match OpenWallet(id, playerId, initial, openingId, entryId, now)
    case Err(_) => None
    case Ok((account, entry)) =>
      var blank := Tx(openingId, OpeningCommand(id, playerId, initial, correlationId), now, Pending, NIL, NoFailure,
                      NO_MONEY, 0, 0, 0, now, 0);
      if entry.None? then Some((account, None, blank, []))
      else match NewOpening(openingId, id, playerId, initial, correlationId, now)
           case Err(_) => None
           case Ok(opening) =>
             match SettlementEvents(opening, entry, account.balance, now)
             case Err(_) => None
             case Ok(events) => Some((account, entry, opening, events))
  }

  /** An opening is planned exactly for identifiers, a moment and an amount that is not negative; with money it also needs
      the identifiers of its entry and of its operation and a correlation id. */
  lemma PlannedExactlyWhen(id: Id, playerId: Id, initial: Money, openingId: Id, entryId: Id, correlationId: Text,
                           now: Time)
    ensures var plan := PlanOpening(id, playerId, initial, openingId, entryId, correlationId, now);
            && (plan.Some? <==>
                  && id != NIL && playerId != NIL && now != 0 && initial.currency.Supported() && initial.minor >= 0
                  && (initial.minor > 0 ==> openingId != NIL && entryId != NIL && !correlationId.Blank()))
            && (plan.Some? ==>
                  && plan.value.0 == WalletState(id, playerId, initial, 1, now, now)
                  && (plan.value.1.Some? <==> initial.minor > 0))
            && (plan.Some? && initial.minor > 0 ==>
                  var (account, entry, opening, events) := plan.value;
                  && entry.value == LedgerEntry(entryId, id, openingId, Credit, initial, Money(0, initial.currency), initial,
                                                1, now)
                  && opening.status == Processed && opening.resultBalance == initial
                  && events == [TransactionProcessed(openingId, initial, NIL, now), BalanceChanged(openingId, entry.value)])
  {
    OpenedWalletIsChained(id, playerId, initial, openingId, entryId, now);
  }

  predicate PlanFits(db: DB, account: WalletState, entry: Option<LedgerEntry>, opening: Tx, events: seq<Event>) {
    && account.id !in db.wallets && opening.id !in db.txs && opening.id != NIL
    && ValidWallet(account)
    && Chain(EntriesOf(entry), account.id, account.balance, account.version)
    && (entry.None? ==> events == [])
    && (entry.Some? ==>
          && Rehydrate(opening).Ok? && opening.createdAt > 0
          && opening.command.kind == Opening && opening.command.walletId == account.id
          && opening.status == Processed && opening.referenceId == NIL
          && opening.command.amount == opening.resultBalance == account.balance == entry.value.amount
          && entry.value.transactionId == opening.id && entry.value.direction == Credit
          && entry.value.walletId == account.id && entry.value.balanceAfter == account.balance
          && events == [TransactionProcessed(opening.id, opening.resultBalance, NIL, opening.completedAt),
                        BalanceChanged(opening.id, entry.value)])
  }

  lemma PlannedOpeningFits(db: DB, id: Id, playerId: Id, initial: Money, openingId: Id, entryId: Id,
                           correlationId: Text, now: Time)
    requires openingId != NIL && entryId != NIL && now > 0
    requires id !in db.wallets && openingId !in db.txs
    ensures var plan := PlanOpening(id, playerId, initial, openingId, entryId, correlationId, now);
            plan.Some? ==> PlanFits(db, plan.value.0, plan.value.1, plan.value.2, plan.value.3)
                           && plan.value.0.id == id && plan.value.2.id == openingId
  {
    OpenedWalletIsChained(id, playerId, initial, openingId, entryId, now);
    var plan := PlanOpening(id, playerId, initial, openingId, entryId, correlationId, now);
    if plan.Some? && plan.value.1.Some? {
      var (account, entry, opening, events) := plan.value;
      assert EntryAt(EntriesOf(entry), 0, id, account.balance.currency, 1);
      OpeningIsAccepted(openingId, id, playerId, initial, correlationId, now);
      EnvelopeSucceeds(opening, now, now, TransactionProcessed(opening.id, account.balance, NIL, now));
      EnvelopeSucceeds(opening, now, now, BalanceChanged(opening.id, entry.value));
      assert events == [TransactionProcessed(opening.id, account.balance, NIL, now)]
                       + [BalanceChanged(opening.id, entry.value)];
    }
  }

  lemma OpenKeepsRows(db: DB, cfg: Settings, account: WalletState, entry: Option<LedgerEntry>, opening: Tx,
                      events: seq<Event>)
    requires WalletsOk(db) && TxsOk(db, cfg)
    requires PlanFits(db, account, entry, opening, events)
    ensures var after := OpenRows(db, account, entry, opening, events);
            WalletsOk(after) && TxsOk(after, cfg)
  {
    var after := OpenRows(db, account, entry, opening, events);
    forall t | t in after.txs
      ensures after.txs[t].id == t && TxOk(after.wallets, cfg, after.txs[t])
    {
      if t in db.txs {
        assert TxOk(db.wallets, cfg, db.txs[t]);
      }
    }
  }

  lemma OpenKeepsLedger(db: DB, account: WalletState, entry: Option<LedgerEntry>, opening: Tx, events: seq<Event>)
    requires WalletsOk(db) && LedgerOk(db) && PlanFits(db, account, entry, opening, events)
    ensures LedgerOk(OpenRows(db, account, entry, opening, events))
  {
    var after := OpenRows(db, account, entry, opening, events);
    forall w | w in after.wallets && w in after.ledger
      ensures Chain(after.ledger[w], w, after.wallets[w].balance, after.wallets[w].version)
    {
      if w != account.id {
        assert after.ledger[w] == db.ledger[w] && after.wallets[w] == db.wallets[w];
      }
    }
  }

  lemma OpenKeepsKeysAndInbox(db: DB, account: WalletState, entry: Option<LedgerEntry>, opening: Tx,
                              events: seq<Event>)
    requires KeysOk(db.txs) && InboxOk(db) && PlanFits(db, account, entry, opening, events)
    ensures var after := OpenRows(db, account, entry, opening, events); KeysOk(after.txs) && InboxOk(after)
  {
  }

  lemma OpenWrites(db: DB, account: WalletState, entry: Option<LedgerEntry>, opening: Tx, events: seq<Event>)
    requires PlanFits(db, account, entry, opening, events) && entry.Some?
    ensures var after := OpenRows(db, account, entry, opening, events);
            RowWritten(db.txs, after.txs, opening) && ReversalOk(after.txs, opening.id)
            && opening.referenceId != opening.id
  {
  }

  lemma OpenKeepsEntries(db: DB, cfg: Settings, account: WalletState, entry: Option<LedgerEntry>, opening: Tx,
                         events: seq<Event>)
    requires WalletsOk(db) && EntriesOk(db) && ReversalsOk(db.txs)
    requires PlanFits(db, account, entry, opening, events) && entry.Some?
    ensures EntriesOk(OpenRows(db, account, entry, opening, events))
  {
    var after := OpenRows(db, account, entry, opening, events);
    OpenWrites(db, account, entry, opening, events);
    forall w, i | w in after.ledger && 0 <= i < |after.ledger[w]|
      ensures EntryOk(after.txs, after.ledger[w][i])
    {
      if w != account.id {
        assert EntryOk(db.txs, db.ledger[w][i]);
        OtherEntriesStay(db.txs, after.txs, opening, db.ledger[w][i]);
      }
    }
  }

  lemma OpenKeepsMovements(db: DB, cfg: Settings, account: WalletState, entry: Option<LedgerEntry>, opening: Tx,
                           events: seq<Event>)
    requires WalletsOk(db) && MovementsRecorded(db) && TxsOk(db, cfg)
    requires PlanFits(db, account, entry, opening, events) && entry.Some?
    ensures MovementsRecorded(OpenRows(db, account, entry, opening, events))
  {
    var after := OpenRows(db, account, entry, opening, events);
    assert after.ledger[account.id][0].transactionId == opening.id;
    forall t | t in db.txs
      ensures TxOk(db.wallets, cfg, db.txs[t])
    {
    }
  }

  lemma OpenKeepsConserved(db: DB, account: WalletState, entry: Option<LedgerEntry>, opening: Tx, events: seq<Event>)
    requires WalletsOk(db) && EntriesOk(db) && ReversalsOk(db.txs) && OneReversalEach(db.txs) && Conserved(db)
    requires PlanFits(db, account, entry, opening, events) && entry.Some?
    ensures Conserved(OpenRows(db, account, entry, opening, events))
  {
    var after := OpenRows(db, account, entry, opening, events);
    OpenWrites(db, account, entry, opening, events);
    WriteKeepsReversals(db.txs, after.txs, opening);
    hide LiveSum, PlanFits, OpenRows, EntriesOk, ReversalsOk, OneReversalEach, EntryOk;
    forall w | w in after.wallets && w in after.ledger
      ensures after.wallets[w].balance.minor == LiveSum(after.txs, after.ledger[w])
    {
      if w == account.id {
        OpenedWalletIsConserved(db, account, entry, opening, events);
      } else {
        OtherWalletsStayConserved(db, account, entry, opening, events, w);
      }
    }
  }

  lemma OpenedWalletIsConserved(db: DB, account: WalletState, entry: Option<LedgerEntry>, opening: Tx, events: seq<Event>)
    requires PlanFits(db, account, entry, opening, events) && entry.Some?
    requires WalletsOk(db) && EntriesOk(db) && ReversalsOk(db.txs) && OneReversalEach(db.txs)
    ensures var after := OpenRows(db, account, entry, opening, events);
            after.wallets[account.id].balance.minor == LiveSum(after.txs, after.ledger[account.id])
  {
    var after := OpenRows(db, account, entry, opening, events);
    OpenWrites(db, account, entry, opening, events);
    WriteKeepsReversals(db.txs, after.txs, opening);
    SumFollowsEntry(db.txs, after.txs, opening, [], entry.value);
    assert [] + [entry.value] == after.ledger[account.id];
    assert EntryAt(EntriesOf(entry), 0, account.id, account.balance.currency, account.version);
  }

  lemma OtherWalletsStayConserved(db: DB, account: WalletState, entry: Option<LedgerEntry>, opening: Tx,
                                  events: seq<Event>, w: Id)
    requires WalletsOk(db) && EntriesOk(db) && ReversalsOk(db.txs) && OneReversalEach(db.txs) && Conserved(db)
    requires PlanFits(db, account, entry, opening, events) && entry.Some? && w in db.wallets && w != account.id
    ensures var after := OpenRows(db, account, entry, opening, events);
            w in after.wallets && w in after.ledger
            && after.wallets[w].balance.minor == LiveSum(after.txs, after.ledger[w])
  {
    var after := OpenRows(db, account, entry, opening, events);
    OpenWrites(db, account, entry, opening, events);
    WriteKeepsReversals(db.txs, after.txs, opening);
    EntriesAreProcessed(db, w);
    EntriesAvoid(db, w, opening.id);
    SumShifts(db.txs, after.txs, opening, db.ledger[w]);
    NoShift(db.txs, opening, db.ledger[w]);
    hide LiveSum, EntriesOk, ReversalsOk, OneReversalEach, Chain;
  }

  lemma EmptyWalletKeepsEntries(ledger: map<Id, seq<LedgerEntry>>, txs: map<Id, Tx>, w: Id)
    requires EntriesMatch(ledger, txs) && AllRecorded(ledger, txs) && w !in ledger
    ensures EntriesMatch(ledger[w := []], txs) && AllRecorded(ledger[w := []], txs)
  {
  }

  lemma EmptyWalletKeepsBalanced(db: DB, account: WalletState)
    requires Conserved(db) && account.balance.minor == 0
    ensures Balanced(db.wallets[account.id := account], db.ledger[account.id := []], db.txs)
  {
  }

  lemma OpenEmptyKeepsMoney(db: DB, account: WalletState, opening: Tx)
    requires WalletsOk(db) && MoneyInv(db)
    requires PlanFits(db, account, None, opening, [])
    ensures MoneyInv(OpenRows(db, account, None, opening, []))
  {
    EmptyWalletKeepsEntries(db.ledger, db.txs, account.id);
    EmptyWalletKeepsBalanced(db, account);
  }

  lemma OpenKeepsMoney(db: DB, cfg: Settings, account: WalletState, entry: Option<LedgerEntry>, opening: Tx,
                       events: seq<Event>)
    requires WalletsOk(db) && MoneyInv(db) && TxsOk(db, cfg)
    requires PlanFits(db, account, entry, opening, events)
    ensures MoneyInv(OpenRows(db, account, entry, opening, events))
  {
    if entry.Some? {
      OpenWrites(db, account, entry, opening, events);
      OpenKeepsEntries(db, cfg, account, entry, opening, events);
      OpenKeepsMovements(db, cfg, account, entry, opening, events);
      OpenKeepsConserved(db, account, entry, opening, events);
      WriteKeepsReversals(db.txs, db.txs[opening.id := opening], opening);
      WriteKeepsOneReversal(db.txs, db.txs[opening.id := opening], opening);
    } else {
      OpenEmptyKeepsMoney(db, account, opening);
    }
  }

  lemma OpeningEvents(opening: Tx, entry: LedgerEntry, cfg: Settings)
    requires opening.status == Processed && opening.referenceId == NIL && entry.transactionId == opening.id
    ensures var events := [TransactionProcessed(opening.id, opening.resultBalance, NIL, opening.completedAt),
                           BalanceChanged(opening.id, entry)];
            AnnouncedEntries(events) == [entry] && StatusEvents(events, opening.id) == Dictated(cfg, opening, false)
  {
    var first := TransactionProcessed(opening.id, opening.resultBalance, NIL, opening.completedAt);
    var second := BalanceChanged(opening.id, entry);
    OneEvent(first, opening.id);
    OneEvent(second, opening.id);
    AnnouncedAppend([first], [second]);
    StatusAppend([first], [second], opening.id);
    assert [first] + [second] == [first, second];
  }

  lemma OpenKeepsMirror(db: DB, account: WalletState, entry: Option<LedgerEntry>, opening: Tx, events: seq<Event>)
    requires WalletsOk(db) && LedgerAnnounced(db) && PlanFits(db, account, entry, opening, events)
    requires AnnouncedEntries(events) == EntriesOf(entry)
    ensures LedgerAnnounced(OpenRows(db, account, entry, opening, events))
  {
  }

  lemma OpenKeepsEventsKnown(db: DB, account: WalletState, entry: Option<LedgerEntry>, opening: Tx, events: seq<Event>)
    requires WalletsOk(db) && EventsKnown(db) && PlanFits(db, account, entry, opening, events)
    ensures EventsKnown(OpenRows(db, account, entry, opening, events))
  {
    var after := OpenRows(db, account, entry, opening, events);
    forall w, i | w in after.outbox && 0 <= i < |after.outbox[w]|
      ensures after.outbox[w][i].transactionId in after.txs
              && after.txs[after.outbox[w][i].transactionId].command.walletId == w
    {
      if w != account.id {
        assert after.outbox[w] == db.outbox[w];
      }
    }
  }

  lemma OpenKeepsStatus(db: DB, cfg: Settings, account: WalletState, entry: Option<LedgerEntry>, opening: Tx,
                        events: seq<Event>)
    requires WalletsOk(db) && TxsOk(db, cfg) && StatusAnnounced(db, cfg) && ParkedOk(db)
    requires PlanFits(db, account, entry, opening, events)
    requires entry.Some? ==> StatusEvents(events, opening.id) == Dictated(cfg, opening, false)
    ensures StatusAnnounced(OpenRows(db, account, entry, opening, events), cfg)
    ensures ParkedOk(OpenRows(db, account, entry, opening, events))
  {
    var after := OpenRows(db, account, entry, opening, events);
    forall t | t in after.txs && after.txs[t].command.walletId in after.outbox
      ensures StatusEvents(after.outbox[after.txs[t].command.walletId], t)
           == Dictated(cfg, after.txs[t], t in after.parked)
    {
      if t in db.txs {
        assert TxOk(db.wallets, cfg, db.txs[t]);
      }
    }
  }

  lemma OpenKeepsEvents(db: DB, cfg: Settings, account: WalletState, entry: Option<LedgerEntry>, opening: Tx,
                        events: seq<Event>)
    requires WalletsOk(db) && EventsInv(db, cfg) && TxsOk(db, cfg)
    requires PlanFits(db, account, entry, opening, events)
    ensures EventsInv(OpenRows(db, account, entry, opening, events), cfg)
  {
    if entry.Some? {
      OpeningEvents(opening, entry.value, cfg);
    }
    OpenKeepsMirror(db, account, entry, opening, events);
    OpenKeepsEventsKnown(db, account, entry, opening, events);
    OpenKeepsStatus(db, cfg, account, entry, opening, events);
  }

  /** Opening a wallet under fresh identifiers keeps every invariant of the tables. */
  lemma OpeningKeepsData(db: DB, cfg: Settings, account: WalletState, entry: Option<LedgerEntry>, opening: Tx,
                         events: seq<Event>)
    requires DataInv(db, cfg) && PlanFits(db, account, entry, opening, events)
    ensures DataInv(OpenRows(db, account, entry, opening, events), cfg)
  {
    OpenKeepsRows(db, cfg, account, entry, opening, events);
    OpenKeepsLedger(db, account, entry, opening, events);
    OpenKeepsKeysAndInbox(db, account, entry, opening, events);
    OpenKeepsMoney(db, cfg, account, entry, opening, events);
    OpenKeepsEvents(db, cfg, account, entry, opening, events);
  }
}
