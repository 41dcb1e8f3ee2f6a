/** The outbox mirrors the tables: its rows are exactly those the history of each operation dictates. */
module EventMirror {
  import opened Values
  import opened Ledgers
  import opened Wallets
  import opened Wagering
  import opened Decisions
  import opened Settlements
  import opened Databases
  import opened LedgerInvariants

  /** The ledger entries announced by WalletBalanceChanged, in order. */
  function AnnouncedEntries(events: seq<Event>): seq<LedgerEntry> {
    if events == [] then []
    else
      var before, last := AnnouncedEntries(events[..|events| - 1]), events[|events| - 1];
      if last.BalanceChanged? then before + [last.entry] else before
  }

  /** The status events about one operation, in order. */
  function StatusEvents(events: seq<Event>, t: Id): seq<Event> {
    if events == [] then []
    else
      var before, last := StatusEvents(events[..|events| - 1], t), events[|events| - 1];
      if last.transactionId == t && !last.BalanceChanged? then before + [last] else before
  }

  /** One pending announcement if it was ever parked, then one final announcement once it is settled.
      FAILED announces nothing. */
  function Dictated(cfg: Settings, tx: Tx, parked: bool): seq<Event> {
    Announced(cfg, tx, parked) + Final(tx)
  }

  function Announced(cfg: Settings, tx: Tx, parked: bool): seq<Event> {
    if parked then
      [TransactionPending(tx.id, tx.createdAt + cfg.referenceBackoff, tx.createdAt + cfg.referenceTtl, tx.createdAt)]
    else []
  }

  function Final(tx: Tx): seq<Event> {
    match tx.status
    case Processed => [TransactionProcessed(tx.id, tx.resultBalance, tx.referenceId, tx.completedAt)]
    case Rejected => [TransactionRejected(tx.id, tx.failureCode, tx.resultBalance, tx.completedAt)]
    case _ => []
  }

  /** The balance events of a wallet, read in order, are its ledger entry for entry. */
  predicate LedgerMirrored(ledger: map<Id, seq<LedgerEntry>>, outbox: map<Id, seq<Event>>) {
    forall w :: w in ledger && w in outbox ==> AnnouncedEntries(outbox[w]) == ledger[w]
  }

  predicate LedgerAnnounced(db: DB) {
    LedgerMirrored(db.ledger, db.outbox)
  }

  /** The status events of every operation are those its history dictates. */
  predicate StatusMirrored(outbox: map<Id, seq<Event>>, txs: map<Id, Tx>, parked: set<Id>, cfg: Settings) {
    forall t :: t in txs && txs[t].command.walletId in outbox ==>
      StatusEvents(outbox[txs[t].command.walletId], t) == Dictated(cfg, txs[t], t in parked)
  }

  predicate StatusAnnounced(db: DB, cfg: Settings) {
    StatusMirrored(db.outbox, db.txs, db.parked, cfg)
  }

  /** No event speaks of an operation that is not there, or on another wallet. */
  predicate NoStrayEvents(outbox: map<Id, seq<Event>>, txs: map<Id, Tx>) {
    forall w, i :: w in outbox && 0 <= i < |outbox[w]| ==>
      outbox[w][i].transactionId in txs && txs[outbox[w][i].transactionId].command.walletId == w
  }

  predicate EventsKnown(db: DB) {
    NoStrayEvents(db.outbox, db.txs)
  }

  predicate ParkedMatch(txs: map<Id, Tx>, parked: set<Id>) {
    && (forall t :: t in parked ==> t in txs)
    && (forall t :: t in txs && (txs[t].status == PendingReference || txs[t].status == Failed) ==> t in parked)
  }

  predicate ParkedOk(db: DB) {
    ParkedMatch(db.txs, db.parked)
  }

  // ---- sequences ----

  lemma {:induction false} AnnouncedAppend(a: seq<Event>, b: seq<Event>)
    ensures AnnouncedEntries(a + b) == AnnouncedEntries(a) + AnnouncedEntries(b)
  {
    if b == [] {
      assert a + b == a;
    } else {
      AnnouncedAppend(a, b[..|b| - 1]);
      assert (a + b)[..|a + b| - 1] == a + b[..|b| - 1];
    }
  }

  lemma {:induction false} StatusAppend(a: seq<Event>, b: seq<Event>, t: Id)
    ensures StatusEvents(a + b, t) == StatusEvents(a, t) + StatusEvents(b, t)
  {
    if b == [] {
      assert a + b == a;
    } else {
      StatusAppend(a, b[..|b| - 1], t);
      assert (a + b)[..|a + b| - 1] == a + b[..|b| - 1];
    }
  }

  lemma {:induction false} NoStatusEvents(events: seq<Event>, t: Id)
    requires forall i :: 0 <= i < |events| ==> events[i].transactionId != t
    ensures StatusEvents(events, t) == []
  {
    if events != [] {
      NoStatusEvents(events[..|events| - 1], t);
    }
  }

  lemma OneEvent(event: Event, t: Id)
    ensures AnnouncedEntries([event]) == if event.BalanceChanged? then [event.entry] else []
    ensures StatusEvents([event], t) == if event.transactionId == t && !event.BalanceChanged? then [event] else []
  {
    assert [event][..0] == [];
  }

  // ---- one settlement ----

  /** What the events of one settlement say. */
  predicate EventStep(cfg: Settings, door: Door, op: Tx, e: Effect) {
    && AnnouncedEntries(e.events) == EntriesOf(e.entry)
    && (forall i :: 0 <= i < |e.events| ==> e.events[i].transactionId == op.id)
    && Announced(cfg, op, door == Retry) + StatusEvents(e.events, op.id)
       == Dictated(cfg, e.op, door == Retry || e.op.status == PendingReference)
  }

  /** The status part of the events of a settlement; it is at most one event. */
  function StatusPart(cfg: Settings, door: Door, op: Tx): seq<Event> {
    Announced(cfg, op, door == Submission && op.status == PendingReference) + Final(op)
  }

  function BalancePart(e: Effect): seq<Event> {
    if e.entry.Some? then [BalanceChanged(e.op.id, e.entry.value)] else []
  }

  lemma EffectListsEvents(db: DB, door: Door, cfg: Settings, account: WalletState, op: Tx,
                          reference: Option<Reference>, e: Effect, now: Time)
    requires Committable(db, door, cfg, account, op, reference, e, now)
    ensures e.events == StatusPart(cfg, door, e.op) + BalancePart(e)
  {
    assert Announced(cfg, e.op, false) == [];
  }

  lemma StatusPartIsShort(cfg: Settings, door: Door, op: Tx)
    ensures var part := StatusPart(cfg, door, op);
            |part| <= 1 && forall i :: 0 <= i < |part| ==> part[i].transactionId == op.id && !part[i].BalanceChanged?
  {
  }

  lemma ShortStatusPart(part: seq<Event>, t: Id)
    requires |part| <= 1 && forall i :: 0 <= i < |part| ==> part[i].transactionId == t && !part[i].BalanceChanged?
    ensures AnnouncedEntries(part) == [] && StatusEvents(part, t) == part
  {
    if part != [] {
      assert part == [part[0]];
      OneEvent(part[0], t);
    }
  }

  lemma PartsTogether(status: seq<Event>, balance: seq<Event>, t: Id)
    requires AnnouncedEntries(status) == [] && StatusEvents(status, t) == status && StatusEvents(balance, t) == []
    ensures AnnouncedEntries(status + balance) == AnnouncedEntries(balance)
    ensures StatusEvents(status + balance, t) == status
  {
    AnnouncedAppend(status, balance);
    StatusAppend(status, balance, t);
  }

  lemma BalancePartAlone(e: Effect)
    ensures AnnouncedEntries(BalancePart(e)) == EntriesOf(e.entry) && StatusEvents(BalancePart(e), e.op.id) == []
  {
    if e.entry.Some? {
      OneEvent(BalanceChanged(e.op.id, e.entry.value), e.op.id);
    }
  }

  lemma ListedEventsStep(cfg: Settings, door: Door, op: Tx, e: Effect)
    requires SameIdentity(op, e.op) && e.op.status != Pending
    requires e.events == StatusPart(cfg, door, e.op) + BalancePart(e)
    ensures EventStep(cfg, door, op, e)
  {
    StatusPartIsShort(cfg, door, e.op);
    ShortStatusPart(StatusPart(cfg, door, e.op), op.id);
    BalancePartAlone(e);
    PartsTogether(StatusPart(cfg, door, e.op), BalancePart(e), op.id);
    PartsAreDictated(cfg, door, op, e.op);
    ListedEventsAreAbout(cfg, door, op, e);
  }

  lemma ListedEventsAreAbout(cfg: Settings, door: Door, op: Tx, e: Effect)
    requires op.id == e.op.id && e.events == StatusPart(cfg, door, e.op) + BalancePart(e)
    ensures forall i :: 0 <= i < |e.events| ==> e.events[i].transactionId == op.id
  {
    StatusPartIsShort(cfg, door, e.op);
    var status, balance := StatusPart(cfg, door, e.op), BalancePart(e);
    forall i | 0 <= i < |e.events|
      ensures e.events[i].transactionId == op.id
    {
      assert e.events[i] == if i < |status| then status[i] else balance[i - |status|];
    }
  }

  lemma PartsAreDictated(cfg: Settings, door: Door, op: Tx, after: Tx)
    requires SameIdentity(op, after) && after.status != Pending
    ensures Announced(cfg, op, door == Retry) + StatusPart(cfg, door, after)
         == Dictated(cfg, after, door == Retry || after.status == PendingReference)
  {
    assert Announced(cfg, op, true) == Announced(cfg, after, true);
  }

  lemma PersistKeepsLedgerAnnounced(db: DB, e: Effect)
    requires WalletsOk(db) && LedgerAnnounced(db) && e.account.id in db.wallets
    requires AnnouncedEntries(e.events) == EntriesOf(e.entry)
    ensures LedgerAnnounced(Persist(db, e))
  {
    AnnouncedAppend(db.outbox[e.account.id], e.events);
  }

  lemma PersistKeepsEventsKnown(db: DB, op: Tx, e: Effect)
    requires WalletsOk(db) && EventsKnown(db) && e.account.id in db.wallets
    requires RowWritten(db.txs, db.txs[e.op.id := e.op], e.op) && e.op.command.walletId == e.account.id
    requires forall i :: 0 <= i < |e.events| ==> e.events[i].transactionId == e.op.id
    ensures EventsKnown(Persist(db, e))
  {
    var after := Persist(db, e);
    forall w, i | w in after.outbox && 0 <= i < |after.outbox[w]|
      ensures after.outbox[w][i].transactionId in after.txs
              && after.txs[after.outbox[w][i].transactionId].command.walletId == w
    {
      if i < |db.outbox[w]| {
        assert after.outbox[w][i] == db.outbox[w][i];
      } else {
        assert after.outbox[w][i] == e.events[i - |db.outbox[w]|];
      }
    }
  }

  lemma OperationAnnounced(db: DB, cfg: Settings, door: Door, op: Tx, e: Effect)
    requires WalletsOk(db) && EventsKnown(db) && StatusAnnounced(db, cfg) && ParkedOk(db)
    requires e.account.id in db.wallets && e.op.command.walletId == e.account.id
    requires Current(db, door, op) && SameIdentity(op, e.op) && EventStep(cfg, door, op, e)
    requires door == Retry ==> op.status == PendingReference
    ensures StatusEvents(db.outbox[e.account.id] + e.events, op.id)
         == Dictated(cfg, e.op, op.id in Persist(db, e).parked)
  {
    var w := e.account.id;
    StatusAppend(db.outbox[w], e.events, op.id);
    if door == Submission {
      NoStatusEvents(db.outbox[w], op.id);
      assert [] + StatusEvents(e.events, op.id) == StatusEvents(e.events, op.id);
    } else {
      assert Dictated(cfg, op, true) == Announced(cfg, op, true) + [];
      assert StatusEvents(db.outbox[w], op.id) == Announced(cfg, op, true);
    }
  }

  lemma PersistKeepsStatusAnnounced(db: DB, cfg: Settings, door: Door, op: Tx, e: Effect)
    requires WalletsOk(db) && EventsKnown(db) && StatusAnnounced(db, cfg) && ParkedOk(db)
    requires e.account.id in db.wallets && e.op.command.walletId == e.account.id
    requires Current(db, door, op) && SameIdentity(op, e.op) && EventStep(cfg, door, op, e)
    requires door == Retry ==> op.status == PendingReference
    ensures StatusAnnounced(Persist(db, e), cfg)
  {
    var after := Persist(db, e);
    forall t | t in after.txs && after.txs[t].command.walletId in after.outbox
      ensures StatusEvents(after.outbox[after.txs[t].command.walletId], t)
           == Dictated(cfg, after.txs[t], t in after.parked)
    {
      if t == op.id {
        OperationAnnounced(db, cfg, door, op, e);
      } else if after.txs[t].command.walletId == e.account.id {
        StatusAppend(db.outbox[e.account.id], e.events, t);
        NoStatusEvents(e.events, t);
      }
    }
  }

  lemma PersistKeepsParked(db: DB, e: Effect)
    requires WalletsOk(db) && ParkedOk(db) && e.account.id in db.wallets
    requires e.op.status != Failed
    ensures ParkedOk(Persist(db, e))
  {
  }
}
