/** Repeated deliveries: each key is settled once, and erasing the repeats changes nothing but the inbox. */
module Duplicates {
  import opened Values
  import opened Moneys
  import opened Wallets
  import opened Wagering
  import opened Decisions
  import opened Settlements
  import opened Databases
  import opened DataInvariants
  import opened Protocol
  import opened LockDiscipline
  import opened UnitKnowledge
  import opened ProtocolInvariant
  import opened UnitSteps
  import opened Interference
  import opened Commits
  import opened CommitEffects
  import opened Safety
  import opened Refinement
  import opened Guarantees

  /** Everything but the inbox. */
  predicate SameBusiness(a: DB, b: DB) {
    a.wallets == b.wallets && a.txs == b.txs && a.ledger == b.ledger && a.outbox == b.outbox && a.parked == b.parked
  }

  // ---- in every interleaving ----

  /** A commit that answers a repeat writes nothing but its own inbox row. */
  lemma ReplaysWriteOnlyTheInbox(cfg: Settings, s: State, p: Pid, result: CommitResult)
    requires Enabled(s, Commit(p, result)) && (s.units[p].Replaying? || s.units[p].Answering?)
    ensures var after := Step(cfg, s, Commit(p, result)).db;
            && SameBusiness(s.db, after)
            && forall m :: m in after.inbox && (m !in s.db.inbox || after.inbox[m] != s.db.inbox[m]) ==>
                 FromQueue(s.units[p].job) && m == s.units[p].job.input.message.value.id
  {
  }

  /** The unit of this step settles a submission under the key, and the commit takes effect. */
  predicate SettlesKey(s: State, a: Action, providerId: Text, key: Text) {
    && a.Commit? && a.result != LostBefore && a.p in s.units
    && s.units[a.p].Committing? && s.units[a.p].job.SubmitJob?
    && s.units[a.p].op.command.providerId == providerId && s.units[a.p].op.command.idempotencyKey == key
  }

  ghost predicate KeyCommitted(db: DB, providerId: Text, key: Text) {
    exists t :: t in db.txs && HasKey(db.txs[t], providerId, key)
  }

  lemma SettlingCommitsKey(cfg: Settings, s: State, a: Action, providerId: Text, key: Text)
    requires ValidSettings(cfg) && Reachable(cfg, s) && Enabled(s, a) && SettlesKey(s, a, providerId, key)
    ensures !KeyCommitted(s.db, providerId, key) && KeyCommitted(Step(cfg, s, a).db, providerId, key)
  {
    hide Reachable, Enabled, Step, WalletsOk, LedgerOk, TxsOk, KeysOk, InboxOk, MoneyInv, EventsInv, LockInv, AttemptsOk,
         WakesOk, UsedOk, UnitOk, Applied;
    ReachableTables(cfg, s);
    var u := s.units[a.p];
    CommitStepIs(cfg, s, a.p, a.result);
    EffectStatus(cfg, s.db, s.used, s.clock, s.missed, u);
    SubmitterHasFreeKeys(cfg, s.db, s.used, s.clock, s.missed, u);
    CommitWrites(s.db, u);
    assert HasKey(Applied(s.db, u).txs[u.op.id], providerId, key);
  }

  lemma SubmitterHasFreeKeys(cfg: Settings, db: DB, used: set<Id>, clock: Time, missed: set<Skip>, u: Unit)
    requires u.Committing? && u.job.SubmitJob? && UnitOk(cfg, db, used, clock, missed, u)
    ensures KeysFree(db.txs, u.op) && u.op.command.kind != Opening
  {
  }

  lemma {:induction false} CommittedKeyStays(cfg: Settings, states: seq<State>, actions: seq<Action>, i: nat, j: nat,
                                             providerId: Text, key: Text)
    requires ValidSettings(cfg) && Run(cfg, states, actions) && i <= j < |states|
    requires KeyCommitted(states[i].db, providerId, key)
    ensures KeyCommitted(states[j].db, providerId, key)
    decreases j
  {
    hide Step, Enabled, Reachable, HasKey;
    if i < j {
      CommittedKeyStays(cfg, states, actions, i, j - 1, providerId, key);
      RunReaches(cfg, states, actions, j - 1);
      assert Follows(cfg, states[j - 1], actions[j - 1], states[j]);
      HistoryIsKept(cfg, states[j - 1], actions[j - 1]);
      KeyOutlives(states[j - 1].db, states[j].db, providerId, key);
    }
  }

  lemma KeyOutlives(db: DB, after: DB, providerId: Text, key: Text)
    requires Evolves(db, after) && KeyCommitted(db, providerId, key)
    ensures KeyCommitted(after, providerId, key)
  {
    var t :| t in db.txs && HasKey(db.txs[t], providerId, key);
    assert t in after.txs && HasKey(after.txs[t], providerId, key);
  }

  /** However often a request is delivered, over whichever doors, in whatever interleaving with crashes and lost
      answers, at most one commit of a run settles its key. */
  lemma EachKeySettlesOnce(cfg: Settings, states: seq<State>, actions: seq<Action>, i: nat, j: nat, providerId: Text,
                           key: Text)
    requires ValidSettings(cfg) && Run(cfg, states, actions) && i < |actions| && j < |actions|
    requires SettlesKey(states[i], actions[i], providerId, key) && SettlesKey(states[j], actions[j], providerId, key)
    ensures i == j
  {
    hide Step, Enabled, Reachable, SettlesKey, KeyCommitted;
    RunReaches(cfg, states, actions, i);
    RunReaches(cfg, states, actions, j);
    assert Follows(cfg, states[i], actions[i], states[i + 1]) && Follows(cfg, states[j], actions[j], states[j + 1]);
    SettlingCommitsKey(cfg, states[i], actions[i], providerId, key);
    SettlingCommitsKey(cfg, states[j], actions[j], providerId, key);
    if i < j {
      CommittedKeyStays(cfg, states, actions, i + 1, j, providerId, key);
    } else if j < i {
      CommittedKeyStays(cfg, states, actions, j + 1, i, providerId, key);
    }
  }

  // ---- the atomic service ----

  /** One thing that happens to the service. `applied` says whether the transaction of a delivery took effect,
      whatever its answer. */
  datatype Item =
    | Deliver(input: Input, now: Time, id: Id, entryId: Id, applied: bool)
    | RetryRow(row: Id, at: Time, retryEntryId: Id)
    | GiveUpRow(failing: Id, failedAt: Time)

  /** A submission in one indivisible step. */
  ghost function Submit(cfg: Settings, db: DB, d: Item): DB
    requires d.Deliver?
  {
    var command := CommandOf(d.input);
    if d.input.message.Some? && d.input.message.value.id in db.inbox then db
    else match NewExternal(command, d.id, d.now)
      case Err(_) => db
      case Ok(op) =>
        if !KeysFree(db.txs, op) || op.id in db.txs then
          match FindByKey(db.txs, command.providerId, command.idempotencyKey)
          case None => db
          case Some(existing) =>
            if existing.command.payloadHash != command.payloadHash then db
            else CompleteInbox(db, SubmitJob(d.input), OutcomeReplay, existing.id)
        else if op.command.walletId !in db.wallets then db
        else SettleNow(cfg, db, Submission, SubmitJob(d.input), op, d.entryId, d.now)
  }

  /** Settle, write, wake every waiting row, complete the inbox row. */
  ghost function SettleNow(cfg: Settings, db: DB, door: Door, job: Job, op: Tx, entryId: Id, now: Time): DB
    requires op.command.walletId in db.wallets
  {
    match AtomicSettle(door, cfg, db, op, entryId, now)
    case Err(_) => db
    case Ok(e) =>
      if e.account.id !in db.ledger || e.account.id !in db.outbox then db
      else
        var woken := if e.op.status == PendingReference then {}
                     else set t | t in db.txs && Asleep(db, op, now, t);
        CompleteInbox(Wake(Persist(db, e), woken, now), job, OutcomeOf(e.op.status), e.op.id)
  }

  ghost function Serve(cfg: Settings, db: DB, item: Item): DB {
    match item
    case Deliver(_, _, _, _, applied) => if applied then Submit(cfg, db, item) else db
    case RetryRow(row, at, entryId) =>
      if row in db.txs && db.txs[row].status == PendingReference && db.txs[row].nextAttemptAt <= at
         && db.txs[row].command.walletId in db.wallets then
        SettleNow(cfg, db, Retry, RetryJob, db.txs[row], entryId, at)
      else db
    case GiveUpRow(row, at) =>
      if row in db.txs && MarkFailed(db.txs[row], at).Ok? then
        db.(txs := db.txs[row := MarkFailed(db.txs[row], at).value])
      else db
  }

  ghost function ServeAll(cfg: Settings, db: DB, items: seq<Item>): DB
    decreases |items|
  {
    if items == [] then db else ServeAll(cfg, Serve(cfg, db, items[0]), items[1..])
  }

  /** A delivery whose key an earlier delivery has already committed. */
  ghost predicate Repeats(db: DB, item: Item) {
    item.Deliver? && KeyCommitted(db, item.input.request.providerId, item.input.request.idempotencyKey)
  }

  /** The items without the repeats. */
  ghost function Erased(cfg: Settings, db: DB, items: seq<Item>): seq<Item>
    decreases |items|
  {
    if items == [] then []
    else
      var rest := Erased(cfg, Serve(cfg, db, items[0]), items[1..]);
      if Repeats(db, items[0]) then rest else [items[0]] + rest
  }

  /** Message ids are used consistently: one id, one body. */
  predicate OneBodyPerMessage(items: seq<Item>) {
    && (forall i :: 0 <= i < |items| && items[i].Deliver? ==> ValidInput(items[i].input))
    && (forall i, j :: 0 <= i < |items| && 0 <= j < |items| && items[i].Deliver? && items[j].Deliver?
                       && items[i].input.message.Some? && items[j].input.message.Some?
                       && items[i].input.message.value.id == items[j].input.message.value.id ==>
          items[i].input.message.value.bodyHash == items[j].input.message.value.bodyHash)
  }

  /** Each inbox row was left by the body of a delivery, and the key that body carries is committed. */
  ghost predicate InboxBacked(db: DB) {
    forall m :: m in db.inbox ==>
      KeyCommitted(db, db.inbox[m].bodyHash.fields.providerId, db.inbox[m].bodyHash.idempotencyKey)
  }

  /** No message of the items is already in the inbox under another body. */
  predicate Agrees(db: DB, items: seq<Item>) {
    forall i :: 0 <= i < |items| && items[i].Deliver? && items[i].input.message.Some?
                && items[i].input.message.value.id in db.inbox ==>
      db.inbox[items[i].input.message.value.id].bodyHash == items[i].input.message.value.bodyHash
  }

  /** A repeat changes no business table. */
  lemma RepeatIsQuiet(cfg: Settings, db: DB, item: Item)
    requires Repeats(db, item)
    ensures SameBusiness(db, Serve(cfg, db, item))
  {
    var command := CommandOf(item.input);
    var born := NewExternal(command, item.id, item.now);
    if born.Ok? {
      KeyIsNotFree(db, command, item.id, item.now);
    }
  }

  lemma KeyIsNotFree(db: DB, command: Command, id: Id, now: Time)
    requires KeyCommitted(db, command.providerId, command.idempotencyKey)
    requires NewExternal(command, id, now).Ok?
    ensures !KeysFree(db.txs, NewExternal(command, id, now).value)
  {
    var t :| t in db.txs && HasKey(db.txs[t], command.providerId, command.idempotencyKey);
    assert NewExternal(command, id, now).value.command == command;
  }

  /** A first delivery finds its message id free. */
  lemma FirstDeliveryIsUnregistered(db: DB, item: Item)
    requires InboxBacked(db) && item.Deliver? && !Repeats(db, item) && Agrees(db, [item]) && ValidInput(item.input)
    ensures item.input.message.Some? ==> item.input.message.value.id !in db.inbox
  {
    assert [item][0] == item;
  }

  lemma ReadsAlike(a: DB, b: DB, op: Tx, now: Time)
    requires SameBusiness(a, b)
    ensures CommittedReference(a, op) == CommittedReference(b, op)
    ensures (set t | t in a.txs && Asleep(a, op, now, t)) == (set t | t in b.txs && Asleep(b, op, now, t))
  {
    hide FindByExternalId, HasReversal;
  }

  lemma SettleNowAlike(cfg: Settings, a: DB, b: DB, door: Door, job: Job, op: Tx, entryId: Id, now: Time)
    requires SameBusiness(a, b) && op.command.walletId in a.wallets
    ensures SameBusiness(SettleNow(cfg, a, door, job, op, entryId, now), SettleNow(cfg, b, door, job, op, entryId, now))
  {
    hide Settle, CommittedReference, Asleep, WakeRows;
    ReadsAlike(a, b, op, now);
  }

  /** On tables that differ only in their inboxes, an item that neither inbox knows does the same. */
  lemma ServedAlike(cfg: Settings, a: DB, b: DB, item: Item)
    requires SameBusiness(a, b)
    requires item.Deliver? && item.input.message.Some? ==>
               item.input.message.value.id !in a.inbox && item.input.message.value.id !in b.inbox
    ensures SameBusiness(Serve(cfg, a, item), Serve(cfg, b, item))
  {
    hide SettleNow, NewExternal;
    match item
    case Deliver(input, now, id, entryId, applied) =>
      var born := NewExternal(CommandOf(input), id, now);
      if born.Ok? && born.value.command.walletId in a.wallets {
        SettleNowAlike(cfg, a, b, Submission, SubmitJob(input), born.value, entryId, now);
      }
    case RetryRow(row, at, entryId) =>
      if row in a.txs && a.txs[row].command.walletId in a.wallets {
        SettleNowAlike(cfg, a, b, Retry, RetryJob, a.txs[row], entryId, at);
      }
    case GiveUpRow(_, _) =>
  }

  // ---- what the executor keeps ----

  lemma SettleKeepsIdentity(door: Door, cfg: Settings, account: WalletState, op: Tx, reference: Option<Reference>,
                            entryId: Id, now: Time)
    ensures var r := Settle(door, cfg, account, op, reference, entryId, now); r.Ok? ==> SameIdentity(op, r.value.op)
  {
    hide Decide, Move, SettlementEvents;
  }

  /** The rows after settling `op`: its own, and every other one under its own identity. */
  lemma SettledRows(cfg: Settings, db: DB, door: Door, job: Job, op: Tx, entryId: Id, now: Time)
    requires op.command.walletId in db.wallets && RowsKeyed(db.txs)
    requires op.id in db.txs ==> db.txs[op.id].command == op.command
    ensures var after := SettleNow(cfg, db, door, job, op, entryId, now);
            && RowsKeyed(after.txs) && after.txs.Keys <= db.txs.Keys + {op.id}
            && (forall t :: t in db.txs ==> t in after.txs && after.txs[t].command == db.txs[t].command)
            && (op.id in after.txs ==> after.txs[op.id].command == op.command)
            && (after != db ==> op.id in after.txs)
            && (forall m :: m in after.inbox && (m !in db.inbox || after.inbox[m] != db.inbox[m]) ==>
                  FromQueue(job) && m == job.input.message.value.id
                  && after.inbox[m].bodyHash == job.input.message.value.bodyHash)
  {
    SettleKeepsIdentity(door, cfg, db.wallets[op.command.walletId], op, CommittedReference(db, op), entryId, now);
    hide Settle, FindOriginal, HasReversal, Asleep;
  }

  ghost predicate KeepsRows(db: DB, after: DB, item: Item) {
    && RowsKeyed(after.txs)
    && (forall t :: t in db.txs ==> t in after.txs && after.txs[t].command == db.txs[t].command)
    && (forall t :: t in after.txs && t !in db.txs ==> item.Deliver? && t == item.id)
    && (forall m :: m in after.inbox && (m !in db.inbox || after.inbox[m] != db.inbox[m]) ==>
          item.Deliver? && item.input.message.Some? && m == item.input.message.value.id
          && after.inbox[m].bodyHash == item.input.message.value.bodyHash
          && KeyCommitted(after, item.input.request.providerId, item.input.request.idempotencyKey))
  }

  lemma ReplayKeepsRows(db: DB, item: Item, t: Id)
    requires RowsKeyed(db.txs) && item.Deliver? && t in db.txs
    requires HasKey(db.txs[t], item.input.request.providerId, item.input.request.idempotencyKey)
    ensures KeepsRows(db, CompleteInbox(db, SubmitJob(item.input), OutcomeReplay, db.txs[t].id), item)
  {
  }

  lemma SubmissionKeepsRows(cfg: Settings, db: DB, item: Item, op: Tx)
    requires RowsKeyed(db.txs) && item.Deliver? && op.id == item.id && op.id !in db.txs
    requires op.command == CommandOf(item.input) && op.command.kind != Opening && op.command.walletId in db.wallets
    ensures KeepsRows(db, SettleNow(cfg, db, Submission, SubmitJob(item.input), op, item.entryId, item.now), item)
  {
    hide SettleNow;
    SettledRows(cfg, db, Submission, SubmitJob(item.input), op, item.entryId, item.now);
    var after := SettleNow(cfg, db, Submission, SubmitJob(item.input), op, item.entryId, item.now);
    assert op.id in after.txs ==> HasKey(after.txs[op.id], op.command.providerId, op.command.idempotencyKey);
  }

  lemma NothingKeepsRows(db: DB, item: Item)
    requires RowsKeyed(db.txs)
    ensures KeepsRows(db, db, item)
  {
  }

  lemma SubmitKeepsRows(cfg: Settings, db: DB, item: Item)
    requires RowsKeyed(db.txs) && item.Deliver?
    ensures KeepsRows(db, Submit(cfg, db, item), item)
  {
    hide SettleNow, NewExternal, FindByKey, KeepsRows, KeysFree, RowsKeyed, HasKey;
    var command := CommandOf(item.input);
    BornAs(command, item.id, item.now);
    FoundByKey(db.txs, command.providerId, command.idempotencyKey);
    NothingKeepsRows(db, item);
    var born := NewExternal(command, item.id, item.now);
    var found := FindByKey(db.txs, command.providerId, command.idempotencyKey);
    if born.Ok? && found.Some? {
      var t :| t in db.txs && found.value == db.txs[t] && HasKey(db.txs[t], command.providerId, command.idempotencyKey);
      ReplayKeepsRows(db, item, t);
    }
    if born.Ok? && item.id !in db.txs && born.value.command.walletId in db.wallets {
      SubmissionKeepsRows(cfg, db, item, born.value);
    }
  }

  lemma ServeKeepsRows(cfg: Settings, db: DB, item: Item)
    requires RowsKeyed(db.txs)
    ensures KeepsRows(db, Serve(cfg, db, item), item)
  {
    hide SettleNow, Submit;
    match item
    case Deliver(_, _, _, _, _) => SubmitKeepsRows(cfg, db, item);
    case RetryRow(row, at, entryId) =>
      if row in db.txs && db.txs[row].command.walletId in db.wallets {
        SettledRows(cfg, db, Retry, RetryJob, db.txs[row], entryId, at);
      }
    case GiveUpRow(_, _) =>
  }

  lemma CommittedKeyKept(db: DB, after: DB, item: Item, providerId: Text, key: Text)
    requires KeepsRows(db, after, item) && KeyCommitted(db, providerId, key)
    ensures KeyCommitted(after, providerId, key)
  {
    var t :| t in db.txs && HasKey(db.txs[t], providerId, key);
    assert t in after.txs && HasKey(after.txs[t], providerId, key);
  }

  lemma ServeKeepsInbox(cfg: Settings, db: DB, items: seq<Item>)
    requires RowsKeyed(db.txs) && items != [] && OneBodyPerMessage(items) && InboxBacked(db) && Agrees(db, items)
    ensures var after := Serve(cfg, db, items[0]);
            RowsKeyed(after.txs) && InboxBacked(after) && Agrees(after, items[1..])
  {
    hide Serve, KeyCommitted;
    var after := Serve(cfg, db, items[0]);
    ServeKeepsRows(cfg, db, items[0]);
    forall m | m in after.inbox
      ensures KeyCommitted(after, after.inbox[m].bodyHash.fields.providerId, after.inbox[m].bodyHash.idempotencyKey)
    {
      if m in db.inbox && after.inbox[m] == db.inbox[m] {
        CommittedKeyKept(db, after, items[0], db.inbox[m].bodyHash.fields.providerId, db.inbox[m].bodyHash.idempotencyKey);
      }
    }
  }

  lemma SkipKeepsInbox(db: DB, items: seq<Item>)
    requires items != [] && OneBodyPerMessage(items) && Agrees(db, items)
    ensures OneBodyPerMessage(items[1..]) && Agrees(db, items[1..]) && Agrees(db, [items[0]])
  {
  }

  /** With consistent message ids, a run and the same run without its repeats leave the same wallets, operations,
      ledgers and outboxes: from tables that agree on them, whatever the inboxes hold. */
  lemma {:induction false} ErasureKeepsBusiness(cfg: Settings, a: DB, b: DB, items: seq<Item>)
    requires SameBusiness(a, b) && RowsKeyed(a.txs) && OneBodyPerMessage(items)
    requires InboxBacked(a) && InboxBacked(b) && Agrees(a, items) && Agrees(b, items)
    ensures SameBusiness(ServeAll(cfg, a, items), ServeAll(cfg, b, Erased(cfg, a, items)))
    decreases |items|
  {
    hide Serve, InboxBacked, Agrees, OneBodyPerMessage, SameBusiness;
    if items != [] {
      var item, rest := items[0], items[1..];
      SkipKeepsInbox(b, items);
      SkipKeepsInbox(a, items);
      ServeKeepsInbox(cfg, a, items);
      SameTxs(a, b);
      if Repeats(a, item) {
        RepeatIsQuiet(cfg, a, item);
        SameBusinessJoins(a, Serve(cfg, a, item), b);
        ErasureKeepsBusiness(cfg, Serve(cfg, a, item), b, rest);
      } else {
        ServeKeepsInbox(cfg, b, items);
        FirstIsUnknown(cfg, a, b, items);
        ServedAlike(cfg, a, b, item);
        ErasureKeepsBusiness(cfg, Serve(cfg, a, item), Serve(cfg, b, item), rest);
        assert ([item] + Erased(cfg, Serve(cfg, a, item), rest))[1..] == Erased(cfg, Serve(cfg, a, item), rest);
      }
    }
  }

  lemma SameTxs(a: DB, b: DB)
    requires SameBusiness(a, b)
    ensures a.txs == b.txs
  {
  }

  lemma SameBusinessJoins(a: DB, c: DB, b: DB)
    requires SameBusiness(a, c) && SameBusiness(a, b)
    ensures SameBusiness(c, b)
  {
  }

  lemma FirstIsUnknown(cfg: Settings, a: DB, b: DB, items: seq<Item>)
    requires items != [] && SameBusiness(a, b) && OneBodyPerMessage(items)
    requires InboxBacked(a) && InboxBacked(b) && Agrees(a, items) && Agrees(b, items) && !Repeats(a, items[0])
    ensures var item := items[0];
            item.Deliver? && item.input.message.Some? ==>
              item.input.message.value.id !in a.inbox && item.input.message.value.id !in b.inbox
  {
    var item := items[0];
    SkipKeepsInbox(a, items);
    SkipKeepsInbox(b, items);
    if item.Deliver? {
      assert !Repeats(b, item) by {
        assert a.txs == b.txs;
      }
      FirstDeliveryIsUnregistered(a, item);
      FirstDeliveryIsUnregistered(b, item);
    }
  }

  /** Duplicate erasure, from the start of a service with any wallets and an empty inbox. */
  lemma DuplicatesCanBeErased(cfg: Settings, db: DB, items: seq<Item>)
    requires RowsKeyed(db.txs) && db.inbox == map[] && OneBodyPerMessage(items)
    ensures SameBusiness(ServeAll(cfg, db, items), ServeAll(cfg, db, Erased(cfg, db, items)))
  {
    ErasureKeepsBusiness(cfg, db, db, items);
  }

  // ---- one message id with two bodies ----

  function LossRequest(k: nat): Command {
    Command(Queue, Loss, Word(0), Word(k), Word(k), NoHash, 9, 1, Word(0), Word(0), Money(0, BRL), Empty, Word(0))
  }

  function BodyOf(k: nat): BodyHash {
    BodyHash(FieldsOf(LossRequest(k)), Word(k), 0)
  }

  const ONE_WALLET := DB(map[1 := WalletState(1, 9, Money(0, BRL), 1, 1, 1)], map[], map[1 := []], map[1 := []], map[], {})

  /** The request 1 over HTTP, again from the queue as message 7, then request 2 under the same message id. */
  const TWO_BODIES: seq<Item> := [
    Deliver(Input(LossRequest(1), None), 5, 101, 201, true),
    Deliver(Input(LossRequest(1), Some(Message(Word(7), BodyOf(1)))), 6, 102, 202, true),
    Deliver(Input(LossRequest(2), Some(Message(Word(7), BodyOf(2)))), 7, 103, 203, true)]

  lemma LossIsBorn(k: nat, id: Id, now: Time, input: Input)
    requires id != NIL && now > 0 && input.request == LossRequest(k)
    ensures NewExternal(CommandOf(input), id, now).Ok?
    ensures var op := NewExternal(CommandOf(input), id, now).value;
            && op.id == id && op.command == CommandOf(input) && Open(Submission, op) && op.command.kind == Loss
  {
    NewExternalIsOpen(CommandOf(input), id, now);
  }

  lemma LossSettles(cfg: Settings, db: DB, op: Tx, entryId: Id, now: Time)
    requires Open(Submission, op) && op.command.kind == Loss && now > 0 && entryId != NIL
    requires op.command.walletId == 1 && op.command.playerId == 9 && op.command.amount == Money(0, BRL)
    requires 1 in db.wallets && db.wallets[1] == ONE_WALLET.wallets[1]
    ensures var e := AtomicSettle(Submission, cfg, db, op, entryId, now);
            e.Ok? && e.value.account == db.wallets[1] && e.value.op.id == op.id && e.value.op.command == op.command
            && e.value.op.status == Processed
  {
    var account := db.wallets[1];
    ProcessedIsAccepted(op, account.balance, NIL, now);
    var processed := MarkProcessed(op, account.balance, NIL, now).value;
    EnvelopeSucceeds(processed, now, now, TransactionProcessed(processed.id, account.balance, processed.referenceId, now));
    hide CommittedReference, MarkProcessed, Rehydrate;
  }

  /** A first LOSS on the wallet becomes a row. */
  lemma LossIsServed(cfg: Settings, db: DB, d: Item, k: nat)
    requires d.Deliver? && d.applied && d.input.request == LossRequest(k) && d.id != NIL && d.now > 0 && d.entryId != NIL
    requires db.wallets == ONE_WALLET.wallets && 1 in db.ledger && 1 in db.outbox && d.id !in db.txs
    requires forall t :: t in db.txs ==> db.txs[t].command.idempotencyKey != Word(k)
                                         && db.txs[t].command.externalId != Word(k)
    requires d.input.message.Some? ==> d.input.message.value.id !in db.inbox
    ensures var after := Serve(cfg, db, d);
            && after.txs.Keys == db.txs.Keys + {d.id} && after.txs[d.id].command == CommandOf(d.input)
            && after.wallets == db.wallets && after.ledger.Keys == db.ledger.Keys && after.outbox.Keys == db.outbox.Keys
            && (d.input.message.None? ==> after.inbox == db.inbox)
            && (d.input.message.Some? ==> d.input.message.value.id in after.inbox)
  {
    hide NewExternal, AtomicSettle, Asleep, Rehydrate;
    LossIsBorn(k, d.id, d.now, d.input);
    var op := NewExternal(CommandOf(d.input), d.id, d.now).value;
    LossSettles(cfg, db, op, d.entryId, d.now);
    assert KeysFree(db.txs, op);
    assert db.wallets[1 := db.wallets[1]] == db.wallets;
  }

  /** Erasing duplicates is not safe when a publisher puts two bodies under one message id: the repeat that is erased
      had registered the id, and without it the second body is settled. */
  lemma TwoBodiesBreakErasure(cfg: Settings)
    ensures !OneBodyPerMessage(TWO_BODIES)
    ensures 103 !in ServeAll(cfg, ONE_WALLET, TWO_BODIES).txs
    ensures 103 in ServeAll(cfg, ONE_WALLET, Erased(cfg, ONE_WALLET, TWO_BODIES)).txs
  {
    hide Serve, KeyCommitted;
    var d1, d2, d3 := TWO_BODIES[0], TWO_BODIES[1], TWO_BODIES[2];
    var db0 := ONE_WALLET;
    var db1 := Serve(cfg, db0, d1);
    LossIsServed(cfg, db0, d1, 1);
    NoKeyYet(db0, d1);
    KeyNowThere(db1, d2, 101);
    RepeatIsQuiet(cfg, db1, d2);
    var db2 := Serve(cfg, db1, d2);
    RepeatIsRegistered(cfg, db1, d2, 101);
    var db3 := Serve(cfg, db2, d3);
    RegisteredIsAnswered(cfg, db2, d3);
    NoSecondKey(db2, d3);
    LossIsServed(cfg, db1, d3, 2);
    ServedInOrder(cfg, db0, d1, d2, d3);
    assert d2.input.message.value.id == d3.input.message.value.id && BodyOf(1) != BodyOf(2);
  }

  lemma NoKeyYet(db: DB, d: Item)
    requires db.txs == map[]
    ensures !Repeats(db, d)
  {
  }

  lemma KeyNowThere(db: DB, d: Item, t: Id)
    requires d.Deliver? && t in db.txs && db.txs[t].command.kind != Opening
    requires db.txs[t].command.providerId == d.input.request.providerId
    requires db.txs[t].command.idempotencyKey == d.input.request.idempotencyKey
    ensures Repeats(db, d)
  {
    assert HasKey(db.txs[t], d.input.request.providerId, d.input.request.idempotencyKey);
  }

  lemma NoSecondKey(db: DB, d: Item)
    requires d.Deliver?
    requires forall t :: t in db.txs ==> db.txs[t].command.idempotencyKey != d.input.request.idempotencyKey
    ensures !Repeats(db, d)
  {
  }

  lemma RepeatIsRegistered(cfg: Settings, db: DB, d: Item, t: Id)
    requires d == TWO_BODIES[1] && db.inbox == map[] && db.txs.Keys == {t}
    requires db.txs[t].command == CommandOf(d.input)
    ensures Word(7) in Serve(cfg, db, d).inbox
  {
    LossIsBorn(1, d.id, d.now, d.input);
    hide NewExternal, SettleNow;
    KeyNowThere(db, d, t);
    KeyIsNotFree(db, CommandOf(d.input), d.id, d.now);
    FoundByKey(db.txs, Word(0), Word(1));
  }

  lemma RegisteredIsAnswered(cfg: Settings, db: DB, d: Item)
    requires d.Deliver? && d.input.message.Some? && d.input.message.value.id in db.inbox
    ensures Serve(cfg, db, d) == db
  {
  }

  lemma ServedInOrder(cfg: Settings, db: DB, d1: Item, d2: Item, d3: Item)
    requires !Repeats(db, d1) && Repeats(Serve(cfg, db, d1), d2)
    requires !Repeats(Serve(cfg, Serve(cfg, db, d1), d2), d3)
    ensures ServeAll(cfg, db, [d1, d2, d3]) == Serve(cfg, Serve(cfg, Serve(cfg, db, d1), d2), d3)
    ensures ServeAll(cfg, db, Erased(cfg, db, [d1, d2, d3])) == Serve(cfg, Serve(cfg, db, d1), d3)
  {
    hide Serve, Repeats;
    var all := [d1, d2, d3];
    assert all[1..] == [d2, d3] && [d2, d3][1..] == [d3] && [d3][1..] == [];
    var db1 := Serve(cfg, db, d1);
    var db2 := Serve(cfg, db1, d2);
    assert Erased(cfg, db2, [d3]) == [d3] + Erased(cfg, Serve(cfg, db2, d3), []);
    assert Erased(cfg, db1, [d2, d3]) == Erased(cfg, db2, [d3]) == [d3];
    assert Erased(cfg, db, all) == [d1] + [d3] == [d1, d3];
    assert [d1, d3][1..] == [d3];
    assert ServeAll(cfg, db2, [d3]) == ServeAll(cfg, Serve(cfg, db2, d3), []);
    assert ServeAll(cfg, db1, [d2, d3]) == ServeAll(cfg, db2, [d3]);
    assert ServeAll(cfg, db1, [d3]) == ServeAll(cfg, Serve(cfg, db1, d3), []);
  }
}
