/** The settlement protocol: submissions, the retry worker and the give-up path as processes that interleave,
    statement by statement, over the committed tables and one table of locks held until commit or abort. */
module Protocol {
  import opened Values
  import opened Moneys
  import opened Wallets
  import opened Wagering
  import opened Decisions
  import opened Settlements
  import opened Databases
  import opened TableWrites

  type Pid = nat

  /** What a process can lock: an uncommitted unique key, a row of the operations, a wallet row. */
  datatype Resource =
    | InboxKey(messageId: Text)
    | IdempotencyKey(providerId: Text, key: Text)
    | ExternalKey(owner: Text, externalId: Text)
    | RowKey(transactionId: Id)
    | WalletKey(walletId: Id)

  datatype Message = Message(id: Text, bodyHash: BodyHash)

  /** A validated submission; it came from the queue when it carries a message. */
  datatype Input = Input(request: Command, message: Option<Message>)

  function FieldsOf(c: Command): PayloadFields {
    PayloadFields(c.providerId, c.externalId, c.playerId, c.walletId, c.roundId, c.gameId, c.kind, c.amount,
                  c.referenceExternalId)
  }

  /** The command with the payload hash Execute computes. */
  function CommandOf(input: Input): Command {
    input.request.(payloadHash := Digest(FieldsOf(input.request)))
  }

  /** A message body determines the business fields and the idempotency key it asks for. */
  predicate ValidInput(input: Input) {
    input.message.Some? ==>
      && input.message.value.bodyHash.fields == FieldsOf(input.request)
      && input.message.value.bodyHash.idempotencyKey == input.request.idempotencyKey
  }

  datatype Job = SubmitJob(input: Input) | RetryJob

  function DoorOf(job: Job): Door {
    if job.SubmitJob? then Submission else Retry
  }

  predicate FromQueue(job: Job) {
    job.SubmitJob? && job.input.message.Some?
  }

  datatype Answer = Answer(transactionId: Id, status: Status, balance: Money, failureCode: FailureCode, replay: bool)

  function AnswerOf(t: Tx, replay: bool): Answer {
    Answer(t.id, t.status, t.resultBalance, t.failureCode, replay)
  }

  /** How a unit of work ends for its caller. */
  datatype End = Answered(answer: Answer) | Refused(error: Error) | OutcomeUnknown | Finished

  /** A process, by the statement it is about to run. */
  datatype Unit =
    | Idle(job: Job)
    | Registering(job: Job, now: Time)
    | Inserting(job: Job, now: Time)
    | Claiming(job: Job, now: Time)
    | Locking(job: Job, now: Time, op: Tx)
    | Finding(job: Job, now: Time, op: Tx, account: WalletState)
    | Checking(job: Job, now: Time, op: Tx, account: WalletState, original: Tx)
    | Deciding(job: Job, now: Time, op: Tx, account: WalletState, reference: Option<Reference>)
    | Waking(job: Job, now: Time, op: Tx, account: WalletState, reference: Option<Reference>, entryId: Id,
             effect: Effect)
    | Committing(job: Job, now: Time, op: Tx, account: WalletState, reference: Option<Reference>, entryId: Id,
                 effect: Effect, woken: set<Id>)
    | Replaying(job: Job, existing: Tx)
    | Answering(job: Job, existing: Tx)
    | GivingUp(job: Job, target: Id)
    | Failing(job: Job, target: Id, now: Time, row: Option<Tx>)
    | Ended(job: Job, end: End)
  {
    /** Holds the operation it works on. */
    predicate HasOp() {
      Locking? || HasWallet()
    }

    /** Holds the wallet row. */
    predicate HasWallet() {
      Finding? || Checking? || Deciding? || Waking? || Committing?
    }
  }

  /** A row that the wake-up of an operation left asleep, and until when. */
  datatype Skip = Skip(row: Id, original: Id, nextAttemptAt: Time)

  /** `clock` is the latest clock reading taken so far by any instance; `missed` remembers what each wake-up skipped
      because the give-up path held it. */
  datatype State = State(
    db: DB, units: map<Pid, Unit>, locks: map<Resource, Pid>, used: set<Id>, clock: Time, missed: set<Skip>)

  const EMPTY_DB := DB(map[], map[], map[], map[], map[], {})

  const INITIAL := State(EMPTY_DB, map[], map[], {NIL}, 0, {})

  // ---- locks ----

  predicate HoldsJobKeys(job: Job, op: Tx, r: Resource) {
    || r == RowKey(op.id)
    || (job.SubmitJob? && r == IdempotencyKey(op.command.providerId, op.command.idempotencyKey))
    || (job.SubmitJob? && r == ExternalKey(op.command.providerId, op.command.externalId))
    || HoldsInbox(job, r)
  }

  predicate HoldsInbox(job: Job, r: Resource) {
    FromQueue(job) && r == InboxKey(job.input.message.value.id)
  }

  function WokenBy(u: Unit): set<Id> {
    if u.Committing? then u.woken else {}
  }

  /** The locks a unit holds, by where it is. */
  predicate Holds(u: Unit, r: Resource) {
    if u.Inserting? || u.Replaying? then HoldsInbox(u.job, r)
    else if u.Failing? then r == RowKey(u.target)
    else
      && u.HasOp()
      && (HoldsJobKeys(u.job, u.op, r)
          || (u.HasWallet() && r == WalletKey(u.op.command.walletId))
          || (r.RowKey? && r.transactionId in WokenBy(u)))
  }

  function Release(locks: map<Resource, Pid>, p: Pid): map<Resource, Pid> {
    map r | r in locks && locks[r] != p :: locks[r]
  }

  // ---- reads under READ COMMITTED: the committed rows and the unit's own ----

  function Visible(db: DB, op: Tx): map<Id, Tx> {
    db.txs[op.id := op]
  }

  ghost function FindByKey(txs: map<Id, Tx>, providerId: Text, key: Text): Option<Tx> {
    if exists t :: t in txs && HasKey(txs[t], providerId, key) then
      var t :| t in txs && HasKey(txs[t], providerId, key);
      Some(txs[t])
    else None
  }

  ghost function FindByExternalId(txs: map<Id, Tx>, providerId: Text, externalId: Text): Option<Tx> {
    if exists t :: t in txs && HasExternalId(txs[t], providerId, externalId) then
      var t :| t in txs && HasExternalId(txs[t], providerId, externalId);
      Some(txs[t])
    else None
  }

  /** resolveReference, first statement. */
  ghost function FindOriginal(db: DB, op: Tx): Option<Tx> {
    if op.command.referenceExternalId == Empty then None
    else FindByExternalId(Visible(db, op), op.command.providerId, op.command.referenceExternalId)
  }

  /** The parked rows that name the operation and are not due at `now`. */
  predicate Asleep(db: DB, op: Tx, now: Time, t: Id) {
    t in db.txs && t != op.id && db.txs[t].status == PendingReference && Names(db.txs[t], op)
    && db.txs[t].nextAttemptAt > now
  }

  // ---- the transitions of one unit ----

  function MaxTime(a: Time, b: Time): Time {
    if a < b then b else a
  }

  function Put(s: State, p: Pid, u: Unit): State {
    s.(units := s.units[p := u])
  }

  /** The unit leaves its transaction: every lock it held is free. */
  function Leave(s: State, p: Pid, u: Unit): State {
    s.(units := s.units[p := u], locks := Release(s.locks, p))
  }

  /** Errors another round can fix. */
  predicate Recoverable(e: Error) {
    e == Transient || e == LockTimeout || e == CommitOutcomeUnknown || e == Cancelled
  }

  /** After a failed attempt the worker gives up on what it had claimed, unless the failure is recoverable. */
  function AfterFailure(u: Unit, e: Error): Unit {
    if u.job.RetryJob? && u.HasOp() && !Recoverable(e) then GivingUp(u.job, u.op.id)
    else Ended(u.job, Refused(e))
  }

  function AfterClock(job: Job, now: Time): Unit {
    if job.RetryJob? then Claiming(job, now)
    else if FromQueue(job) then Registering(job, now)
    else Inserting(job, now)
  }

  /** registerInbox: the row is taken, or what is found there is answered. */
  function RegisterStep(s: State, p: Pid, u: Unit): State
    requires u.Registering? && FromQueue(u.job)
  {
    var message := u.job.input.message.value;
    if message.id in s.db.inbox then
      var row := s.db.inbox[message.id];
      if row.bodyHash != message.bodyHash then Leave(s, p, Ended(u.job, Refused(PayloadMismatch)))
      else if row.outcome == NoOutcome || row.transactionId !in s.db.txs then
        Leave(s, p, Ended(u.job, Refused(Transient)))
      else Put(s, p, Answering(u.job, s.db.txs[row.transactionId]))
    else Put(s, p, Inserting(u.job, u.now)).(locks := s.locks[InboxKey(message.id) := p])
  }

  /** replay: the unique keys were taken by a committed operation. */
  ghost function ReplayUnit(db: DB, u: Unit): Unit
    requires u.Inserting? && u.job.SubmitJob?
  {
    var command := CommandOf(u.job.input);
    match FindByKey(db.txs, command.providerId, command.idempotencyKey)
    case Some(existing) =>
      if existing.command.payloadHash != command.payloadHash then
        Ended(u.job, Refused(IdempotencyKeyConflict(existing.id)))
      else Replaying(u.job, existing)
    case None =>
      match FindByExternalId(db.txs, command.providerId, command.externalId)
      case Some(reused) => Ended(u.job, Refused(ExternalIdConflict(reused.id)))
      case None => Ended(u.job, Refused(Transient))
  }

  /** NewExternal, then INSERT ... ON CONFLICT DO NOTHING. */
  ghost function InsertStep(s: State, p: Pid, u: Unit, id: Id): State
    requires u.Inserting? && u.job.SubmitJob?
  {
    match NewExternal(CommandOf(u.job.input), id, u.now)
    case Err(e) => Leave(s, p, Ended(u.job, Refused(e)))
    case Ok(op) =>
      if !KeysFree(s.db.txs, op) then
        var next := ReplayUnit(s.db, u);
        if next.Replaying? then Put(s, p, next) else Leave(s, p, next)
      else if op.command.walletId !in s.db.wallets then Leave(s, p, Ended(u.job, Refused(WalletNotFound)))
      else
        Put(s, p, Locking(u.job, u.now, op)).(
          locks := s.locks[IdempotencyKey(op.command.providerId, op.command.idempotencyKey) := p]
                          [ExternalKey(op.command.providerId, op.command.externalId) := p][RowKey(id) := p],
          used := s.used + {id})
  }

  ghost function FindStep(s: State, p: Pid, u: Unit): State
    requires u.Finding?
  {
    match FindOriginal(s.db, u.op)
    case None => Put(s, p, Deciding(u.job, u.now, u.op, u.account, None))
    case Some(original) =>
      if u.job.SubmitJob? && !u.op.command.kind.Reversal() then
        Put(s, p, Deciding(u.job, u.now, u.op, u.account, Some(Reference(original, false))))
      else Put(s, p, Checking(u.job, u.now, u.op, u.account, original))
  }

  ghost function CheckStep(s: State, p: Pid, u: Unit): State
    requires u.Checking?
  {
    var reversed := HasReversal(Visible(s.db, u.op), u.original.id);
    Put(s, p, Deciding(u.job, u.now, u.op, u.account, Some(Reference(u.original, reversed))))
  }

  /** The version guard of UPDATE wallets, evaluated on the committed row. */
  predicate VersionMatches(db: DB, account: WalletState, effect: Effect) {
    effect.entry.Some? ==> account.id in db.wallets && db.wallets[account.id].version == account.version
  }

  /** Decide, then the writes of the unit to its own rows. */
  function DecideStep(cfg: Settings, s: State, p: Pid, u: Unit, entryId: Id): State
    requires u.Deciding?
  {
    match Settle(DoorOf(u.job), cfg, u.account, u.op, u.reference, entryId, u.now)
    case Err(e) => Leave(s, p, AfterFailure(u, e))
    case Ok(effect) =>
      if !VersionMatches(s.db, u.account, effect) then Leave(s, p, AfterFailure(u, WalletVersionChanged))
      else
        Put(s, p, if effect.op.status == PendingReference
                  then Committing(u.job, u.now, u.op, u.account, u.reference, entryId, effect, {})
                  else Waking(u.job, u.now, u.op, u.account, u.reference, entryId, effect)).(used := s.used + {entryId})
  }

  /** The rows WakeUpWaitingFor takes: FOR UPDATE SKIP LOCKED. */
  function Awakened(s: State, u: Unit): set<Id>
    requires u.Waking?
  {
    set t | t in s.db.txs && Asleep(s.db, u.op, u.now, t) && RowKey(t) !in s.locks
  }

  predicate HeldByGiveUp(s: State, t: Id) {
    RowKey(t) in s.locks && s.locks[RowKey(t)] in s.units && s.units[s.locks[RowKey(t)]].Failing?
  }

  /** The rows it leaves asleep because the give-up path holds them. */
  function Skipped(s: State, u: Unit): set<Skip>
    requires u.Waking?
  {
    set t | t in s.db.txs && Asleep(s.db, u.op, u.now, t) && HeldByGiveUp(s, t)
      :: Skip(t, u.op.id, s.db.txs[t].nextAttemptAt)
  }

  function WakeStep(s: State, p: Pid, u: Unit): State
    requires u.Waking?
  {
    var woken := Awakened(s, u);
    Put(s, p, Committing(u.job, u.now, u.op, u.account, u.reference, u.entryId, u.effect, woken)).(
      locks := map r | r in s.locks.Keys + (set t | t in woken :: RowKey(t)) :: if r in s.locks then s.locks[r] else p,
      missed := s.missed + Skipped(s, u))
  }

  function OutcomeOf(status: Status): InboxOutcome {
    if status == Rejected then OutcomeRejected
    else if status == PendingReference then OutcomePendingReference
    else OutcomeProcessed
  }

  function CompleteInbox(db: DB, job: Job, outcome: InboxOutcome, transactionId: Id): DB {
    if FromQueue(job) then
      var message := job.input.message.value;
      db.(inbox := db.inbox[message.id := InboxRow(message.bodyHash, outcome, transactionId)])
    else db
  }

  /** What the commit of a unit does to the committed tables. */
  function Applied(db: DB, u: Unit): DB
    requires u.Committing? ==> u.effect.account.id in db.ledger && u.effect.account.id in db.outbox
  {
    match u
    case Committing(job, now, _, _, _, _, effect, woken) =>
      CompleteInbox(Wake(Persist(db, effect), woken, now), job, OutcomeOf(effect.op.status), effect.op.id)
    case Replaying(job, existing) => CompleteInbox(db, job, OutcomeReplay, existing.id)
    case Failing(_, target, now, Some(row)) =>
      if row.status == PendingReference && MarkFailed(row, now).Ok? then
        db.(txs := db.txs[target := MarkFailed(row, now).value])
      else db
    case _ => db
  }

  predicate Finishes(u: Unit) {
    u.Committing? || u.Replaying? || u.Answering? || u.Failing?
  }

  /** What the caller gets when the commit is confirmed. */
  function Reply(u: Unit): End
    requires Finishes(u)
  {
    match u
    case Committing(job, _, _, _, _, _, effect, _) =>
      if job.SubmitJob? then Answered(AnswerOf(effect.op, false)) else Finished
    case Replaying(_, existing) => Answered(AnswerOf(existing, true))
    case Answering(_, existing) => Answered(AnswerOf(existing, true))
    case _ => Finished
  }

  // ---- actions ----

  /** COMMIT is confirmed; or its answer is lost, after it took effect or before. */
  datatype CommitResult = Confirmed | LostAfter | LostBefore

  datatype Action =
    | Spawn(p: Pid, job: Job)
    | ReadClock(p: Pid, now: Time)
    | Register(p: Pid)
    | Insert(p: Pid, id: Id)
    | Claim(p: Pid, t: Id)
    | LockWallet(p: Pid)
    | Find(p: Pid)
    | Check(p: Pid)
    | DecideIt(p: Pid, entryId: Id)
    | WakeUp(p: Pid)
    | Commit(p: Pid, result: CommitResult)
    | Abort(p: Pid, error: Error)
    | Restart(p: Pid)
    | LockTarget(p: Pid, now: Time)
    | OpenNew(playerId: Id, initial: Money, id: Id, openingId: Id, entryId: Id, correlationId: Text, now: Time)

  predicate At(s: State, p: Pid, a: Action) {
    p in s.units &&
    var u := s.units[p];
    match a
    case ReadClock(_, now) => u.Idle? && now > 0
    case Register(_) => u.Registering? && FromQueue(u.job) && InboxKey(u.job.input.message.value.id) !in s.locks
    case Insert(_, id) =>
      && u.Inserting? && u.job.SubmitJob? && id !in s.used
      && var c := CommandOf(u.job.input);
         IdempotencyKey(c.providerId, c.idempotencyKey) !in s.locks && ExternalKey(c.providerId, c.externalId) !in s.locks
         && RowKey(id) !in s.locks
    case Claim(_, t) =>
      && u.Claiming? && u.job.RetryJob? && t in s.db.txs && s.db.txs[t].status == PendingReference
      && s.db.txs[t].nextAttemptAt <= u.now
      && RowKey(t) !in s.locks
    case LockWallet(_) =>
      u.Locking? && WalletKey(u.op.command.walletId) !in s.locks && u.op.command.walletId in s.db.wallets
    case Find(_) => u.Finding?
    case Check(_) => u.Checking?
    case DecideIt(_, entryId) => u.Deciding? && entryId !in s.used
    case WakeUp(_) => u.Waking?
    case Commit(_, _) =>
      Finishes(u) && (u.Committing? ==> u.effect.account.id in s.db.ledger && u.effect.account.id in s.db.outbox)
    case Abort(_, _) => !u.Ended? && !u.Idle?
    case Restart(_) => !u.Ended? && !u.Idle?
    case LockTarget(_, now) => u.GivingUp? && now > 0 && RowKey(u.target) !in s.locks
    case _ => false
  }

  predicate Enabled(s: State, a: Action) {
    match a
    case Spawn(p, job) => p !in s.units && (job.SubmitJob? ==> ValidInput(job.input))
    case OpenNew(playerId, initial, id, openingId, entryId, correlationId, now) =>
      && id !in s.used && openingId !in s.used && entryId !in s.used
      && id != openingId && id != entryId && openingId != entryId && now > 0
      && PlanOpening(id, playerId, initial, openingId, entryId, correlationId, now).Some?
      && (forall w :: w in s.db.wallets ==>
            !(s.db.wallets[w].playerId == playerId && s.db.wallets[w].balance.currency == initial.currency))
    case _ => At(s, a.p, a)
  }

  /** Do runs the closure again after an abort: a submission reads the clock again, the worker keeps its reading. */
  function AfterRestart(u: Unit): Unit {
    match u
    case GivingUp(_, _) => u
    case Failing(job, target, _, _) => GivingUp(job, target)
    case _ => if u.job.RetryJob? && (u.Claiming? || u.HasOp()) then Claiming(u.job, u.now) else Idle(u.job)
  }

  ghost function Step(cfg: Settings, s: State, a: Action): State
    requires Enabled(s, a)
  {
    match a
    case Spawn(p, job) => Put(s, p, Idle(job))
    case ReadClock(p, now) => Put(s, p, AfterClock(s.units[p].job, now)).(clock := MaxTime(s.clock, now))
    case Register(p) => RegisterStep(s, p, s.units[p])
    case Insert(p, id) => InsertStep(s, p, s.units[p], id)
    case Claim(p, t) =>
      Put(s, p, Locking(s.units[p].job, s.units[p].now, s.db.txs[t])).(locks := s.locks[RowKey(t) := p])
    case LockWallet(p) =>
      var u := s.units[p];
      var w := u.op.command.walletId;
      Put(s, p, Finding(u.job, u.now, u.op, s.db.wallets[w])).(locks := s.locks[WalletKey(w) := p])
    case Find(p) => FindStep(s, p, s.units[p])
    case Check(p) => CheckStep(s, p, s.units[p])
    case DecideIt(p, entryId) => DecideStep(cfg, s, p, s.units[p], entryId)
    case WakeUp(p) => WakeStep(s, p, s.units[p])
    case Commit(p, result) =>
      var u := s.units[p];
      Leave(s, p, Ended(u.job, if result == Confirmed then Reply(u) else OutcomeUnknown)).(
        db := if result == LostBefore then s.db else Applied(s.db, u))
    case Abort(p, error) => Leave(s, p, AfterFailure(s.units[p], error))
    case Restart(p) => Leave(s, p, AfterRestart(s.units[p]))
    case LockTarget(p, now) =>
      var u := s.units[p];
      Put(s, p, Failing(u.job, u.target, now, if u.target in s.db.txs then Some(s.db.txs[u.target]) else None)).(
        locks := s.locks[RowKey(u.target) := p], clock := MaxTime(s.clock, now))
    case OpenNew(playerId, initial, id, openingId, entryId, correlationId, now) =>
      var plan := PlanOpening(id, playerId, initial, openingId, entryId, correlationId, now).value;
      s.(db := OpenRows(s.db, plan.0, plan.1, plan.2, plan.3), used := s.used + {id, openingId, entryId},
         clock := MaxTime(s.clock, now))
  }

  /** A run: every state but the first is the step of the action before it. */
  ghost predicate Run(cfg: Settings, states: seq<State>, actions: seq<Action>) {
    && |states| == |actions| + 1 && states[0] == INITIAL
    && forall i :: 0 <= i < |actions| ==> Follows(cfg, states[i], actions[i], states[i + 1])
  }

  ghost predicate Follows(cfg: Settings, before: State, a: Action, after: State) {
    Enabled(before, a) && after == Step(cfg, before, a)
  }

  ghost predicate Reachable(cfg: Settings, s: State) {
    exists states, actions :: Run(cfg, states, actions) && s == states[|states| - 1]
  }
}
