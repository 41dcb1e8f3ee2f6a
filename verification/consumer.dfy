/** The queue consumer: what it does with a message once the listener returns, composed with the protocol. */
module Consumers {
  import opened Values
  import opened Wagering
  import opened Settlements
  import opened Databases
  import opened DataInvariants
  import opened LockDiscipline
  import opened Protocol
  import opened UnitKnowledge
  import opened ProtocolInvariant
  import opened UnitSteps
  import opened Interference
  import opened Safety
  import opened Guarantees
  import opened Replies

  // ---- the listener ----

  datatype Reason = InvalidPayload | OpeningNotAllowed | IdempotencyConflict | ExternalConflict | InboxMismatch | NoWallet

  /** The failures another delivery cannot fix; anything else is treated as transient. */
  function RejectionReason(e: Error): Option<Reason> {
    match e
    case IdempotencyKeyConflict(_) => Some(IdempotencyConflict)
    case ExternalIdConflict(_) => Some(ExternalConflict)
    case PayloadMismatch => Some(InboxMismatch)
    case WalletNotFound => Some(NoWallet)
    case InvalidKind | InvalidAmount | InvalidOrigin | MissingField | MissingIdentifier | InvalidPayloadHash
         | ReferenceRequired | ReferenceForbidden => Some(InvalidPayload)
    case _ => None
  }

  /** What a message body decodes to. */
  datatype Body = Undecodable | OpeningRequest | Wager(input: Input)

  predicate ValidBody(body: Body) {
    body.Wager? ==> body.input.message.Some? && ValidInput(body.input)
  }

  /** What dispatch does after Handle returned: delete, move to the dead letter queue, retry later, or leave alone. */
  datatype Ack = Delete | DeadLetter(reason: Reason) | RetryLater | Leave

  function AckOf(end: End): Ack {
    match end
    case Answered(_) => Delete
    case OutcomeUnknown => Leave
    case Refused(e) =>
      if e == CommitOutcomeUnknown then Leave
      else (match RejectionReason(e)
            case Some(reason) => DeadLetter(reason)
            case None => RetryLater)
    case Finished => RetryLater
  }

  // ---- the composed system ----

  type BrokerId = nat
  type HandlerId = nat

  /** One delivery being dispatched. `Moved` has confirmed its copy in the dead letter queue. */
  datatype Handler =
    | Received(message: BrokerId)
    | Handling(message: BrokerId, p: Pid)
    | Removing(message: BrokerId)
    | Moving(message: BrokerId, reason: Reason)
    | Moved(message: BrokerId)
    | Done(message: BrokerId)

  /** `releasing` and `aborted` are the flags a shutdown sets; `queue` holds visible and invisible messages alike. */
  datatype Broker = Broker(
    s: State, bodies: map<BrokerId, Body>, queue: set<BrokerId>, dlq: set<BrokerId>,
    handlers: map<HandlerId, Handler>, releasing: bool, aborted: bool)

  /** `effective` says whether a broker call took effect, `confirmed` whether its answer said so. */
  datatype BrokerEvent =
    | Enqueue(m: BrokerId, body: Body)
    | Receive(h: HandlerId, m: BrokerId)
    | Dispatch(h: HandlerId, p: Pid)
    | Progress(a: Action)
    | Return(h: HandlerId)
    | Remove(h: HandlerId, effective: bool)
    | Move(h: HandlerId, effective: bool, confirmed: bool)
    | Redrive(m: BrokerId)
    | Shutdown
    | Crash(h: HandlerId)

  predicate Can(b: Broker, e: BrokerEvent) {
    match e
    case Enqueue(m, body) => m !in b.bodies && ValidBody(body)
    case Receive(h, m) => h !in b.handlers && m in b.queue && m in b.bodies
    case Dispatch(h, p) =>
      h in b.handlers && b.handlers[h].Received? && b.handlers[h].message in b.bodies && p !in b.s.units
    case Progress(a) => Enabled(b.s, a)
    case Return(h) =>
      h in b.handlers && b.handlers[h].Handling? && b.handlers[h].p in b.s.units
      && b.s.units[b.handlers[h].p].Ended?
    case Remove(h, _) => h in b.handlers && (b.handlers[h].Removing? || b.handlers[h].Moved?)
    case Move(h, effective, confirmed) => h in b.handlers && b.handlers[h].Moving? && (confirmed ==> effective)
    case Redrive(m) => m in b.queue
    case Shutdown => true
    case Crash(h) => h in b.handlers
  }

  function Goes(b: Broker, h: HandlerId, next: Handler): Broker {
    b.(handlers := b.handlers[h := next])
  }

  /** dispatch up to the call of the use case: a delivery that arrives while releasing is released at once. */
  ghost function Dispatched(cfg: Settings, b: Broker, h: HandlerId, p: Pid): Broker
    requires Can(b, Dispatch(h, p))
  {
    var m := b.handlers[h].message;
    if b.releasing then Goes(b, h, Done(m))
    else
      match b.bodies[m]
      case Undecodable => Goes(b, h, if b.aborted then Done(m) else Moving(m, InvalidPayload))
      case OpeningRequest => Goes(b, h, if b.aborted then Done(m) else Moving(m, OpeningNotAllowed))
      case Wager(input) =>
        if Enabled(b.s, Spawn(p, SubmitJob(input))) then
          Goes(b, h, Handling(m, p)).(s := Step(cfg, b.s, Spawn(p, SubmitJob(input))))
        else b
  }

  /** dispatch after Handle: once the shutdown has aborted the handlers, nothing is acknowledged. */
  function Returned(b: Broker, h: HandlerId): Broker
    requires Can(b, Return(h))
  {
    var m := b.handlers[h].message;
    if b.aborted then Goes(b, h, Done(m))
    else match AckOf(b.s.units[b.handlers[h].p].end)
         case Delete => Goes(b, h, Removing(m))
         case DeadLetter(reason) => Goes(b, h, Moving(m, reason))
         case RetryLater => Goes(b, h, Done(m))
         case Leave => Goes(b, h, Done(m))
  }

  ghost function Advance(cfg: Settings, b: Broker, e: BrokerEvent): Broker
    requires Can(b, e)
  {
    match e
    case Enqueue(m, body) => b.(bodies := b.bodies[m := body], queue := b.queue + {m})
    case Receive(h, m) => Goes(b, h, Received(m))
    case Dispatch(h, p) => Dispatched(cfg, b, h, p)
    case Progress(a) => b.(s := Step(cfg, b.s, a))
    case Return(h) => Returned(b, h)
    case Remove(h, effective) =>
      var m := b.handlers[h].message;
      Goes(b, h, Done(m)).(queue := if effective then b.queue - {m} else b.queue)
    case Move(h, effective, confirmed) =>
      var m := b.handlers[h].message;
      Goes(b, h, if confirmed then Moved(m) else Done(m)).(dlq := if effective then b.dlq + {m} else b.dlq)
    case Redrive(m) => b.(queue := b.queue - {m}, dlq := b.dlq + {m})
    case Shutdown => b.(releasing := true, aborted := true)
    case Crash(h) => Goes(b, h, Done(b.handlers[h].message))
  }

  const FIRST := Broker(INITIAL, map[], {}, {}, map[], false, false)

  ghost predicate History(cfg: Settings, brokers: seq<Broker>, events: seq<BrokerEvent>) {
    && |brokers| == |events| + 1 && brokers[0] == FIRST
    && forall i :: 0 <= i < |events| ==> Advances(cfg, brokers[i], events[i], brokers[i + 1])
  }

  ghost predicate Advances(cfg: Settings, before: Broker, e: BrokerEvent, after: Broker) {
    Can(before, e) && after == Advance(cfg, before, e)
  }

  // ---- the invariant ----

  /** The message id of the body has a committed, complete inbox row that names the operation the body asked for. */
  predicate Handled(db: DB, body: Body) {
    && body.Wager? && body.input.message.Some?
    && var m := body.input.message.value.id;
       && m in db.inbox && db.inbox[m].outcome != NoOutcome && db.inbox[m].transactionId in db.txs
       && AnswersInput(db.txs[db.inbox[m].transactionId], body.input)
  }

  predicate Safe(b: Broker, m: BrokerId) {
    m in b.bodies && (m in b.queue || m in b.dlq || Handled(b.s.db, b.bodies[m]))
  }

  predicate HandlerOk(b: Broker, h: HandlerId)
    requires h in b.handlers
  {
    var handler := b.handlers[h];
    && handler.message in b.bodies
    && (handler.Handling? ==>
          && b.bodies[handler.message].Wager? && handler.p in b.s.units
          && b.s.units[handler.p].job == SubmitJob(b.bodies[handler.message].input))
    && (handler.Removing? ==> Handled(b.s.db, b.bodies[handler.message]))
    && (handler.Moved? ==> handler.message in b.dlq)
  }

  ghost predicate BrokerInv(cfg: Settings, b: Broker) {
    && Reachable(cfg, b.s)
    && (forall m :: m in b.bodies ==> ValidBody(b.bodies[m]) && Safe(b, m))
    && (forall h :: h in b.handlers ==> HandlerOk(b, h))
  }

  lemma HandledStays(db: DB, after: DB, body: Body)
    requires Evolves(db, after) && Handled(db, body)
    ensures Handled(after, body)
  {
  }

  lemma ProtocolStepKeepsInv(cfg: Settings, b: Broker, a: Action)
    requires ValidSettings(cfg) && BrokerInv(cfg, b) && Enabled(b.s, a)
    ensures BrokerInv(cfg, b.(s := Step(cfg, b.s, a)))
  {
    hide Enabled, Step, Reachable, Evolves, ValidBody, Handled;
    var after := b.(s := Step(cfg, b.s, a));
    ReachesNext(cfg, b.s, a);
    HistoryIsKept(cfg, b.s, a);
    forall m | m in b.bodies
      ensures Safe(after, m)
    {
      assert Safe(b, m);
      if Handled(b.s.db, b.bodies[m]) {
        HandledStays(b.s.db, after.s.db, b.bodies[m]);
      }
    }
    forall h | h in b.handlers
      ensures HandlerOk(after, h)
    {
      assert HandlerOk(b, h);
      if b.handlers[h].Handling? {
        StepKeepsJobs(cfg, b.s, a, b.handlers[h].p);
      } else if b.handlers[h].Removing? {
        HandledStays(b.s.db, after.s.db, b.bodies[b.handlers[h].message]);
      }
    }
  }

  /** A deletion follows an answer, and an answer is backed by the inbox row of the message. */
  lemma AnsweredIsHandled(cfg: Settings, b: Broker, h: HandlerId)
    requires ValidSettings(cfg) && BrokerInv(cfg, b) && Can(b, Return(h))
    requires AckOf(b.s.units[b.handlers[h].p].end) == Delete
    ensures Handled(b.s.db, b.bodies[b.handlers[h].message])
  {
    hide Reachable;
    var p := b.handlers[h].p;
    assert HandlerOk(b, h);
    var end := b.s.units[p].end;
    AnswersAreRecorded(cfg, b.s, p, end.answer);
  }

  lemma ReturnKeepsInv(cfg: Settings, b: Broker, h: HandlerId)
    requires ValidSettings(cfg) && BrokerInv(cfg, b) && Can(b, Return(h))
    ensures BrokerInv(cfg, Returned(b, h))
  {
    hide Reachable;
    var after := Returned(b, h);
    assert HandlerOk(b, h);
    if AckOf(b.s.units[b.handlers[h].p].end) == Delete {
      AnsweredIsHandled(cfg, b, h);
    }
    forall k | k in after.handlers && k != h
      ensures HandlerOk(after, k)
    {
      assert HandlerOk(b, k);
    }
    forall m | m in b.bodies
      ensures Safe(after, m)
    {
      assert Safe(b, m);
    }
  }

  lemma DispatchKeepsInv(cfg: Settings, b: Broker, h: HandlerId, p: Pid)
    requires ValidSettings(cfg) && BrokerInv(cfg, b) && Can(b, Dispatch(h, p))
    ensures BrokerInv(cfg, Dispatched(cfg, b, h, p))
  {
    hide Reachable;
    assert HandlerOk(b, h);
    var m := b.handlers[h].message;
    var after := Dispatched(cfg, b, h, p);
    if after.handlers[h].Handling? {
      var a := Spawn(p, SubmitJob(b.bodies[m].input));
      ProtocolStepKeepsInv(cfg, b, a);
      SpawnedHandler(cfg, b.(s := Step(cfg, b.s, a)), h, p);
    } else {
      HandlerMoves(cfg, b, after, h);
    }
  }

  lemma SpawnedHandler(cfg: Settings, b: Broker, h: HandlerId, p: Pid)
    requires BrokerInv(cfg, b) && h in b.handlers && b.bodies[b.handlers[h].message].Wager?
    requires p in b.s.units && b.s.units[p].job == SubmitJob(b.bodies[b.handlers[h].message].input)
    ensures BrokerInv(cfg, Goes(b, h, Handling(b.handlers[h].message, p)))
  {
    hide Reachable;
    HandlerMoves(cfg, b, Goes(b, h, Handling(b.handlers[h].message, p)), h);
  }

  /** Only one handler moves: the messages and the other handlers are as before. */
  lemma HandlerMoves(cfg: Settings, b: Broker, after: Broker, h: HandlerId)
    requires BrokerInv(cfg, b) && after == b.(handlers := after.handlers) && h in after.handlers
    requires after.handlers == b.handlers[h := after.handlers[h]] && HandlerOk(after, h)
    ensures BrokerInv(cfg, after)
  {
    hide Reachable;
    forall k | k in after.handlers && k != h
      ensures HandlerOk(after, k)
    {
      assert HandlerOk(b, k);
    }
    forall m | m in b.bodies
      ensures Safe(after, m)
    {
      assert Safe(b, m);
    }
  }

  lemma BrokerCallKeepsInv(cfg: Settings, b: Broker, e: BrokerEvent)
    requires BrokerInv(cfg, b) && Can(b, e) && (e.Remove? || e.Move? || e.Redrive? || e.Crash? || e.Shutdown?)
    ensures BrokerInv(cfg, Advance(cfg, b, e))
  {
    hide Reachable;
    var after := Advance(cfg, b, e);
    if e.Remove? {
      assert HandlerOk(b, e.h);
    }
    forall k | k in after.handlers
      ensures HandlerOk(after, k)
    {
      assert HandlerOk(b, k);
    }
    forall m | m in b.bodies
      ensures Safe(after, m)
    {
      assert Safe(b, m);
    }
  }

  lemma ArrivalKeepsInv(cfg: Settings, b: Broker, e: BrokerEvent)
    requires BrokerInv(cfg, b) && Can(b, e) && (e.Enqueue? || e.Receive?)
    ensures BrokerInv(cfg, Advance(cfg, b, e))
  {
    hide Reachable;
    var after := Advance(cfg, b, e);
    forall k | k in after.handlers && k in b.handlers
      ensures HandlerOk(after, k)
    {
      assert HandlerOk(b, k);
    }
    forall m | m in b.bodies
      ensures Safe(after, m)
    {
      assert Safe(b, m);
    }
  }

  lemma EventKeepsInv(cfg: Settings, b: Broker, e: BrokerEvent)
    requires ValidSettings(cfg) && BrokerInv(cfg, b) && Can(b, e)
    ensures BrokerInv(cfg, Advance(cfg, b, e))
  {
    hide BrokerInv, Dispatched, Returned, Step;
    match e
    case Progress(a) => ProtocolStepKeepsInv(cfg, b, a);
    case Return(h) => ReturnKeepsInv(cfg, b, h);
    case Dispatch(h, p) => DispatchKeepsInv(cfg, b, h, p);
    case Enqueue(_, _) => ArrivalKeepsInv(cfg, b, e);
    case Receive(_, _) => ArrivalKeepsInv(cfg, b, e);
    case _ => BrokerCallKeepsInv(cfg, b, e);
  }

  lemma FirstBrokerInv(cfg: Settings)
    ensures BrokerInv(cfg, FIRST)
  {
    assert Run(cfg, [INITIAL], []);
    assert [INITIAL][|[INITIAL]| - 1] == INITIAL;
  }

  lemma {:induction false} HistoryKeepsInv(cfg: Settings, brokers: seq<Broker>, events: seq<BrokerEvent>, i: nat)
    requires ValidSettings(cfg) && History(cfg, brokers, events) && i < |brokers|
    ensures BrokerInv(cfg, brokers[i])
  {
    hide BrokerInv, Advance, Can;
    if i == 0 {
      FirstBrokerInv(cfg);
    } else {
      HistoryKeepsInv(cfg, brokers, events, i - 1);
      assert Advances(cfg, brokers[i - 1], events[i - 1], brokers[i]);
      EventKeepsInv(cfg, brokers[i - 1], events[i - 1]);
    }
  }

  lemma AdvanceKeepsBodies(cfg: Settings, b: Broker, e: BrokerEvent, m: BrokerId)
    requires Can(b, e) && (m in b.bodies || (e.Enqueue? && e.m == m))
    ensures m in Advance(cfg, b, e).bodies
    ensures m in b.bodies ==> Advance(cfg, b, e).bodies[m] == b.bodies[m]
    ensures e.Enqueue? && e.m == m ==> Advance(cfg, b, e).bodies[m] == e.body
  {
    hide Step, AckOf, Enabled;
  }

  lemma {:induction false} BodiesStay(cfg: Settings, brokers: seq<Broker>, events: seq<BrokerEvent>, j: nat, i: nat)
    requires History(cfg, brokers, events) && j < i < |brokers| && events[j].Enqueue?
    ensures events[j].m in brokers[i].bodies && brokers[i].bodies[events[j].m] == events[j].body
    decreases i
  {
    hide Advance, Can;
    assert Advances(cfg, brokers[i - 1], events[i - 1], brokers[i]);
    if j < i - 1 {
      BodiesStay(cfg, brokers, events, j, i - 1);
    }
    AdvanceKeepsBodies(cfg, brokers[i - 1], events[i - 1], events[j].m);
  }

  /** No message is lost. Whatever is delivered, redelivered, answered, aborted, shut down or crashed, at every moment
      a message ever sent is still in the queue, or in the dead letter queue, or its message id has a committed,
      complete inbox row that names the committed operation it asked for. */
  lemma NoMessageIsLost(cfg: Settings, brokers: seq<Broker>, events: seq<BrokerEvent>, j: nat, i: nat)
    requires ValidSettings(cfg) && History(cfg, brokers, events) && j < i < |brokers| && events[j].Enqueue?
    ensures var m := events[j].m;
            m in brokers[i].queue || m in brokers[i].dlq || Handled(brokers[i].s.db, events[j].body)
  {
    hide Reachable, Advance, Can, Handled;
    HistoryKeepsInv(cfg, brokers, events, i);
    BodiesStay(cfg, brokers, events, j, i);
    assert Safe(brokers[i], events[j].m);
  }

  // ---- what is acknowledged how ----

  /** The errors another delivery cannot fix: a conflict, another body under the message id, a wallet that does not
      exist, and the input errors of the domain. */
  predicate Hopeless(e: Error) {
    || e.IdempotencyKeyConflict? || e.ExternalIdConflict?
    || e in {PayloadMismatch, WalletNotFound, InvalidKind, InvalidAmount, InvalidOrigin, MissingField, MissingIdentifier,
             InvalidPayloadHash, ReferenceRequired, ReferenceForbidden}
  }

  /** The acknowledgement as a table: deleted for an answer and nothing else; left alone for an unknown commit and
      nothing else; dead-lettered for a hopeless error, each under its own reason, and for nothing else; and everything
      else comes back later. */
  lemma AcknowledgedExactlyWhen(end: End)
    ensures AckOf(end) == Delete <==> end.Answered?
    ensures AckOf(end) == Leave <==> end == OutcomeUnknown || end == Refused(CommitOutcomeUnknown)
    ensures AckOf(end).DeadLetter? <==> end.Refused? && Hopeless(end.error)
    ensures AckOf(end) == RetryLater <==>
              end == Finished || (end.Refused? && end.error != CommitOutcomeUnknown && !Hopeless(end.error))
    ensures AckOf(end) == DeadLetter(IdempotencyConflict) <==> end.Refused? && end.error.IdempotencyKeyConflict?
    ensures AckOf(end) == DeadLetter(ExternalConflict) <==> end.Refused? && end.error.ExternalIdConflict?
    ensures AckOf(end) == DeadLetter(InboxMismatch) <==> end == Refused(PayloadMismatch)
    ensures AckOf(end) == DeadLetter(NoWallet) <==> end == Refused(WalletNotFound)
    ensures AckOf(end) != DeadLetter(OpeningNotAllowed)
  {
  }

  /** A return moves one handler and nothing else: towards the deletion for an answer, towards the dead letter queue for
      a hopeless error, and otherwise, or once a shutdown has aborted the handlers, nowhere: the message stays queued. */
  lemma ReturnMovesExactly(b: Broker, h: HandlerId)
    requires Can(b, Return(h))
    ensures var after := Returned(b, h);
            var m := b.handlers[h].message;
            var end := b.s.units[b.handlers[h].p].end;
            && after == b.(handlers := b.handlers[h := after.handlers[h]]) && after.handlers[h].message == m
            && (after.handlers[h] == Removing(m) <==> !b.aborted && end.Answered?)
            && (after.handlers[h].Moving? <==> !b.aborted && end.Refused? && Hopeless(end.error))
            && (!after.handlers[h].Removing? && !after.handlers[h].Moving? ==> after.handlers[h] == Done(m))
  {
  }

  /** A dispatch moves one handler: a delivery met while releasing is released, a body that cannot be handled goes to the
      dead letter queue under its reason, and a wager is submitted. */
  lemma DispatchMovesExactly(cfg: Settings, b: Broker, h: HandlerId, p: Pid)
    requires BrokerInv(cfg, b) && Can(b, Dispatch(h, p))
    ensures var after := Dispatched(cfg, b, h, p);
            var m := b.handlers[h].message;
            if b.releasing || (b.aborted && !b.bodies[m].Wager?) then after == b.(handlers := b.handlers[h := Done(m)])
            else match b.bodies[m]
                 case Undecodable => after == b.(handlers := b.handlers[h := Moving(m, InvalidPayload)])
                 case OpeningRequest => after == b.(handlers := b.handlers[h := Moving(m, OpeningNotAllowed)])
                 case Wager(input) =>
                   after == b.(handlers := b.handlers[h := Handling(m, p)],
                               s := b.s.(units := b.s.units[p := Idle(SubmitJob(input))]))
  {
    hide Reachable;
    assert ValidBody(b.bodies[b.handlers[h].message]);
  }

  /** What the broker calls do when they take effect: a deletion empties the queue of the message, a move and a redrive
      put it into the dead letter queue, and a move that is not confirmed leaves the message queued. */
  lemma BrokerCallsTakeEffect(cfg: Settings, b: Broker, h: HandlerId, m: BrokerId, effective: bool, confirmed: bool)
    ensures Can(b, Remove(h, effective)) && b.handlers[h].message == m ==>
              Advance(cfg, b, Remove(h, effective)) ==
                b.(handlers := b.handlers[h := Done(m)], queue := if effective then b.queue - {m} else b.queue)
    ensures Can(b, Move(h, effective, confirmed)) && b.handlers[h].message == m ==>
              Advance(cfg, b, Move(h, effective, confirmed)) ==
                b.(handlers := b.handlers[h := if confirmed then Moved(m) else Done(m)],
                   dlq := if effective then b.dlq + {m} else b.dlq)
    ensures Can(b, Redrive(m)) ==>
              m !in Advance(cfg, b, Redrive(m)).queue && m in Advance(cfg, b, Redrive(m)).dlq
  {
  }

  /** At step j the service itself decided that message m is beyond help: its body cannot be handled, or its submission
      ended with a hopeless error. */
  predicate RejectedAt(brokers: seq<Broker>, events: seq<BrokerEvent>, j: int, m: BrokerId) {
    && 0 <= j < |events| && j < |brokers|
    && var b := brokers[j];
       match events[j]
       case Dispatch(h, _) =>
         && h in b.handlers && b.handlers[h].message == m && m in b.bodies && !b.releasing && !b.bodies[m].Wager?
       case Return(h) =>
         && h in b.handlers && b.handlers[h].Handling? && b.handlers[h].message == m && b.handlers[h].p in b.s.units
         && var u := b.s.units[b.handlers[h].p];
            u.Ended? && u.end.Refused? && Hopeless(u.end.error) && !b.aborted
       case _ => false
  }

  ghost predicate Rejected(brokers: seq<Broker>, events: seq<BrokerEvent>, i: int, m: BrokerId) {
    exists j :: j < i && RejectedAt(brokers, events, j, m)
  }

  /** The broker's own redrive of a message received too often. */
  ghost predicate Redriven(events: seq<BrokerEvent>, i: int, m: BrokerId) {
    exists j :: 0 <= j < i && j < |events| && events[j] == Redrive(m)
  }

  lemma StepDeadLetters(cfg: Settings, brokers: seq<Broker>, events: seq<BrokerEvent>, i: nat, m: BrokerId)
    requires i < |events| && |brokers| == |events| + 1 && Advances(cfg, brokers[i], events[i], brokers[i + 1])
    requires BrokerInv(cfg, brokers[i])
    ensures m in brokers[i + 1].dlq && m !in brokers[i].dlq ==>
              events[i] == Redrive(m)
              || (exists h :: h in brokers[i].handlers && brokers[i].handlers[h].Moving? && brokers[i].handlers[h].message == m)
    ensures forall h :: h in brokers[i + 1].handlers && brokers[i + 1].handlers[h].Moving?
                        && brokers[i + 1].handlers[h].message == m ==>
              (h in brokers[i].handlers && brokers[i].handlers[h].Moving? && brokers[i].handlers[h].message == m)
              || RejectedAt(brokers, events, i, m)
  {
    hide Reachable, Step, Enabled, Hopeless, BrokerInv, AckOf, Dispatched, Returned;
    var b := brokers[i];
    match events[i]
    case Dispatch(h, p) => DispatchMovesExactly(cfg, b, h, p);
    case Return(h) => ReturnMovesExactly(b, h);
    case _ =>
  }

  lemma {:induction false} DeadLettersHaveCauses(cfg: Settings, brokers: seq<Broker>, events: seq<BrokerEvent>, i: nat,
                                                 m: BrokerId)
    requires ValidSettings(cfg) && History(cfg, brokers, events) && i < |brokers|
    ensures m in brokers[i].dlq ==> Rejected(brokers, events, i, m) || Redriven(events, i, m)
    ensures forall h :: h in brokers[i].handlers && brokers[i].handlers[h].Moving? && brokers[i].handlers[h].message == m ==>
              Rejected(brokers, events, i, m)
  {
    hide BrokerInv, Advance, Can, RejectedAt;
    if i > 0 {
      DeadLettersHaveCauses(cfg, brokers, events, i - 1, m);
      HistoryKeepsInv(cfg, brokers, events, i - 1);
      assert Advances(cfg, brokers[i - 1], events[i - 1], brokers[i]);
      StepDeadLetters(cfg, brokers, events, i - 1, m);
      assert Rejected(brokers, events, i - 1, m) ==> Rejected(brokers, events, i, m);
      forall h | h in brokers[i].handlers && brokers[i].handlers[h].Moving? && brokers[i].handlers[h].message == m
        ensures Rejected(brokers, events, i, m)
      {
        if !RejectedAt(brokers, events, i - 1, m) {
          assert h in brokers[i - 1].handlers && brokers[i - 1].handlers[h].Moving?;
        }
      }
    }
  }

  /** No good wager is thrown away: a message is in the dead letter queue only because its body could not be handled, or
      a submission of it ended with a hopeless error, or the broker gave up redelivering it. */
  lemma OnlyTheHopelessAreDeadLettered(cfg: Settings, brokers: seq<Broker>, events: seq<BrokerEvent>, i: nat, m: BrokerId)
    requires ValidSettings(cfg) && History(cfg, brokers, events) && i < |brokers| && m in brokers[i].dlq
    ensures (exists j :: j < i && RejectedAt(brokers, events, j, m))
            || (exists j :: 0 <= j < i && j < |events| && events[j] == Redrive(m))
  {
    hide History, RejectedAt;
    DeadLettersHaveCauses(cfg, brokers, events, i, m);
  }

  /** Once a shutdown has begun it stays: nothing that returns or is dispatched afterwards is acknowledged. */
  lemma {:induction false} ShutdownIsForGood(cfg: Settings, brokers: seq<Broker>, events: seq<BrokerEvent>, j: nat, i: nat)
    requires History(cfg, brokers, events) && j < i < |brokers| && events[j] == Shutdown
    ensures brokers[i].releasing && brokers[i].aborted
    ensures i < |events| && (events[i].Return? || events[i].Dispatch?) ==>
              i + 1 < |brokers| && events[i].h in brokers[i].handlers
              && brokers[i + 1] == brokers[i].(handlers :=
                   brokers[i].handlers[events[i].h := Done(brokers[i].handlers[events[i].h].message)])
    decreases i
  {
    hide Step, Enabled, AckOf;
    assert Advances(cfg, brokers[i - 1], events[i - 1], brokers[i]);
    if j < i - 1 {
      ShutdownIsForGood(cfg, brokers, events, j, i - 1);
    }
    if i < |events| {
      assert Advances(cfg, brokers[i], events[i], brokers[i + 1]);
    }
  }

  // ---- rejections ----

  /** Another payload already owns the key of the request. */
  ghost predicate KeyTaken(db: DB, input: Input) {
    var c := CommandOf(input);
    exists t :: t in db.txs && HasKey(db.txs[t], c.providerId, c.idempotencyKey)
                && db.txs[t].command.payloadHash != c.payloadHash
  }

  /** Another body already owns the message id. */
  predicate MessageTaken(db: DB, input: Input) {
    input.message.Some? && input.message.value.id in db.inbox
    && db.inbox[input.message.value.id].bodyHash != input.message.value.bodyHash
  }

  /** The external id of the request belongs to an operation under another key. */
  ghost predicate ExternalIdTaken(db: DB, input: Input) {
    var c := CommandOf(input);
    exists t :: t in db.txs && HasExternalId(db.txs[t], c.providerId, c.externalId)
                && db.txs[t].command.idempotencyKey != c.idempotencyKey
  }

  /** The conflicts that send a message to the dead letter queue are for good: no later state resolves them. */
  lemma ConflictsArePermanent(cfg: Settings, s: State, a: Action, input: Input)
    requires ValidSettings(cfg) && Reachable(cfg, s) && Enabled(s, a)
    ensures KeyTaken(s.db, input) ==> KeyTaken(Step(cfg, s, a).db, input)
    ensures MessageTaken(s.db, input) ==> MessageTaken(Step(cfg, s, a).db, input)
    ensures ExternalIdTaken(s.db, input) ==> ExternalIdTaken(Step(cfg, s, a).db, input)
  {
    hide Reachable, Enabled, Step;
    HistoryIsKept(cfg, s, a);
    var after := Step(cfg, s, a).db;
    var c := CommandOf(input);
    if KeyTaken(s.db, input) {
      var t :| t in s.db.txs && HasKey(s.db.txs[t], c.providerId, c.idempotencyKey)
               && s.db.txs[t].command.payloadHash != c.payloadHash;
      assert t in after.txs && HasKey(after.txs[t], c.providerId, c.idempotencyKey);
    }
    if ExternalIdTaken(s.db, input) {
      var t :| t in s.db.txs && HasExternalId(s.db.txs[t], c.providerId, c.externalId)
               && s.db.txs[t].command.idempotencyKey != c.idempotencyKey;
      assert t in after.txs && HasExternalId(after.txs[t], c.providerId, c.externalId);
    }
  }

  /** And they are what the listener rejects: a submission that runs into one of them ends refused, and its message
      goes to the dead letter queue. */
  lemma TakenKeyIsDeadLettered(cfg: Settings, s: State, p: Pid, id: Id)
    requires ValidSettings(cfg) && Reachable(cfg, s)
    requires Enabled(s, Insert(p, id)) && KeyTaken(s.db, s.units[p].job.input)
    requires NewExternal(CommandOf(s.units[p].job.input), id, s.units[p].now).Ok?
    ensures var next := Step(cfg, s, Insert(p, id)).units[p];
            next.Ended? && AckOf(next.end) == DeadLetter(IdempotencyConflict)
  {
    hide Reachable, NewExternal, KeyTaken, ReplayUnit, WalletsOk, LedgerOk, TxsOk, InboxOk, MoneyInv, EventsInv, LockInv,
         UnitsOk, AttemptsOk, WakesOk, UsedOk, KeysOk, AckOf;
    ReachableTables(cfg, s);
    TakenKeyRefuses(s.db, s.units[p]);
    BornAs(CommandOf(s.units[p].job.input), id, s.units[p].now);
  }

  lemma TakenMessageIsDeadLettered(cfg: Settings, s: State, p: Pid)
    requires Enabled(s, Register(p)) && MessageTaken(s.db, s.units[p].job.input)
    ensures var next := Step(cfg, s, Register(p)).units[p]; next.Ended? && AckOf(next.end) == DeadLetter(InboxMismatch)
  {
  }

  lemma TakenExternalIdRefuses(db: DB, u: Unit)
    requires u.Inserting? && u.job.SubmitJob? && KeysOk(db.txs) && HonestHashes(db.txs)
    requires ExternalIdTaken(db, u.job.input)
    ensures var next := ReplayUnit(db, u); next.Ended? && AckOf(next.end).DeadLetter?
  {
    hide KeysOk, HonestHashes, FindByKey, FindByExternalId, HasKey, HasExternalId;
    var c := CommandOf(u.job.input);
    FoundByKey(db.txs, c.providerId, c.idempotencyKey);
    FoundByExternalId(db.txs, c.providerId, c.externalId);
    var t :| t in db.txs && HasExternalId(db.txs[t], c.providerId, c.externalId)
             && db.txs[t].command.idempotencyKey != c.idempotencyKey;
    AnotherPayload(db, u.job.input, t);
  }

  /** The operation under the request's own key is not the one with its external id, so it has another payload. */
  lemma AnotherPayload(db: DB, input: Input, t: Id)
    requires KeysOk(db.txs) && HonestHashes(db.txs)
    requires t in db.txs && HasExternalId(db.txs[t], CommandOf(input).providerId, CommandOf(input).externalId)
    requires db.txs[t].command.idempotencyKey != CommandOf(input).idempotencyKey
    ensures forall k :: k in db.txs && HasKey(db.txs[k], CommandOf(input).providerId, CommandOf(input).idempotencyKey) ==>
              db.txs[k].command.payloadHash != CommandOf(input).payloadHash
  {
    forall k | k in db.txs && HasKey(db.txs[k], CommandOf(input).providerId, CommandOf(input).idempotencyKey)
      ensures db.txs[k].command.payloadHash != CommandOf(input).payloadHash
    {
      assert k != t;
      assert !HasExternalId(db.txs[t], db.txs[k].command.providerId, db.txs[k].command.externalId);
    }
  }

  lemma TakenExternalIdIsNotFree(db: DB, command: Command, id: Id, now: Time, input: Input)
    requires command == CommandOf(input) && ExternalIdTaken(db, input) && NewExternal(command, id, now).Ok?
    ensures !KeysFree(db.txs, NewExternal(command, id, now).value)
  {
    BornAs(command, id, now);
  }

  /** A new submission that reuses an external id under another key ends refused, and its message goes to the dead
      letter queue. */
  lemma TakenExternalIdIsDeadLettered(cfg: Settings, s: State, p: Pid, id: Id)
    requires ValidSettings(cfg) && Reachable(cfg, s)
    requires Enabled(s, Insert(p, id)) && ExternalIdTaken(s.db, s.units[p].job.input)
    requires NewExternal(CommandOf(s.units[p].job.input), id, s.units[p].now).Ok?
    ensures var next := Step(cfg, s, Insert(p, id)).units[p]; next.Ended? && AckOf(next.end).DeadLetter?
  {
    hide Reachable, NewExternal, ExternalIdTaken, ReplayUnit, WalletsOk, LedgerOk, TxsOk, InboxOk, MoneyInv, EventsInv,
         LockInv, UnitsOk, AttemptsOk, WakesOk, UsedOk, KeysOk, AckOf, HonestHashes, KeysFree;
    ReachableTables(cfg, s);
    HashesAreHonest(cfg, s);
    var u := s.units[p];
    TakenExternalIdRefuses(s.db, u);
    TakenExternalIdIsNotFree(s.db, CommandOf(u.job.input), id, u.now, u.job.input);
  }

  /** What an insert sends to the dead letter queue, exactly: a key taken by a request with other fields; or else, with
      the key free, an external id taken; or else a wallet that does not exist. No insert of a well-formed operation is
      refused in any other way. */
  lemma InsertIsDeadLetteredExactlyWhen(cfg: Settings, s: State, p: Pid, id: Id)
    requires ValidSettings(cfg) && Reachable(cfg, s) && Enabled(s, Insert(p, id))
    requires NewExternal(CommandOf(s.units[p].job.input), id, s.units[p].now).Ok?
    ensures var c := s.units[p].job.input.request;
            var next := Step(cfg, s, Insert(p, id)).units[p];
            var keyed := exists t :: t in s.db.txs && UnderKey(s.db.txs[t], c);
            var named := exists t :: t in s.db.txs && UnderExternalId(s.db.txs[t], c);
            && (next.Ended? ==> next.end.Refused? && AckOf(next.end).DeadLetter?)
            && (next.Ended? && AckOf(next.end) == DeadLetter(IdempotencyConflict) <==>
                  exists t :: t in s.db.txs && UnderKey(s.db.txs[t], c) && !SameFields(s.db.txs[t].command, c))
            && (next.Ended? && AckOf(next.end) == DeadLetter(ExternalConflict) <==> !keyed && named)
            && (next.Ended? && AckOf(next.end) == DeadLetter(NoWallet) <==>
                  !keyed && !named && c.walletId !in s.db.wallets)
  {
    hide Reachable, Step, NewExternal, UnderKey, UnderExternalId, SameFields, AckOf;
    InsertionIsDecidedByKeys(cfg, s, p, id);
    StepKeepsJobs(cfg, s, Insert(p, id), p);
    AdmissionIsAcknowledged(s.db.txs, s.units[p].job, s.units[p].job.input.request, Step(cfg, s, Insert(p, id)).units[p],
                            s.db.wallets.Keys);
  }

  lemma AdmissionIsAcknowledged(txs: map<Id, Tx>, job: Job, c: Command, next: Unit, wallets: set<Id>)
    requires forall t :: t in txs && UnderKey(txs[t], c) ==>
               next == if SameFields(txs[t].command, c) then Replaying(job, txs[t])
                       else Ended(job, Refused(IdempotencyKeyConflict(t)))
    requires (forall t :: t in txs ==> !UnderKey(txs[t], c)) ==>
               forall t :: t in txs && UnderExternalId(txs[t], c) ==> next == Ended(job, Refused(ExternalIdConflict(t)))
    requires (forall t :: t in txs ==> !UnderKey(txs[t], c)) && (forall t :: t in txs ==> !UnderExternalId(txs[t], c)) ==>
               if c.walletId in wallets then next.Locking? else next == Ended(job, Refused(WalletNotFound))
    ensures var keyed := exists t :: t in txs && UnderKey(txs[t], c);
            var named := exists t :: t in txs && UnderExternalId(txs[t], c);
            && (next.Ended? ==> next.end.Refused? && AckOf(next.end).DeadLetter?)
            && (next.Ended? && AckOf(next.end) == DeadLetter(IdempotencyConflict) <==>
                  exists t :: t in txs && UnderKey(txs[t], c) && !SameFields(txs[t].command, c))
            && (next.Ended? && AckOf(next.end) == DeadLetter(ExternalConflict) <==> !keyed && named)
            && (next.Ended? && AckOf(next.end) == DeadLetter(NoWallet) <==> !keyed && !named && c.walletId !in wallets)
  {
    hide UnderKey, UnderExternalId, SameFields;
    if t :| t in txs && UnderKey(txs[t], c) {
      assert next.Replaying? || next == Ended(job, Refused(IdempotencyKeyConflict(t)));
    } else if t :| t in txs && UnderExternalId(txs[t], c) {
      assert next == Ended(job, Refused(ExternalIdConflict(t)));
    } else {
      assert next.Locking? || next == Ended(job, Refused(WalletNotFound));
    }
  }

  lemma TakenKeyRefuses(db: DB, u: Unit)
    requires u.Inserting? && u.job.SubmitJob? && KeysOk(db.txs) && KeyTaken(db, u.job.input)
    ensures var next := ReplayUnit(db, u); next.Ended? && AckOf(next.end) == DeadLetter(IdempotencyConflict)
    ensures var c := CommandOf(u.job.input);
            exists t :: t in db.txs && HasKey(db.txs[t], c.providerId, c.idempotencyKey)
  {
    var c := CommandOf(u.job.input);
    FoundByKey(db.txs, c.providerId, c.idempotencyKey);
  }

  // ---- shutdown ----

  /** The deliveries a consumer tracks under its mutex. */
  class Tracker {
    var inFlight: map<HandlerId, BrokerId>
    var releasing: bool

    constructor ()
      ensures inFlight == map[] && !releasing
    {
      inFlight, releasing := map[], false;
    }

    /** dispatch, on entry: a delivery that arrives while releasing is not tracked, its caller releases it. */
    method Admit(h: HandlerId, m: BrokerId) returns (admitted: bool)
      modifies this
      ensures admitted <==> !old(releasing)
      ensures inFlight == if admitted then old(inFlight)[h := m] else old(inFlight)
      ensures releasing == old(releasing)
    {
      if releasing {
        return false;
      }
      inFlight := inFlight[h := m];
      return true;
    }

    /** dispatch, on exit: an aborted handler leaves its delivery to the shutdown. */
    method Leave(h: HandlerId, aborted: bool)
      modifies this
      ensures inFlight == if aborted then old(inFlight) else old(inFlight) - {h}
      ensures releasing == old(releasing)
    {
      if !aborted {
        inFlight := inFlight - {h};
      }
    }

    /** Stop, once draining has run out of time: every tracked delivery is released exactly once, and from then on
        none is admitted. */
    method StopAdmitting() returns (unfinished: seq<(HandlerId, BrokerId)>)
      modifies this
      ensures releasing && inFlight == old(inFlight)
      ensures forall h, m :: (h, m) in unfinished <==> h in inFlight && inFlight[h] == m
      ensures forall i, j :: 0 <= i < j < |unfinished| ==> unfinished[i].0 != unfinished[j].0
      ensures |unfinished| == |inFlight|
    {
      releasing := true;
      unfinished := [];
      var left := inFlight;
      while left != map[]
        invariant forall h :: h in left ==> h in inFlight && left[h] == inFlight[h]
        invariant forall h, m :: (h, m) in unfinished <==> h in inFlight && h !in left && inFlight[h] == m
        invariant forall i, j :: 0 <= i < j < |unfinished| ==> unfinished[i].0 != unfinished[j].0
        invariant |unfinished| + |left| == |inFlight|
        decreases |left|
      {
        var h :| h in left;
        assert forall i :: 0 <= i < |unfinished| ==> unfinished[i] in unfinished && unfinished[i].0 != h by {
          forall i | 0 <= i < |unfinished|
            ensures unfinished[i].0 != h
          {
            assert (unfinished[i].0, unfinished[i].1) in unfinished;
          }
        }
        unfinished := unfinished + [(h, left[h])];
        left := left - {h};
      }
    }
  }
}
