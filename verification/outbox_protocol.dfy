/** Publishers sharing the outbox: claim, send, mark. Every clock is arbitrary, and any step may be the last. */
module OutboxProtocol {
  import opened Values
  import opened OutboxTable

  type PublisherId = nat

  /** A publisher, by what it does next with the first receipt of its batch. */
  datatype Publisher =
    | Resting
    | Delivering(batch: seq<Receipt>)
    | Sending(batch: seq<Receipt>)
    | Marking(batch: seq<Receipt>)
    | Rescheduling(batch: seq<Receipt>)

  predicate Busy(u: Publisher) {
    (u.Delivering? || u.Sending? || u.Marking? || u.Rescheduling?) && u.batch != []
  }

  /** `sent` counts the deliveries the broker accepted; `issued` lists every receipt ever handed out, in order. */
  datatype Outbox = Outbox(
    rows: Rows, publishers: map<PublisherId, Publisher>, sent: multiset<Id>, issued: seq<Receipt>)

  const EMPTY_OUTBOX := Outbox(map[], map[], multiset{}, [])

  /** The flag of a mark says whether its transaction took effect; of a claim, whether its answer arrived. */
  datatype Act =
    | Append(id: Id, now: Time)
    | Start(p: PublisherId)
    | Claim(p: PublisherId, owner: Text, now: Time, lease: Time, picked: seq<Id>, answered: bool)
    | Inspect(p: PublisherId, now: Time)
    | Send(p: PublisherId, delivered: bool, failed: bool)
    | Publish(p: PublisherId, publishedAt: Time, dbNow: Time, applied: bool)
    | Reschedule(p: PublisherId, nextAttemptAt: Time, dbNow: Time, applied: bool)
    | Rest(p: PublisherId)
    | Crash(p: PublisherId)

  predicate Possible(s: Outbox, a: Act) {
    match a
    case Append(id, _) => id !in s.rows
    case Start(p) => p !in s.publishers
    case Claim(p, _, now, _, picked, _) =>
      && p in s.publishers && s.publishers[p].Resting? && Distinct(picked)
      && forall id :: id in picked ==> id in s.rows && Claimable(s.rows[id], now)
    case Inspect(p, _) => p in s.publishers && s.publishers[p].Delivering? && Busy(s.publishers[p])
    case Send(p, delivered, failed) =>
      p in s.publishers && s.publishers[p].Sending? && Busy(s.publishers[p]) && (delivered || failed)
    case Publish(p, _, _, _) => p in s.publishers && s.publishers[p].Marking? && Busy(s.publishers[p])
    case Reschedule(p, _, _, _) => p in s.publishers && s.publishers[p].Rescheduling? && Busy(s.publishers[p])
    case Rest(p) => p in s.publishers && s.publishers[p].Delivering? && s.publishers[p].batch == []
    case Crash(p) => p in s.publishers
  }

  function Goes(s: Outbox, p: PublisherId, u: Publisher): Outbox {
    s.(publishers := s.publishers[p := u])
  }

  function Next(s: Outbox, a: Act): Outbox
    requires Possible(s, a)
  {
    match a
    case Append(id, now) => s.(rows := s.rows[id := NewRow(now)])
    case Start(p) => Goes(s, p, Resting)
    case Claim(p, owner, now, lease, picked, answered) =>
      var rows := ClaimAll(s.rows, picked, owner, now, lease);
      var receipts := ReceiptsOf(rows, picked);
      Goes(s, p, if answered then Delivering(receipts) else Resting).(rows := rows, issued := s.issued + receipts)
    case Inspect(p, now) =>
      var batch := s.publishers[p].batch;
      Goes(s, p, if batch[0].LeaseValid(now) then Sending(batch) else Delivering(batch[1..]))
    case Send(p, delivered, failed) =>
      var batch := s.publishers[p].batch;
      Goes(s, p, if failed then Rescheduling(batch) else Marking(batch)).(
        sent := if delivered then s.sent + multiset{batch[0].id} else s.sent)
    case Publish(p, publishedAt, dbNow, applied) =>
      var batch := s.publishers[p].batch;
      Goes(s, p, Delivering(batch[1..])).(
        rows := if applied then MarkedPublished(s.rows, batch[0], publishedAt, dbNow) else s.rows)
    case Reschedule(p, nextAttemptAt, dbNow, applied) =>
      var batch := s.publishers[p].batch;
      Goes(s, p, Delivering(batch[1..])).(
        rows := if applied then MarkedFailed(s.rows, batch[0], nextAttemptAt, dbNow) else s.rows)
    case Rest(p) => Goes(s, p, Resting)
    case Crash(p) => Goes(s, p, Resting)
  }

  /** The state after a list of actions, if each is possible in its turn. */
  function After(s: Outbox, acts: seq<Act>): Option<Outbox> {
    if acts == [] then Some(s)
    else
      match After(s, acts[..|acts| - 1])
      case None => None
      case Some(before) =>
        if Possible(before, acts[|acts| - 1]) then Some(Next(before, acts[|acts| - 1])) else None
  }

  ghost predicate Arises(s: Outbox) {
    exists acts :: After(EMPTY_OUTBOX, acts) == Some(s)
  }

  // ---- the invariant ----

  /** Receipts of one event are issued with growing generations, the latest one being the row's. */
  predicate GenerationsOk(s: Outbox) {
    && (forall i :: 0 <= i < |s.issued| ==>
          s.issued[i].id in s.rows && 1 <= s.issued[i].generation <= s.rows[s.issued[i].id].attempts)
    && (forall i, j :: 0 <= i < j < |s.issued| && s.issued[i].id == s.issued[j].id ==>
          s.issued[i].generation < s.issued[j].generation)
  }

  predicate BatchesIssued(s: Outbox) {
    forall p :: p in s.publishers && !s.publishers[p].Resting? ==>
      forall i :: 0 <= i < |s.publishers[p].batch| ==> s.publishers[p].batch[i] in s.issued
  }

  predicate SentOk(s: Outbox) {
    && (forall p :: p in s.publishers && s.publishers[p].Marking? && Busy(s.publishers[p]) ==>
          s.publishers[p].batch[0].id in s.sent)
    && (forall id :: id in s.rows && s.rows[id].publishedAt.Some? ==> id in s.sent)
  }

  predicate OutboxInv(s: Outbox) {
    GenerationsOk(s) && BatchesIssued(s) && SentOk(s)
  }

  lemma ClaimKeepsGenerations(s: Outbox, a: Act)
    requires GenerationsOk(s) && Possible(s, a) && a.Claim?
    ensures GenerationsOk(Next(s, a))
  {
    var after := Next(s, a);
    var n := |s.issued|;
    forall i | 0 <= i < |after.issued|
      ensures i < n ==> after.issued[i] == s.issued[i]
      ensures i >= n ==> after.issued[i].id == a.picked[i - n] && a.picked[i - n] in s.rows
                         && after.issued[i].generation == s.rows[a.picked[i - n]].attempts + 1
    {
      if i >= n {
        assert a.picked[i - n] in a.picked;
      }
    }
  }

  lemma ClaimIssuesBatch(s: Outbox, a: Act)
    requires BatchesIssued(s) && Possible(s, a) && a.Claim?
    ensures BatchesIssued(Next(s, a))
  {
    var after := Next(s, a);
    forall p, i | p in after.publishers && !after.publishers[p].Resting? && 0 <= i < |after.publishers[p].batch|
      ensures after.publishers[p].batch[i] in after.issued
    {
      if p == a.p {
        assert after.publishers[p].batch[i] == after.issued[|s.issued| + i];
      } else {
        assert s.publishers[p].batch[i] in s.issued;
      }
    }
  }

  lemma ClaimKeepsSent(s: Outbox, a: Act)
    requires SentOk(s) && Possible(s, a) && a.Claim?
    ensures SentOk(Next(s, a))
  {
  }

  lemma OtherActsKeepGenerations(s: Outbox, a: Act)
    requires GenerationsOk(s) && Possible(s, a) && !a.Claim?
    ensures GenerationsOk(Next(s, a))
  {
  }

  lemma OtherActsKeepSent(s: Outbox, a: Act)
    requires SentOk(s) && Possible(s, a) && !a.Claim?
    ensures SentOk(Next(s, a))
  {
  }

  lemma OtherActsKeepBatches(s: Outbox, a: Act)
    requires BatchesIssued(s) && Possible(s, a) && !a.Claim?
    ensures BatchesIssued(Next(s, a))
  {
    var after := Next(s, a);
    forall p, i | p in after.publishers && !after.publishers[p].Resting? && 0 <= i < |after.publishers[p].batch|
      ensures after.publishers[p].batch[i] in after.issued
    {
      if p in s.publishers && !s.publishers[p].Resting? {
        var j := if |after.publishers[p].batch| < |s.publishers[p].batch| then i + 1 else i;
        assert after.publishers[p].batch[i] == s.publishers[p].batch[j];
      }
    }
  }

  lemma ActKeepsInv(s: Outbox, a: Act)
    requires OutboxInv(s) && Possible(s, a)
    ensures OutboxInv(Next(s, a))
  {
    hide Next, GenerationsOk, BatchesIssued, SentOk, Possible;
    if a.Claim? {
      ClaimKeepsGenerations(s, a);
      ClaimIssuesBatch(s, a);
      ClaimKeepsSent(s, a);
    } else {
      OtherActsKeepGenerations(s, a);
      OtherActsKeepBatches(s, a);
      OtherActsKeepSent(s, a);
    }
  }

  lemma {:induction false} RunsKeepInv(acts: seq<Act>)
    ensures After(EMPTY_OUTBOX, acts).Some? ==> OutboxInv(After(EMPTY_OUTBOX, acts).value)
  {
    hide OutboxInv, Next, Possible;
    if acts == [] {
      EmptyOutboxInv();
    } else {
      RunsKeepInv(acts[..|acts| - 1]);
      var before := After(EMPTY_OUTBOX, acts[..|acts| - 1]);
      if before.Some? && Possible(before.value, acts[|acts| - 1]) {
        ActKeepsInv(before.value, acts[|acts| - 1]);
      }
    }
  }

  lemma EmptyOutboxInv()
    ensures OutboxInv(EMPTY_OUTBOX)
  {
  }

  lemma ArisingInv(s: Outbox)
    requires Arises(s)
    ensures OutboxInv(s)
  {
    var acts :| After(EMPTY_OUTBOX, acts) == Some(s);
    RunsKeepInv(acts);
  }

  // ---- what it gives ----

  /** The receipts of one event carry strictly increasing generations, in the order they were handed out. */
  lemma GenerationsIncrease(s: Outbox, i: nat, j: nat)
    requires Arises(s) && i < j < |s.issued| && s.issued[i].id == s.issued[j].id
    ensures s.issued[i].generation < s.issued[j].generation
  {
    ArisingInv(s);
  }

  /** At any time, whatever the database clock says, at most one receipt of an event passes the guards. */
  lemma OneReceiptPasses(s: Outbox, a: Receipt, b: Receipt, now1: Time, now2: Time)
    requires Arises(s) && a in s.issued && b in s.issued && a.id == b.id
    requires Passes(s.rows, a, now1) && Passes(s.rows, b, now2)
    ensures a == b
  {
    ArisingInv(s);
    var i, j :| 0 <= i < |s.issued| && s.issued[i] == a && 0 <= j < |s.issued| && s.issued[j] == b;
    assert a.generation == b.generation;
  }

  /** A receipt that a later claim has superseded can change nothing any more. */
  lemma SupersededReceiptIsFenced(s: Outbox, i: nat, j: nat, at: Time, dbNow: Time)
    requires Arises(s) && i < j < |s.issued| && s.issued[i].id == s.issued[j].id
    ensures MarkedPublished(s.rows, s.issued[i], at, dbNow) == s.rows
    ensures MarkedFailed(s.rows, s.issued[i], at, dbNow) == s.rows
  {
    ArisingInv(s);
  }

  /** The j-th action of a history is a send of this event that the broker accepted. */
  predicate DeliversAt(acts: seq<Act>, j: int, id: Id) {
    && 0 <= j < |acts| && acts[j].Send? && acts[j].delivered
    && var before := After(EMPTY_OUTBOX, acts[..j]);
       before.Some? && acts[j].p in before.value.publishers && Busy(before.value.publishers[acts[j].p])
       && before.value.publishers[acts[j].p].batch[0].id == id
  }

  lemma SentByDelivery(s: Outbox, a: Act, id: Id)
    requires Possible(s, a)
    ensures id in Next(s, a).sent <==>
              id in s.sent || (a.Send? && a.delivered && s.publishers[a.p].batch[0].id == id)
    ensures a.Send? ==> a.p in s.publishers && Busy(s.publishers[a.p])
  {
  }

  /** What counts as sent is what the broker accepted at some moment of the history. */
  lemma {:induction false} SentExactlyWhenDelivered(acts: seq<Act>, id: Id)
    requires After(EMPTY_OUTBOX, acts).Some?
    ensures id in After(EMPTY_OUTBOX, acts).value.sent <==> exists j :: DeliversAt(acts, j, id)
  {
    hide Next, Possible, Busy;
    if acts != [] {
      var n := |acts| - 1;
      SentExactlyWhenDelivered(acts[..n], id);
      SentByDelivery(After(EMPTY_OUTBOX, acts[..n]).value, acts[n], id);
      forall j | 0 <= j < n
        ensures DeliversAt(acts, j, id) <==> DeliversAt(acts[..n], j, id)
      {
        assert acts[..n][..j] == acts[..j] && acts[j] == acts[..n][j];
      }
      if id in After(EMPTY_OUTBOX, acts[..n]).value.sent {
        var j :| DeliversAt(acts[..n], j, id);
        assert DeliversAt(acts, j, id);
      } else if id in After(EMPTY_OUTBOX, acts).value.sent {
        assert DeliversAt(acts, n, id);
      }
    }
  }

  /** A published event was accepted by the broker at least once. */
  lemma PublishedWasSent(acts: seq<Act>, id: Id)
    requires After(EMPTY_OUTBOX, acts).Some?
    requires var s := After(EMPTY_OUTBOX, acts).value; id in s.rows && s.rows[id].publishedAt.Some?
    ensures exists j :: DeliversAt(acts, j, id)
  {
    RunsKeepInv(acts);
    SentExactlyWhenDelivered(acts, id);
  }

  lemma ActKeepsPublished(s: Outbox, a: Act, id: Id)
    requires Possible(s, a) && id in s.rows
    ensures id in Next(s, a).rows
    ensures s.rows[id].publishedAt.Some? ==> Next(s, a).rows[id] == s.rows[id]
  {
  }

  /** No action, no crash and no lost answer ever removes a row, and a published row never changes again. */
  lemma {:induction false} PublishedForever(s: Outbox, acts: seq<Act>, id: Id)
    requires id in s.rows && After(s, acts).Some?
    ensures id in After(s, acts).value.rows
    ensures s.rows[id].publishedAt.Some? ==> After(s, acts).value.rows[id] == s.rows[id]
  {
    if acts != [] {
      PublishedForever(s, acts[..|acts| - 1], id);
      ActKeepsPublished(After(s, acts[..|acts| - 1]).value, acts[|acts| - 1], id);
    }
  }

  // ---- recovery ----

  lemma AfterOne(s: Outbox, acts: seq<Act>, a: Act)
    requires After(s, acts).Some? && Possible(After(s, acts).value, a)
    ensures After(s, acts + [a]) == Some(Next(After(s, acts).value, a))
  {
    assert (acts + [a])[..|acts + [a]| - 1] == acts;
  }

  lemma {:induction false} AfterPath(s: Outbox, a: seq<Act>, b: seq<Act>)
    requires After(s, a).Some?
    ensures After(s, a + b) == After(After(s, a).value, b)
  {
    hide Next, Possible;
    if b == [] {
      assert a + b == a;
    } else {
      AfterPath(s, a, b[..|b| - 1]);
      assert (a + b)[..|a + b| - 1] == a + b[..|b| - 1];
    }
  }

  lemma AfterStep(s: Outbox, a: Act)
    requires Possible(s, a)
    ensures After(s, [a]) == Some(Next(s, a))
  {
    AfterOne(s, [], a);
    assert [] + [a] == [a];
  }

  /** The claim of one undisturbed publisher, a new one or one back from a crash. */
  function Taking(s: Outbox, p: PublisherId, owner: Text, now: Time, id: Id): seq<Act> {
    [if p in s.publishers then Crash(p) else Start(p), Claim(p, owner, now, 1, [id], true)]
  }

  /** And its send and mark, after which it rests. */
  function Finishing(p: PublisherId, now: Time): seq<Act> {
    [Inspect(p, now), Send(p, true, false), Publish(p, now, now, true), Rest(p)]
  }

  lemma TakesRow(s: Outbox, p: PublisherId, owner: Text, now: Time, id: Id)
    requires id in s.rows && Claimable(s.rows[id], now)
    ensures var r := After(s, Taking(s, p, owner, now, id));
            var receipt := Receipt(id, owner, s.rows[id].attempts + 1, now + 1);
            && r.Some? && r.value.publishers == s.publishers[p := Delivering([receipt])]
            && r.value.sent == s.sent && r.value.rows == s.rows[id := ClaimRow(s.rows[id], owner, now, 1)]
  {
    var start, claim := Taking(s, p, owner, now, id)[0], Taking(s, p, owner, now, id)[1];
    AfterStep(s, start);
    AfterOne(s, [start], claim);
    assert [start] + [claim] == Taking(s, p, owner, now, id);
    assert ReceiptsOf(ClaimAll(s.rows, [id], owner, now, 1), [id])
        == [Receipt(id, owner, s.rows[id].attempts + 1, now + 1)];
  }

  lemma FinishesRow(s: Outbox, p: PublisherId, now: Time, receipt: Receipt)
    requires p in s.publishers && s.publishers[p] == Delivering([receipt])
    requires receipt.LeaseValid(now) && Passes(s.rows, receipt, now)
    ensures var r := After(s, Finishing(p, now));
            && r.Some? && r.value.rows == MarkedPublished(s.rows, receipt, now, now)
            && r.value.sent == s.sent + multiset{receipt.id} && r.value.publishers == s.publishers[p := Resting]
  {
    var look, send, mark, rest := Inspect(p, now), Send(p, true, false), Publish(p, now, now, true), Rest(p);
    AfterStep(s, look);
    AfterOne(s, [look], send);
    assert [look] + [send] == [look, send];
    AfterOne(s, [look, send], mark);
    assert [look, send] + [mark] == [look, send, mark];
    AfterOne(s, [look, send, mark], rest);
    assert [look, send, mark] + [rest] == Finishing(p, now);
  }

  /** No crash point loses an unpublished row: from any state, once the clock of a publisher is past the row's
      next attempt and past a lease that was left behind, one claim, one send and one mark publish it, by a new publisher
      or by one that crashed in the middle of a batch, and leave that publisher ready for its next round. */
  lemma UnpublishedIsRecoverable(s: Outbox, p: PublisherId, owner: Text, now: Time, id: Id)
    requires owner != Empty && now > 0
    requires id in s.rows && Claimable(s.rows[id], now)
    ensures var r := After(s, Taking(s, p, owner, now, id) + Finishing(p, now));
            && r.Some? && id in r.value.rows && r.value.rows[id].publishedAt == Some(now)
            && r.value.sent[id] == s.sent[id] + 1 && r.value.publishers == s.publishers[p := Resting]
  {
    hide After, Taking, Finishing;
    TakesRow(s, p, owner, now, id);
    var taken := After(s, Taking(s, p, owner, now, id)).value;
    FinishesRow(taken, p, now, Receipt(id, owner, s.rows[id].attempts + 1, now + 1));
    AfterPath(s, Taking(s, p, owner, now, id), Finishing(p, now));
  }

  // ---- leases ----

  /** A claim whose answer is lost leases its rows and delivers nothing. */
  lemma LostClaimDeliversNothing(s: Outbox, p: PublisherId, owner: Text, now: Time, lease: Time, picked: seq<Id>)
    requires Possible(s, Claim(p, owner, now, lease, picked, false))
    ensures var after := Next(s, Claim(p, owner, now, lease, picked, false));
            && after.publishers[p] == Resting && after.sent == s.sent
            && forall id :: id in picked ==> id in after.rows && after.rows[id].lockedUntil == Some(now + lease)
  {
  }

  /** With this very batch before it, the publisher read a clock before the end of the lease of its first receipt. */
  predicate LooksInTime(acts: seq<Act>, j: int, p: PublisherId, batch: seq<Receipt>) {
    && 0 <= j < |acts| && acts[j].Inspect? && acts[j].p == p && batch != [] && acts[j].now < batch[0].lockedUntil
    && var before := After(EMPTY_OUTBOX, acts[..j]);
       before.Some? && p in before.value.publishers && before.value.publishers[p] == Delivering(batch)
  }

  lemma SendersLooked(s: Outbox, a: Act, p: PublisherId)
    requires Possible(s, a) && p in Next(s, a).publishers && Next(s, a).publishers[p].Sending?
    ensures p in s.publishers
    ensures var batch := Next(s, a).publishers[p].batch;
            || s.publishers[p] == Sending(batch)
            || (a.Inspect? && a.p == p && s.publishers[p] == Delivering(batch) && batch != []
                && a.now < batch[0].lockedUntil)
  {
  }

  /** Nothing is sent on a stale lease: whatever the clocks read, a publisher about to send has, for this very receipt,
      read a clock before the end of its lease. */
  lemma {:induction false} StaleIsNeverSent(acts: seq<Act>, p: PublisherId)
    requires After(EMPTY_OUTBOX, acts).Some?
    requires var s := After(EMPTY_OUTBOX, acts).value; p in s.publishers && s.publishers[p].Sending?
    ensures exists j :: LooksInTime(acts, j, p, After(EMPTY_OUTBOX, acts).value.publishers[p].batch)
  {
    hide Next, Possible;
    var n := |acts| - 1;
    var before := After(EMPTY_OUTBOX, acts[..n]).value;
    var batch := Next(before, acts[n]).publishers[p].batch;
    SendersLooked(before, acts[n], p);
    if before.publishers[p] == Sending(batch) {
      StaleIsNeverSent(acts[..n], p);
      var j :| LooksInTime(acts[..n], j, p, batch);
      assert acts[..n][..j] == acts[..j] && acts[j] == acts[..n][j];
      assert LooksInTime(acts, j, p, batch);
    } else {
      assert LooksInTime(acts, n, p, batch);
    }
  }
}
