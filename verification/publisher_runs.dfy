/** The loop of the publisher as a path of the outbox protocol, and what the lease gives its holder. */
module PublisherRuns {
  import opened Values
  import opened Backoffs
  import opened OutboxTable
  import opened OutboxProtocol
  import opened PublishOutbox

  // ---- the loop takes protocol steps ----

  /** The steps of one delivery: look at the lease, send, and one of the two marks. */
  function DeliveryPath(settings: PublishSettings, p: PublisherId, receipt: Receipt, w: World): seq<Act> {
    if !receipt.LeaseValid(w.leaseReadAt) then [Inspect(p, w.leaseReadAt)]
    else if w.sendFails then
      [Inspect(p, w.leaseReadAt), Send(p, false, true),
       Reschedule(p, w.now + Backoff(settings.backoffBase, settings.backoffMax, receipt.generation), w.dbNow,
                  !w.mark.NotApplied?)]
    else [Inspect(p, w.leaseReadAt), Send(p, true, false), Publish(p, w.now, w.dbNow, !w.mark.NotApplied?)]
  }

  /** The steps of a round, until the context is cancelled. */
  function RoundPath(settings: PublishSettings, p: PublisherId, rows: Rows, claimed: seq<Receipt>, world: seq<World>)
    : seq<Act>
    requires |world| == |claimed|
  {
    if claimed == [] then []
    else
      var n := |claimed| - 1;
      var before := RoundPath(settings, p, rows, claimed[..n], world[..n]);
      if Drained(settings, rows, claimed[..n], world[..n]).cancelled || world[n].cancelled then before
      else before + DeliveryPath(settings, p, claimed[n], world[n])
  }

  /** What is left of a batch after a round. */
  predicate LeftOver(s: Outbox, p: PublisherId, claimed: seq<Receipt>, k: nat) {
    k <= |claimed| && p in s.publishers && s.publishers[p] == Delivering(claimed[k..])
  }

  /** From a batch whose first receipt is next, one delivery of the loop is a path of the protocol with its result. */
  lemma DeliveryIsPath(settings: PublishSettings, s: Outbox, p: PublisherId, claimed: seq<Receipt>, k: nat, w: World)
    requires LeftOver(s, p, claimed, k) && k < |claimed|
    ensures var r := After(s, DeliveryPath(settings, p, claimed[k], w));
            && r.Some? && r.value.rows == Delivered(settings, s.rows, claimed[k], w).0
            && LeftOver(r.value, p, claimed, k + 1)
  {
    var batch := claimed[k..];
    assert batch[0] == claimed[k] && batch[1..] == claimed[k + 1..];
    var look := Inspect(p, w.leaseReadAt);
    AfterStep(s, look);
    if claimed[k].LeaseValid(w.leaseReadAt) {
      var send := if w.sendFails then Send(p, false, true) else Send(p, true, false);
      var mark := DeliveryPath(settings, p, claimed[k], w)[2];
      var s1 := Next(s, look);
      AfterOne(s, [look], send);
      assert [look] + [send] == [look, send];
      var s2 := Next(s1, send);
      AfterOne(s, [look, send], mark);
      assert [look, send] + [mark] == DeliveryPath(settings, p, claimed[k], w);
    }
  }

  /** A whole round of the loop, from any state in which the publisher holds its batch, is a path of the protocol: it
      leaves the rows that the round leaves, whatever the clocks, the broker and the database answer. */
  lemma {:induction false} RoundIsPath(settings: PublishSettings, s: Outbox, p: PublisherId, claimed: seq<Receipt>,
                                       world: seq<World>, batch: seq<Receipt>)
    returns (k: nat)
    requires |world| == |claimed| && claimed <= batch && LeftOver(s, p, batch, 0)
    ensures var r := After(s, RoundPath(settings, p, s.rows, claimed, world));
            && r.Some? && r.value.rows == Drained(settings, s.rows, claimed, world).rows
            && LeftOver(r.value, p, batch, k) && k <= |claimed|
            && (!Drained(settings, s.rows, claimed, world).cancelled ==> k == |claimed|)
    decreases |claimed|
  {
    hide Delivered, DeliveryPath, Next, Possible;
    if claimed == [] {
      k := 0;
    } else {
      var n := |claimed| - 1;
      k := RoundIsPath(settings, s, p, claimed[..n], world[..n], batch);
      var path := RoundPath(settings, p, s.rows, claimed[..n], world[..n]);
      if !(Drained(settings, s.rows, claimed[..n], world[..n]).cancelled || world[n].cancelled) {
        DeliveryIsPath(settings, After(s, path).value, p, batch, n, world[n]);
        AfterPath(s, path, DeliveryPath(settings, p, claimed[n], world[n]));
        k := n + 1;
      }
    }
  }

  lemma ArisesAfter(s: Outbox, acts: seq<Act>)
    requires Arises(s) && After(s, acts).Some?
    ensures Arises(After(s, acts).value)
  {
    var before :| After(EMPTY_OUTBOX, before) == Some(s);
    AfterPath(EMPTY_OUTBOX, before, acts);
  }

  /** So the fencing speaks of the loop: the state a round leaves arises in the protocol, and there a receipt that a
      later claim superseded is powerless. */
  lemma RoundsAreFenced(settings: PublishSettings, s: Outbox, p: PublisherId, claimed: seq<Receipt>, world: seq<World>)
    returns (after: Outbox)
    requires Arises(s) && |world| == |claimed| && LeftOver(s, p, claimed, 0)
    ensures Arises(after) && after.rows == Drained(settings, s.rows, claimed, world).rows
    ensures forall i, j, at, dbNow ::
              0 <= i < j < |after.issued| && after.issued[i].id == after.issued[j].id ==>
                MarkedPublished(after.rows, after.issued[i], at, dbNow) == after.rows
  {
    var k := RoundIsPath(settings, s, p, claimed, world, claimed);
    var path := RoundPath(settings, p, s.rows, claimed, world);
    after := After(s, path).value;
    ArisesAfter(s, path);
    forall i, j, at, dbNow | 0 <= i < j < |after.issued| && after.issued[i].id == after.issued[j].id
      ensures MarkedPublished(after.rows, after.issued[i], at, dbNow) == after.rows
    {
      SupersededReceiptIsFenced(after, i, j, at, dbNow);
    }
  }

  // ---- what a lease is worth ----

  /** Nobody else is handed the receipt again: two publishers never hold the same one. */
  predicate Holders(s: Outbox) {
    forall p, q :: p in s.publishers && q in s.publishers && p != q ==> Apart(s.publishers[p], s.publishers[q])
  }

  function BatchOf(u: Publisher): seq<Receipt> {
    if u.Resting? then [] else u.batch
  }

  predicate Apart(a: Publisher, b: Publisher) {
    forall i :: 0 <= i < |BatchOf(a)| ==> BatchOf(a)[i] !in BatchOf(b)
  }

  lemma NewReceiptsAreNew(s: Outbox, a: Act, i: nat)
    requires GenerationsOk(s) && Possible(s, a) && a.Claim? && i < |a.picked|
    ensures ReceiptsOf(ClaimAll(s.rows, a.picked, a.owner, a.now, a.lease), a.picked)[i] !in s.issued
  {
    assert a.picked[i] in a.picked;
  }

  lemma ClaimKeepsHolders(s: Outbox, a: Act)
    requires OutboxInv(s) && Holders(s) && Possible(s, a) && a.Claim?
    ensures Holders(Next(s, a))
  {
    var after := Next(s, a);
    forall p, q, i | p in after.publishers && q in after.publishers && p != q && 0 <= i < |BatchOf(after.publishers[p])|
      ensures BatchOf(after.publishers[p])[i] !in BatchOf(after.publishers[q])
    {
      if p == a.p {
        if a.answered {
          NewReceiptsAreNew(s, a, i);
        }
      } else if q == a.p {
        forall j | 0 <= j < |BatchOf(after.publishers[q])|
          ensures BatchOf(after.publishers[q])[j] != BatchOf(after.publishers[p])[i]
        {
          NewReceiptsAreNew(s, a, j);
        }
      } else {
        assert Apart(s.publishers[p], s.publishers[q]);
      }
    }
  }

  lemma OtherActsKeepHolders(s: Outbox, a: Act)
    requires Holders(s) && Possible(s, a) && !a.Claim?
    ensures Holders(Next(s, a))
  {
    var after := Next(s, a);
    forall p, q | p in after.publishers && q in after.publishers && p != q
      ensures Apart(after.publishers[p], after.publishers[q])
    {
      BatchShrinks(s, a, p);
      BatchShrinks(s, a, q);
      if p in s.publishers && q in s.publishers {
        assert Apart(s.publishers[p], s.publishers[q]);
        SmallerStaysApart(s.publishers[p], s.publishers[q], after.publishers[p], after.publishers[q]);
      }
    }
  }

  /** An act that claims nothing leaves every batch, or drops its first receipt, or all of it. */
  predicate Shrinks(a: seq<Receipt>, b: seq<Receipt>) {
    b == a || b == [] || (a != [] && b == a[1..])
  }

  lemma BatchShrinks(s: Outbox, a: Act, p: PublisherId)
    requires Possible(s, a) && !a.Claim? && p in Next(s, a).publishers
    ensures p in s.publishers ==> Shrinks(BatchOf(s.publishers[p]), BatchOf(Next(s, a).publishers[p]))
    ensures p !in s.publishers ==> BatchOf(Next(s, a).publishers[p]) == []
  {
  }

  lemma SmallerStaysApart(a: Publisher, b: Publisher, smallerA: Publisher, smallerB: Publisher)
    requires Apart(a, b) && Shrinks(BatchOf(a), BatchOf(smallerA)) && Shrinks(BatchOf(b), BatchOf(smallerB))
    ensures Apart(smallerA, smallerB)
  {
    forall i, j | 0 <= i < |BatchOf(smallerA)| && 0 <= j < |BatchOf(smallerB)|
      ensures BatchOf(smallerA)[i] != BatchOf(smallerB)[j]
    {
      var k := if |BatchOf(smallerA)| < |BatchOf(a)| then i + 1 else i;
      var l := if |BatchOf(smallerB)| < |BatchOf(b)| then j + 1 else j;
      assert BatchOf(a)[k] == BatchOf(smallerA)[i] && BatchOf(b)[l] == BatchOf(smallerB)[j];
      assert BatchOf(a)[k] !in BatchOf(b);
    }
  }

  lemma {:induction false} RunsKeepHolders(acts: seq<Act>)
    ensures After(EMPTY_OUTBOX, acts).Some? ==> Holders(After(EMPTY_OUTBOX, acts).value)
  {
    hide Holders, Next, Possible, OutboxInv;
    if acts == [] {
      NobodyHolds();
    } else {
      var init, last := acts[..|acts| - 1], acts[|acts| - 1];
      RunsKeepHolders(init);
      var before := After(EMPTY_OUTBOX, init);
      if before.Some? && Possible(before.value, last) {
        RunsKeepInv(init);
        if last.Claim? {
          ClaimKeepsHolders(before.value, last);
        } else {
          OtherActsKeepHolders(before.value, last);
        }
      }
    }
  }

  lemma NobodyHolds()
    ensures Holders(EMPTY_OUTBOX)
  {
  }

  /** The publisher holds the receipt of the row's latest claim, and nothing has been marked with it. */
  predicate Leased(s: Outbox, p: PublisherId, receipt: Receipt) {
    && p in s.publishers && receipt in BatchOf(s.publishers[p])
    && receipt.id in s.rows
    && var row := s.rows[receipt.id];
       && row.publishedAt.None? && row.lockedBy == Some(receipt.owner) && row.attempts == receipt.generation
       && row.lockedUntil == Some(receipt.lockedUntil)
  }

  /** Someone else acts, and no claim uses a clock past the lease. */
  predicate WithinLease(a: Act, p: PublisherId, receipt: Receipt) {
    && (a.Append? || a.p != p)
    && (a.Claim? ==> a.now <= receipt.lockedUntil)
  }

  lemma LeaseSurvives(s: Outbox, a: Act, p: PublisherId, receipt: Receipt)
    requires OutboxInv(s) && Holders(s) && Leased(s, p, receipt) && Possible(s, a) && WithinLease(a, p, receipt)
    ensures Leased(Next(s, a), p, receipt)
  {
    if a.Publish? || a.Reschedule? {
      var other := s.publishers[a.p].batch[0];
      assert other in BatchOf(s.publishers[a.p]) && Apart(s.publishers[a.p], s.publishers[p]);
      if other.id == receipt.id {
        OthersDoNotPass(s, p, a.p, receipt, other, a.dbNow);
      }
    }
  }

  lemma OthersDoNotPass(s: Outbox, p: PublisherId, q: PublisherId, receipt: Receipt, other: Receipt, dbNow: Time)
    requires OutboxInv(s) && Leased(s, p, receipt) && q in s.publishers && other in BatchOf(s.publishers[q])
    requires other != receipt && other.id == receipt.id
    ensures !Passes(s.rows, other, dbNow)
  {
    assert receipt in s.issued && other in s.issued;
    var i, j :| 0 <= i < |s.issued| && s.issued[i] == receipt && 0 <= j < |s.issued| && s.issued[j] == other;
    assert i != j;
  }

  /** A lease excludes: whatever the other publishers do, crashes and late marks included, as long as none of them
      claims by a clock past the lease, the holder's receipt still passes the guards, and its mark publishes. */
  lemma {:induction false} LeaseIsKept(s: Outbox, acts: seq<Act>, p: PublisherId, receipt: Receipt, dbNow: Time)
    requires Arises(s) && Leased(s, p, receipt) && After(s, acts).Some? && dbNow < receipt.lockedUntil
    requires forall i :: 0 <= i < |acts| ==> WithinLease(acts[i], p, receipt)
    ensures var after := After(s, acts).value;
            Leased(after, p, receipt) && Passes(after.rows, receipt, dbNow)
  {
    hide Next, Possible, Holders, OutboxInv, Arises;
    if acts != [] {
      var init, last := acts[..|acts| - 1], acts[|acts| - 1];
      LeaseIsKept(s, init, p, receipt, dbNow);
      var before := After(s, init).value;
      ArisesAfter(s, init);
      ArisingInv(before);
      ArisingHolders(before);
      LeaseSurvives(before, last, p, receipt);
    }
  }

  lemma ArisingHolders(s: Outbox)
    requires Arises(s)
    ensures Holders(s)
  {
    var acts :| After(EMPTY_OUTBOX, acts) == Some(s);
    RunsKeepHolders(acts);
  }
}
