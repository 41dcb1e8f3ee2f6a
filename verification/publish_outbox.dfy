/** One round of a publisher over the receipts it claimed. */
module PublishOutbox {
  import opened Values
  import opened Moneys
  import opened Backoffs
  import opened OutboxTable

  datatype PublishSettings = PublishSettings(backoffBase: Int64, backoffMax: Int64)

  /** How a marking transaction ends: confirmed, failed, or applied with its answer lost. */
  datatype MarkResult = Confirmed | NotApplied | AnswerLost

  /** What the world does to one delivery: a cancelled context, the clock readings, the broker, the database. */
  datatype World = World(cancelled: bool, leaseReadAt: Time, sendFails: bool, now: Time, dbNow: Time, mark: MarkResult)

  /** deliver: nothing on a stale lease, otherwise the send and then one of the two marks. */
  function Delivered(settings: PublishSettings, rows: Rows, receipt: Receipt, w: World): (Rows, bool) {
    if !receipt.LeaseValid(w.leaseReadAt) then (rows, false)
    else if w.sendFails then
      var next := w.now + Backoff(settings.backoffBase, settings.backoffMax, receipt.generation);
      (if w.mark.NotApplied? then rows else MarkedFailed(rows, receipt, next, w.dbNow), false)
    else
      (if w.mark.NotApplied? then rows else MarkedPublished(rows, receipt, w.now, w.dbNow),
       w.mark.Confirmed? && Passes(rows, receipt, w.dbNow))
  }

  datatype Round = Round(rows: Rows, published: nat, cancelled: bool)

  /** The receipts in their order, until the context is cancelled. */
  function Drained(settings: PublishSettings, rows: Rows, claimed: seq<Receipt>, world: seq<World>): Round
    requires |world| == |claimed|
  {
    if claimed == [] then Round(rows, 0, false)
    else
      var n := |claimed| - 1;
      var before := Drained(settings, rows, claimed[..n], world[..n]);
      if before.cancelled || world[n].cancelled then before.(cancelled := true)
      else
        var (after, counted) := Delivered(settings, before.rows, claimed[n], world[n]);
        Round(after, before.published + if counted then 1 else 0, false)
  }

  /** One delivery: nothing is sent once the lease has run out by the clock read, and nothing is written unless the
      receipt still holds the row by the database clock and its transaction took effect. Then a failed send puts the
      row off by the backoff of its generation, a successful one publishes it; only a confirmed publication counts. */
  lemma DeliveredExactlyWhen(settings: PublishSettings, rows: Rows, receipt: Receipt, w: World)
    requires receipt.id in rows
    ensures var row := rows[receipt.id];
            var held := row.lockedBy == Some(receipt.owner) && row.attempts == receipt.generation && row.publishedAt == None
                        && row.lockedUntil.Some? && w.dbNow < row.lockedUntil.value;
            var sending := receipt.owner != Empty && receipt.lockedUntil != 0 && w.leaseReadAt < receipt.lockedUntil;
            var (after, counted) := Delivered(settings, rows, receipt, w);
            && (counted <==> sending && !w.sendFails && held && w.mark == Confirmed)
            && (!sending || !held || w.mark == NotApplied ==> after == rows)
            && (sending && held && w.mark != NotApplied ==>
                  after == rows[receipt.id :=
                    if w.sendFails then
                      OutboxRow(row.attempts, w.now + Backoff(settings.backoffBase, settings.backoffMax, row.attempts),
                                None, None, None)
                    else OutboxRow(row.attempts, row.nextAttemptAt, None, None, Some(w.now))])
  {
  }

  /** Execute, after the claim. */
  method DrainBatch(settings: PublishSettings, table: Table, claimed: seq<Receipt>, world: seq<World>)
    returns (published: nat, cancelled: bool)
    requires |world| == |claimed|
    modifies table
    ensures Round(table.rows, published, cancelled) == Drained(settings, old(table.rows), claimed, world)
  {
    published, cancelled := 0, false;
    for k := 0 to |claimed|
      invariant Drained(settings, old(table.rows), claimed[..k], world[..k]) == Round(table.rows, published, false)
    {
      assert claimed[..k + 1][..k] == claimed[..k] && world[..k + 1][..k] == world[..k];
      if world[k].cancelled {
        StaysCancelled(settings, old(table.rows), claimed, world, k + 1);
        return published, true;
      }
      var counted := Deliver(settings, table, claimed[k], world[k]);
      if counted {
        published := published + 1;
      }
    }
    assert claimed[..|claimed|] == claimed && world[..|claimed|] == world;
  }

  lemma {:induction false} StaysCancelled(settings: PublishSettings, rows: Rows, claimed: seq<Receipt>,
                                          world: seq<World>, k: nat)
    requires |world| == |claimed| && k <= |claimed|
    requires Drained(settings, rows, claimed[..k], world[..k]).cancelled
    ensures Drained(settings, rows, claimed, world) == Drained(settings, rows, claimed[..k], world[..k])
    decreases |claimed|
  {
    var n := |claimed|;
    if k == n {
      assert claimed[..k] == claimed && world[..k] == world;
    } else {
      assert claimed[..n - 1][..k] == claimed[..k] && world[..n - 1][..k] == world[..k];
      StaysCancelled(settings, rows, claimed[..n - 1], world[..n - 1], k);
    }
  }

  /** A round stops before the first delivery that finds its context cancelled, keeping what it has done. */
  lemma CancelledExactlyWhen(settings: PublishSettings, rows: Rows, claimed: seq<Receipt>, world: seq<World>, k: nat)
    requires |world| == |claimed| && k <= |claimed| && forall i :: 0 <= i < k ==> !world[i].cancelled
    requires k < |claimed| ==> world[k].cancelled
    ensures var done := Drained(settings, rows, claimed[..k], world[..k]);
            !done.cancelled && Drained(settings, rows, claimed, world) == done.(cancelled := k < |claimed|)
  {
    RunsUncancelled(settings, rows, claimed[..k], world[..k]);
    if k == |claimed| {
      assert claimed[..k] == claimed && world[..k] == world;
    } else {
      assert claimed[..k + 1][..k] == claimed[..k] && world[..k + 1][..k] == world[..k];
      StaysCancelled(settings, rows, claimed, world, k + 1);
    }
  }

  lemma {:induction false} RunsUncancelled(settings: PublishSettings, rows: Rows, claimed: seq<Receipt>,
                                           world: seq<World>)
    requires |world| == |claimed| && forall i :: 0 <= i < |world| ==> !world[i].cancelled
    ensures !Drained(settings, rows, claimed, world).cancelled
  {
    if claimed != [] {
      RunsUncancelled(settings, rows, claimed[..|claimed| - 1], world[..|claimed| - 1]);
    }
  }

  method Deliver(settings: PublishSettings, table: Table, receipt: Receipt, w: World) returns (counted: bool)
    modifies table
    ensures (table.rows, counted) == Delivered(settings, old(table.rows), receipt, w)
  {
    if !receipt.LeaseValid(w.leaseReadAt) {
      return false;
    }
    if w.sendFails {
      var delay := ComputeBackoff(settings.backoffBase, settings.backoffMax, receipt.generation);
      if !w.mark.NotApplied? {
        var _ := table.MarkFailed(receipt, w.now + delay, w.dbNow);
      }
      return false;
    }
    if w.mark.NotApplied? {
      return false;
    }
    var applied := table.MarkPublished(receipt, w.now, w.dbNow);
    return applied && w.mark.Confirmed?;
  }

  // ---- what the count means ----

  function CountPublished(rows: Rows, claimed: seq<Receipt>): nat {
    if claimed == [] then 0
    else
      var id := claimed[|claimed| - 1].id;
      CountPublished(rows, claimed[..|claimed| - 1]) + if id in rows && rows[id].publishedAt.Some? then 1 else 0
  }

  predicate DistinctReceipts(claimed: seq<Receipt>) {
    forall i, j :: 0 <= i < j < |claimed| ==> claimed[i].id != claimed[j].id
  }

  lemma {:induction false} CountIgnoresOthers(rows: Rows, after: Rows, claimed: seq<Receipt>)
    requires forall i :: 0 <= i < |claimed| ==>
               (claimed[i].id in rows <==> claimed[i].id in after)
               && (claimed[i].id in rows ==> after[claimed[i].id] == rows[claimed[i].id])
    ensures CountPublished(rows, claimed) == CountPublished(after, claimed)
  {
    if claimed != [] {
      CountIgnoresOthers(rows, after, claimed[..|claimed| - 1]);
    }
  }

  lemma {:induction false} DrainTouchesClaimed(settings: PublishSettings, rows: Rows, claimed: seq<Receipt>,
                                               world: seq<World>, id: Id)
    requires |world| == |claimed| && forall i :: 0 <= i < |claimed| ==> claimed[i].id != id
    ensures var after := Drained(settings, rows, claimed, world).rows;
            (id in rows <==> id in after) && (id in rows ==> after[id] == rows[id])
  {
    if claimed != [] {
      DrainTouchesClaimed(settings, rows, claimed[..|claimed| - 1], world[..|claimed| - 1], id);
    }
  }

  predicate NoAnswerLost(world: seq<World>) {
    forall i :: 0 <= i < |world| ==> !world[i].mark.AnswerLost?
  }

  /** One delivery of an unpublished event counts only what it published, and all of it unless the answer was lost. */
  lemma DeliveryCounts(settings: PublishSettings, rows: Rows, receipt: Receipt, w: World)
    requires receipt.id in rows && rows[receipt.id].publishedAt.None?
    ensures var (after, counted) := Delivered(settings, rows, receipt, w);
            && receipt.id in after && (counted ==> after[receipt.id].publishedAt.Some?)
            && (!w.mark.AnswerLost? ==> (counted <==> after[receipt.id].publishedAt.Some?))
            && after.Keys == rows.Keys && forall id :: id in rows && id != receipt.id ==> after[id] == rows[id]
  {
  }

  /** The number a round reports never exceeds the events of its batch that it published, and is exactly that
      number when no marking answer was lost. */
  lemma {:induction false} RoundCountsPublished(settings: PublishSettings, rows: Rows, claimed: seq<Receipt>,
                                                world: seq<World>)
    requires |world| == |claimed| && DistinctReceipts(claimed)
    requires forall i :: 0 <= i < |claimed| ==> claimed[i].id in rows && rows[claimed[i].id].publishedAt.None?
    ensures var r := Drained(settings, rows, claimed, world);
            && r.published <= CountPublished(r.rows, claimed)
            && (NoAnswerLost(world) ==> r.published == CountPublished(r.rows, claimed))
  {
    if claimed != [] {
      var n := |claimed| - 1;
      RoundCountsPublished(settings, rows, claimed[..n], world[..n]);
      DrainTouchesClaimed(settings, rows, claimed[..n], world[..n], claimed[n].id);
      var before := Drained(settings, rows, claimed[..n], world[..n]);
      var r := Drained(settings, rows, claimed, world);
      DeliveryCounts(settings, before.rows, claimed[n], world[n]);
      hide Delivered;
      CountIgnoresOthers(before.rows, r.rows, claimed[..n]);
    }
  }
}
