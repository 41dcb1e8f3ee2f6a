/** The outbox table: leases, generations and the guards of the two marks. */
module OutboxTable {
  import opened Values

  /** One outbox row; `attempts` is the generation of the latest claim. */
  datatype OutboxRow = OutboxRow(
    attempts: nat, nextAttemptAt: Time, lockedBy: Option<Text>, lockedUntil: Option<Time>, publishedAt: Option<Time>)

  type Rows = map<Id, OutboxRow>

  datatype Receipt = Receipt(id: Id, owner: Text, generation: nat, lockedUntil: Time) {
    predicate LeaseValid(now: Time) {
      owner != Empty && lockedUntil != 0 && now < lockedUntil
    }
  }

  /** What the columns of a row say as a receipt; NULL is read as the zero value. */
  function ReceiptOf(id: Id, row: OutboxRow): Receipt {
    Receipt(id, match row.lockedBy { case None => Empty case Some(owner) => owner }, row.attempts,
            match row.lockedUntil { case None => 0 case Some(until) => until })
  }

  /** NewOutboxEvent: an unpublished row, due at once. */
  function NewRow(now: Time): OutboxRow {
    OutboxRow(0, now, None, None, None)
  }

  predicate Claimable(row: OutboxRow, now: Time) {
    && row.publishedAt.None? && row.nextAttemptAt <= now
    && (row.lockedUntil.None? || row.lockedUntil.value < now)
  }

  function ClaimRow(row: OutboxRow, owner: Text, now: Time, lease: Time): OutboxRow {
    row.(lockedBy := Some(owner), lockedUntil := Some(now + lease), attempts := row.attempts + 1)
  }

  /** The guard shared by MarkPublished and MarkFailed, on the clock of the database. */
  predicate Passes(rows: Rows, receipt: Receipt, dbNow: Time) {
    && receipt.id in rows
    && var row := rows[receipt.id];
       && row.lockedBy == Some(receipt.owner) && row.attempts == receipt.generation
       && row.publishedAt.None? && row.lockedUntil.Some? && row.lockedUntil.value > dbNow
  }

  function MarkedPublished(rows: Rows, receipt: Receipt, publishedAt: Time, dbNow: Time): Rows {
    if !Passes(rows, receipt, dbNow) then rows
    else rows[receipt.id := rows[receipt.id].(publishedAt := Some(publishedAt), lockedBy := None, lockedUntil := None)]
  }

  function MarkedFailed(rows: Rows, receipt: Receipt, nextAttemptAt: Time, dbNow: Time): Rows {
    if !Passes(rows, receipt, dbNow) then rows
    else rows[receipt.id := rows[receipt.id].(nextAttemptAt := nextAttemptAt, lockedBy := None, lockedUntil := None)]
  }

  // ---- claiming ----

  /** The candidates a claim may take: free of locks and claimable. */
  predicate Free(rows: Rows, skipped: set<Id>, now: Time, id: Id) {
    id in rows && id !in skipped && Claimable(rows[id], now)
  }

  /** The first `limit` free rows of an ordering, each once. */
  function Select(rows: Rows, order: seq<Id>, skipped: set<Id>, now: Time, limit: nat): seq<Id> {
    if order == [] then []
    else
      var before := Select(rows, order[..|order| - 1], skipped, now, limit);
      var id := order[|order| - 1];
      if |before| < limit && Free(rows, skipped, now, id) && id !in before then before + [id] else before
  }

  function ClaimAll(rows: Rows, picked: seq<Id>, owner: Text, now: Time, lease: Time): Rows {
    map id | id in rows :: if id in picked then ClaimRow(rows[id], owner, now, lease) else rows[id]
  }

  function ReceiptsOf(rows: Rows, picked: seq<Id>): seq<Receipt>
    requires forall i :: 0 <= i < |picked| ==> picked[i] in rows
  {
    seq(|picked|, i requires 0 <= i < |picked| => ReceiptOf(picked[i], rows[picked[i]]))
  }

  predicate Distinct(ids: seq<Id>) {
    forall i, j :: 0 <= i < j < |ids| ==> ids[i] != ids[j]
  }

  /** A claim takes only free rows, each once, never more than the limit, and skips a free row only when full. */
  lemma {:induction false} SelectTakesFreeRows(rows: Rows, order: seq<Id>, skipped: set<Id>, now: Time, limit: nat)
    ensures var picked := Select(rows, order, skipped, now, limit);
            && |picked| <= limit && Distinct(picked)
            && (forall id :: id in picked ==> id in order && Free(rows, skipped, now, id))
            && (|picked| < limit ==> forall id :: id in order && Free(rows, skipped, now, id) ==> id in picked)
  {
    if order != [] {
      var init, last := order[..|order| - 1], order[|order| - 1];
      SelectTakesFreeRows(rows, init, skipped, now, limit);
      assert order == init + [last];
    }
  }

  /** And it takes them from the front: whatever free row stands before a picked one is picked too, and earlier. */
  lemma {:induction false} SelectKeepsOrder(rows: Rows, order: seq<Id>, skipped: set<Id>, now: Time, limit: nat, a: nat,
                                            b: nat)
    requires Distinct(order) && a < b < |order|
    ensures var picked := Select(rows, order, skipped, now, limit);
            order[b] in picked && Free(rows, skipped, now, order[a]) ==>
              exists i, j :: 0 <= i < j < |picked| && picked[i] == order[a] && picked[j] == order[b]
  {
    var n := |order| - 1;
    var init, last := order[..n], order[n];
    SelectTakesFreeRows(rows, init, skipped, now, limit);
    var before := Select(rows, init, skipped, now, limit);
    var picked := Select(rows, order, skipped, now, limit);
    if b < n {
      SelectKeepsOrder(rows, init, skipped, now, limit, a, b);
      assert order[b] == init[b] && order[b] != last;
      if order[b] in picked && Free(rows, skipped, now, order[a]) {
        var i, j :| 0 <= i < j < |before| && before[i] == init[a] && before[j] == init[b];
        assert picked[i] == order[a] && picked[j] == order[b];
      }
    } else if order[b] in picked && Free(rows, skipped, now, order[a]) {
      assert init[a] == order[a] && order[a] in init;
      assert forall k :: 0 <= k < n ==> init[k] == order[k] != last;
      assert order[a] in before;
      var i :| 0 <= i < |before| && before[i] == order[a];
      assert picked[i] == order[a] && picked[|before|] == order[b];
    }
  }

  /** What a claim of the selected rows means for rows and receipts. */
  lemma ClaimIsExact(rows: Rows, order: seq<Id>, skipped: set<Id>, owner: Text, now: Time, lease: Time, limit: nat)
    ensures var picked := Select(rows, order, skipped, now, limit);
            var after := ClaimAll(rows, picked, owner, now, lease);
            && |picked| <= limit
            && (forall i :: 0 <= i < |picked| ==>
                  var id := picked[i];
                  && id in rows && id in order && id !in skipped
                  && rows[id].publishedAt == None && rows[id].nextAttemptAt <= now
                  && (rows[id].lockedUntil.None? || rows[id].lockedUntil.value < now)
                  && after[id] == OutboxRow(rows[id].attempts + 1, rows[id].nextAttemptAt, Some(owner),
                                            Some(now + lease), None)
                  && ReceiptOf(id, after[id]) == Receipt(id, owner, rows[id].attempts + 1, now + lease))
            && (forall id :: id in rows && id !in picked ==> after[id] == rows[id])
            && (|picked| < limit ==>
                  forall id :: id in order && id !in skipped && id in rows && rows[id].publishedAt == None
                               && rows[id].nextAttemptAt <= now
                               && (rows[id].lockedUntil.None? || rows[id].lockedUntil.value < now) ==>
                    id in picked)
  {
    hide Select;
    SelectTakesFreeRows(rows, order, skipped, now, limit);
    var picked := Select(rows, order, skipped, now, limit);
    forall i | 0 <= i < |picked| ensures picked[i] in order && Free(rows, skipped, now, picked[i]) {
      assert picked[i] in picked;
    }
  }

  /** A claimed row is nobody else's before its lease has run out; a row marked failed is free again from its next
      attempt on, and a row marked published never. */
  lemma LeasesExclude(rows: Rows, receipt: Receipt, at: Time, dbNow: Time, row: OutboxRow, owner: Text, now: Time,
                      lease: Time, later: Time)
    ensures Claimable(row, now) && Claimable(ClaimRow(row, owner, now, lease), later) ==> later > now + lease
    ensures Claimable(row, now) && later >= row.nextAttemptAt && later > now + lease ==>
              Claimable(ClaimRow(row, owner, now, lease), later)
    ensures Passes(rows, receipt, dbNow) ==>
              (Claimable(MarkedFailed(rows, receipt, at, dbNow)[receipt.id], later) <==> later >= at)
    ensures Passes(rows, receipt, dbNow) ==> !Claimable(MarkedPublished(rows, receipt, at, dbNow)[receipt.id], later)
    ensures Passes(rows, receipt, dbNow) ==>
              !Passes(MarkedFailed(rows, receipt, at, dbNow), receipt, later)
              && !Passes(MarkedPublished(rows, receipt, at, dbNow), receipt, later)
  {
  }

  /** The table the repositories update in place. */
  class Table {
    var rows: Rows

    constructor ()
      ensures rows == map[]
    {
      rows := map[];
    }

    method Append(id: Id, now: Time)
      requires id !in rows
      modifies this
      ensures rows == old(rows)[id := OutboxRow(0, now, None, None, None)]
    {
      rows := rows[id := NewRow(now)];
    }

    /** UPDATE ... WHERE id IN (SELECT ... ORDER BY ... FOR UPDATE SKIP LOCKED LIMIT) RETURNING ...: `order` lists
        the rows in their order, `skipped` are the rows locked by others. */
    method Claim(owner: Text, now: Time, lease: Time, limit: nat, order: seq<Id>, skipped: set<Id>)
      returns (claimed: seq<Receipt>)
      modifies this
      ensures var picked := Select(old(rows), order, skipped, now, limit);
              && rows == ClaimAll(old(rows), picked, owner, now, lease)
              && (forall i :: 0 <= i < |picked| ==> picked[i] in rows)
              && claimed == ReceiptsOf(rows, picked)
      ensures |claimed| <= limit && rows.Keys == old(rows).Keys
      ensures forall i :: 0 <= i < |claimed| ==>
                var id := claimed[i].id;
                && id in old(rows) && id in order && id !in skipped
                && old(rows)[id].publishedAt == None && old(rows)[id].nextAttemptAt <= now
                && (old(rows)[id].lockedUntil.None? || old(rows)[id].lockedUntil.value < now)
                && claimed[i] == Receipt(id, owner, old(rows)[id].attempts + 1, now + lease)
                && rows[id] == OutboxRow(old(rows)[id].attempts + 1, old(rows)[id].nextAttemptAt, Some(owner),
                                         Some(now + lease), None)
      ensures forall id :: id in old(rows) && (forall i :: 0 <= i < |claimed| ==> claimed[i].id != id) ==>
                rows[id] == old(rows)[id]
      ensures |claimed| < limit ==>
                forall id :: id in order && id !in skipped && id in old(rows) && old(rows)[id].publishedAt == None
                             && old(rows)[id].nextAttemptAt <= now
                             && (old(rows)[id].lockedUntil.None? || old(rows)[id].lockedUntil.value < now) ==>
                  exists i :: 0 <= i < |claimed| && claimed[i].id == id
    {
      hide Select, Free, Claimable, ClaimRow;
      var picked := Select(rows, order, skipped, now, limit);
      ClaimIsExact(rows, order, skipped, owner, now, lease, limit);
      rows := ClaimAll(rows, picked, owner, now, lease);
      claimed := [];
      for k := 0 to |picked|
        invariant claimed == ReceiptsOf(rows, picked[..k])
      {
        claimed := claimed + [ReceiptOf(picked[k], rows[picked[k]])];
      }
      assert picked[..|picked|] == picked;
      assert forall i :: 0 <= i < |claimed| ==> claimed[i].id == picked[i];
    }

    /** UPDATE ... WHERE id, locked_by, attempts and an open lease still match. */
    method MarkPublished(receipt: Receipt, publishedAt: Time, dbNow: Time) returns (applied: bool)
      modifies this
      ensures rows == MarkedPublished(old(rows), receipt, publishedAt, dbNow)
      ensures applied <==>
                && receipt.id in old(rows)
                && old(rows)[receipt.id].lockedBy == Some(receipt.owner)
                && old(rows)[receipt.id].attempts == receipt.generation
                && old(rows)[receipt.id].publishedAt == None
                && old(rows)[receipt.id].lockedUntil.Some? && dbNow < old(rows)[receipt.id].lockedUntil.value
      ensures rows == if !applied then old(rows)
                      else old(rows)[receipt.id := OutboxRow(receipt.generation, old(rows)[receipt.id].nextAttemptAt, None,
                                                             None, Some(publishedAt))]
    {
      applied := Passes(rows, receipt, dbNow);
      if applied {
        rows := rows[receipt.id := rows[receipt.id].(publishedAt := Some(publishedAt), lockedBy := None,
                                                     lockedUntil := None)];
      }
    }

    /** Under the same guard. */
    method MarkFailed(receipt: Receipt, nextAttemptAt: Time, dbNow: Time) returns (applied: bool)
      modifies this
      ensures rows == MarkedFailed(old(rows), receipt, nextAttemptAt, dbNow)
      ensures applied <==>
                && receipt.id in old(rows)
                && old(rows)[receipt.id].lockedBy == Some(receipt.owner)
                && old(rows)[receipt.id].attempts == receipt.generation
                && old(rows)[receipt.id].publishedAt == None
                && old(rows)[receipt.id].lockedUntil.Some? && dbNow < old(rows)[receipt.id].lockedUntil.value
      ensures rows == if !applied then old(rows)
                      else old(rows)[receipt.id := OutboxRow(receipt.generation, nextAttemptAt, None, None, None)]
    {
      applied := Passes(rows, receipt, dbNow);
      if applied {
        rows := rows[receipt.id := rows[receipt.id].(nextAttemptAt := nextAttemptAt, lockedBy := None,
                                                     lockedUntil := None)];
      }
    }
  }
}
