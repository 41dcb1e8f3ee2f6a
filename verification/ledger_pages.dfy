/** Reading a ledger page by page while it may grow. */
module LedgerPages {
  import opened Values
  import opened Moneys
  import opened Ledgers
  import opened Wallets
  import opened Settlements
  import opened Databases
  import opened DataInvariants
  import opened TableWrites
  import opened Protocol
  import opened LockDiscipline
  import opened UnitKnowledge
  import opened ProtocolInvariant
  import opened Commits
  import opened Safety
  import opened Guarantees

  /** nextCursor is zero, as in the zero value, when there is no next page. */
  datatype Page = Page(entries: seq<LedgerEntry>, hasMore: bool, nextCursor: int)

  function LedgerPage(entries: seq<LedgerEntry>, limit: nat): Page {
    if |entries| > limit then
      Page(entries[..limit], true, if limit > 0 then entries[limit - 1].walletVersion else 0)
    else Page(entries, false, 0)
  }

  /** The versions of a ledger are consecutive, from `first` on. */
  predicate Consecutive(entries: seq<LedgerEntry>, first: int) {
    forall i :: 0 <= i < |entries| ==> entries[i].walletVersion == first + i
  }

  function Min(a: int, b: int): int {
    if a < b then a else b
  }

  /** WHERE wallet_version > cursor ORDER BY wallet_version LIMIT limit, over rows already in version order. */
  function After(entries: seq<LedgerEntry>, cursor: int): seq<LedgerEntry> {
    if entries == [] then []
    else
      var before, last := After(entries[..|entries| - 1], cursor), entries[|entries| - 1];
      if last.walletVersion > cursor then before + [last] else before
  }

  function ListAfter(entries: seq<LedgerEntry>, cursor: int, limit: nat): seq<LedgerEntry> {
    var after := After(entries, cursor);
    after[..Min(|after|, limit)]
  }

  /** The repository's loop over the rows the query returns. */
  method ListAfterVersion(rows: seq<LedgerEntry>, afterVersion: int, limit: nat)
    returns (entries: seq<LedgerEntry>)
    ensures entries == ListAfter(rows, afterVersion, limit)
  {
    entries := [];
    var k := 0;
    while k < |rows|
      invariant 0 <= k <= |rows|
      invariant entries == ListAfter(rows[..k], afterVersion, limit)
    {
      assert rows[..k + 1][..k] == rows[..k];
      if rows[k].walletVersion > afterVersion && |entries| < limit {
        entries := entries + [rows[k]];
      }
      k := k + 1;
    }
    assert rows[..|rows|] == rows;
  }

  /** On consecutive versions the filter is a suffix. */
  lemma {:induction false} AfterIsSuffix(entries: seq<LedgerEntry>, first: int, cursor: int, k: nat)
    requires Consecutive(entries, first) && k <= |entries|
    requires if k == 0 then cursor < first else cursor == first + k - 1
    ensures After(entries, cursor) == entries[k..]
  {
    if entries != [] {
      var n := |entries| - 1;
      if k <= n {
        AfterIsSuffix(entries[..n], first, cursor, k);
        assert entries[k..] == entries[..n][k..] + [entries[n]];
      } else {
        AfterIsEmpty(entries, first, cursor);
      }
    }
  }

  lemma {:induction false} AfterIsEmpty(entries: seq<LedgerEntry>, first: int, cursor: int)
    requires Consecutive(entries, first) && cursor >= first + |entries| - 1
    ensures After(entries, cursor) == []
  {
    if entries != [] {
      AfterIsEmpty(entries[..|entries| - 1], first, cursor);
    }
  }

  /** Execute: one entry more than the page holds is asked for. */
  function ReadPage(entries: seq<LedgerEntry>, cursor: int, limit: nat): Page {
    LedgerPage(ListAfter(entries, cursor, limit + 1), limit)
  }

  lemma PageIsSlice(entries: seq<LedgerEntry>, first: int, cursor: int, k: nat, limit: nat)
    requires Consecutive(entries, first) && k <= |entries| && limit > 0
    requires if k == 0 then cursor < first else cursor == first + k - 1
    ensures var page := ReadPage(entries, cursor, limit);
            && page.entries == entries[k..Min(|entries|, k + limit)]
            && (page.hasMore <==> k + limit < |entries|)
            && page.nextCursor == if page.hasMore then first + k + limit - 1 else 0
  {
    AfterIsSuffix(entries, first, cursor, k);
  }

  /** A client that follows the cursors; read number i sees ledgers[i]. */
  function Walk(ledgers: seq<seq<LedgerEntry>>, cursor: int, limit: nat): seq<LedgerEntry> {
    if ledgers == [] then []
    else
      var page := ReadPage(ledgers[0], cursor, limit);
      if page.hasMore then page.entries + Walk(ledgers[1..], page.nextCursor, limit) else page.entries
  }

  /** The number of reads until no page is offered, or all of them. */
  function Reads(ledgers: seq<seq<LedgerEntry>>, cursor: int, limit: nat): nat {
    if ledgers == [] then 0
    else
      var page := ReadPage(ledgers[0], cursor, limit);
      if page.hasMore then 1 + Reads(ledgers[1..], page.nextCursor, limit) else 1
  }

  predicate Finished(ledgers: seq<seq<LedgerEntry>>, cursor: int, limit: nat) {
    ledgers != [] &&
    var page := ReadPage(ledgers[0], cursor, limit);
    !page.hasMore || Finished(ledgers[1..], page.nextCursor, limit)
  }

  predicate Growing(ledgers: seq<seq<LedgerEntry>>) {
    forall i, j :: 0 <= i <= j < |ledgers| ==> ledgers[i] <= ledgers[j]
  }

  /** What the walk has read when it started after the first k entries. */
  predicate WalkedTo(ledgers: seq<seq<LedgerEntry>>, cursor: int, k: nat, limit: nat) {
    && 1 <= Reads(ledgers, cursor, limit) <= |ledgers|
    && var seen := ledgers[Reads(ledgers, cursor, limit) - 1];
       if Finished(ledgers, cursor, limit) then k <= |seen| && Walk(ledgers, cursor, limit) == seen[k..]
       else k + limit * |ledgers| < |seen| && Walk(ledgers, cursor, limit) == seen[k..k + limit * |ledgers|]
  }

  lemma RestGrows(ledgers: seq<seq<LedgerEntry>>)
    requires Growing(ledgers) && ledgers != []
    ensures Growing(ledgers[1..])
  {
    forall i, j | 0 <= i <= j < |ledgers[1..]|
      ensures ledgers[1..][i] <= ledgers[1..][j]
    {
      assert ledgers[i + 1] <= ledgers[j + 1];
    }
  }

  lemma OnePageWalk(ledgers: seq<seq<LedgerEntry>>, first: int, cursor: int, k: nat, limit: nat)
    requires ledgers != [] && limit > 0 && Consecutive(ledgers[0], first)
    requires k <= |ledgers[0]| && if k == 0 then cursor < first else cursor == first + k - 1
    requires |ledgers| == 1 || !ReadPage(ledgers[0], cursor, limit).hasMore
    ensures WalkedTo(ledgers, cursor, k, limit)
  {
    PageIsSlice(ledgers[0], first, cursor, k, limit);
    hide ReadPage;
    var page := ReadPage(ledgers[0], cursor, limit);
    if page.hasMore {
      assert ledgers[1..] == [] && limit * |ledgers| == limit;
      assert !Finished(ledgers[1..], page.nextCursor, limit) && Reads(ledgers[1..], page.nextCursor, limit) == 0;
      assert page.entries + Walk(ledgers[1..], page.nextCursor, limit) == page.entries;
    } else {
      assert ledgers[0][k..|ledgers[0]|] == ledgers[0][k..];
    }
  }

  lemma WalkStep(ledgers: seq<seq<LedgerEntry>>, cursor: int, k: nat, limit: nat, page: Page)
    requires Growing(ledgers) && |ledgers| > 1 && k + limit <= |ledgers[0]|
    requires page == ReadPage(ledgers[0], cursor, limit) && page.hasMore && page.entries == ledgers[0][k..k + limit]
    requires WalkedTo(ledgers[1..], page.nextCursor, k + limit, limit)
    ensures WalkedTo(ledgers, cursor, k, limit)
  {
    hide ReadPage, Growing;
    var rest := ledgers[1..];
    var more := Reads(rest, page.nextCursor, limit);
    assert Reads(ledgers, cursor, limit) == more + 1;
    assert ledgers[0] <= ledgers[more] by {
      FirstIsSmallest(ledgers, more);
    }
    SliceJoins(ledgers[0], ledgers[more], k, limit, |ledgers|);
  }

  lemma FirstIsSmallest(ledgers: seq<seq<LedgerEntry>>, i: nat)
    requires Growing(ledgers) && i < |ledgers|
    ensures ledgers[0] <= ledgers[i]
  {
  }

  lemma SliceJoins(read: seq<LedgerEntry>, seen: seq<LedgerEntry>, k: nat, limit: nat, n: nat)
    requires read <= seen && k + limit <= |read| && n > 0
    ensures read[k..k + limit] + seen[k + limit..] == seen[k..]
    ensures k + limit + limit * (n - 1) == k + limit * n
    ensures k + limit * n <= |seen| ==>
              k + limit <= k + limit * n && read[k..k + limit] + seen[k + limit..k + limit * n] == seen[k..k + limit * n]
  {
    assert read[k..k + limit] == seen[k..k + limit];
    MoreReads(limit, n);
    assert limit * (n - 1) >= 0;
  }

  lemma {:induction false} WalkFrom(ledgers: seq<seq<LedgerEntry>>, first: int, cursor: int, k: nat, limit: nat)
    requires ledgers != [] && Growing(ledgers) && limit > 0
    requires forall i :: 0 <= i < |ledgers| ==> Consecutive(ledgers[i], first)
    requires k <= |ledgers[0]| && if k == 0 then cursor < first else cursor == first + k - 1
    ensures WalkedTo(ledgers, cursor, k, limit)
    decreases |ledgers|
  {
    hide ReadPage, WalkedTo;
    PageIsSlice(ledgers[0], first, cursor, k, limit);
    var page := ReadPage(ledgers[0], cursor, limit);
    if page.hasMore && |ledgers| > 1 {
      assert ledgers[0] <= ledgers[1];
      RestGrows(ledgers);
      WalkFrom(ledgers[1..], first, page.nextCursor, k + limit, limit);
      WalkStep(ledgers, cursor, k, limit, page);
    } else {
      OnePageWalk(ledgers, first, cursor, k, limit);
    }
  }

  lemma MoreReads(limit: nat, n: nat)
    requires n > 0
    ensures limit + limit * (n - 1) == limit * n
  {
  }

  /** Pages read until no more are offered, joined, are exactly the ledger the last of the reads saw: in order, with
      no gap and no repeat, and holding every entry that was there at the first read. On a ledger that does not
      grow, that is the whole ledger. */
  lemma WalkIsTheLedger(ledgers: seq<seq<LedgerEntry>>, first: int, cursor: int, limit: nat)
    requires Growing(ledgers) && limit > 0 && cursor < first && Finished(ledgers, cursor, limit)
    requires forall i :: 0 <= i < |ledgers| ==> Consecutive(ledgers[i], first)
    ensures 1 <= Reads(ledgers, cursor, limit) <= |ledgers|
    ensures Walk(ledgers, cursor, limit) == ledgers[Reads(ledgers, cursor, limit) - 1]
    ensures ledgers[0] <= Walk(ledgers, cursor, limit) <= ledgers[|ledgers| - 1]
  {
    WalkFrom(ledgers, first, cursor, 0, limit);
    var seen := ledgers[Reads(ledgers, cursor, limit) - 1];
    assert seen[0..] == seen;
  }

  /** A ledger that does not grow is walked to its end in as many pages as its length asks for. */
  lemma {:induction false} QuietWalkFinishes(entries: seq<LedgerEntry>, first: int, cursor: int, k: nat, limit: nat,
                                             ledgers: seq<seq<LedgerEntry>>)
    requires Consecutive(entries, first) && k <= |entries| && limit > 0
    requires if k == 0 then cursor < first else cursor == first + k - 1
    requires forall i :: 0 <= i < |ledgers| ==> ledgers[i] == entries
    requires |ledgers| > 0 && limit * |ledgers| >= |entries| - k
    ensures Finished(ledgers, cursor, limit)
    decreases |ledgers|
  {
    PageIsSlice(entries, first, cursor, k, limit);
    if k + limit < |entries| {
      MoreReads(limit, |ledgers|);
      QuietWalkFinishes(entries, first, ReadPage(entries, cursor, limit).nextCursor, k + limit, limit, ledgers[1..]);
    }
  }

  // ---- the ledgers of a run ----

  lemma ChainsAreConsecutive(entries: seq<LedgerEntry>, walletId: Id, balance: Money, version: int)
    requires Chain(entries, walletId, balance, version)
    ensures Consecutive(entries, version - |entries| + 1)
    ensures version - |entries| + 1 >= 1
  {
    forall i | 0 <= i < |entries|
      ensures entries[i].walletVersion == version - |entries| + 1 + i
    {
      assert EntryAt(entries, i, walletId, balance.currency, version);
    }
  }

  /** Entries are only appended, one per version. */
  predicate LedgersGrow(db: DB, after: DB) {
    forall w :: w in db.wallets && w in db.ledger ==>
      && w in after.wallets && w in after.ledger && db.ledger[w] <= after.ledger[w]
      && after.wallets[w].version - |after.ledger[w]| == db.wallets[w].version - |db.ledger[w]|
  }

  lemma SettlementGrowsLedgers(db: DB, account: WalletState, e: Effect)
    requires account.id in db.wallets && db.wallets[account.id] == account && AccountStep(account, e)
    requires account.id in db.ledger && account.id in db.outbox
    ensures LedgersGrow(db, Persist(db, e))
  {
  }

  lemma CommitGrowsLedgers(cfg: Settings, s: State, u: Unit)
    requires ValidSettings(cfg) && WalletsOk(s.db) && Finishes(u) && UnitOk(cfg, s.db, s.used, s.clock, s.missed, u)
    requires u.Committing? ==> u.effect.account.id in s.db.ledger && u.effect.account.id in s.db.outbox
    ensures LedgersGrow(s.db, Applied(s.db, u))
  {
    if u.Committing? {
      CommitterIsCommittable(cfg, s.db, s.used, s.clock, s.missed, u);
      EffectMovesAccount(DoorOf(u.job), cfg, u.account, u.op, u.reference, u.effect, u.now);
      SettlementGrowsLedgers(s.db, u.account, u.effect);
    }
  }

  /** No step rewrites or removes a ledger entry. */
  lemma StepGrowsLedgers(cfg: Settings, s: State, a: Action)
    requires ValidSettings(cfg) && Reachable(cfg, s) && Enabled(s, a)
    ensures LedgersGrow(s.db, Step(cfg, s, a).db)
  {
    hide Reachable, Enabled, Step, LedgerOk, TxsOk, KeysOk, InboxOk, MoneyInv, EventsInv, LockInv, UnitOk, AttemptsOk,
         WakesOk, LedgersGrow;
    ReachableTables(cfg, s);
    NothingGrows(s.db);
    if a.Commit? {
      CommitStepIs(cfg, s, a.p, a.result);
      CommitGrowsLedgers(cfg, s, s.units[a.p]);
    } else if a.OpenNew? {
      OpenStepOpens(cfg, s, a);
      OpeningGrows(s, Step(cfg, s, a), a);
    } else {
      LocalStepFrame(cfg, s, a);
    }
  }

  lemma NothingGrows(db: DB)
    ensures LedgersGrow(db, db)
  {
  }

  lemma OpeningGrows(s: State, after: State, a: Action)
    requires a.OpenNew?
    requires var plan := PlanOpening(a.id, a.playerId, a.initial, a.openingId, a.entryId, a.correlationId, a.now);
             plan.Some? && Opens(s, after, plan.value.0, plan.value.1, plan.value.2, plan.value.3)
    ensures LedgersGrow(s.db, after.db)
  {
    hide PlanOpening;
  }

  lemma {:induction false} RunGrowsLedger(cfg: Settings, states: seq<State>, actions: seq<Action>, i: nat, j: nat, w: Id)
    requires ValidSettings(cfg) && Run(cfg, states, actions) && i <= j < |states| && w in states[i].db.wallets
    ensures w in states[i].db.ledger && w in states[j].db.wallets && w in states[j].db.ledger
    ensures states[i].db.ledger[w] <= states[j].db.ledger[w]
    ensures states[i].db.wallets[w].version - |states[i].db.ledger[w]|
         == states[j].db.wallets[w].version - |states[j].db.ledger[w]|
    decreases j
  {
    hide Step, Enabled, Reachable, LedgersGrow, Chain;
    RunReaches(cfg, states, actions, i);
    LedgersAreChained(cfg, states[i], w);
    if i < j {
      RunGrowsLedger(cfg, states, actions, i, j - 1, w);
      RunReaches(cfg, states, actions, j - 1);
      assert Follows(cfg, states[j - 1], actions[j - 1], states[j]);
      StepGrowsLedgers(cfg, states[j - 1], actions[j - 1]);
      GrownLedger(states[j - 1].db, states[j].db, w);
    }
  }

  lemma GrownLedger(db: DB, after: DB, w: Id)
    requires LedgersGrow(db, after) && w in db.wallets && w in db.ledger
    ensures w in after.wallets && w in after.ledger && db.ledger[w] <= after.ledger[w]
    ensures after.wallets[w].version - |after.ledger[w]| == db.wallets[w].version - |db.ledger[w]|
  {
  }

  /** The ledger of a wallet at the moments of a run at which a client reads it. */
  function LedgersAt(states: seq<State>, moments: seq<nat>, w: Id): seq<seq<LedgerEntry>>
    requires forall i :: 0 <= i < |moments| ==> moments[i] < |states| && w in states[moments[i]].db.ledger
  {
    seq(|moments|, i requires 0 <= i < |moments| => states[moments[i]].db.ledger[w])
  }

  predicate Moments(states: seq<State>, moments: seq<nat>, w: Id) {
    && moments != [] && (forall i :: 0 <= i < |moments| ==> moments[i] < |states|)
    && (forall i, j :: 0 <= i <= j < |moments| ==> moments[i] <= moments[j])
    && w in states[moments[0]].db.wallets
  }

  lemma MomentsGrow(cfg: Settings, states: seq<State>, actions: seq<Action>, moments: seq<nat>, w: Id, i: nat, j: nat)
    requires ValidSettings(cfg) && Run(cfg, states, actions) && Moments(states, moments, w) && i <= j < |moments|
    ensures w in states[moments[i]].db.ledger && w in states[moments[j]].db.ledger
    ensures states[moments[i]].db.ledger[w] <= states[moments[j]].db.ledger[w]
    ensures w in states[moments[0]].db.ledger
    ensures Consecutive(states[moments[j]].db.ledger[w],
                        states[moments[0]].db.wallets[w].version - |states[moments[0]].db.ledger[w]| + 1)
  {
    hide Run, Reachable, Consecutive, Chain;
    RunGrowsLedger(cfg, states, actions, moments[0], moments[i], w);
    RunGrowsLedger(cfg, states, actions, moments[i], moments[j], w);
    RunReaches(cfg, states, actions, moments[j]);
    LedgersAreChained(cfg, states[moments[j]], w);
    var account := states[moments[j]].db.wallets[w];
    ChainsAreConsecutive(states[moments[j]].db.ledger[w], w, account.balance, account.version);
  }

  /** A client that reads pages at successive moments of any run, until no more is offered, holds exactly the ledger
      of the moment of its last read. */
  lemma WalkOfARun(cfg: Settings, states: seq<State>, actions: seq<Action>, moments: seq<nat>, w: Id, limit: nat)
    requires ValidSettings(cfg) && Run(cfg, states, actions) && Moments(states, moments, w) && limit > 0
    ensures forall i :: 0 <= i < |moments| ==> w in states[moments[i]].db.ledger
    ensures var ledgers := LedgersAt(states, moments, w);
            Finished(ledgers, 0, limit) ==>
              && 1 <= Reads(ledgers, 0, limit) <= |ledgers|
              && Walk(ledgers, 0, limit) == ledgers[Reads(ledgers, 0, limit) - 1]
              && ledgers[0] <= Walk(ledgers, 0, limit)
  {
    hide Run, Consecutive, Walk, Reads, Finished, Chain;
    forall i | 0 <= i < |moments|
      ensures w in states[moments[i]].db.ledger
    {
      MomentsGrow(cfg, states, actions, moments, w, 0, i);
    }
    var ledgers := LedgersAt(states, moments, w);
    var first := states[moments[0]].db.wallets[w].version - |states[moments[0]].db.ledger[w]| + 1;
    forall i, j | 0 <= i <= j < |ledgers|
      ensures ledgers[i] <= ledgers[j] && Consecutive(ledgers[j], first)
    {
      MomentsGrow(cfg, states, actions, moments, w, i, j);
    }
    FirstVersion(cfg, states, actions, moments[0], w);
    if Finished(ledgers, 0, limit) {
      WalkIsTheLedger(ledgers, first, 0, limit);
    }
  }

  lemma FirstVersion(cfg: Settings, states: seq<State>, actions: seq<Action>, i: nat, w: Id)
    requires ValidSettings(cfg) && Run(cfg, states, actions) && i < |states| && w in states[i].db.wallets
    ensures w in states[i].db.ledger && states[i].db.wallets[w].version - |states[i].db.ledger[w]| + 1 >= 1
  {
    hide Run, Reachable;
    RunReaches(cfg, states, actions, i);
    LedgersAreChained(cfg, states[i], w);
  }
}
