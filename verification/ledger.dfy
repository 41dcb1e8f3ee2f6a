/** Ledger entries and the chain they form over one wallet. */
module Ledgers {
  import opened Values
  import opened Moneys

  datatype Direction = Debit | Credit | NoDirection

  datatype LedgerEntry = LedgerEntry(
    id: Id, walletId: Id, transactionId: Id, direction: Direction, amount: Money,
    balanceBefore: Money, balanceAfter: Money, walletVersion: Int64, createdAt: Time)

  /** Anything that is not a credit is subtracted, the missing direction included. */
  function ApplyDirection(balance: Money, direction: Direction, amount: Money): Result<Money> {
    if direction == Credit then balance.Add(amount) else balance.Sub(amount)
  }

  function NewLedgerEntry(e: LedgerEntry): (r: Result<LedgerEntry>)
    ensures r.Ok? <==> WellFormed(e)
    ensures r.Ok? ==> r.value == e
  {
    if e.id == NIL || e.walletId == NIL || e.transactionId == NIL then Err(WalletMissingIdentifier)
    else if e.direction == NoDirection then Err(WalletInvalidDirection)
    else if !e.amount.Valid() || !e.amount.IsPositive() then Err(WalletInvalidAmount)
    else if !e.balanceBefore.Valid() || !e.balanceAfter.Valid() then Err(MoneyInvalidCurrency)
    else if e.balanceBefore.currency != e.amount.currency || e.balanceAfter.currency != e.amount.currency then
      Err(MoneyCurrencyMismatch)
    else if e.balanceBefore.IsNegative() || e.balanceAfter.IsNegative() then Err(WalletNegativeBalance)
    else if e.walletVersion < 1 then Err(WalletInvalidVersion)
    else if e.createdAt == 0 then Err(WalletMissingTimestamp)
    else
      var expected :- ApplyDirection(e.balanceBefore, e.direction, e.amount);
      if expected != e.balanceAfter then Err(WalletInconsistentEntry) else Ok(e)
  }

  /** What an accepted entry promises: the balances differ by exactly the signed amount. */
  predicate WellFormed(e: LedgerEntry) {
    && e.id != NIL && e.walletId != NIL && e.transactionId != NIL
    && e.direction != NoDirection
    && e.amount.Valid() && e.amount.minor > 0
    && e.balanceBefore.currency == e.amount.currency && e.balanceAfter.currency == e.amount.currency
    && 0 <= e.balanceBefore.minor && 0 <= e.balanceAfter.minor
    && e.balanceAfter.minor == e.balanceBefore.minor + Signed(e)
    && e.walletVersion >= 1
    && e.createdAt != 0
  }

  /** A refused entry names the first thing that is wrong with it. */
  lemma RefusedEntrySaysWhy(e: LedgerEntry, error: Error)
    ensures var named := e.id != NIL && e.walletId != NIL && e.transactionId != NIL;
            var directed := named && e.direction != NoDirection;
            var priced := directed && e.amount.currency.Supported() && e.amount.minor > 0;
            var known := priced && e.balanceBefore.currency.Supported() && e.balanceAfter.currency.Supported();
            var matching := known && e.balanceBefore.currency == e.amount.currency
                            && e.balanceAfter.currency == e.amount.currency;
            var funded := matching && e.balanceBefore.minor >= 0 && e.balanceAfter.minor >= 0;
            var counted := funded && e.walletVersion >= 1;
            var dated := counted && e.createdAt != 0;
            var after := e.balanceBefore.minor as int + Signed(e);
            NewLedgerEntry(e) == Err(error) <==>
              match error
              case WalletMissingIdentifier => !named
              case WalletInvalidDirection => named && !directed
              case WalletInvalidAmount => directed && !priced
              case MoneyInvalidCurrency => priced && !known
              case MoneyCurrencyMismatch => known && !matching
              case WalletNegativeBalance => matching && !funded
              case WalletInvalidVersion => funded && !counted
              case WalletMissingTimestamp => counted && !dated
              case MoneyOverflow => dated && after > MAX_INT64
              case WalletInconsistentEntry => dated && after <= MAX_INT64 && e.balanceAfter.minor as int != after
              case _ => false
  {
  }

  function Signed(e: LedgerEntry): int {
    SignedAmount(e.direction, e.amount)
  }

  function SignedAmount(direction: Direction, amount: Money): int {
    var minor: int := amount.minor;
    if direction == Credit then minor else -minor
  }

  /** The entries of one wallet, oldest first: consecutive versions ending at `version`,
      each entry starting where the one before it ended, the first one at zero,
      and the last one ending at `balance`. */
  predicate Chain(entries: seq<LedgerEntry>, walletId: Id, balance: Money, version: int) {
    && (|entries| == version || |entries| == version - 1)
    && (forall i :: 0 <= i < |entries| ==> WellFormed(entries[i]))
    && (forall i :: 0 <= i < |entries| ==> EntryAt(entries, i, walletId, balance.currency, version))
    && balance.minor == (if |entries| == 0 then 0 else entries[|entries| - 1].balanceAfter.minor)
  }

  predicate EntryAt(entries: seq<LedgerEntry>, i: int, walletId: Id, currency: Currency, version: int)
    requires 0 <= i < |entries|
  {
    && entries[i].walletId == walletId
    && entries[i].amount.currency == currency
    && entries[i].walletVersion == version - |entries| + 1 + i
    && entries[i].balanceBefore.minor == if i == 0 then 0 else entries[i - 1].balanceAfter.minor
  }

  lemma ChainExtends(entries: seq<LedgerEntry>, walletId: Id, balance: Money, version: int, e: LedgerEntry)
    requires Chain(entries, walletId, balance, version)
    requires WellFormed(e)
    requires e.walletId == walletId && e.walletVersion == version + 1 && e.balanceBefore == balance
    ensures Chain(entries + [e], walletId, e.balanceAfter, version + 1)
  {
    var longer, currency, next := entries + [e], e.balanceAfter.currency, version + 1;
    forall i | 0 <= i < |longer|
      ensures EntryAt(longer, i, walletId, currency, next)
    {
      if i < |entries| {
        assert EntryAt(entries, i, walletId, balance.currency, version);
      }
    }
  }

  // ---- totals and reconciliation ----

  datatype LedgerTotals = LedgerTotals(balance: int, entries: nat)

  /** SUM over credits minus debits, and COUNT. SUM of a BIGINT column does not wrap. */
  function Totals(entries: seq<LedgerEntry>): LedgerTotals {
    if entries == [] then LedgerTotals(0, 0)
    else
      var before := Totals(entries[..|entries| - 1]);
      LedgerTotals(before.balance + Signed(entries[|entries| - 1]), before.entries + 1)
  }

  datatype ReconciliationReport = ReconciliationReport(
    storedBalance: Money, calculatedBalance: Money, difference: Money, consistent: bool, checkedEntries: nat)

  /** The stored balance against the sum of the ledger; a sum outside int64 cannot be scanned. */
  function Reconcile(balance: Money, entries: seq<LedgerEntry>): Result<ReconciliationReport> {
    var totals := Totals(entries);
    if !(MIN_INT64 <= totals.balance <= MAX_INT64) then Err(Transient)
    else
      var calculated :- FromMinor(totals.balance, balance.currency);
      var difference :- balance.Sub(calculated);
      Ok(ReconciliationReport(balance, calculated, difference, difference.minor == 0, totals.entries))
  }

  lemma {:induction false} ChainPrefix(entries: seq<LedgerEntry>, walletId: Id, balance: Money, version: int)
    requires entries != [] && Chain(entries, walletId, balance, version)
    ensures Chain(entries[..|entries| - 1], walletId, entries[|entries| - 1].balanceBefore, version - 1)
  {
    var shorter, last, previous := entries[..|entries| - 1], entries[|entries| - 1], version - 1;
    assert EntryAt(entries, |entries| - 1, walletId, balance.currency, version);
    assert WellFormed(last);
    var currency := last.balanceBefore.currency;
    forall i | 0 <= i < |shorter|
      ensures EntryAt(shorter, i, walletId, currency, previous)
    {
      assert EntryAt(entries, i, walletId, balance.currency, version);
    }
  }

  /** A chain adds up to the balance it ends with. */
  lemma {:induction false} ChainTotals(entries: seq<LedgerEntry>, walletId: Id, balance: Money, version: int)
    requires Chain(entries, walletId, balance, version)
    ensures Totals(entries) == LedgerTotals(balance.minor, |entries|)
  {
    if entries != [] {
      ChainPrefix(entries, walletId, balance, version);
      ChainTotals(entries[..|entries| - 1], walletId, entries[|entries| - 1].balanceBefore, version - 1);
    }
  }

  /** Reconciliation of a chained wallet always answers, with difference zero. */
  lemma ChainReconciles(entries: seq<LedgerEntry>, walletId: Id, balance: Money, version: int)
    requires Chain(entries, walletId, balance, version) && balance.Valid()
    ensures Reconcile(balance, entries)
         == Ok(ReconciliationReport(balance, balance, Money(0, balance.currency), true, |entries|))
  {
    ChainTotals(entries, walletId, balance, version);
  }

  /** Credits minus debits, oldest first. */
  function NetOf(entries: seq<LedgerEntry>): int {
    if entries == [] then 0
    else
      var minor: int := entries[0].amount.minor;
      (if entries[0].direction == Credit then minor else -minor) + NetOf(entries[1..])
  }

  lemma {:induction false} TotalsAreTheNet(entries: seq<LedgerEntry>)
    ensures Totals(entries) == LedgerTotals(NetOf(entries), |entries|)
  {
    if entries != [] {
      TotalsAreTheNet(entries[..|entries| - 1]);
      NetOfOneMore(entries[..|entries| - 1], entries[|entries| - 1]);
      assert entries[..|entries| - 1] + [entries[|entries| - 1]] == entries;
    }
  }

  lemma {:induction false} NetOfOneMore(entries: seq<LedgerEntry>, e: LedgerEntry)
    ensures NetOf(entries + [e]) == NetOf(entries) + Signed(e)
  {
    if entries == [] {
      assert [e][1..] == [] && [] + [e] == [e];
    } else {
      NetOfOneMore(entries[1..], e);
      assert (entries + [e])[1..] == entries[1..] + [e];
    }
  }

  /** Over any ledger, broken ones included, reconciliation answers exactly when sum and difference fit in int64, reports
      both as they are, and calls the wallet consistent exactly when its stored balance is the sum. */
  lemma ReconcilesExactlyWhen(balance: Money, entries: seq<LedgerEntry>)
    requires balance.Valid()
    ensures var r := Reconcile(balance, entries);
            var net := NetOf(entries);
            && (r.Ok? <==> MIN_INT64 <= net <= MAX_INT64 && MIN_INT64 <= balance.minor as int - net <= MAX_INT64)
            && (r.Ok? ==>
                  && r.value.storedBalance == balance && r.value.checkedEntries == |entries|
                  && r.value.calculatedBalance.minor as int == net && r.value.calculatedBalance.currency == balance.currency
                  && r.value.difference.minor as int == balance.minor as int - net
                  && r.value.difference.currency == balance.currency
                  && (r.value.consistent <==> balance.minor as int == net))
  {
    TotalsAreTheNet(entries);
  }
}
