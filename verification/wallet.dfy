/** The wallet aggregate: the object the code updates in place and the value it holds. */
module Wallets {
  import opened Values
  import opened Moneys
  import opened Ledgers

  const INITIAL_VERSION: Int64 := 1

  datatype WalletState = WalletState(
    id: Id, playerId: Id, balance: Money, version: Int64, createdAt: Time, updatedAt: Time)

  /** What Open and Rehydrate accept. */
  predicate ValidWallet(w: WalletState) {
    && w.id != NIL && w.playerId != NIL
    && w.balance.Valid() && w.balance.minor >= 0
    && w.version >= 1
    && w.createdAt != 0 && w.updatedAt != 0
  }

  /** The entry `move` asks NewLedgerEntry for; the version is incremented in int64. */
  function MovementEntry(w: WalletState, direction: Direction, transactionId: Id, amount: Money,
                         after: Money, entryId: Id, now: Time): LedgerEntry
  {
    LedgerEntry(entryId, w.id, transactionId, direction, amount, w.balance, after, Wrap(w.version + 1), now)
  }

  function Move(w: WalletState, direction: Direction, transactionId: Id, amount: Money, entryId: Id, now: Time)
    : Result<(WalletState, LedgerEntry)>
  {
    if transactionId == NIL || entryId == NIL then Err(WalletMissingIdentifier)
    else if now == 0 then Err(WalletMissingTimestamp)
    else if !amount.Valid() || !amount.IsPositive() then Err(WalletInvalidAmount)
    else if amount.currency != w.balance.currency then Err(MoneyCurrencyMismatch)
    else
      var updated :- ApplyDirection(w.balance, direction, amount);
      if updated.IsNegative() then Err(WalletInsufficientFunds)
      else
        var entry :- NewLedgerEntry(MovementEntry(w, direction, transactionId, amount, updated, entryId, now));
        Ok((w.(balance := updated, version := Wrap(w.version + 1), updatedAt := now), entry))
  }

  predicate CanMove(w: WalletState, direction: Direction, amount: Money) {
    && direction != NoDirection
    && amount.Valid() && amount.minor > 0
    && amount.currency == w.balance.currency
    && 0 <= w.balance.minor + SignedAmount(direction, amount) <= MAX_INT64
    && w.version < MAX_INT64
  }

  /** A movement of a valid wallet succeeds exactly when the funds, the limit and the version counter allow it;
      it then leaves a valid wallet one version later, whose entry extends the chain. */
  lemma MoveSucceeds(w: WalletState, direction: Direction, transactionId: Id, amount: Money, entryId: Id, now: Time)
    requires ValidWallet(w) && transactionId != NIL && entryId != NIL && now != 0
    ensures var r := Move(w, direction, transactionId, amount, entryId, now);
            && (r.Ok? <==> CanMove(w, direction, amount))
            && (r.Ok? ==>
                  var (after, entry) := r.value;
                  && WellFormed(entry)
                  && entry.walletId == w.id && entry.transactionId == transactionId && entry.direction == direction
                  && entry.amount == amount && entry.balanceBefore == w.balance && entry.balanceAfter == after.balance
                  && entry.walletVersion == w.version + 1 == after.version
                  && after == w.(balance := entry.balanceAfter, version := entry.walletVersion, updatedAt := now)
                  && ValidWallet(after))
  {
  }

  /** A refused movement of a valid wallet says why: what is missing, an amount that is none, another currency, a balance
      beyond int64, too little money, or a version counter that is used up. */
  lemma RefusedMoveSaysWhy(w: WalletState, direction: Direction, transactionId: Id, amount: Money, entryId: Id, now: Time,
                           error: Error)
    requires ValidWallet(w) && direction != NoDirection
    ensures var named := transactionId != NIL && entryId != NIL;
            var dated := named && now != 0;
            var priced := dated && amount.currency.Supported() && amount.minor > 0;
            var matching := priced && amount.currency == w.balance.currency;
            var after := if direction == Credit then w.balance.minor as int + amount.minor as int
                         else w.balance.minor as int - amount.minor as int;
            Move(w, direction, transactionId, amount, entryId, now) == Err(error) <==>
              match error
              case WalletMissingIdentifier => !named
              case WalletMissingTimestamp => named && !dated
              case WalletInvalidAmount => dated && !priced
              case MoneyCurrencyMismatch => priced && !matching
              case MoneyOverflow => matching && after > MAX_INT64
              case WalletInsufficientFunds => matching && after < 0
              case WalletInvalidVersion => matching && 0 <= after <= MAX_INT64 && w.version == MAX_INT64
              case _ => false
  {
  }

  /** wallet.Open: version 1, and an opening entry only when there is money. */
  function OpenWallet(id: Id, playerId: Id, initial: Money, openingId: Id, entryId: Id, now: Time)
    : Result<(WalletState, Option<LedgerEntry>)>
  {
    if id == NIL || playerId == NIL then Err(WalletMissingIdentifier)
    else if !initial.Valid() then Err(MoneyInvalidCurrency)
    else if initial.IsNegative() then Err(WalletNegativeBalance)
    else if now == 0 then Err(WalletMissingTimestamp)
    else
      var account := WalletState(id, playerId, initial, INITIAL_VERSION, now, now);
      if initial.minor == 0 then Ok((account, None))
      else
        var zero :- FromMinor(0, initial.currency);
        var entry :- NewLedgerEntry(
          LedgerEntry(entryId, id, openingId, Credit, initial, zero, initial, INITIAL_VERSION, now));
        Ok((account, Some(entry)))
  }

  function EntriesOf(entry: Option<LedgerEntry>): seq<LedgerEntry> {
    match entry case None => [] case Some(e) => [e]
  }

  /** A wallet opens exactly with identifiers, a moment and an amount that is not negative, zero included; with money it
      also needs the identifiers of its first entry. It then holds the amount at version one, and its ledger, empty or
      not, is already a chain. */
  lemma OpenedWalletIsChained(id: Id, playerId: Id, initial: Money, openingId: Id, entryId: Id, now: Time)
    ensures var r := OpenWallet(id, playerId, initial, openingId, entryId, now);
            r.Ok? <==>
              && id != NIL && playerId != NIL && now != 0 && initial.currency.Supported() && initial.minor >= 0
              && (initial.minor > 0 ==> openingId != NIL && entryId != NIL)
    ensures var r := OpenWallet(id, playerId, initial, openingId, entryId, now);
            r.Ok? ==> r.value.0 == WalletState(id, playerId, initial, 1, now, now)
    ensures var r := OpenWallet(id, playerId, initial, openingId, entryId, now);
            r.Ok? ==>
              var (w, entry) := r.value;
              && ValidWallet(w) && Chain(EntriesOf(entry), id, w.balance, w.version)
              && (entry.Some? <==> initial.minor > 0)
              && (entry.Some? ==> entry.value.transactionId == openingId && entry.value.amount == initial
                                  && entry.value.direction == Credit)
  {
    var r := OpenWallet(id, playerId, initial, openingId, entryId, now);
    if r.Ok? && initial.minor > 0 {
      var entry := r.value.1.value;
      assert EntryAt([entry], 0, id, initial.currency, 1);
    }
  }

  class Wallet {
    const id: Id
    const playerId: Id
    const createdAt: Time
    var balance: Money
    var version: Int64
    var updatedAt: Time

    function State(): WalletState
      reads this
    {
      WalletState(id, playerId, balance, version, createdAt, updatedAt)
    }

    /** Rehydrate, once its checks have passed. */
    constructor (w: WalletState)
      ensures State() == w
    {
      id, playerId, createdAt := w.id, w.playerId, w.createdAt;
      balance, version, updatedAt := w.balance, w.version, w.updatedAt;
    }

    /** A refused movement leaves the wallet untouched. */
    method MoveBy(direction: Direction, transactionId: Id, amount: Money, entryId: Id, now: Time)
      returns (r: Result<LedgerEntry>)
      modifies this
      ensures var spec := Move(old(State()), direction, transactionId, amount, entryId, now);
              match spec
              case Err(e) => r == Err(e) && State() == old(State())
              case Ok(moved) => State() == moved.0 && r == Ok(moved.1)
    {
      if transactionId == NIL || entryId == NIL {
        return Err(WalletMissingIdentifier);
      }
      if now == 0 {
        return Err(WalletMissingTimestamp);
      }
      if !amount.Valid() || !amount.IsPositive() {
        return Err(WalletInvalidAmount);
      }
      if amount.currency != balance.currency {
        return Err(MoneyCurrencyMismatch);
      }
      var updated :- ApplyDirection(balance, direction, amount);
      if updated.IsNegative() {
        return Err(WalletInsufficientFunds);
      }
      var entry :- NewLedgerEntry(
        LedgerEntry(entryId, id, transactionId, direction, amount, balance, updated, Wrap(version + 1), now));
      balance := updated;
      version := Wrap(version + 1);
      updatedAt := now;
      return Ok(entry);
    }
  }
}
