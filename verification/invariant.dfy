/** The invariant of the protocol. */
module ProtocolInvariant {
  import opened Values
  import opened Wagering
  import opened Settlements
  import opened Databases
  import opened DataInvariants
  import opened Protocol
  import opened LockDiscipline
  import opened UnitKnowledge

  /** Identifiers in the tables are not fresh. */
  predicate UsedOk(s: State) {
    && NIL in s.used
    && (forall t :: t in s.db.txs ==> t in s.used)
    && (forall w :: w in s.db.wallets ==> w in s.used)
  }

  ghost predicate OriginalTerminal(txs: map<Id, Tx>, op: Tx) {
    exists o :: o in txs && Names(op, txs[o]) && txs[o].status.Terminal()
  }

  /** A parked operation has been postponed only as often as its deadline leaves room for, and while its original
      is not final its next attempt lies one base further for every postponement. */
  ghost predicate AttemptOk(cfg: Settings, txs: map<Id, Tx>, t: Id)
    requires t in txs
  {
    && txs[t].attempts >= 0
    && (txs[t].attempts >= 1 ==>
          (txs[t].attempts - 1) * cfg.backoffBase < cfg.referenceTtl - cfg.referenceBackoff)
    && (txs[t].status == PendingReference && !OriginalTerminal(txs, txs[t]) ==> NotEarly(cfg, txs[t]))
  }

  ghost predicate AttemptsOk(cfg: Settings, txs: map<Id, Tx>) {
    forall t :: t in txs ==> AttemptOk(cfg, txs, t)
  }

  /** Parked, although its original o is settled on the same wallet, and not due by any clock read so far. */
  predicate Overslept(txs: map<Id, Tx>, clock: Time, t: Id, o: Id) {
    && t in txs && txs[t].status == PendingReference && txs[t].nextAttemptAt > clock
    && o in txs && o != txs[t].id && Names(txs[t], txs[o]) && SettledOn(txs[o], txs[t].command.walletId)
  }

  /** Only a row that the wake-up of its own original skipped, because the give-up path held it, and that nothing has
      moved since, can oversleep. */
  ghost predicate OnlySkippedOversleep(txs: map<Id, Tx>, clock: Time, missed: set<Skip>) {
    forall t, o :: Overslept(txs, clock, t, o) ==> Skip(t, o, txs[t].nextAttemptAt) in missed
  }

  ghost predicate WakesOk(s: State) {
    OnlySkippedOversleep(s.db.txs, s.clock, s.missed)
  }

  ghost predicate Inv(cfg: Settings, s: State) {
    && ValidSettings(cfg) && DataInv(s.db, cfg) && LockInv(s) && UnitsOk(cfg, s) && UsedOk(s)
    && AttemptsOk(cfg, s.db.txs) && WakesOk(s)
  }
}
