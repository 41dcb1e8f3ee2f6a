/** The transaction boundary: one attempt, the classification of its failure, and the retry loop around it. */
module UnitsOfWork {
  import opened Values

  // ---- errors ----

  datatype PgCode =
    | SerializationFailure | DeadlockDetected | LockNotAvailable | QueryCanceled | AdminShutdown | CrashShutdown
    | CannotConnectNow | OtherCode(code: nat)

  /** A driver error: it may stem from a done context, and it may carry a server report. */
  datatype DriverError = DriverError(contextDone: bool, server: Option<PgCode>)

  /** What the application sees; `retryable` is the private mark of an attempt that can be replayed. */
  datatype Failure =
    | TransientFailure(retryable: bool)
    | LockTimedOut
    | ContextDone
    | OutcomeUnknown
    | Panicked
    | Unclassified(code: PgCode)
    | Refused(error: Error)

  function Classify(e: DriverError): Failure {
    if e.contextDone then ContextDone
    else match e.server
      case None => TransientFailure(false)
      case Some(code) =>
        match code
        case SerializationFailure | DeadlockDetected => TransientFailure(true)
        case LockNotAvailable => LockTimedOut
        case QueryCanceled | AdminShutdown | CrashShutdown | CannotConnectNow => TransientFailure(false)
        case OtherCode(_) => Unclassified(code)
  }

  /** Only an error the server reported proves that the transaction aborted. */
  function ClassifyCommit(e: DriverError): Failure {
    if e.server.Some? then Classify(e) else OutcomeUnknown
  }

  predicate Retryable(f: Failure) {
    f.TransientFailure? && f.retryable
  }

  /** Retryable is exactly a conflict the server reported, at commit or before it; and at commit the outcome is
      unknown exactly when the server reported nothing. */
  lemma RetryableIsServerConflict(e: DriverError)
    ensures Retryable(Classify(e)) <==>
              !e.contextDone && (e.server == Some(SerializationFailure) || e.server == Some(DeadlockDetected))
    ensures Retryable(ClassifyCommit(e)) <==> Retryable(Classify(e))
    ensures ClassifyCommit(e) == OutcomeUnknown <==> e.server.None?
    ensures Classify(e) != OutcomeUnknown
  {
  }

  /** What each server report becomes; a done context wins over all of them, except that at commit a context that is done
      without a report leaves the outcome unknown. */
  lemma ClassifiedExactlyWhen(e: DriverError)
    ensures Classify(e) == ContextDone <==> e.contextDone
    ensures Classify(e) == LockTimedOut <==> !e.contextDone && e.server == Some(LockNotAvailable)
    ensures Classify(e) == TransientFailure(false) <==>
              !e.contextDone
              && (e.server.None? || e.server.value in {QueryCanceled, AdminShutdown, CrashShutdown, CannotConnectNow})
    ensures forall code :: Classify(e) == Unclassified(code) <==>
              !e.contextDone && code.OtherCode? && e.server == Some(code)
    ensures ClassifyCommit(e) == if e.server.None? then OutcomeUnknown else Classify(e)
  {
  }

  // ---- one attempt ----

  datatype Closure = Returns | Fails(failure: Failure) | Panics

  /** How COMMIT ends; `applied` says whether the transaction persisted although its answer failed. */
  datatype CommitEnd = Committed | CommitFails(error: DriverError, applied: bool) | CommitPanics(applied: bool)

  datatype Rollback = RolledBack | AlreadyClosed | RollbackFails

  /** Everything the driver and the closure do in one attempt. */
  datatype Attempt = Attempt(
    begin: Option<DriverError>, timeouts: Option<DriverError>, closure: Closure, commit: CommitEnd, rollback: Rollback)

  /** The server does not report an error for a transaction that persisted. */
  predicate Honest(a: Attempt) {
    a.commit.CommitFails? && a.commit.applied ==> a.commit.error.server.None?
  }

  /** The attempt reached COMMIT and the transaction persisted, whatever answer came back. */
  predicate Persists(a: Attempt) {
    && a.begin.None? && a.timeouts.None? && a.closure.Returns?
    && (a.commit.Committed? || (a.commit.CommitFails? && a.commit.applied) || (a.commit.CommitPanics? && a.commit.applied))
  }

  /** What an attempt answers, stage by stage: an error of the beginning or of the timeouts is classified, one of the
      closure is handed on as it is, one of the commit is classified as such, and a panic counts by how far it got. */
  function FailureOf(a: Attempt): Option<Failure> {
    match (a.begin, a.timeouts)
    case (Some(e), _) => Some(Classify(e))
    case (None, Some(e)) => Some(Classify(e))
    case (None, None) =>
      match (a.closure, a.commit)
      case (Fails(failure), _) => Some(failure)
      case (Panics, _) => Some(if a.rollback == RollbackFails then TransientFailure(false) else Panicked)
      case (Returns, Committed) => None
      case (Returns, CommitFails(e, _)) => Some(if e.server.None? then OutcomeUnknown else Classify(e))
      case (Returns, CommitPanics(_)) => Some(OutcomeUnknown)
  }

  /** run, with its deferred block: `committed` and `commitStarted` decide what a recovered panic means. */
  method RunOnce(a: Attempt) returns (failure: Option<Failure>, persisted: bool)
    requires Honest(a)
    ensures failure == FailureOf(a)
    ensures persisted <==> Persists(a)
    ensures failure.None? ==> persisted
    ensures failure.Some? && failure.value != OutcomeUnknown ==> !persisted
  {
    failure, persisted := None, false;
    if a.begin.Some? {
      return Some(Classify(a.begin.value)), false;
    }
    var committed, commitStarted, panicked := false, false, false;
    if a.timeouts.Some? {
      failure := Some(Classify(a.timeouts.value));
    } else {
      match a.closure {
        case Fails(f) => failure := Some(f);
        case Panics => panicked := true;
        case Returns =>
          commitStarted := true;
          match a.commit {
            case Committed =>
              committed, persisted := true, true;
            case CommitFails(e, applied) =>
              failure, persisted := Some(ClassifyCommit(e)), applied;
            case CommitPanics(applied) =>
              panicked, persisted := true, applied;
          }
      }
    }
    if panicked {
      if commitStarted {
        failure := Some(OutcomeUnknown);
      } else if !committed && a.rollback.RollbackFails? {
        failure := Some(TransientFailure(false));
      } else {
        failure := Some(Panicked);
      }
    }
  }

  // ---- the retry loop ----

  function CountPersisted(attempts: seq<Attempt>): nat {
    if attempts == [] then 0
    else CountPersisted(attempts[..|attempts| - 1]) + if Persists(attempts[|attempts| - 1]) then 1 else 0
  }

  lemma {:induction false} NothingPersisted(attempts: seq<Attempt>)
    requires forall i :: 0 <= i < |attempts| ==> !Persists(attempts[i])
    ensures CountPersisted(attempts) == 0
  {
    if attempts != [] {
      NothingPersisted(attempts[..|attempts| - 1]);
    }
  }

  /** Do: every attempt but the last ended in a conflict the server reported and a pause that was not cut short; it
      stops exactly when an attempt ends in anything else, is the last one allowed, or has its pause cut short, and
      answers that attempt's failure or the done context. Over all its retries the effects of the closure persist
      exactly once when it returns nil, never when it returns an error other than an unknown commit, and at most once
      then; `cancelled` lists the pauses that end with a done context. */
  method Do(retryAttempts: int, world: seq<Attempt>, cancelled: seq<bool>)
    returns (failure: Option<Failure>, made: nat)
    requires var limit := if retryAttempts < 1 then 1 else retryAttempts;
             |world| == |cancelled| == limit && forall i :: 0 <= i < limit ==> Honest(world[i])
    ensures 1 <= made <= |world|
    ensures forall i :: 0 <= i < made - 1 ==> FailureOf(world[i]) == Some(TransientFailure(true)) && !cancelled[i]
    ensures FailureOf(world[made - 1]) != Some(TransientFailure(true)) || made == |world| || cancelled[made - 1]
    ensures failure == if FailureOf(world[made - 1]) == Some(TransientFailure(true)) && made < |world|
                       then Some(ContextDone) else FailureOf(world[made - 1])
    ensures failure.None? ==> CountPersisted(world[..made]) == 1
    ensures failure.Some? && failure.value != OutcomeUnknown ==> CountPersisted(world[..made]) == 0
    ensures failure == Some(OutcomeUnknown) ==> CountPersisted(world[..made]) <= 1
  {
    var limit := if retryAttempts < 1 then 1 else retryAttempts;
    failure, made := None, 0;
    for attempt := 1 to limit + 1
      invariant made == attempt - 1
      invariant forall i :: 0 <= i < made ==> !Persists(world[i])
      invariant forall i :: 0 <= i < made ==> FailureOf(world[i]) == Some(TransientFailure(true)) && !cancelled[i]
      invariant attempt > 1 ==> failure.Some? && Retryable(failure.value)
      invariant attempt <= limit
    {
      ghost var before := world[..made];
      NothingPersisted(before);
      var persisted: bool;
      failure, persisted := RunOnce(world[made]);
      made := made + 1;
      assert world[..made][..made - 1] == before;
      if failure.None? {
        return;
      }
      if !Retryable(failure.value) || attempt == limit {
        return;
      }
      if cancelled[attempt - 1] {
        NothingPersisted(world[..made]);
        return Some(ContextDone), made;
      }
    }
  }
}
