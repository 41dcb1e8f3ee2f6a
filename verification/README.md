# Wager settlement: a verified model

The service settles player wagers against wallets. Requests arrive over HTTP or from a FIFO queue, several processes
share one PostgreSQL database, a worker retries reversals that arrive before their original, and a publisher sends the
events of an outbox. This project models that service and proves that money stays right under interleaving, repeats,
crashes and lost commit answers. `dafny verify dfyconfig.toml` checks all of it.

The layers, from the inside out:

- **Values and domain** (`values`, `money`, `ledger`, `wallet`, `wagering`, `transaction_table`, `decision`,
  `decision_table`, `backoff`, `settlement`): int64 money with its wrap-around, ledger entries and their chain, the
  wallet and transaction objects as classes tied to value functions, the tables of the state machine and of the
  decisions, and one settlement as a function from what a unit read to what it writes.
- **Tables** (`database`, `ledger_invariants`, `conservation`, `event_mirror`, `data_invariants`, `table_writes`): the
  committed rows as maps, the invariants they keep and the writes that keep them. Ledger and outbox are lists per
  wallet in commit order.
- **Protocol** (`protocol`, `locks`, `units`, `invariant`, `unit_steps`, `interference`, `commits`, `commit_effects`,
  `safety`): every submission, retry and give-up is a process with a program counter that runs its SQL statements
  against one lock table. Reads see the committed rows and the process's own. Locks are held until commit or abort.
  Claims and wake-ups skip locked rows. A process may abort between any two steps, any commit may be confirmed or lose
  its answer after or before it took effect, and every process reads its own clock. A step is one statement, with
  these exceptions.
- **Statements that share a step.** Registering joins the inbox insert with the two lookups that follow a conflict;
  inserting joins the operation insert with the two lookups of `replay`: committed inbox rows, identities, keys and
  final operations never change (`Guarantees.HistoryIsKept`), so a lookup finds the same row later, and only a parked
  operation's status could be fresher. Deciding joins the ledger, wallet, operation and outbox writes: they go to rows
  the process has locked or adds itself and nobody sees them before the commit, an abort in between leaves what an
  abort before or after leaves, and the version guard reads a row that is locked. Completing the inbox row shares the
  step of the commit for the same reason. Claiming, giving up and opening join a row lock or the inserts with what
  they read.
- **Results over every reachable state and every run** (`guarantees`, `references`, `wallet_keys`, `replies`,
  `refinement`, `atomic_runs`, `duplicates`, `erasure`, `lost_wakeup`, `given_up_reference`), including two runs that
  show where a natural claim stops being true.
- **The use cases in place** (`registry`, `submission`, `retry_worker`, `opening`, `atomic_service`): the repositories
  as a class over mutable tables, and the use-case methods proved to write what one atomic step of the specification
  writes.
- **Around the settlement** (`transaction_rows`, `unit_of_work`, `outbox_table`, `outbox_protocol`, `publish_outbox`,
  `publisher_runs`, `consumer`, `ledger_pages`): nullable columns, the retry loop with unknown commits, outbox leases,
  the queue consumer composed with the protocol, and cursor paging.

## Findings

- **A wake-up can be lost.** The give-up transaction holds the parked row with `FOR UPDATE` while it decides. When the
  original settles in that moment, its wake-up skips the row, and if the give-up transaction then aborts, the row
  stays parked until its own next attempt, beyond every clock read so far. `LostWakeUp.WakeUpsCanBeLost` is such a
  run. This is the only way: of the waiting rows that are not due, a wake-up takes exactly those the give-up path does
  not hold (`Guarantees.WakeUpTakesAllButGiveUps`), and a row oversleeps only if the wake-up of its own original
  skipped it so and nothing has moved its next attempt since (`Guarantees.WakeUpsAreNotLost`).
- **A commit refines one atomic settlement, unless its original moved in between.** On the wallet of the operation the
  one way is a give-up: a unit that decided to wait can commit that decision although its original has meanwhile
  become FAILED, because the give-up path takes no wallet lock. `Refinement.CommitRefinesAtomicSettle` gives the exact
  condition and `GivenUpReference.CommitsCanLagBehindGiveUp` a run that meets it. For a reference on any wallet
  `Refinement.CommitIsAtomicExactlyWhen` gives the exact condition on how its standing moved, and a run without such a
  commit is a sequence of atomic steps in commit order (`AtomicRuns.RunIsAtomic`).
- **Repeats can be erased from every interleaved run.** Dropping all submissions that never settle leaves a run with
  the same wallets, operations, ledgers and outboxes and at most one submission per provider and key
  (`Erasure.RunsCanBeFreedOfRepeats`), however message ids are used: of the deliveries of one message it keeps the one
  that settled it. In the sequential service, where the first delivery of a key is the one that is kept, one message
  id must stand for one body; `Duplicates.TwoBodiesBreakErasure` shows what two bodies under one id do there.
- **The doubling in `backoff` can wrap** when the base may reach half of the int64 range (`Backoffs.BackoffCanWrap`);
  below that limit it is the capped doubling it should be.
- ARCHITECTURE.md:153 says that every operation that becomes final wakes the operations waiting for it. The code does
  not wake anyone when the worker marks an operation FAILED; the model follows the code.
- ARCHITECTURE.md:155 names a partial unique index as the guarantee of one reversal per operation, and
  ARCHITECTURE.md:95-100 lists checks and triggers of the database as a second line of defence. The proofs use
  neither: the wallet lock, the round check and the reversal read are enough.

## Assumptions

- Primary keys and the two unique keys per provider hold, uncommitted ones included: a second insert waits.
- Identifiers are fresh, hashes are injective, time is an integer where 0 is the zero time, and clock readings are
  positive.
- The configuration keeps 0 < backoff base <= backoff maximum < 2^62 and 0 < reference backoff < reference TTL.
- A body reaches the use case validated, so a queue message carries an id and asks for the fields its hash was taken
  of.
- A transaction for which the server reported an error at COMMIT did not persist.

## Model

| member | source | states |
|---|---|---|
| Moneys.AddExact | internal/domain/money/money.go:249-255 | The overflow test on the wrapped sum reports an overflow exactly when the true sum leaves int64, and otherwise returns the true sum |
| Moneys.SubExact | internal/domain/money/money.go:257-263 | The same for differences, at both ends of int64 |
| MoneyText.ParseOfString | internal/domain/money/money.go:151-164 | Printing and parsing gives the same money back exactly when the amount is not negative |
| MoneyText.StringOfParse | internal/domain/money/money.go:221-239 | Every accepted text is printed back as it was written |
| Ledgers.NewLedgerEntry | internal/domain/wallet/ledger.go:38-93 | An entry is accepted exactly when its balances differ by the signed amount and stay non-negative in one currency, with identifiers, version and time |
| Ledgers.RefusedEntrySaysWhy | internal/domain/wallet/ledger.go:38-93 | A refused entry names the first thing that is wrong with it, in the order of the checks |
| Ledgers.ChainReconciles | internal/application/mapper/reconciliation_mapper.go:8-22 | Reconciling a chained ledger always answers, with difference zero and every entry counted |
| Ledgers.ReconcilesExactlyWhen | internal/application/mapper/reconciliation_mapper.go:8-22 | Over any ledger, broken ones included, reconciliation answers exactly when sum and difference fit in int64, and calls the wallet consistent exactly when its balance is the sum of credits minus debits |
| Wallets.MoveSucceeds | internal/domain/wallet/wallet.go:143-184 | A movement succeeds exactly when funds, int64 limit, currency and version counter allow it, and then its entry continues the chain one version later |
| Wallets.RefusedMoveSaysWhy | internal/domain/wallet/wallet.go:143-184 | A refused movement names the first thing that is wrong with it, in the order of the checks |
| Wallets.Wallet.MoveBy | internal/domain/wallet/wallet.go:143-184 | The method on the object moves it as specified and leaves it untouched when it refuses |
| Wallets.OpenedWalletIsChained | internal/domain/wallet/wallet.go:34-87 | A wallet opens exactly with identifiers, a moment and an amount that is not negative, zero included; it is then valid at version one and its ledger is already a chain, with an entry exactly when there is money |
| TransactionTable.BornExactlyWhen | internal/domain/wagering/transaction.go:80-133 | An operation of a provider is born exactly when its request is complete and fits its kind, and is then pending with nothing decided |
| TransactionTable.RefusedBirthSaysWhy | internal/domain/wagering/transaction.go:80-133 | Otherwise the error names the first thing that is wrong |
| TransactionTable.OpeningBornExactlyWhen | internal/domain/wagering/transaction.go:135-163 | An opening is born exactly for identifiers, a moment, a correlation id and money, and is processed for the balance it creates |
| TransactionTable.AcceptedExactlyWhen | internal/domain/wagering/transaction.go:192-303 | Rehydrate accepts a row exactly when it could have been born and its status agrees with schedule, completion, failure code, balance and reference |
| TransactionTable.TransitsExactlyWhen | internal/domain/wagering/transaction.go:338-446 | Each transition of an accepted operation succeeds exactly when status, arguments and kind allow it, and changes exactly the fields it stands for |
| Wagering.TransitAllKeepsAcceptance | internal/domain/wagering/transaction.go:192-303 | After any sequence of transitions, allowed or refused, Rehydrate accepts the operation unchanged, its identity is kept, and a final operation never changes |
| Wagering.BirthIsAccepted | internal/domain/wagering/transaction.go:80-133 | Whatever NewExternal builds, Rehydrate accepts |
| Wagering.OpeningIsAccepted | internal/domain/wagering/transaction.go:135-163 | Whatever NewOpening builds, Rehydrate accepts |
| Wagering.Transaction.Process | internal/domain/wagering/transaction.go:338-362 | MarkProcessed in place is the specified transition, and a refusal changes nothing |
| Wagering.Transaction.Reject | internal/domain/wagering/transaction.go:364-382 | MarkRejected in place is the specified transition, and a refusal changes nothing |
| Wagering.Transaction.Park | internal/domain/wagering/transaction.go:384-401 | MarkPendingReference in place is the specified transition, and a refusal changes nothing |
| Wagering.Transaction.Postpone | internal/domain/wagering/transaction.go:403-415 | Reschedule in place is the specified transition, and a refusal changes nothing |
| Wagering.Transaction.Fail | internal/domain/wagering/transaction.go:417-431 | MarkFailed in place is the specified transition, and a refusal changes nothing |
| DecisionTable.ProcessedExactlyWhen | internal/domain/wagering/decision.go:42-152 | An operation is processed if and only if owner, currency, the rules of its kind (provider, player, wallet, round and currency of the reference, the kinds it reverses, its amount) and the resulting balance allow it |
| DecisionTable.ProcessedMovesItsAmount | internal/domain/wagering/decision.go:74-173 | What is processed moves its own amount, in the direction of its kind and of the kind it reverses, and consumes the operation it names |
| DecisionTable.WaitsExactlyWhen | internal/domain/wagering/decision.go:104-121 | An operation waits if and only if it is a reversal without a final original and before its deadline |
| DecisionTable.RejectedExactlyWhen | internal/domain/wagering/decision.go:42-186 | Each failure code is given if and only if its own condition holds, in the order of precedence of the table |
| DecisionTable.SettlementFollowsDecision | internal/application/usecase/process_wager_transaction.go:360-393 | A settlement writes the status, failure code and reference of its decision |
| Settlements.DecisionIsSound | internal/domain/wagering/decision.go:42-152 | Decide never fails for an operation on its wallet, and what it processes fits the balance |
| Settlements.SettlementIsComplete | internal/application/usecase/process_wager_transaction.go:360-393 | From any valid wallet and open operation the movement and the transition after Decide cannot fail, except that a movement needs a version below the int64 limit; the rows, entry and events are those of the decision and never a PENDING row |
| Backoffs.ComputeBackoff | internal/application/usecase/backoff.go:11-23 | The loop computes its recursive specification, wrap-around included |
| Backoffs.BackoffIsCappedDoubling | internal/application/usecase/backoff.go:11-23 | Below the wrapping limit the delay is min(maximum, base * 2^n) and never below the base |
| Backoffs.BackoffCanWrap | internal/application/usecase/backoff.go:11-23 | Without that limit two doublings can give a delay of zero |
| Conservation.SumFollowsEntry | internal/domain/wagering/decision.go:154-173 | Processing one more operation moves the live sum by exactly its ledger entry, reversals of reversals included |
| DataInvariants.SettlementKeepsData | internal/application/usecase/financial_movement.go:15-35 | A settlement whose wallet, operation and reference are current keeps every invariant of the tables |
| TableWrites.FailKeepsData | internal/application/usecase/retry_pending_reference.go:205-236 | Marking a parked row FAILED keeps every invariant of the tables, without an event or a movement |
| TableWrites.OpeningKeepsData | internal/application/usecase/open_wallet.go:53-70 | Opening a wallet under fresh identifiers keeps every invariant of the tables |
| LockDiscipline.StepKeepsLocks | internal/infrastructure/postgres/repositories/wager_transaction_repository_sql.go:113-161 | The lock table is always exactly what the processes hold, skipped rows included, so no two hold one lock |
| LockDiscipline.NoWaitCycle | internal/application/usecase/process_wager_transaction.go:122-182 | Where the lock table is what the processes hold, no chain of waiting processes closes into a cycle |
| Interference.KnowledgeSurvives | internal/infrastructure/postgres/repositories/wallet_repository_sql.go:45-54 | A write that respects what a unit has locked leaves everything the unit has read true |
| Commits.CommitterIsCommittable | internal/application/usecase/process_wager_transaction.go:145-177 | When a settlement commits, its wallet is the committed one, its operation is current, and the original it consumes is still processed and unreversed |
| Commits.CommitKeepsOthers | internal/infrastructure/postgres/repositories/wager_transaction_repository_sql.go:31-87 | A commit touches only rows, wallets and message ids its unit holds, so every other unit still knows the truth |
| CommitEffects.WaitingIsBounded | internal/application/usecase/retry_pending_reference.go:132-152 | A postponement moves the next attempt at least one base closer to a deadline that never moves |
| Safety.StepKeepsInv | internal/infrastructure/postgres/unit_of_work.go:63-105 | Every step of every process, aborts and lost commit answers included, keeps the invariant of the protocol |
| Safety.ReachableInv | internal/application/usecase/process_wager_transaction.go:114-191 | So the invariant holds in every state of every run |
| Guarantees.LockedWalletIsCommitted | internal/infrastructure/postgres/repositories/wallet_repository_sql.go:45-54 | From the row lock to its end a unit holds the committed wallet |
| Guarantees.SettlementsNeverFail | internal/infrastructure/postgres/repositories/wallet_repository_sql.go:61-76 | In every interleaving the version guard matches, and a unit that has read wallet and reference goes on to its commit exactly when the version counter is not exhausted or no money moves |
| Guarantees.MovedVersionIsRefused | internal/infrastructure/postgres/repositories/wallet_repository_sql.go:61-76 | Were the committed version another than the one read, a settlement that moves money would end its unit without a commit, refused or, for the worker, by giving its row up |
| Guarantees.CommittedRowsAreAccepted | internal/domain/wagering/transaction.go:192-303 | No committed row is PENDING and Rehydrate accepts every one |
| Guarantees.AtMostOneReversal | internal/infrastructure/postgres/repositories/wager_transaction_repository_sql.go:163-176 | In every reachable state an operation has at most one processed REFUND or ROLLBACK |
| Guarantees.ReversalChainsAreShort | internal/domain/wagering/decision.go:154-181 | A reversal chain is at most a rollback of a refund of a bet, on one wallet and for one amount, and nothing reverses itself |
| ConsumedReferences.ConsumedReferencesMatch | internal/domain/wagering/decision.go:85-181 | In every reachable state what a processed operation consumed is the operation it named by external id, and the two agree on provider, player, wallet, round and currency; a win names a bet; a reversal consumed a processed operation of a kind it reverses for exactly its amount |
| Guarantees.LedgersAreChained | internal/infrastructure/postgres/repositories/ledger_repository_sql.go:69-89 | In every reachable state each ledger is a chain of consecutive versions from zero to the balance, within int64, and reconciles with difference zero |
| Guarantees.OneEntryPerMovement | internal/application/usecase/financial_movement.go:15-35 | An operation has an entry exactly when it is processed and not a LOSS: one, on its wallet, for its amount, in its direction |
| Guarantees.BalancesAreConserved | internal/domain/wagering/decision.go:104-181 | A balance is the opening amount plus live wins minus live bets, an operation being live unless a live reversal reversed it |
| WalletKeys.OneWalletPerCurrency | internal/infrastructure/postgres/repositories/wallet_repository_sql.go:24-39 | In every reachable state a player has at most one wallet in a currency |
| WalletKeys.StepKeepsOwners | internal/infrastructure/postgres/repositories/wallet_repository_sql.go:61-76 | No step removes a wallet or changes its player or its currency, and only an opening adds one |
| Guarantees.EventsMirrorTables | internal/application/usecase/settlement_events.go:16-68 | The outbox of a wallet holds exactly the events its history dictates, and its balance events are its ledger entry for entry |
| Guarantees.PostponementsAreBounded | internal/application/usecase/retry_pending_reference.go:132-152 | Whatever the clocks do an operation is postponed at most ceil((TTL - backoff) / base) times |
| Guarantees.WakeUpsAreNotLost | internal/application/usecase/process_wager_transaction.go:178-182 | A parked row whose original is settled on its wallet is due by a clock already read, or the wake-up of that very original skipped it while the give-up path held it and its next attempt is still the one it had then |
| Guarantees.WakeUpTakesAllButGiveUps | internal/infrastructure/postgres/repositories/wager_transaction_repository_sql.go:141-161 | Of the waiting rows that are not due a wake-up takes exactly those the give-up path does not hold |
| LostWakeUp.WakeUpsCanBeLost | internal/application/usecase/retry_pending_reference.go:205-236 | A run in which a wake-up is lost: the row ends unlocked, its original settled, its next attempt beyond every clock read |
| Guarantees.AnswersAgree | internal/application/usecase/process_wager_transaction.go:285-325 | All successful answers for one provider, key and payload name one operation, and final answers agree on status, balance and failure code |
| Replies.InsertionIsDecidedByKeys | internal/application/usecase/process_wager_transaction.go:285-325 | In every reachable state an insert leads exactly where the rows under its key and its external id, all nine fields of the request and the wallet say: on, to a replay, or to the conflict it names |
| Replies.RegistrationIsDecidedByTheInbox | internal/application/usecase/process_wager_transaction.go:213-264 | A message goes on, is a mismatch or is answered exactly by what the inbox holds under its id; the two transient branches are never taken |
| Replies.ConfirmedAnswersAreTheRow | internal/application/mapper/wager_result_mapper.go:8-17 | A confirmed commit answers the status, balance and failure code of the row it leaves, or of the row a replay read; it says that it is a replay exactly when the operation was there before; the inbox row tells the same outcome |
| Replies.AnswersWereTrue | internal/application/usecase/process_wager_transaction.go:114-191 | Over any run, every answer was at some moment exactly a committed row, of the operation its request describes in all fields, and says that it is no replay exactly when its process settled the operation |
| Replies.OneFirstAnswer | internal/application/usecase/process_wager_transaction.go:114-191 | Of all answers for one provider and key at most one says that it is no replay |
| Replies.AbortGivesUpExactlyWhen | internal/application/usecase/backoff.go:25-31 | A failed unit leaves only its locks behind; the worker gives up on a row it holds exactly when the error is none of the four another round can fix |
| Replies.RestartStartsOver | internal/infrastructure/postgres/unit_of_work.go:39-56 | A closure run again starts over: a submission from its clock, the worker from its claim, a give-up from its row |
| Guarantees.AnswersAreRecorded | internal/application/usecase/process_wager_transaction.go:266-283 | An answer to a queue message is backed by a committed, complete inbox row naming the operation it asked for |
| Guarantees.HashesAreHonest | internal/application/usecase/process_wager_transaction.go:132-143 | In every reachable state a row of a provider carries the hash of its own business fields |
| Guarantees.HistoryIsKept | internal/infrastructure/postgres/repositories/inbox_repository_sql.go:20-97 | No step loses a row, changes an identity, changes a final operation or changes a committed inbox row |
| Guarantees.NoDeadlock | internal/application/usecase/retry_pending_reference.go:82-105 | In every reachable state no chain of waiting processes closes into a cycle |
| Refinement.CommitRefinesAtomicSettle | internal/application/usecase/process_wager_transaction.go:137-177 | What a unit commits is what one atomic settlement of the committed tables would write if and only if it does not wait for an original given up meanwhile, for references on its own wallet |
| Refinement.CommitIsAtomicExactlyWhen | internal/domain/wagering/decision.go:82-152 | Wherever the reference is, what a unit commits is what one atomic settlement of the committed tables would write if and only if the standing of its original has not moved in a way that changes the answer |
| AtomicRuns.StepIsPerformed | internal/infrastructure/postgres/unit_of_work.go:63-105 | Under that condition every step of every process is one atomic step on the tables, or none |
| AtomicRuns.RunIsAtomic | internal/application/usecase/process_wager_transaction.go:114-191 | A run all of whose settlements meet that condition ends with the tables that its atomic steps, performed in commit order from empty tables, give |
| GivenUpReference.CommitsCanLagBehindGiveUp | internal/application/usecase/retry_pending_reference.go:205-236 | A run in which a unit is about to park an operation whose original on its own wallet has already FAILED |
| Duplicates.EachKeySettlesOnce | internal/infrastructure/postgres/repositories/wager_transaction_repository_sql.go:31-65 | At most one commit of any run settles a given provider and key |
| Erasure.QuietProcessesCanBeErased | internal/application/usecase/process_wager_transaction.go:114-191 | From any interleaved run, submissions whose settlements never take effect can be erased, as long as no registration that stays is a redelivery: what remains is a run that ends with equal wallets, operations, ledgers and outboxes |
| Erasure.RepeatsCanBeErased | internal/application/usecase/process_wager_transaction.go:213-264 | The same when whoever stays and registers a message goes on to settle, however message ids are used |
| Erasure.RepeatsOfAKeyCanBeErased | internal/application/usecase/process_wager_transaction.go:285-325 | In particular every other delivery of a key that some process settles can be erased |
| Erasure.RunsCanBeFreedOfRepeats | internal/application/usecase/process_wager_transaction.go:114-191 | Without the submissions that never settle any run, with repeats over both doors, redeliveries, aborts, lost answers, retries, give-ups and openings, is again a run, ends with equal wallets, operations, ledgers and outboxes, and has at most one submission per provider and key |
| Duplicates.DuplicatesCanBeErased | internal/application/usecase/process_wager_transaction.go:114-191 | Keeping the first delivery of each key of the sequential service instead, with consistent message ids, the service with and without its repeats leaves equal wallets, operations, ledgers and outboxes |
| Duplicates.TwoBodiesBreakErasure | internal/domain/messaging/inbox.go:98-105 | With two bodies under one message id the sequential service need not leave equal tables |
| AtomicService.ServeAllKeepsData | internal/application/usecase/process_wager_transaction.go:114-191 | Any sequence of atomic submissions, retries and give-ups keeps every invariant of the tables |
| Registries.Registry.InsertTransaction | internal/infrastructure/postgres/repositories/wager_transaction_repository_sql.go:31-65 | Inserts exactly when id and both unique keys are free and the wallet exists; a conflict wins over the missing wallet |
| Registries.Registry.ClaimDuePending | internal/infrastructure/postgres/repositories/wager_transaction_repository_sql.go:113-139 | Claims the first due row of the order nobody holds, and none exactly when there is none |
| Registries.Registry.WakeUpWaitingFor | internal/infrastructure/postgres/repositories/wager_transaction_repository_sql.go:141-161 | Brings forward exactly the parked rows that name the operation and lie later |
| Registries.Registry.UpdateWallet | internal/infrastructure/postgres/repositories/wallet_repository_sql.go:61-76 | Writes balance, version and time exactly when the version is the expected one |
| Registries.ApplyMovement | internal/application/usecase/financial_movement.go:15-35 | Move, append, guarded update and mark, in place, write what the specification says |
| Registries.AppendSettlementEvents | internal/application/usecase/settlement_events.go:16-68 | The loop appends exactly the specified events, in order |
| Registries.SettleInPlace | internal/application/usecase/process_wager_transaction.go:360-393 | Settling in place leaves objects and tables as the settlement of the values says |
| UseCases.ResolveReference | internal/application/usecase/process_wager_transaction.go:327-358 | Finds the named operation and asks for its reversal only for reversals |
| UseCases.Run | internal/application/usecase/process_wager_transaction.go:114-191 | A submission answers and writes exactly what one atomic submission on the same tables does, errors included; the answer is the row the tables then hold, and it is a replay exactly when that row was there before |
| RetryWorker.Attempt | internal/application/usecase/retry_pending_reference.go:78-121 | An attempt writes exactly what one atomic retry of the row it claimed does |
| RetryWorker.GiveUp | internal/application/usecase/retry_pending_reference.go:205-236 | Only a row that is still parked becomes FAILED, and nobody is woken |
| RetryWorker.Execute | internal/application/usecase/retry_pending_reference.go:57-130 | Every turn settles, gives up or stops by its own error alone: a give-up exactly for an error that is none of transient, lock timeout, unknown commit and cancelled, which stop the loop; the tables end as the atomic service leaves them after one item per operation handled, and perhaps one more whose commit answer was lost |
| WalletOpenings.OpenInPlace | internal/application/usecase/open_wallet.go:53-113 | Opening writes the planned rows, and succeeds exactly when the input is complete, the amount is not negative and the player has no wallet in the currency |
| TableWrites.PlannedExactlyWhen | internal/application/usecase/open_wallet.go:53-113 | The plan of an opening exists exactly for complete input, and holds the wallet at version one, its entry from zero, its processed operation and the two events |
| TransactionRows.RowRoundTrip | internal/infrastructure/postgres/repositories/wager_transaction_repository_sql.go:189-309 | A written row scans back equal exactly when Rehydrate accepts it and its result balance is absent or in the currency of the wallet |
| TransactionRows.SubmittedRowsRoundTrip | internal/domain/wagering/transaction.go:338-446 | After any transitions a submitted operation comes back equal through insert or update |
| TransactionRows.OpeningRowsRoundTrip | internal/domain/wagering/transaction.go:135-163 | An opening operation comes back equal under its own currency |
| TransactionRows.CommittedRowsRoundTrip | internal/infrastructure/postgres/repositories/wager_transaction_repository_sql.go:15-21 | Every committed row of every reachable state comes back equal with the currency recovered from the wallet join |
| UnitsOfWork.RetryableIsServerConflict | internal/infrastructure/postgres/repositories/errors_sql.go:20-62 | Only a conflict reported by the server is retried, and a commit is unknown exactly when the server reported nothing |
| UnitsOfWork.ClassifiedExactlyWhen | internal/infrastructure/postgres/repositories/errors_sql.go:20-58 | Which server report becomes a lock timeout, a transient failure or nothing known, with a done context first and at commit only after a report |
| UnitsOfWork.RunOnce | internal/infrastructure/postgres/unit_of_work.go:63-105 | One attempt: its failure stage by stage, the error of the closure handed on unchanged; nil means it persisted, an error other than unknown means it did not, and panics are told apart by how far the commit got |
| UnitsOfWork.Do | internal/infrastructure/postgres/unit_of_work.go:39-56 | It retries exactly after a conflict the server reported, while attempts are left and the pause is not cut short, and answers the failure of its last attempt or the done context; nil means exactly once, any error but unknown means never, unknown means at most once |
| OutboxTable.SelectTakesFreeRows | internal/infrastructure/postgres/repositories/outbox_repository_sql.go:37-49 | A claim takes only free rows, each once, up to the limit, and leaves a free row only when full |
| OutboxTable.SelectKeepsOrder | internal/infrastructure/postgres/repositories/outbox_repository_sql.go:37-49 | It takes them from the front of the order and keeps their order |
| OutboxTable.LeasesExclude | internal/infrastructure/postgres/repositories/outbox_repository_sql.go:37-79 | A claimed row is free again only after its lease, a failed one from its next attempt on, a published one never, and a mark uses up its receipt |
| OutboxTable.Table.Claim | internal/infrastructure/postgres/repositories/outbox_repository_sql.go:37-69 | Claims unpublished due rows whose lease has run out, with a new generation, owner and lease end in row and receipt, touches no other row, and leaves a free one only when full |
| OutboxTable.Table.MarkPublished | internal/infrastructure/postgres/repositories/outbox_repository_sql.go:71-79 | Publishes and frees the row exactly when owner, generation and an open lease of an unpublished row match |
| OutboxTable.Table.MarkFailed | internal/infrastructure/postgres/repositories/outbox_repository_sql.go:81-93 | Reschedules and frees the row exactly under the same guard |
| OutboxProtocol.GenerationsIncrease | internal/infrastructure/postgres/repositories/outbox_repository_sql.go:37-49 | Under arbitrary clocks the receipts of an event carry strictly increasing generations |
| OutboxProtocol.OneReceiptPasses | internal/infrastructure/postgres/repositories/outbox_repository_sql.go:71-93 | At any time at most one receipt of an event passes the guards of the marks |
| OutboxProtocol.SupersededReceiptIsFenced | internal/domain/messaging/outbox.go:133-151 | A receipt that a later claim superseded can change nothing |
| OutboxProtocol.PublishedWasSent | internal/application/usecase/publish_outbox.go:108-151 | Over any history, a published event is one whose send the broker accepted at some moment of it |
| OutboxProtocol.StaleIsNeverSent | internal/domain/messaging/outbox.go:133-151 | A publisher about to send has, for this very receipt, read a clock before the end of its lease |
| OutboxProtocol.PublishedForever | internal/infrastructure/postgres/repositories/outbox_repository_sql.go:71-79 | No action removes a row, and a published row never changes again |
| OutboxProtocol.UnpublishedIsRecoverable | internal/application/usecase/publish_outbox.go:108-185 | From any state, crash points included, an unpublished row past its times is published by one claim, send and mark, of a new publisher or of one that crashed within a batch |
| PublishOutbox.DrainBatch | internal/application/usecase/publish_outbox.go:62-92 | The loop delivers the batch in order, as specified, until it is cancelled |
| PublishOutbox.DeliveredExactlyWhen | internal/application/usecase/publish_outbox.go:108-185 | Nothing is sent on a stale lease and nothing written unless the receipt still holds the row; a failed send puts it off by the backoff of its generation, a successful one publishes it, and only a confirmed publication counts |
| PublishOutbox.CancelledExactlyWhen | internal/application/usecase/publish_outbox.go:76-84 | A round stops exactly before the first delivery that finds its context cancelled, keeping what it has done |
| PublisherRuns.RoundIsPath | internal/application/usecase/publish_outbox.go:62-185 | A round of the loop is a path of the outbox protocol that leaves the same rows, whatever clocks, broker and database answer |
| PublisherRuns.RoundsAreFenced | internal/infrastructure/postgres/repositories/outbox_repository_sql.go:71-79 | In what a round of the loop leaves, superseded receipts are powerless |
| PublisherRuns.LeaseIsKept | internal/infrastructure/postgres/repositories/outbox_repository_sql.go:37-79 | Whatever other publishers do, as long as none claims by a clock past the lease, the holder's receipt still passes the guards within its lease |
| PublishOutbox.RoundCountsPublished | internal/application/usecase/publish_outbox.go:62-92 | The reported number never exceeds the events published, and equals it when no marking answer was lost |
| Consumers.NoMessageIsLost | internal/infrastructure/sqs/consumer.go:190-244 | Through crashes, shutdown and redelivery a message ever sent is in the queue, in the dead letter queue, or its id has a complete inbox row naming the committed operation it asked for |
| Consumers.AnsweredIsHandled | internal/infrastructure/sqs/listener/wager_transaction_listener.go:52-85 | A message is deleted for an answer only when its inbox row is committed and complete |
| Consumers.AcknowledgedExactlyWhen | internal/infrastructure/sqs/listener/wager_transaction_listener.go:70-126 | The acknowledgement as a table: deleted exactly for an answer, left exactly for an unknown commit, dead-lettered exactly for the listed errors, each under its own reason, and retried for everything else |
| Consumers.DispatchMovesExactly | internal/infrastructure/sqs/listener/wager_transaction_listener.go:52-69 | A body that cannot be handled goes to the dead letter queue under its reason, a wager is submitted, a delivery met while releasing is released |
| Consumers.ReturnMovesExactly | internal/infrastructure/sqs/consumer.go:220-244 | A return touches neither queue nor dead letter queue and leads to a deletion, to the dead letter queue or nowhere exactly by how the submission ended, and nowhere once a shutdown has aborted it |
| Consumers.OnlyTheHopelessAreDeadLettered | internal/infrastructure/sqs/listener/wager_transaction_listener.go:97-126 | Over any history a message is in the dead letter queue only because its body could not be handled, its submission ended with a listed error, or the broker gave up redelivering it |
| Consumers.ShutdownIsForGood | internal/infrastructure/sqs/consumer.go:406-447 | Once a shutdown has begun it stays: whatever returns or is dispatched afterwards only drops its delivery and acknowledges nothing |
| Consumers.InsertIsDeadLetteredExactlyWhen | internal/application/usecase/process_wager_transaction.go:285-325 | An insert is dead-lettered as a conflict of its key, of its external id or for its wallet exactly when a row under the key has other fields, else a row has the external id, else the wallet is missing |
| Consumers.ConflictsArePermanent | internal/infrastructure/sqs/listener/wager_transaction_listener.go:97-126 | A key taken by another payload, a message id taken by another body, and an external id taken under another key stay taken in every later state |
| Consumers.TakenExternalIdIsDeadLettered | internal/application/usecase/process_wager_transaction.go:317-324 | A submission that reuses an external id under another key ends refused and dead-lettered |
| Consumers.TakenKeyIsDeadLettered | internal/infrastructure/sqs/listener/wager_transaction_listener.go:97-126 | A submission that meets a key taken by another payload ends refused and dead-lettered as a conflict of its key |
| Consumers.Tracker.StopAdmitting | internal/infrastructure/sqs/consumer.go:406-447 | Shutdown releases every tracked delivery exactly once and admits none afterwards |
| LedgerPages.ListAfterVersion | internal/infrastructure/postgres/repositories/ledger_repository_sql.go:41-67 | The loop returns the first entries after the version, up to the limit |
| LedgerPages.WalkIsTheLedger | internal/application/mapper/ledger_page_mapper.go:10-20 | Pages joined until no more are offered are the ledger of the last read, with no gap or repeat, holding every entry of the first read |
| LedgerPages.QuietWalkFinishes | internal/application/usecase/list_wallet_ledger.go:26-52 | A ledger that does not grow is walked to its end in as many pages as its length asks for |
| LedgerPages.StepGrowsLedgers | internal/infrastructure/postgres/repositories/ledger_repository_sql.go:24-39 | No step of the protocol rewrites or removes a ledger entry |
| LedgerPages.WalkOfARun | internal/application/usecase/list_wallet_ledger.go:26-52 | A client reading pages at successive moments of any run ends with exactly the ledger of its last read |

## Left out

- HTTP handlers, authentication, metrics, logging, health checks, process wiring, the ticker and configuration loading: plumbing around the use cases; the ordering constraints of the configuration are assumed.
- JSON, SHA-256, base64 and UUID internals, and the field validation of the inputs: opaque values and a validated input.
- Database triggers, the partial unique index and foreign-key share locks: not assumed, so the results do not rest on them.
- The precision of stored timestamps: time is taken in the resolution of the database.
- The INT column of reference_attempts and the truncation of last_error: attempts are unbounded integers here, with the bound stated by PostponementsAreBounded.
- Event identifiers, payloads and last_error of outbox rows: an event is its kind and the business values it carries.
- The second clock reading of registerInbox and the timestamps of inbox rows: nothing reads them.
- Statement and lock timeouts and random pauses: an abort may strike at any statement instead.
- The ORDER BY of claims inside the protocol: a claim may take any due row there, a superset of what the code does; the methods of the repositories follow the order.
- Delivery order between publishers: the design does not promise it (ARCHITECTURE.md:243).
- Fairness: nothing says that a worker or a publisher keeps running, only what a run can and cannot reach.
- CommitRefinesAtomicSettle: speaks of references on the wallet of the operation; CommitIsAtomicExactlyWhen speaks of all.
- RunIsAtomic: the atomic steps name the rows their wake-ups took, because a wake-up skips rows that a worker or the give-up path holds; FreeWakeUpIsServed says when that makes no difference to the atomic service.
- DuplicatesCanBeErased: runs over the sequential service, one delivery, retry or give-up at a time, without openings; RunsCanBeFreedOfRepeats is the statement for interleaved runs.
- RunsCanBeFreedOfRepeats: drops also a submission that settles nothing for another reason, a refused one for example, and says nothing of the inbox rows and answers of what it drops.
- WakeUpsAreNotLost: goes one way, because a row skipped under the same next attempt may since have become due; WakeUpTakesAllButGiveUps is exact at the wake-up itself.
- UnpublishedIsRecoverable: shows a continuation that publishes the row, not that every run does; LeaseIsKept says that others cannot take a lease away while clocks stay within it.
