# Horsies: the row protocol and its neighbours, modelled and proved

Horsies is a task queue whose whole coordination lives in PostgreSQL rows. No lock outlives a statement:
safety rests on claim generations (`claimed_at`, `started_at`), lease guards, cap counts and key
reservations spread over separate SQL statements. This project models those statements as atomic steps on
tables that are maps, runs as sequences of steps under a strictly increasing clock, and proves what every
run keeps. Objects that the program updates in place are classes whose methods are proved against the
step functions; the theorems are about those functions.

| file | what it models |
|---|---|
| `Prelude.dfy` | options, results, set sizes |
| `ScanOrder.dfy`, `ClaimPass.dfy` | `ORDER BY ... LIMIT`, the two-arm claim scan, the `horsies_claim` pass with its cap accounting |
| `TaskTables.dfy`, `TaskSteps.dfy` | the task, history, node and workflow tables, and 27 kinds of transaction on them |
| `Guards.dfy` | exactly when each of them moves a row on or ends it, on the columns |
| `Broker.dfy` | the broker's client methods: claim, start, requeue, release, workflow stops, the post-claim filter |
| `CapSafety.dfy` | the cluster-wide cap over whole runs |
| `Fencing.dfy` | claim generations |
| `Attempts.dfy` | retry accounting |
| `WorkflowStops.dfy` | workflow nodes and the tasks that back them |
| `Enqueue.dfy`, `Resend.dfy` | idempotent enqueue with key reservations; the send loop over a connection that loses replies |
| `Ledger.dfy`, `IndexClaims.dfy` | the migration ledger; building a recovery index under interference and crashes |
| `Listener.dfy`, `Wakeups.dfy`, `ResultWait.dfy` | the subscriber map; no lost wake-up; the bounded result wait |
| `Ordinals.dfy` | restoring the order of batch outcomes |
| `Stock.dfy` | the showcase's stock reservations |
| `RenameRules.dfy` | field renaming and its inverse |

## What the proofs found

- **The cluster cap is not unconditional.** The heartbeat renews a worker's claims without looking at the
  lease it replaces (`horsies/src/worker/heartbeat.rs:26-32`), so a late heartbeat revives an expired claim
  after its slot was given away. `CapSafety.CapSafety` shows a run of capped claim passes stays under the cap
  if and only if every renewal has room for what it revives; `CapSafety.RenewalBreaksTheCap` is a seven-step
  run that ends with two RUNNING tasks under a cap of one. Renewals that touch no lapsed lease always have room:
  `CapSafety.GuardedRenewalsKeepTheCap`.
- **A retry requeue keeps its claim generation.** The comment at `horsies/src/broker/postgres.rs:165-166`
  says every requeue clears it; the statement at 217-233 does not. The model follows the statement, and
  `Fencing.LeftoverGenerationIsHarmless` shows no fenced statement can use what is left behind.
- **A cancelled stop can strand a node.** A node handed off to RUNNING before its task starts is missed by
  both the cancel sweep and the cancelled stop: `WorkflowStops.CancelledStopStrandsRunningNode`.
  `WorkflowStops.CancelledStopSkips` gives the exact condition.
- **A paused stop ends the task.** The comment at `horsies/src/broker/postgres.rs:2158` says the task goes back to
  PENDING; the code abandons it (2187-2211). The model follows the code.
- **An unkeyed resend can run a task twice.** Once the first copy has reached the history, a resend under the same
  id inserts it again, and the copy can never be moved: `Resend.UnkeyedResendRunsTwice`. The insert happens exactly
  under the condition of `Enqueue.InsertsExactlyWhen`; with a key it is at most once until the reservation window
  of the finished task has run out.
- **A no-transaction migration can be executed twice.** Its SQL commits before its ledger row is written
  (`horsies/src/broker/migrations.rs:427-443`), so a failure in between makes the retry or the next run execute it
  again: `Ledger.NoTransactionRunsTwice`, with the exact condition in `Ledger.ExecutedTwiceExactlyWhen`. For the
  recovery indexes `IndexClaims` shows that the repetition ends with one index and no leftover claim.
- **Consuming a line nobody reserved takes other orders' units**: `Stock.UnreservedConsumptionBreaksTheLaw`, with
  the exact condition in `Stock.ConsumeKeepsTheLawExactlyWhen`.
- **PascalCase keys collide** for `a_1`/`a1`, `a_b`/`aB` and `a_b`/`a__b`: `RenameRules.PascalCollisions`.

## Conventions

Each transaction is atomic and has an instant of its own. Rows locked by others (`SKIP LOCKED`) are a `locked`
parameter. A raised SQL exception is the outcome `Raised` or `Database` with the tables unchanged. Hashes
(SHA-256, section 6.2 of FIPS 180-4) are uninterpreted values compared for equality. Times are integers in milliseconds.
Claim-named relations, which carry a fresh UUID, are touched by migrators only, and one migrator runs at a time under
its advisory lock. A well-used stock operation passes the line's own SKU and quantity, quantities are not negative, and
only reserved lines are consumed; the showcase's callers keep the first rule, and the last is the one whose breach is
shown above. Heartbeat verdicts, crashes, lost replies, other sessions' transactions and arriving notifications are inputs of the
steps, so that every theorem covers all of them.

## Model

| member | source | states |
|---|---|---|
| ScanOrder.TwoArmScan | horsies/src/broker/postgres.rs:85-92 | limiting two arms, merging and limiting again selects exactly the first N of their union under the claim order |
| ClaimPass.TwoArmClaimIsOneScan | horsies/src/broker/postgres.rs:93-139 | for every table, queue, limit, lock set and instant the two-arm claim takes the same rows as one scan with the OR predicate |
| ClaimPass.SecondWindowIsRedundant | horsies/migrations/0062_cache_claim_candidates.sql:28-114 | the per-queue row_number window never drops a row the lateral scan kept: a queue's candidates are the first rows of the plain scan |
| ClaimPass.PickedAreClaimable | horsies/migrations/0062_cache_claim_candidates.sql:29-139 | a pass takes only unlocked rows of its queues that satisfy the claim predicate, and never more than its budget |
| ClaimPass.PickedAreDue | horsies/migrations/0062_cache_claim_candidates.sql:29-68 | on the columns: a picked row is PENDING or CLAIMED under a lapsed lease, due by enqueued_at and next_retry_at, and before its deadline |
| ClaimPass.OldestFirst | horsies/migrations/0062_cache_claim_candidates.sql:42-98 | of two due unlocked rows of one queue the one smaller by priority, then enqueued_at, then id, is picked whenever the other one is |
| ClaimPass.NoQueueJumping | horsies/migrations/0062_cache_claim_candidates.sql:93-125 | a claimable row passed over for one that comes behind it, by queue priority (100 where unset), priority, enqueued_at and id, is passed over only because rows ahead of it fill its own queue's window |
| ClaimPass.PassUsesItsBudget | horsies/migrations/0062_cache_claim_candidates.sql:115-136 | a pass with a budget claims as many rows as budget and candidates allow, no fewer |
| TaskSteps.StepIsRowStep | horsies/src/broker/postgres.rs:62-357 | each of the 27 transactions leaves a given row alone or changes it in one of seven shapes: inserted, claimed while claimable, started under a lease not past, requeued with one more retry, released, renewed, ended |
| Guards.StartsExactlyWhen | horsies/src/broker/postgres.rs:175-206 | at every step of a run a CLAIMED row becomes RUNNING exactly by a start of its worker under its generation, with lease and deadline absent or ahead and no linked workflow PAUSED or CANCELLED, and only status, lease and start instant change |
| Guards.GoesBackExactlyWhen | horsies/src/broker/postgres.rs:212-357 | a held row goes back to PENDING exactly by a retry requeue, a reaper's requeue, a release or a stale release under that statement's own conditions |
| Guards.BackToPendingLeaves | horsies/src/broker/postgres.rs:212-357 | a retry counts one more attempt and waits for its instant; the worker's own keeps the claim columns and the reaper's clears them, as a release does without counting |
| Guards.RenewsExactlyWhen | horsies/src/worker/heartbeat.rs:26-32 | a heartbeat sets the lease of exactly its worker's CLAIMED rows whose claim is no older than allowed, whatever lease they had |
| Guards.EndsExactlyWhen | horsies/migrations/0041_task_history_fresh_cutover.sql:222-980 | a row leaves the live table exactly when a terminalization aims at it and may move every row it aims at, and is then in the history under that operation |
| Guards.FinishesAnswerExactly | horsies/migrations/0041_task_history_fresh_cutover.sql:111-180 | what each finalization answers: Applied, Raised, TaskAbsent, AlreadyApplied and LostClaim each under its own condition on the tables |
| Guards.CancelsAnswerExactly | horsies/migrations/0041_task_history_fresh_cutover.sql:840-905 | the same for the expiry of an owned claim, the administrative cancel and the orphan's cancel |
| Guards.StopsAnswerExactly | horsies/src/broker/postgres.rs:2160-2243 | the same for a paused and a cancelled stop before the start |
| Guards.BatchStopLeaves | horsies/src/broker/postgres.rs:2291-2389 | after a filter batch the nodes of exactly the ended tasks are READY and unlinked, or SKIPPED when not past ENQUEUED; every other node is as before |
| Guards.PausedStopLeaves | horsies/src/broker/postgres.rs:2183-2211 | a paused stop makes the task's own nodes READY and unlinked exactly when its move is or had been made |
| Guards.CancelledStopLeaves | horsies/src/broker/postgres.rs:2213-2240 | a cancelled stop skips the task's own nodes not past ENQUEUED, under the same condition |
| Guards.PauseLeaves | horsies/src/workflow_engine/lifecycle.rs:558-625 | an unhindered pause of RUNNING workflows marks them PAUSED and takes back exactly the active nodes of the tasks it ended; any other pause changes nothing |
| Guards.CancelLeaves | horsies/src/workflow_engine/lifecycle.rs:348-405 | an unhindered cancel marks the workflow CANCELLED and skips its PENDING and READY nodes and the ENQUEUED ones of the tasks it ended; any other cancel changes nothing |
| Guards.EnqueueNodeIsExact | horsies/src/workflow_engine/lifecycle.rs:155-169 | a node's task is inserted and linked exactly for a READY node of a RUNNING workflow under an unused id, and is claimable at once until its deadline |
| TaskSteps.EnqueuedWhenDue | horsies/src/broker/postgres.rs:74-83 | an enqueued task is claimable exactly from its due instant until its deadline, and enqueueing a live id again with any arguments changes nothing |
| TaskSteps.ReleaseUndoesClaim | horsies/src/broker/postgres.rs:345-356 | a release under the claim's own generation leaves the row as before the claim with cleared claim columns, so it restores the tables exactly when the row carried none (a retried row does), and a claimed row is not due meanwhile |
| CapSafety.ClaimPassKeepsCap | horsies/migrations/0062_cache_claim_candidates.sql:202-261 | a claim pass with a cluster cap never raises the in-flight count above the cap, or above where it already was |
| CapSafety.RenewalAddsRevived | horsies/src/worker/heartbeat.rs:26-32 | a lease renewal adds to the in-flight rows exactly the expired claims it revives |
| CapSafety.StepKeepsCap | horsies/src/broker/postgres.rs:288-294 | from a state within the cap one step stays within it exactly when a renewal has room |
| CapSafety.CapSafety | horsies/src/broker/postgres.rs:1524-1574 | a run whose claims all go through capped passes keeps RUNNING plus unexpired CLAIMED within the cap in every state, if and only if each renewal in it has room |
| CapSafety.GuardedRenewalsKeepTheCap | horsies/src/worker/heartbeat.rs:26-32 | a run of capped claim passes whose renewals touch no claim with a lapsed lease keeps the cap in every state |
| CapSafety.QueueCapKept | horsies/migrations/0062_cache_claim_candidates.sql:102-114 | in hard mode a pass fills a capped queue at most up to its max_concurrency |
| CapSafety.WorkerCapKept | horsies/migrations/0062_cache_claim_candidates.sql:236-244 | in hard mode a pass fills its worker at most up to its process count |
| CapSafety.SoftWorkerCapKept | horsies/migrations/0062_cache_claim_candidates.sql:236-244 | in soft mode a pass fills its worker at most up to its processes and prefetch buffer |
| CapSafety.ClaimLimitKept | horsies/migrations/0062_cache_claim_candidates.sql:228-254 | in either mode a pass never takes a worker's claimed rows past max_claim_per_worker, or past its processes and prefetch buffer where that is unset |
| CapSafety.BatchSizeKept | horsies/migrations/0062_cache_claim_candidates.sql:93-114 | a pass takes no more rows of one queue than max_claim_batch |
| CapSafety.NoIdleCapacity | horsies/migrations/0062_cache_claim_candidates.sql:202-261 | a pass leaves a due unlocked row of a serviced queue only when, with the rows taken, the cluster cap, the worker's processes, its claim limit, the queue's max_concurrency or the batch size is used up |
| CapSafety.CountedOnColumns | horsies/migrations/0062_cache_claim_candidates.sql:202-244 | which rows those limits count: RUNNING, or CLAIMED with a lease absent or ahead, by worker and by queue |
| CapSafety.RenewalBreaksTheCap | horsies/src/worker/heartbeat.rs:26-32 | a legal seven-step run from empty tables ends with two RUNNING rows under a cap of one |
| Fencing.StampedRun | horsies/src/broker/postgres.rs:159-193 | in every reachable state a held row carries its claim instant and a RUNNING row a later start instant, none ahead of the clock |
| Fencing.ClaimSupersedes | horsies/src/broker/postgres.rs:159-166 | once a row has been claimed at a step, in every later state any generation it carries is that claim's or newer |
| Fencing.StaleDispatchIsInert | horsies/src/broker/postgres.rs:159-206 | after a re-claim, even by the same worker, nothing that carries an older generation starts, releases, requeues, completes, fails, cancels or abandons the row, whatever ran in between; the locked finalizations (horsies/src/worker/execution.rs:1050-1321) are included |
| Fencing.StaleBatchIsInert | horsies/src/broker/postgres.rs:2291-2303 | batches fence each row by the generation travelling with its id |
| Fencing.StaleCancelStop | horsies/src/broker/postgres.rs:2213-2222 | the cancelled stop, which also accepts a requeued row, reaches a re-claimed row exactly when that row is PENDING again and can move |
| Fencing.LeftoverGenerationIsHarmless | horsies/src/broker/postgres.rs:217-233 | on a PENDING row no start, release, requeue, completion, failure, abandon, orphan cancel or owned expiry applies, with any generation |
| Fencing.RetryRequeueKeepsGeneration | horsies/src/broker/postgres.rs:217-233 | an applied retry requeue keeps claimed_at and the worker on the PENDING row |
| Fencing.GenerationsAreDistinct | horsies/src/broker/postgres.rs:159-166 | two claims of a row never share a generation, and a RUNNING row's start belongs to its latest claim |
| Attempts.RetryCountIsRequeues | horsies/src/broker/postgres.rs:212-233 | in every reachable state retry_count is the number of applied requeues, and every start but a running one has been requeued |
| Attempts.KthStartIsAttemptK | horsies/src/worker/execution.rs:795 | the k-th start of a row is attempt k: no gap, no repeat |
| Attempts.RequeuedIsClaimable | horsies/src/broker/postgres.rs:217-233 | a requeue applies exactly when its check matches and it names a retry instant; the row is then claimable from that instant until its deadline, which lies strictly later |
| WorkflowStops.CoupledRun | horsies/src/broker/postgres.rs:2178-2181 | in every reachable state each live workflow task is the one its ENQUEUED or RUNNING node links to, and no node links to a task a pause has ended |
| WorkflowStops.OneLiveTaskPerNode | horsies/src/broker/postgres.rs:2290-2296 | no node ever has two live tasks among all tasks ever created for it |
| WorkflowStops.TakingBackEndsTheTask | horsies/src/broker/postgres.rs:2178-2240 | whatever step sets an active node back to READY or SKIPPED ends that node's live task in the same step |
| WorkflowStops.StopForDeadTaskIsNoOp | horsies/src/broker/postgres.rs:2196-2233 | a stop replayed for a task that is no longer live changes nothing |
| WorkflowStops.RelinkedNodeIsSafe | horsies/src/broker/postgres.rs:2178-2240 | in every reachable state no stop for an old task id disturbs a node relinked to a fresh task |
| WorkflowStops.PausedStopResets | horsies/src/broker/postgres.rs:2183-2211 | an applied paused stop leaves the node READY and unlinked and the task in the history |
| WorkflowStops.CancelledStopSkips | horsies/src/broker/postgres.rs:332-337 | an applied cancelled stop skips the node exactly when it is ENQUEUED, and leaves it untouched exactly when it is RUNNING |
| WorkflowStops.CancelledStopStrandsRunningNode | horsies/src/worker/execution.rs:236-256 | a legal run ends with the workflow cancelled, the task in the history and the node RUNNING on it |
| Broker.PostgresBroker.ClaimBatch | horsies/src/broker/postgres.rs:1532-1573 | claims exactly the rows the pass picks, under one new generation, and returns them strictly in claim order |
| Broker.PostgresBroker.SetRunning | horsies/src/broker/postgres.rs:175-206 | starts the row exactly when claim, generation, lease, deadline and workflow allow, and returns the row's attempt context |
| Broker.PostgresBroker.RequeueInTx | horsies/src/broker/postgres.rs:1691-1720 | reports whether the ownership check matched; a matched row with no retry instant is a database error and changes nothing |
| Broker.PostgresBroker.UnclaimTask | horsies/src/broker/postgres.rs:2413-2432 | releases the row exactly when this worker owns the claim under the generation given |
| Broker.PostgresBroker.HandleWorkflowStopBeforeStart | horsies/src/broker/postgres.rs:2160-2243 | one transaction: the node write happens only with an applied or already applied move, an error leaves every table as it was, other statuses do nothing |
| Broker.PostgresBroker.FilterNonRunnableWorkflowTasks | horsies/src/broker/postgres.rs:2257-2389 | runs the abandon and the cancel transaction in turn, stops at the first error, and returns the paused then the cancelled ids |
| Broker.FilterReportsEveryStop | horsies/src/broker/postgres.rs:2251-2289 | the ids reported are exactly the claimed live tasks linked to a PAUSED or CANCELLED workflow, owned or not |
| Broker.FilterTouchesOnlyItsClaims | horsies/src/broker/postgres.rs:2252-2303 | a row leaves the live table only while this worker owns it under the generation of one of the claims |
| Broker.FilterEndsExactly | horsies/src/broker/postgres.rs:2291-2389 | the filter succeeds exactly when neither list repeats an id nor aims at a row that may not move; it has then ended exactly the reported rows this worker owns, and a refused first list changes nothing |
| Broker.BatchErrorIsExact | horsies/src/broker/terminalization.rs:257-300 | a refused list without a repeat is a database error, one with a repeat names the first id that comes again |
| Broker.FilterIsARun | horsies/src/broker/postgres.rs:2257-2389 | the filter is a run of at most the two batch transactions, so every whole-run theorem covers it |
| Enqueue.EnqueueBroker.Enqueue | horsies/src/broker/postgres.rs:964-1146 | the insert transaction with its replay, conflict, insert and used-id branches, and the later verifying read after other sessions have run |
| Enqueue.EnqueueBroker.BindKeyAfterTaskIdConflict | horsies/src/broker/postgres.rs:1148-1211 | binds the key to a live task with the same payload and no other key, and otherwise names the mismatch without changing a row |
| Enqueue.EnqueueBroker.ClaimKeyReservation | horsies/migrations/0034_task_history_key_reservations.sql:26-86 | replays or refuses while a reservation blocks, otherwise replaces an expired one by a LIVE one |
| Enqueue.KeyBinding | horsies/src/broker/postgres.rs:1019-1117 | in every reachable state, expiry included, a live task holds a digest exactly when the LIVE reservation of it names that task, for the same command |
| Enqueue.OneLiveTaskPerKey | horsies/src/broker/postgres.rs:1019-1117 | no key ever has two live tasks |
| Enqueue.BoundKeyNeverChanges | horsies/src/broker/postgres.rs:1188-1208 | over every stretch of a run in which a task stays live, its hash, fingerprint and bound digest at the end are those at its start; only an unset digest may have been bound |
| Enqueue.RefusalsChangeNothing | horsies/src/broker/postgres.rs:1032-1116 | the tables change exactly when a task was inserted or a key newly bound; every other path leaves both as they were |
| Enqueue.OkNamesTheCommand | horsies/src/broker/postgres.rs:4022-4044 | an Ok names the sent id, live with the sent hash, or the holder of the key for the same command |
| Enqueue.KeyNamesOneTask | horsies/migrations/0034_task_history_key_reservations.sql:50-105 | over every run, until the owner of a key has really been moved and its window has run out, no enqueue under the key changes a table; the same command is answered with the owner and any other with a conflict naming it |
| Enqueue.KeyFreesAtTheWindowsEnd | horsies/migrations/0034_task_history_key_reservations.sql:59-105 | a legal enqueue of a new id under an ended owner's key inserts exactly from the move plus the window on, whatever ran under other keys and whether or not the reservation was cleaned up |
| Enqueue.InsertsExactlyWhen | horsies/src/broker/postgres.rs:80-83 | an enqueue inserts exactly when its arguments are legal, its id is not live and its key is unset, unreserved or past its window; the row and the LIVE reservation are then its own |
| Enqueue.BindsExactlyWhen | horsies/src/broker/postgres.rs:1148-1211 | on a live id a key is bound exactly when the row is the same command and holds no other key, and each refusal has its own condition |
| Enqueue.UsedIdIsVerified | horsies/src/broker/postgres.rs:1105-1146 | without a key a used id is answered Ok, a payload mismatch or unverifiable exactly by what the later read finds |
| Enqueue.HousekeepingIsExact | horsies/migrations/0034_task_history_key_reservations.sql:129-161 | a cleanup removes exactly the batch's reservations whose window has run out |
| Resend.EnqueueWithRetry | horsies/src/task.rs:471-557 | the send loop: which attempts run, when it resends and what it answers, for every mix of lost requests, lost replies and other sessions |
| Resend.SendOkNamesTheTask | horsies/src/task.rs:536-555 | a send that answers Ok names its own task, live with the sent hash, or the owner of its key for the same command |
| Resend.FailedSendsReplayThemselves | horsies/src/task.rs:719-783 | an error of a send is accepted by exactly one of the two retries of its own task, unless it is a payload mismatch, and replays the same id, hash and key |
| Resend.ResendIsIdempotent | horsies/src/broker/postgres.rs:964-1146 | once a send has inserted its task or bound its key, and while that task stays live, another send of it changes no table and answers Ok with the same id, whatever other sessions ran in between |
| Resend.ResendsAreInvisible | horsies/src/broker/postgres.rs:80-83 | leaving every later send of a committed live task out of a run, in whatever session, ends in the same tables |
| Resend.OtherPayloadIsRefused | horsies/src/broker/postgres.rs:1148-1211 | another payload under the id of a committed live task changes nothing and is answered by a payload mismatch, or as unverifiable when the row is taken before it can be locked, unless its own key is reserved and decides first |
| Resend.CommittedSendAnswersOk | horsies/src/task.rs:471-557 | a send whose task was committed by an attempt with a lost reply, by an earlier send or by another session, and is live from then on, answers Ok with its own id if its last attempt is delivered, and otherwise the connection's failure; never a refusal |
| Resend.OneInsertWhileLive | horsies/src/broker/postgres.rs:80-83 | over any run the INSERT returns a row for an id that never ends exactly once if the id has become live, and never otherwise |
| Resend.AttemptByFate | horsies/src/task.rs:499-552 | an attempt that is never sent does nothing, one whose reply is lost does what a delivered one does, and only a payload mismatch has its own code; no refusal is retryable |
| Resend.ThreeResends | horsies/src/task.rs:484-556 | with resending on, after three lost attempts the fourth answers and there is no fifth; with it off the first answers |
| Resend.KeyedSendInsertsAtMostOnce | horsies/src/broker/postgres.rs:1019-1053 | a keyed send is inserted at most once even across its own terminal move, until its window has run out |
| Resend.UnkeyedResendRunsTwice | horsies/src/broker/postgres.rs:80-83 | an unkeyed resend after the terminal move inserts the task again, and the copy cannot be moved to the history |
| Ledger.MigrationRunner.RunInnerThrough | horsies/src/broker/migrations.rs:187-240 | the run through a version: preparation, refusals, then the apply loop, stopping at the first mismatch or failure |
| Ledger.MigrationRunner.RunMigrations | horsies/src/broker/migrations.rs:120-145 | at most five attempts; every one but the last can only have failed with a deadlock, so any other answer ends the run at once |
| Ledger.MigrationRunner.MigrationsAreCurrent | horsies/src/broker/migrations.rs:272-318 | the check is true exactly on a clean ledger of known versions that holds every up migration with its checksum |
| Ledger.SuccessIsCurrent | horsies/src/broker/migrations.rs:187-240 | a successful full run leaves the database current |
| Ledger.CurrentIffRunIsANoOp | horsies/src/broker/migrations.rs:272-318 | current holds exactly when the ledger exists and a full run would succeed without changing anything |
| Ledger.SecondRunAppliesNothing | horsies/src/broker/migrations.rs:179-240 | after a successful full run another one succeeds and applies nothing |
| Ledger.ThroughIsResumable | horsies/src/broker/migrations.rs:187-240 | running through a and then b equals running through b, and a failure through a is the failure through b |
| Ledger.RefusedBeforeAnyApply | horsies/src/broker/migrations.rs:195-222 | before anything is executed: Dirty exactly when some row is unsuccessful, naming the smallest such version, else VersionMissing exactly when some recorded version has no migration |
| Ledger.ExecutedTwiceExactlyWhen | horsies/src/broker/migrations.rs:421-449 | over all attempts of any number of runs, whatever fails before or after which statement, a migration is executed twice if and only if some attempt ran it outside a transaction without recording it and a later attempt got to it again |
| Ledger.TransactionalRunsOnce | horsies/src/broker/migrations.rs:444-449 | a transactional migration is executed at most once over all attempts, lost commit replies included |
| Ledger.RecordedNeverRuns | horsies/src/broker/migrations.rs:224-237 | a version the ledger holds stays there and is never executed again |
| Ledger.MigrationRunner.ApplyMigration | horsies/src/broker/migrations.rs:421-463 | what an error at each stage leaves: a transaction rolls back, a no-transaction migration has taken effect once its SQL has run, and an error after the record leaves both |
| Ledger.NoTransactionRunsTwice | horsies/src/broker/migrations.rs:427-443 | a no-transaction migration whose run fails with a deadlock between its SQL and its record is executed again by the retry |
| Ledger.BackfillTakesOnlyOurs | horsies/src/broker/migrations.rs:358-419 | into an empty ledger exactly the host's rows with the version and checksum of an up migration are taken over; nothing is executed and the host's rows stay |
| Ledger.EarlierInstallIsAdopted | horsies/src/broker/migrations.rs:114-119 | an install recorded in the host's ledger, beside any rows of the host application, upgrades without executing anything and ends current |
| IndexClaims.ForeignRelationsUntouched | horsies/src/broker/migrations.rs:465-509 | with any other session between any two statements and any statement failing, the migrator never drops, renames or replaces a relation that is not an index on the expected table |
| IndexClaims.RecordMeansBuiltAndClean | horsies/src/broker/migrations.rs:421-443 | a version is recorded only by an attempt that itself created a new index under the canonical name, and only when no claim-named index is left on the table |
| IndexClaims.RebuildReplaces | horsies/src/broker/migrations.rs:421-443 | an index left under the canonical name is renamed to a claim, rebuilt and the claim dropped, in this order |
| IndexClaims.UndisturbedAttempt | horsies/src/broker/migrations.rs:465-579 | from whatever an earlier failure left, every undisturbed attempt ends within seven statements and one per claim left behind; it records exactly when the canonical name is free or on the expected table, and otherwise changes nothing |
| IndexClaims.NextStatementExists | horsies/src/broker/migrations.rs:549-579 | an attempt never gets stuck: its next undisturbed statement exists |
| Listener.SharedNotifyListener.Notify | horsies/src/broker/shared_listener.rs:69-88 | one notification forgets closed senders of its payload, gives each other one a wake-up unless it already has eight, and removes an empty entry |
| Listener.SharedNotifyListener.SubscribeTo | horsies/src/broker/shared_listener.rs:126-147 | registers a new sender under the next 64-bit id |
| Listener.SharedNotifyListener.Drop | horsies/src/broker/shared_listener.rs:167-183 | removes the sender under its id and the payload entry once empty |
| Listener.MapAgreement | horsies/src/broker/shared_listener.rs:12-15 | until the 64-bit counter wraps, in every reachable state the map holds exactly the live subscriptions and those leaked without an unsubscribe, and no empty inner map |
| Listener.NoLeakNoStaleEntry | horsies/src/broker/shared_listener.rs:118-125 | with no leak the map holds exactly the live subscriptions |
| Listener.DropRemovesOnlyItsOwn | horsies/src/broker/shared_listener.rs:167-183 | dropping a subscription removes its own sender and no other |
| Listener.NotifyForgetsTheLeaked | horsies/src/broker/shared_listener.rs:77-88 | a fan-out drops exactly the leaked senders of its payload |
| Wakeups.NoLostWakeUp | horsies/src/broker/postgres.rs:1887-1896 | in every interleaving of notifications, repeated or early ones included, with fan-outs, subscribes, drops, reads and reconnects, a waiter on an ended task has a wake-up pending or its notification still to come, unless a reconnect lost it |
| Wakeups.DeliveredMeansFinished | horsies/src/broker/postgres.rs:1902-1931 | once every notification has been fanned out, a waiter on an ended task finishes in its own next two statements, however full its channel |
| Wakeups.RepollRecovers | horsies/src/broker/postgres.rs:1909-1926 | a waiter whose notification was lost finishes at its next re-poll |
| Wakeups.FinishesOnlyOnTheResult | horsies/src/broker/postgres.rs:1887-1931 | a waiter finishes by its own move only after its task has ended, and leaves no sender behind |
| Wakeups.ReadsArePaidFor | horsies/src/broker/postgres.rs:1922-1931 | no busy waiting: a waiter's reads out of wake-ups, with those still pending, are never more than the fan-outs of its payload |
| Wakeups.FloodCoalesces | horsies/src/broker/shared_listener.rs:79-85 | under n notifications of one payload a sleeping waiter's channel holds exactly the smaller of n and eight wake-ups |
| Wakeups.FullChannelStillWakes | horsies/src/broker/shared_listener.rs:79-85 | when the channel is full as the task ends, the end's own wake-up is coalesced and the waiter still finishes |
| ResultWait.GetResultWaiting | horsies/src/broker/postgres.rs:1875-1933 | each answer comes only from the rows it may come from and each row gives its own answer: a result is decoded for COMPLETED, FAILED and EXPIRED, else not available or expired, CANCELLED is cancelled; WaitTimeout only from a live row at the deadline; never later than that |
| ResultWait.OneWait | horsies/src/broker/postgres.rs:1909-1931 | a wait ends with a read at the wake-up, after 30 seconds or at the deadline, whichever is first, or with the listener's error |
| ResultWait.AnswersWithinOneRepoll | horsies/src/broker/postgres.rs:1900-1931 | whatever wake-ups arrive, an answer comes less than one re-poll interval after the row turned terminal |
| ResultWait.ResultBeatsTheDeadline | horsies/src/broker/postgres.rs:2893-2914 | a timed wait whose task ends by the deadline never answers WaitTimeout |
| ResultWait.AllNotifiesLost | horsies/src/broker/postgres.rs:1909-1926 | with every notification lost an untimed wait answers from the terminal row at the first of its reads, 30 seconds apart, at or after the end |
| ResultWait.EndDuringSetup | horsies/src/broker/postgres.rs:1887-1896 | a task that ends while the subscription is being set up is found by the second read, before any wait |
| Ordinals.ReorderByOrdinal | horsies/src/broker/terminalization.rs:257-300 | accepts exactly the rows whose ordinals are 1..=n each once, returns the permutation with ordinal i+1 at index i, and names the contract a refused batch broke |
| Ordinals.EnforceCardinality | horsies/src/broker/terminalization.rs:237-255 | exactly one row, the id-keyed contract, or any number, by operation |
| Ordinals.AcceptedIffOrderable | horsies/src/broker/terminalization.rs:257-260 | the acceptance condition holds exactly when some reordering of the rows is in input order |
| Ordinals.ArrivalOrderIsIrrelevant | horsies/src/broker/terminalization.rs:257-260 | two arrivals of the same rows restore to the same sequence |
| Stock.AcmeStore.Reserve | showcase/src/store.rs:402-470 | applies exactly when the order is open, the line exists unreserved and the SKU has enough available; every other answer changes nothing |
| Stock.ReservationReport | showcase/src/store.rs:402-470 | what each flag of a reservation's answer means on the store, what it leaves, and that the availability it reports is the store's afterwards |
| Stock.LinesStayKeyed | showcase/src/store.rs:402-470 | in every reachable state (order, line number) names at most one line |
| Stock.AcmeStore.ReleaseOrderReservations | showcase/src/store.rs:488-552 | marks the order failed when asked, takes the accumulated quantities off each SKU and clears the flags of the order's held lines |
| Stock.FailureMarksTheOrder | showcase/src/store.rs:503-508 | failing marks a placed, validated, reserved or authorized order as failed and leaves any later status and every other order |
| Stock.AcmeStore.Consume | showcase/src/store.rs:554-572 | consumes a line once, with both clamps |
| Stock.Conservation | showcase/src/store.rs:402-572 | over every run of well-used operations each SKU's reserved is the sum of its held lines and lies between zero and on_hand |
| Stock.ReleaseConserves | showcase/src/store.rs:523-546 | a release takes off each counter exactly what the order held, so the clamp never bites |
| Stock.ConsumeConserves | showcase/src/store.rs:566-568 | consuming a held line takes its quantity off both counters unclamped and leaves what is available unchanged |
| Stock.ConsumeKeepsTheLawExactlyWhen | showcase/src/store.rs:554-572 | consuming an unconsumed line keeps the law exactly when it was reserved, is empty, or its SKU has nothing reserved |
| Stock.UnreservedConsumptionBreaksTheLaw | showcase/src/store.rs:566-568 | consuming an unreserved line takes units another order holds |
| Stock.CompensationIsFinal | showcase/src/store.rs:420-442 | after an order is failed no run that does not reopen its status leaves it a held line, and releasing it again changes nothing and returns zero |
| Stock.ReleaseUndoesReserve | showcase/src/store.rs:402-552 | releasing an order right after its one reservation restores the store and returns that line's quantity |
| Stock.ReportedUnitsAreTheDrop | showcase/src/store.rs:523-548 | the units a release returns are the total drop of the reserved counters |
| RenameRules.PascalCase | macros/src/workflow_input.rs:140-154 | the character loop joins the capitalised pieces between underscores, for every name |
| RenameRules.RulesAreRecoverable | macros/src/workflow_input.rs:118-138 | every rename rule has an inverse on well-formed field names |
| RenameRules.RuleCharacters | macros/src/workflow_input.rs:118-138 | which characters each rule's key has and where: capitals, hyphens, no underscore, the case of the first letter; an unknown rule keeps the name |
| RenameRules.DistinctFieldsDistinctKeys | macros/src/workflow_input.rs:118-138 | distinct well-formed fields never share a wire key |
| RenameRules.PascalCollisions | macros/src/workflow_input.rs:140-154 | each of the three conditions of well-formedness is needed |

## Left out

- The staleness verdict on a runner (heartbeats, finalizing marks) is an input; heartbeat and attempt rows are not kept.
- Worker identity columns other than the worker id, task payloads, results and error texts, except where a hash or a decoded result decides a branch.
- The phase-2 pending table, workflow completion and dependency promotion: a node becoming ready or finishing is a free step.
- The workflow expiry of paused workflows, child workflows and the batch sweep of orphaned tasks (`horsies_cancel_orphaned_tasks`).
- The rerun path, which claims reservations in the same way for its own inserts, and the retention archive's pruning of the history (free in `Enqueue`, absent from `TaskSteps`).
- Two concurrent first claims of one key, where the second insert fails on the primary key instead of replaying; statements are atomic here.
- Integer overflow inside PL/pgSQL and of the showcase's 32-bit sums; the claim parameters' clamp to i32 is modelled.
- Transactions that wait for a lock keep the timestamp they began with; here each has its own instant.
- Repeated names in one claim pass's queue list: the serviced queues are a set.
- Statements of other sessions between the filter's lookup and its two transactions: the method runs alone, while runs of `OpAbandonBatch` and `OpCancelBatch` with any claims allow them.
- The schema effects of a migration, and what a failed no-transaction one leaves of them: `Ledger` keeps only which migrations were executed and recorded; `IndexClaims` has the relations.
- Other migrators between the attempts of one run: the advisory lock makes the locked part exclusive.
- The check that an abandoned claim's name is plain ASCII: claim names are UUIDs here.
- Invalid indexes are told from valid ones by no statement of the protocol, so the model does not mark them.
- Sleeps, backoff, connection acquisition, pool and listener set-up, tracing and metrics.
- Decoding of task arguments and results, error texts, the scheduler, the web UI, the command line and the showcase's other operations.
- `nightly_stocktake`, `release_line` and stock adjustments, which write counters without the line flags.
- ResultWait.AllNotifiesLost: a query takes no time (setting up the subscription may), so time spent inside a read is not counted against the bound.
- Listener.MapAgreement: after 2^64 subscriptions ids repeat and a sender can be replaced; nothing is claimed from there on.
