# iron-defer: a verified model of the task lifecycle

iron-defer keeps background tasks in a Postgres table. Workers claim rows under a lease, run handlers and write the outcome back; a sweeper takes back rows whose lease ran out; callers submit, signal and cancel; a worker that shuts down drains and gives its leases back. No single SQL statement bounds retries, keeps the audit log truthful or frees a stuck task. This project models the statements, the worker, the sweeper and the shutdown sequence, and proves what they guarantee together, over every run with any number of workers and tasks, any interleaving, and crashes at any point. A second part models the scanners that remove payloads and passwords from error texts.

## How it is built

- `Wrappers`, `Powers`, `Texts`: an option type, powers of two, and how texts are cut and joined.
- `Domain`, `RowEvents`, `Store`: the row, the SET list and WHERE clause of each statement, the audit row each one writes, and each transaction as a function on the two tables.
- `TaskRepository`, `Updates`: `PostgresTaskRepository` as a class that updates the tables in place with loops. Each method is proved to do what `Store` says, including its answer on every error path.
- `Scheduler`, `World`: the only producers of new rows, and the system as a state machine. A label is one committed transaction or one local action of a worker. A *flight* is a record that a claim handed to a worker, from the claim to its end; it is never forgotten, so statements about a whole run can be made about its last state.
- `Trails`, `Invariant`: the history of each task (its *trail*) and what every reachable state owes to it.
- `Guarantees`, `AuditWalk`, `Idempotency`, `NoStuckTask`, `RetrySchedule`, `Shutdown`: the main results. `FairRuns`: that every task ends, for all runs that are fair to it. `Dispatches`: for what a reader would expect of every dispatch and the code does not promise, the exact condition under which it can go wrong. `StaleClaims` and `OverflowRuns`: runs from the empty database in which it does.
- `PollLoop`, `ClaimBackoff`, `Engine`, `Sweeper`: the loops of one process, with permits, backoff, drain and metrics counts.
- `JsonScrub`, `UrlScrub`, `ParenScrub`: the text scanners, each a method with the original's loop proved against a recursive specification.

`dafny verify dfyconfig.toml` checks everything.

## Where the code and its documentation differ

The model follows the code.

- The repository's README.md:3 promises at-least-once execution. A claim spends an attempt before the dispatch begins, and a dispatch that finds no handler for the task's kind spends one without running anything, so a task can end as Failed without having been executed (`StaleClaims.NeverExecuted`, `StaleClaims.NoHandler`). In every reachable state this can still happen if and only if no handler of the task has been entered and it was not cancelled (`Dispatches.EndsUnexecutedIff`).
- crates/application/src/ports/task_repository.rs:153 says that `signal` sets `scheduled_at = now()`. It leaves the column alone. The task is claimable at once all the same (`Guarantees.SignalledIsClaimable`).
- A lease is not a fence: `complete`, `fail` and `suspend` match id and status only, so a dispatch that lost its claim can end the claim of another worker (`StaleClaims.CompletesForAnother`). An outcome call on a running row ends the dispatch's own claim if and only if the row still has its attempt number (`Dispatches.EndsOwnClaimIff`).
- Attempt numbers strictly increase from claim to claim (`Guarantees.DispatchBound`), but dispatches need not begin in that order (`StaleClaims.BeginsOutOfOrder`): a held record can still begin late if and only if a later claim has begun or is about to, or the task can be claimed again (`Dispatches.BeginsLateIff`).
- A claim hands out the latest checkpoint and signal, but the dispatch may begin with old ones (`StaleClaims.BeginsWithOldData`): `write_checkpoint` checks the worker and not the attempt. Under a current claim this can happen if and only if the data is old already or an earlier handler of the task is still alive in the same process (`Dispatches.BeginsStaleIff`).
- A dispatch can begin after a successful cancel, exactly when a poll loop already holds the claimed task (`Dispatches.BeginsAfterEndIff`).
- Both release operations add one to `attempts`, past the maximum if need be, and a signal does not reset it. Whatever brought a task to its maximum, it can be dispatched once more if and only if it has not ended and its attempts are below it (`Dispatches.DispatchedAnewIff`); a task suspended on its last attempt is claimable after its signal and yet reaches no handler (`StaleClaims.SignalledInVain`). The next claim then commits and fails to map its row (`StaleClaims.ClaimsUnknowingly`), and a submit of its key is answered with an error (`StaleClaims.KeyedSubmitFails`). Such a row is still not stuck (`NoStuckTask.NoTaskIsStuck`).
- The jitter of a retry multiplies the capped delay by a factor below 1.25, so `max_delay` does not bound the delay from above. The claim backoff is bounded by its maximum.
- The wait of the claim backoff also ends when a dispatch does, and the deadline is then forgotten: the delay is what is set, not always what is waited.
- An idempotency key blocks a second task only while the first is not terminal, whatever the retention time.
- The backoff expression of `fail` is evaluated in float8. When it leaves the range, `fail` reports a storage error and the row stays Running. `RetrySchedule.AlwaysFailingEnds` says exactly when a task that always fails still ends as Failed by its own calls; `OverflowRuns` gives the runs of failures, down to the lost outcome call of attempt 1025. The sweeper ends such a row.

## Model

| member | source | states |
|---|---|---|
| Guarantees.DispatchBound | crates/application/src/services/worker.rs:174-271 | in every reachable state a task has had at most max_attempts dispatches, numbered within 1..max_attempts; in the order of its claims, dispatched or not, the attempt numbers strictly increase |
| Guarantees.FreshDispatchIsNewest | crates/infrastructure/src/adapters/postgres_task_repository.rs:653-708 | a dispatch that begins while its attempt is the row's has a higher attempt number than every dispatch begun so far; the exact condition is that of Dispatches.BeginsLateIff |
| Guarantees.AttemptAccounting | crates/infrastructure/src/adapters/postgres_task_repository.rs:169-178 | attempts = claims + releases; attempts exceed the maximum by at most two for each release and one for each signal; without either, the mapping guard never rejects the row |
| Guarantees.StatusChangeBound | crates/application/src/services/worker.rs:446-779 | over a whole run signals, suspensions, executions, dispatches and the maximum are ordered, and a task changes status at most 5 * max_attempts + 2 * releases + 1 times |
| Guarantees.TerminalCauses | crates/application/src/services/worker.rs:670-671 | a Completed task had a dispatch whose handler was entered and returned Ok; a Failed one used up its attempts or waited too long for a signal |
| Guarantees.NeverRunWithoutCause | README.md:3 | a task that ended without its handler having been entered was cancelled, or failed with its attempts used up; the exact condition is that of Dispatches.EndsUnexecutedIff |
| Guarantees.TerminalForever | crates/infrastructure/src/adapters/postgres_task_repository.rs:1174-1177 | in every run a terminal status never changes and no further claim of the task is handed out |
| Guarantees.ClaimHandsLatest | crates/infrastructure/src/adapters/postgres_task_repository.rs:653-708 | each claim hands out exactly the latest successful checkpoint write, the payload of the latest signal, and the attempt number that follows all earlier claims and releases |
| Dispatches.DataIsLatestIff | crates/application/src/services/worker.rs:452-456 | along every run each record carries what had been written and signalled when its claim was made; so its data is the latest if and only if nothing else has been written or signalled since |
| Dispatches.BeginsStaleIff | crates/infrastructure/src/adapters/postgres_task_repository.rs:270-288 | in every reachable state a waiting dispatch can still begin under its current claim with old data if and only if its claim is current and its data is old already or another handler of the task is alive in its process |
| Dispatches.BeginsLateIff | crates/application/src/services/worker.rs:263-271 | in every reachable state a waiting dispatch can still begin after a higher attempt has if and only if a later claim has begun or is about to, or the task is not terminal and has attempts left |
| Dispatches.EndsOwnClaimIff | crates/infrastructure/src/adapters/postgres_task_repository.rs:742-748 | in every reachable state, when an outcome call meets a running row, the claim that the row runs under is the dispatch's own if and only if the row has its attempt number |
| Dispatches.EndsUnexecutedIff | README.md:3 | in every reachable state a task can still end without its handler being entered if and only if it has not been so far, and can still fail so if and only if it was not cancelled besides |
| Dispatches.EndsUndispatchedIff | README.md:3 | the same for dispatches, whether or not they find a handler |
| Dispatches.DispatchedAnewIff | crates/infrastructure/src/adapters/postgres_task_repository.rs:169-178 | in every reachable state a task can be claimed and dispatched once more if and only if it is not terminal and its attempts are below the maximum |
| Dispatches.BeginsAfterEndIff | crates/application/src/services/worker.rs:186-209 | after a cancel or any other end, a dispatch of the task can still be spawned if and only if a poll loop holds it between claim and spawn |
| Guarantees.RowsAreShaped | crates/domain/src/model/task.rs:225-250 | in every reachable state each row has the shape its status implies, and the record invariants hold |
| Guarantees.SignalledIsClaimable | crates/infrastructure/src/adapters/postgres_task_repository.rs:1575-1583 | a signal leaves scheduled_at alone and yet makes the task eligible for the very next claim of its queue and region |
| Invariant.StepKeepsInv | crates/infrastructure/src/adapters/postgres_task_repository.rs:372-1690 | every step of any process keeps the whole invariant: table constraints, row histories, flights and their claims, suspensions, completions, released workers |
| Invariant.RunKeepsInv | crates/infrastructure/src/adapters/postgres_task_repository.rs:372-1690 | the invariant holds along every run, so in every reachable state |
| Invariant.TaskAfterStep | crates/infrastructure/src/adapters/postgres_task_repository.rs:372-1690 | a step leaves an existing row and its history alone or makes exactly one event of it that its WHERE clause allows |
| Invariant.StepKeepsTask | crates/infrastructure/src/adapters/postgres_task_repository.rs:372-1690 | a task keeps its position, identity and limits; attempts never fall; an insert or the clock touches no existing row |
| Invariant.StepKeepsManifest | crates/infrastructure/src/adapters/postgres_task_repository.rs:653-708 | every step keeps the attempt numbers of a task strictly increasing in claim order, and every flight within the row's attempts and maximum |
| Invariant.StepKeepsTied | crates/infrastructure/src/adapters/postgres_task_repository.rs:653-708 | every step keeps each flight tied to a claim in its task's history, with its worker, attempt number and data |
| Invariant.StepKeepsHoldsOne | crates/application/src/services/worker.rs:163-271 | a poll loop never holds two claimed tasks at once |
| Invariant.NewFlightIsClaimed | crates/infrastructure/src/adapters/postgres_task_repository.rs:724-728 | only a poll adds a flight; it carries the row that the claim wrote, one attempt further, and that row maps |
| Invariant.OnlySettleEnds | crates/application/src/services/worker.rs:670-756 | a row becomes Suspended or Completed only through the outcome call of a dispatch of that very task |
| Invariant.StepKeepsSound | crates/infrastructure/src/adapters/postgres_task_repository.rs:372-1690 | every step keeps every row in the shape and budget its history explains, and keeps ids and live keys unique |
| Invariant.StepKeepsCompletes | crates/application/src/services/worker.rs:670-671 | after every step each Completed row has a dispatch of its own that completed it |
| Invariant.StepKeepsSuspends | crates/application/src/services/worker.rs:715-716 | after every step the suspensions in a task's history are as many as the dispatches that suspended it |
| Invariant.StepKeepsReleased | crates/api/src/lib.rs:896-897 | no step gives a row back to a worker whose leases were released |
| Invariant.SubmitAppends | crates/infrastructure/src/adapters/postgres_task_repository.rs:372-568 | a submit leaves the table alone or appends one pending row that satisfies every constraint |
| Trails.EventKeepsSound | crates/infrastructure/src/adapters/postgres_task_repository.rs:634-1690 | every allowed event keeps shape, attempt budget, move count, remembered data, the reason for failure, and that a running row runs under its latest claim |
| Trails.MovesAreStatusChanges | crates/infrastructure/src/adapters/postgres_task_repository.rs:634-1690 | exactly the audited events change the status |
| Trails.BirthIsSound | crates/application/src/services/scheduler.rs:202-223 | a newly inserted row satisfies what is required of every row |
| AuditWalk.AuditIsWalk | crates/infrastructure/src/adapters/postgres_task_repository.rs:319-368 | with auditing on, in every reachable state the audit rows of each task form one connected walk from None to pending to its current status, one row for each status change; with auditing off there are none |
| AuditWalk.EntryIsStep | crates/infrastructure/src/adapters/postgres_task_repository.rs:1201-1219 | the row an operation records goes from the old status to the new one, also for cancel, which infers the old one from suspended_at |
| AuditWalk.CommitAppendsOwn | crates/infrastructure/src/adapters/postgres_task_repository.rs:914-940 | a transaction appends to the audit rows of a task exactly the entries of that task, in order |
| NoStuckTask.NoTaskIsStuck | crates/infrastructure/src/adapters/postgres_task_repository.rs:871-969 | from every state that keeps the invariant, clock, sweeper and workers that die after one claim bring any non-terminal task to Failed, whatever its attempts, while every existing worker and flight stays as it is and no dispatch begins |
| FairRuns.EveryTaskEnds | crates/infrastructure/src/adapters/postgres_task_repository.rs:871-969 | in every run of rounds that are fair to a task, with any other steps in between, the task has ended after 5 * max_attempts + 2 * releases + 2 rounds |
| FairRuns.FairRoundMoves | crates/infrastructure/src/adapters/postgres_task_repository.rs:880-912 | a round that sweeps a running task past its lease, expires a suspended one past its timeout, or leaves a waiting one not due, changes its status |
| NoStuckTask.ClaimUntil | crates/infrastructure/src/adapters/postgres_task_repository.rs:653-665 | a worker that dies at once can claim any given eligible task, however many are ahead of it |
| NoStuckTask.SweepTask | crates/infrastructure/src/adapters/postgres_task_repository.rs:880-912 | a running task can be waited out and swept: to Failed if its attempts are used up, to Pending otherwise |
| NoStuckTask.ExpireTask | crates/infrastructure/src/adapters/postgres_task_repository.rs:1632-1690 | a suspended task can be waited out and expired, for every timeout |
| NoStuckTask.ClaimTaskEventually | crates/infrastructure/src/adapters/postgres_task_repository.rs:653-665 | a pending task, once its scheduled time has passed, is claimed by a worker that serves it |
| RetrySchedule.FailsOnSchedule | crates/infrastructure/src/adapters/postgres_task_repository.rs:807-835 | in every run a task acted on by claims and failures alone has one failure on record for each attempt but a running one, is Failed exactly after max_attempts failures, and no earlier than its first claim plus 0.75 of the sum of its delays |
| RetrySchedule.DelaySumUncapped | crates/infrastructure/src/adapters/postgres_task_repository.rs:822-828 | where the cap never bites, that sum is base * (2^n - 1) |
| RetrySchedule.AlwaysFailingEnds | crates/infrastructure/src/adapters/postgres_task_repository.rs:807-835 | whatever workers, leases, times and draws its rounds have, a task that always fails ends as Failed if and only if the last backoff stays in the range of float8; otherwise it stays Running |
| RetrySchedule.OverflowSticks | crates/infrastructure/src/adapters/postgres_task_repository.rs:822-828 | once the backoff overflows, no further round changes the row |
| OverflowRuns.FailureIsLostIff | crates/infrastructure/src/adapters/postgres_task_repository.rs:807-835 | a failing outcome call leaves a running row Running if and only if it would be retried and its backoff overflows; then it changes nothing |
| OverflowRuns.AlwaysFailingRun | crates/application/src/services/worker.rs:876-937 | for every backoff configuration and every task alone with its worker there is a run of claims, handlers that fail and outcome calls alone, one for each attempt, that ends as Failed if and only if the last backoff stays in range; otherwise its last call is enabled, meets the running row and leaves it as it is |
| OverflowRuns.FailsOrSticks | crates/application/src/services/worker.rs:876-937 | such a run from the empty database, for every maximum: the history has claims and failures alone, as many failures as the maximum if it ended as Failed, one less than attempts if its last failure was lost |
| OverflowRuns.OverflowIsReachable | crates/infrastructure/src/adapters/postgres_task_repository.rs:822-828 | a reachable state with base delay one second and attempt 1025 of 1026 running, in which the outcome call of its failed handler is enabled and changes nothing |
| Idempotency.OneLiveRowForEachKey | crates/infrastructure/src/adapters/postgres_task_repository.rs:483-568 | in every reachable state at most one non-terminal row holds a (queue, key) pair |
| Idempotency.OneWinner | crates/application/src/services/scheduler.rs:259-315 | in any interleaving of submits of a free key with steps that do not retire its row, the first submit creates the row and every other one is told its id or gets a mapping error; if the row still maps at the end, none failed |
| Idempotency.SubmitWhenHeld | crates/infrastructure/src/adapters/postgres_task_repository.rs:530-568 | a submit of a held key changes nothing, and returns the holder if and only if its attempts are within the maximum |
| Idempotency.SubmitWhenFree | crates/infrastructure/src/adapters/postgres_task_repository.rs:483-528 | a submit of a free key under a fresh id inserts one row and returns it |
| Idempotency.OnlySubmitTakesKey | crates/infrastructure/src/adapters/postgres_task_repository.rs:570-592 | no other step ever makes a free key held |
| Idempotency.AllFindTheHolder | crates/infrastructure/src/adapters/postgres_task_repository.rs:530-568 | along every run that does not retire the holder, every submit of its key is told its id or, while its attempts exceed the maximum, gets a mapping error |
| Shutdown.ReleaseFreesRows | crates/api/src/lib.rs:878-897 | at the release every dispatch of the worker is over; each row it held becomes eligible at once for one attempt more, and no other row changes |
| Shutdown.ReleasedForever | crates/api/src/lib.rs:878-924 | in every run after the release no row is Running under the worker and none of its steps, detached handlers included, changes the database |
| Shutdown.ReleasedStepsDoNothing | crates/infrastructure/src/adapters/postgres_task_repository.rs:270-292 | what is left of a released worker can only try to write checkpoints, and every such write fails |
| Shutdown.StepKeepsGrounded | crates/api/src/lib.rs:886-895 | past the drain a worker never again has a dispatch in flight |
| StaleClaims.BeginsAfterCancel | crates/application/src/services/worker.rs:186-271 | a run in which a dispatch begins on a cancelled task |
| StaleClaims.BeginsOutOfOrder | crates/application/src/services/worker.rs:263-271 | a run in which attempt 1 begins after attempt 2 |
| StaleClaims.BeginsWithOldData | crates/infrastructure/src/adapters/postgres_task_repository.rs:270-288 | a run in which a dispatch begins under its current claim without the latest checkpoint |
| StaleClaims.CompletesForAnother | crates/infrastructure/src/adapters/postgres_task_repository.rs:742-748 | a run in which a stale dispatch completes the claim of another worker |
| StaleClaims.NeverExecuted | README.md:3 | a run in which a task fails without having been executed |
| StaleClaims.NoHandler | crates/application/src/services/worker.rs:458-500 | a run in which a task is dispatched, finds no handler and fails without having been executed |
| StaleClaims.ClaimsUnknowingly | crates/infrastructure/src/adapters/postgres_task_repository.rs:724-728 | a run in which a claim commits, fails to map, and no worker knows that it runs the task |
| StaleClaims.KeyedSubmitFails | crates/infrastructure/src/adapters/postgres_task_repository.rs:530-568 | a run in which a submit of a held key is answered with a mapping error |
| StaleClaims.SignalledInVain | crates/infrastructure/src/adapters/postgres_task_repository.rs:1575-1583 | a run in which a task suspended on its last attempt is signalled: it is eligible, and no run from there dispatches it |
| TaskRepository.PostgresTaskRepository.Save | crates/infrastructure/src/adapters/postgres_task_repository.rs:372-456 | the in-place insert and its answer are those of `Store.Save`: new row with its audit row, or the violated constraint; ids and live keys stay unique |
| TaskRepository.PostgresTaskRepository.SaveIdempotent | crates/infrastructure/src/adapters/postgres_task_repository.rs:458-568 | inserts, or leaves the tables alone and returns the live holder of the key |
| TaskRepository.PostgresTaskRepository.SelectNext | crates/infrastructure/src/adapters/postgres_task_repository.rs:658-670 | finds an eligible unlocked row that no other one precedes by priority and schedule, or none if there is none |
| TaskRepository.PostgresTaskRepository.ClaimNext | crates/infrastructure/src/adapters/postgres_task_repository.rs:634-729 | claims such a row with its audit row, and answers with it unless it does not map |
| TaskRepository.PostgresTaskRepository.ClaimRow | crates/infrastructure/src/adapters/postgres_task_repository.rs:653-728 | the commit stands also when the mapping fails |
| TaskRepository.PostgresTaskRepository.Complete | crates/infrastructure/src/adapters/postgres_task_repository.rs:731-777 | completes a running row, drops its checkpoint and records it; any other id changes nothing and is an error |
| TaskRepository.PostgresTaskRepository.Fail | crates/infrastructure/src/adapters/postgres_task_repository.rs:779-869 | retries or gives up as the attempts say; wrong state and float8 overflow change nothing and are told apart |
| TaskRepository.PostgresTaskRepository.SuspendRunning | crates/infrastructure/src/adapters/postgres_task_repository.rs:1494-1540 | suspends a running row and frees its claim, or errs without effect |
| TaskRepository.PostgresTaskRepository.SignalSuspended | crates/infrastructure/src/adapters/postgres_task_repository.rs:1542-1630 | resumes a suspended row with the payload; a missing task and a wrong status are told apart |
| TaskRepository.PostgresTaskRepository.CancelTask | crates/infrastructure/src/adapters/postgres_task_repository.rs:1135-1270 | cancels pending and suspended rows only, and reports a missing task or the status that prevents it |
| TaskRepository.PostgresTaskRepository.WriteCheckpoint | crates/infrastructure/src/adapters/postgres_task_repository.rs:253-292 | writes only for the worker that holds the running row; no audit row |
| TaskRepository.PostgresTaskRepository.ReleaseLeaseForTask | crates/infrastructure/src/adapters/postgres_task_repository.rs:1441-1492 | requeues a running row for one attempt more, whoever holds it |
| TaskRepository.PostgresTaskRepository.ReleaseLeasesForWorker | crates/infrastructure/src/adapters/postgres_task_repository.rs:1389-1439 | requeues every row the worker runs, no other, and returns their ids in order |
| TaskRepository.PostgresTaskRepository.CleanupExpiredIdempotencyKeys | crates/infrastructure/src/adapters/postgres_task_repository.rs:570-592 | clears the expired keys of terminal rows and returns how many |
| TaskRepository.PostgresTaskRepository.ExpireSuspendedTasks | crates/infrastructure/src/adapters/postgres_task_repository.rs:1632-1690 | fails every overdue suspension, records and returns each |
| TaskRepository.PostgresTaskRepository.RecoverZombieTasks | crates/infrastructure/src/adapters/postgres_task_repository.rs:871-969 | its two updates, run one after the other, amount to one decision for each expired row; audit rows and report list the retried before the exhausted ones |
| Updates.RecoverZombiesRows | crates/infrastructure/src/adapters/postgres_task_repository.rs:880-912 | the second update selects the same rows after the first as before it |
| Updates.RecoverZombiesRecords | crates/infrastructure/src/adapters/postgres_task_repository.rs:914-940 | the entries of the sweep are those of the retried rows, then those of the exhausted rows |
| Updates.ReleaseWorkerWrites | crates/infrastructure/src/adapters/postgres_task_repository.rs:1389-1439 | the release rewrites and records exactly the rows the worker runs |
| Updates.ExpireSuspendedWrites | crates/infrastructure/src/adapters/postgres_task_repository.rs:1632-1690 | the expiry rewrites and records exactly the overdue rows |
| Updates.CleanupKeysWrites | crates/infrastructure/src/adapters/postgres_task_repository.rs:570-592 | the cleanup rewrites exactly the rows with expired keys and records nothing |
| Updates.RecordsAreCollected | crates/infrastructure/src/adapters/postgres_task_repository.rs:914-940 | the audit rows of a pass are those of the returned rows, in order |
| Updates.CommitOne | crates/infrastructure/src/adapters/postgres_task_repository.rs:319-368 | a statement that names a task rewrites its row alone and appends its audit row alone |
| Updates.PositionsAreSelected | crates/infrastructure/src/adapters/postgres_task_repository.rs:880-912 | an update returns each selected row once and no other, in table order |
| Store.CommitConsistent | migrations/0004_add_idempotency_columns.sql:8-14 | no transaction breaks the uniqueness of ids or of live keys |
| Store.KeysNeverAppear | migrations/0004_add_idempotency_columns.sql:8-14 | a row that holds a key after a statement held it before |
| Store.ConflictFindsRow | crates/infrastructure/src/adapters/postgres_task_repository.rs:530-568 | a key conflict always finds the holder, so the answer for a vanished row does not occur |
| Store.FiresAllowed | crates/infrastructure/src/adapters/postgres_task_repository.rs:634-1690 | each statement makes of a row only an event that the row's state allows |
| Sweeper.SweepIsExact | crates/infrastructure/src/adapters/postgres_task_repository.rs:871-969 | one sweep leaves no expired lease, changes exactly the rows whose lease had expired, and reports each once with the right outcome |
| Sweeper.ReportedOnce | crates/infrastructure/src/adapters/postgres_task_repository.rs:880-912 | the report is about each expired row once and about no other row |
| Sweeper.BumpAddsOne | crates/application/src/services/sweeper.rs:160-165 | incrementing an entry adds one to the total of a map, present or not |
| Sweeper.EmitPerQueueMetrics | crates/application/src/services/sweeper.rs:144-183 | each count is the multiplicity of its key in the report, absent keys have none, and the counts add up to the report and to its failed entries |
| Sweeper.Run | crates/application/src/services/sweeper.rs:204-300 | each tick makes its three calls in order, each at its own time, and a failing call skips none of the others; a cycle that ends with a full tick leaves no lease expired and no suspension overdue as of its calls |
| Sweeper.FullTickSettles | crates/application/src/services/sweeper.rs:215-295 | after a full tick no lease has expired, no suspension is overdue, and no task that was terminal before it holds an expired key, each as of its call |
| Sweeper.CycleCatchesUp | crates/application/src/services/sweeper.rs:204-300 | whatever calls failed in earlier ticks, the last full tick catches up with everything that was due by then |
| PollLoop.PermitsConserved | crates/application/src/services/worker.rs:121-349 | for every sequence of answers, dispatch ends, panics and cancellations the free permits and the running dispatches add up to `concurrency` |
| PollLoop.BackoffAfterErrors | crates/application/src/services/worker.rs:273-341 | after the k-th error in a row the delay lies between the doubled poll interval and the maximum, for every draw; a task or an empty answer starts over |
| PollLoop.CounterCountsErrors | crates/application/src/services/worker.rs:176-298 | the counter of the loop is the number of errors in a row, saturated at 32 bits |
| PollLoop.WorkerService.RunPollLoop | crates/application/src/services/worker.rs:111-349 | the loop refuses zero concurrency, follows the turns until it is cancelled, and ends holding no permit |
| PollLoop.WorkerService.RunTurn | crates/application/src/services/worker.rs:140-345 | one iteration, over every exit path, is the specified turn |
| PollLoop.WorkerService.PrepareTurn | crates/application/src/services/worker.rs:138-161 | what a turn does before its claim, over every exit path |
| PollLoop.WorkerService.HandleAnswer | crates/application/src/services/worker.rs:174-342 | each answer moves the permit, the error count and the deadline as specified |
| PollLoop.WorkerService.WaitForBackoff | crates/application/src/services/worker.rs:138-150 | a pending deadline is consumed by its end, by a joined dispatch or by cancellation |
| PollLoop.WorkerService.ReapFinished | crates/application/src/services/worker.rs:157-157 | the reap keeps exactly the handles that still run |
| PollLoop.EndAllConserves | crates/application/src/services/worker.rs:263-268 | however dispatches end, each gives its permit back once |
| PollLoop.WorkerService.DrainJoinSet | crates/application/src/services/worker.rs:411-418 | after the drain no handle is left and every permit is free |
| ClaimBackoff.DelayBounds | crates/application/src/services/worker.rs:276-296 | the saturating arithmetic keeps every delay within its bounds |
| ClaimBackoff.LeastDelayGrows | crates/application/src/services/worker.rs:280-286 | the lower bound never decreases with the number of errors |
| ClaimBackoff.SaturatedCountKeepsBound | crates/application/src/services/worker.rs:298-298 | a saturated counter does not weaken the bound |
| Engine.IronDefer.Start | crates/api/src/lib.rs:790-943 | a second start is refused; otherwise every dispatch is joined and every permit free at the end, and the leases are released exactly on the timeout path |
| Engine.IronDefer.AbortAll | crates/api/src/lib.rs:886-895 | after the abort no dispatch runs, and every permit is back |
| JsonScrub.ScrubReplacesJson | crates/infrastructure/src/error.rs:139-182 | for every JSON object or array as RFC 8259 prints it, with any nesting, escapes and whitespace, a prefix without brackets and any suffix, the value becomes the marker, the prefix stays and the suffix is scanned afresh |
| JsonScrub.ScrubIsIdempotent | crates/infrastructure/src/error.rs:139-182 | scrubbing twice is scrubbing once, on every text |
| JsonScrub.ScrubLeavesNoOpener | crates/infrastructure/src/error.rs:139-182 | no opening bracket is left, whatever the text |
| JsonScrub.ScrubDatabaseMessage | crates/infrastructure/src/error.rs:139-182 | the scanner with its nested loop computes the specified scrub |
| JsonScrub.EatBlock | crates/infrastructure/src/error.rs:145-174 | the nested loop stops exactly where the recursive skip of the block ends |
| JsonScrub.SkipString | crates/infrastructure/src/error.rs:151-162 | a printed JSON string is passed over whole, whatever it holds |
| JsonScrub.SkipBody | crates/infrastructure/src/error.rs:151-174 | the inside of an object or array is passed over whole, at any depth |
| UrlScrub.ScrubMessageIdempotent | crates/infrastructure/src/error.rs:106-129 | scrubbing twice is scrubbing once, on every message |
| UrlScrub.OutsideIsKept | crates/infrastructure/src/error.rs:106-137 | all text outside URL segments stays, in order; a text without a Postgres scheme is kept as it is |
| UrlScrub.PasswordIsHidden | crates/infrastructure/src/error.rs:106-129 | the result does not depend on the password, which may hold '@', '/', '?', '#' and ':' but no whitespace |
| UrlScrub.ScrubMessageLoop | crates/infrastructure/src/error.rs:106-129 | the loop over the unread rest computes the specified scrub |
| UrlScrub.FindScheme | crates/infrastructure/src/error.rs:131-137 | finds the earliest start of either scheme, and none if there is none |
| UrlScrub.ScrubCut | crates/infrastructure/src/error.rs:106-129 | a message is scrubbed part by part at its first URL |
| UrlScrub.ScrubbedCut | crates/infrastructure/src/error.rs:106-129 | a scrubbed message is cut at the same place again, so no new URL appears |
| UrlScrub.ScrubUrlMasks | crates/infrastructure/src/observability/tracing.rs:158-199 | in a URL with user, non-empty password and host, exactly the password is replaced |
| UrlScrub.ScrubUrlForm | crates/infrastructure/src/observability/tracing.rs:158-199 | any text that changes at all has that form |
| UrlScrub.ScrubUrlIdempotent | crates/infrastructure/src/observability/tracing.rs:158-199 | masking twice is masking once, on every string |
| ParenScrub.KeptIffGuarded | crates/infrastructure/src/error.rs:213-229 | a text stays as it is if and only if nothing but the marker follows each opening parenthesis |
| ParenScrub.ScrubIsGuarded | crates/infrastructure/src/error.rs:213-229 | no value is left in parentheses, whatever the text |
| ParenScrub.ScrubIsIdempotent | crates/infrastructure/src/error.rs:213-229 | scrubbing twice is scrubbing once |
| ParenScrub.ValuesAreHidden | crates/infrastructure/src/error.rs:213-229 | the result does not depend on what stood in the parentheses |
| ParenScrub.ScrubParenthesized | crates/infrastructure/src/error.rs:213-229 | the loop with its early return computes the specified scrub |

## Left out

- Postgres internals: every repository operation is one atomic transaction. SKIP LOCKED is a set of positions that a claim may not pick, and RETURNING lists rows in table order.
- A claim future dropped while it commits: the label `PollDropped` takes it as fully done, `Stop` as not done. A claim that commits and whose answer is lost is `PollLost`.
- Clocks: the database and its clients read one clock. Audit order is append order, not timestamp order.
- Sweeper.CycleCatchesUp: the sweeper acts alone on the table; what others do between its calls is the subject of `World`, `NoStuckTask` and `FairRuns`.
- FairRuns.EveryTaskEnds: what makes a run fair is a condition on the run; that timers fire and workers keep polling is not derived.
- A handler that an aborted dispatch had not spawned yet counts as one that may still run detached, so `World` allows more behaviour here than the code does.
- Idempotency.OneWinner: assumes that every submitted id is new, as random UUIDs are, and that no step of the run retires the row.
- RetrySchedule.FailsOnSchedule: speaks of a task whose failures all ran under one backoff configuration; delays are real numbers, so float8 rounding is not modelled, only its overflow.
- NoStuckTask.NoTaskIsStuck: assumes that some worker may be started for the task's queue and region. It shows that an end can be reached, not that every schedule reaches it.
- PollLoop.PermitsConserved: permits are a property of one process; `World` has no permits and so allows more behaviour than the code does.
- PollLoop.BackoffAfterErrors: the deadline is the delay itself; a deadline beyond the range of `Instant` is not modelled.
- TaskRepository.PostgresTaskRepository.ExpireSuspendedTasks: answers with ids only, without the queue names and trace ids that are there for logging.
- TaskRepository.PostgresTaskRepository.ReleaseLeaseForTask: answers without the trace id.
- TaskRepository.PostgresTaskRepository.ReleaseLeasesForWorker: answers without the trace ids.
- TaskRepository.PostgresTaskRepository.Fail: keeps the whole error message, without the truncation of `last_error`.
- TaskRepository.PostgresTaskRepository.SignalSuspended: without the size check on the payload.
- TaskRepository.PostgresTaskRepository.RecoverZombieTasks: without the rollback of a sweep that returns a queue or kind that does not map, which no row inserted by the scheduler has.
- Guarantees.RowsAreShaped: without the length checks on key and region.
- Engine.IronDefer.Start: the repository is the table as the release finds it; what the poll loop, the dispatches and the sweeper do to it before is the subject of `World`.
- Dispatches.BeginsStaleIff: speaks of a claim that is still current; a dispatch whose claim was superseded is the subject of Dispatches.BeginsLateIff.
- 32-bit overflow of `attempts`, the range of timestamps, and durations that do not fit an SQL interval.
- Byte truncation of `last_error`, size caps on audit metadata, payloads, checkpoints and signals: payloads are opaque, error messages unbounded.
- Validators of queue names, kinds, regions and idempotency keys beyond those of the scheduler's record builder; caller-supplied trace ids.
- Caller-owned transactions (`save_in_tx`, `save_idempotent_in_tx`): the same inserts, with commit control outside the code.
- Reads: `find_by_id`, `list_tasks`, `queue_statistics`, `worker_status`, `audit_log`.
- The HTTP router, CLI, configuration, migrations, table persistence, logs, spans and metric instruments, and the `active_tasks` gauge.
- `scrub_detail`: three cases around `ParenScrub`, on the lower-cased text, whose byte offsets depend on Unicode case mapping.
