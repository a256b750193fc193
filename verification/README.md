# Durable execution, verified

A Dafny model of the durable-execution engine in `crates/dbos-core`: the system
database as a set of tables changed one transaction at a time, and the protocols
that run on it. Every file is checked together with
`dafny verify dfyconfig.toml` (Dafny 4.11).

## How it is laid out

| file | what it holds |
|---|---|
| `Tables.dfy` | the tables as maps, one function per SQL statement or transaction |
| `SystemDb.dfy` | the SQLite backend as a class; each method is proved equal to its function, the dequeue transaction to its specification |
| `Queues.dfy` | the specification of a dequeue poll, and what one poll keeps |
| `TableRuns.dfy` | invariants of the workflow table over every run of every statement |
| `Executor.dfy`, `ExecutorRuns.dfy` | the run core, the queue runner and the recovery pass; launch bound and worker limit over every run |
| `Lifecycle.dfy` | a row from the request that makes it to the launch of its body, through delays, polls, cancellations, resumes, recoveries and forks |
| `StepLog.dfy`, `StepCalls.dfy` | the calls of a workflow context on the step log; what each returns is what the body goes on with in the protocol |
| `Replay.dfy`, `ReplayInv.dfy`, `Durable.dfy` | executions of one workflow id as a protocol over atomic database calls; its invariant; the guarantees of durable execution |
| `Simulation.dfy`, `Answers.dfy` | each step of that protocol as one call on the tables; where answers outside the log come from |
| `LogShape.dfy`, `Reruns.dfy`, `Resuming.dfy`, `Refusals.dfy` | the shape of the log; when a step runs again; when a resume is safe; what answers outside the log do |
| `Progress.dfy` | when an execution, or a debounced call, can go on |
| `Events.dfy`, `Fork.dfy` | events and their history, forks |
| `Notifications.dfy`, `Receiving.dfy` | messages in the mailbox, and the receives of the protocol that consume them |
| `Debouncer.dfy`, `DebounceTiming.dfy` | the debouncer's loop, as a loop and as a body of the protocol; how long it waits |
| `DebounceSteps.dfy`, `DebounceMail.dfy`, `DebounceCancel.dfy` | its internal workflow, cancelled and resumed at any time: what every step keeps, what it receives, and exactly when a swallowed cancellation loses an input |
| `DebounceCalls.dfy`, `DebounceLoss.dfy` | the callers that share it, and the caller that such a loss hits |
| `Scheduler.dfy` | the reconciler's object, the firing loop and backfill |
| `Manage.dfy` | deletion with descendants |

A workflow body is a function from the results seen so far to the next action. An
execution is a program counter over the atomic calls check, run and insert. Any
number of executions of one id are interleaved; each may crash between any two
calls and be launched again. "Solo" runs launch a workflow only when no execution
of it is active. The results seen distinguish a value from a failure and nothing
else, because that is exactly what survives a replay (`StepLog.ReplayIsExactIff`).

Some answers a body gets are in no log: the refusal of a child's spawn or of a row's
enqueuing, and the result of a child. The rows of `ReplayInv` and `Durable` below speak
of runs in which such an answer is the same at every attempt; `Refusals.dfy` lets them
happen with any answer at any time, and says exactly when that and the guarantees hold.

## What was found

Each of these has a lemma with a failing run or input, and one with the exact
condition.

- The repository's introduction and the documentation of `recv` say
  "exactly-once". A step's closure can run again after a crash if and only if its
  result is not in the log yet (`Reruns.RunsAgainIffUnrecorded`). A message is
  received at most once; it is lost exactly when an execution stops between
  consuming and recording it (`Notifications.MessageIsLostIff`,
  `Notifications.CrashLosesMessage`).
- A refused spawn records nothing. The log accounts for every result seen if and
  only if no spawn or enqueuing is refused and no child is awaited
  (`Refusals.LogAccountsIff`); executions agree if and only if each such answer is
  the same whenever it is asked for again (`Refusals.ResultsAgreeIff`). Without
  that an outcome can be none the log evaluates to, executions can end differently,
  and a deterministic body can be reported as non-deterministic
  (`Refusals.RefusalBreaksAgreement`, `Refusals.RefusalBreaksLookup`). Which spawns
  are refused is decided by `Executor.SpawnIsRecordedIff`.
- A spawn that fails because the child is dead-lettered is recorded all the same, and
  every replay takes it for a success (`Refusals.ParkedSpawnReplaysAsSuccess`,
  `Executor.ParkedSpawnIsRecorded`). It happens exactly if the child's row is known, out
  of attempts and otherwise in order (`Executor.SpawnIsRecordedIff`).
- The result of a child that is finished stays the same for every execution that awaits
  it, and so does the failure of one that is cancelled or dead-lettered, until that one is
  resumed (`Answers.AwaitedAnswerStays`, `Answers.ResumeChangesAnswer`).
- The engine resumes a cancelled workflow at any time. That is safe if and only if no
  execution has seen the cancellation without having ended; otherwise its late error
  overwrites the result (`Resuming.ResumeIsSafeIff`, `Resuming.EarlyResumeLosesResult`).
- A second request for the id of a running workflow that names no queue is answered with
  that workflow, and leaves the requesting process as its executor although it runs
  nothing: the recovery of the process that does run it no longer lists it. A request that
  names a queue does no harm (`Lifecycle.TakenOverUnlessQueued`).
- A fork waits for the version of its original. A row without one is claimed by any
  executor, but its fork only by executors whose version is empty
  (`Lifecycle.ForkWaitsIff`).
- A replayed error always differs from the original: its text is wrapped once
  more, and its code survives only if it was the one for workflow execution
  (`StepLog.ReplayIsExactIff`).
- The rate limit holds for half-open windows of one period; a closed window can
  hold more (`TableRuns.ClosedWindowMayExceed`).
- A recovery pass stops at the first row that is dead-lettered: all listed rows are
  reached if and only if none is about to be (`Executor.RecoveryIsCompleteIff`,
  `Executor.ExhaustedRowBlocksRecovery`).
- The firing loop of a schedule skips a tick if and only if the tick's time comes before
  the loop is round again with the tick before it, and once a later tick has been fired no
  automatic backfill makes up for it (`Scheduler.FiresAllIff`,
  `Scheduler.PassedTickIsNotMadeUp`, `Scheduler.SlowRoundSkipsTick`).
- An automatic backfill starts one second after the last firing and excludes that
  instant, so a tick exactly there is never made up
  (`Scheduler.AutomaticBackfillCoversIff`, `Scheduler.EverySecondLosesTick`).
- Publishing an event keeps "current value = latest of the history" if and only if
  the history holds nothing later for the key with another value, which concurrent
  executions can break and solo runs cannot (`Events.PublishKeepsAgreementIff`,
  `Events.ConcurrencyBreaksAgreement`).
- Deleting a workflow without its children leaves orphans. If its id is given to a
  descendant of theirs, the parent relation has a cycle and the breadth-first
  deletion below it never ends (`Manage.InsertKeepsAcyclicIff`,
  `Manage.DeletionCanCloseCycle`, `Manage.CycleNeverEnds`).
- The debouncer's body takes an error of its receive for a timeout, a cancellation
  included, and enqueues its target. In every reachable cancelled state that loses no input
  if and only if the target is enqueued already or the log has a timeout for that receive
  (`DebounceCancel.SwallowIsSafeIff`). Otherwise, once resumed, it acknowledges an input
  that its target never gets: any caller that has found it can be handed the target's id
  and have its input lost (`DebounceLoss.SwallowingLosesCall`, `DebounceLoss.LossIsReached`).
  Cancellations met anywhere else do no harm, whatever the crashes and resumes
  (`DebounceCancel.CarefulRunsAreComplete`, `DebounceCalls.CallersShareTheRun`).
- A debounced call that saw its acknowledgement returns an id that nothing ever runs
  under if and only if the internal row is deleted before the call reads it back
  (`DebounceCalls.StrandedIff`).

## Assumptions

- One call of a database method is one atomic step, and its result is definite.
- Bodies are deterministic and pass on conflict and cancellation errors. Rows are not
  deleted while executions of them run.
- A cancelled workflow is resumed only when no execution has seen the cancellation without
  having ended; `Resuming.ResumeIsSafeIff` says that the guarantees need exactly this.
- Limits of a queue are the same wherever it is registered. The worker limit is
  stated for one queue runner per process, while rows are not deleted, for queues
  other than the internal one, into which a resume moves rows; the check of the active
  map and the insert into it are one step.
- Owner tokens, ids and message ids are fresh when drawn. The empty string is not a
  registered workflow name or a queue with a worker limit.
- One debouncer uses a key. Its internal workflow has one live execution at a time. The
  statements about its callers are for runs without the harmful receives above.
- The clock of a scheduler does not run backwards, and a sleep does not end early.
- How early a target may be enqueued is stated for one clock that does not run backwards,
  from which readings, deadlines and timeouts are all taken.
- Ticks are whole seconds, and their RFC 3339 form has a fixed width and tells them
  apart.

## Model

| member | source | states |
|---|---|---|
| SystemDb.SqliteDb.InsertWorkflowStatus | crates/dbos-core/src/db/sqlite.rs:189-380 | The whole insert transaction: upsert on the id before any slot clash, mismatch and conflict errors roll back, dead-lettering commits and then fails |
| SystemDb.SqliteDb.UpdateWorkflowOutcome | crates/dbos-core/src/db/sqlite.rs:382-409 | An outcome is written unless it would go over CANCELLED, and frees the slot |
| SystemDb.SqliteDb.ClearQueueAssignment | crates/dbos-core/src/db/sqlite.rs:676-688 | Exactly a queued PENDING row goes back to ENQUEUED, and the result says whether it did |
| SystemDb.SqliteDb.SelectCandidates | crates/dbos-core/src/db/sqlite.rs:737-749 | The candidates are the first eligible rows by priority and creation time, as many as asked for or as there are |
| SystemDb.SqliteDb.DequeueWorkflows | crates/dbos-core/src/db/sqlite.rs:690-797 | Dequeue refines its specification: exactly the first k eligible rows are claimed, k being the least of task cap, global slots, rate budget and eligible rows; nothing else changes |
| SystemDb.SqliteDb.ClaimRows | crates/dbos-core/src/db/sqlite.rs:751-797 | The claim loop takes a prefix that the rate budget allows, stamping each row with its own clock reading |
| SystemDb.SqliteDb.TransitionDelayedWorkflows | crates/dbos-core/src/db/sqlite.rs:814-826 | Every delayed row whose time has come is promoted, no other row changes |
| SystemDb.SqliteDb.CancelWorkflow | crates/dbos-core/src/db/sqlite.rs:828-853 | Cancels an unfinished row, frees its slot and queue, and reports whether the row exists |
| SystemDb.SqliteDb.ResumeWorkflow | crates/dbos-core/src/db/sqlite.rs:855-872 | Puts an unfinished row on the internal queue with no attempts counted |
| SystemDb.SqliteDb.DeleteWorkflow | crates/dbos-core/src/db/sqlite.rs:874-881 | Removes the row with everything keyed by it |
| SystemDb.SqliteDb.GetWorkflowChildren | crates/dbos-core/src/db/sqlite.rs:883-889 | Lists each child once and nothing else |
| SystemDb.SqliteDb.ListPending | crates/dbos-core/src/db/sqlite.rs:530-605 | Lists exactly the PENDING rows of the executors and the version, oldest first, where naming none means any |
| SystemDb.SqliteDb.ForkWorkflow | crates/dbos-core/src/db/sqlite.rs:916-995 | The fork transaction with its three error cases |
| SystemDb.SqliteDb.RecordOperationResult | crates/dbos-core/src/db/sqlite.rs:411-456 | Inserts under the primary key: a taken step id is a conflict and changes nothing |
| SystemDb.SqliteDb.CheckOperationExecution | crates/dbos-core/src/db/sqlite.rs:474-528 | The lookup: missing row, cancellation, absent step, step of another name, recorded step |
| SystemDb.SqliteDb.SendNotification | crates/dbos-core/src/db/sqlite.rs:1062-1088 | Appends an unread message, or fails for a missing destination and changes nothing |
| SystemDb.SqliteDb.HasUnconsumedNotification | crates/dbos-core/src/db/sqlite.rs:1090-1104 | Says whether the mailbox has an unread message of the topic |
| SystemDb.SqliteDb.ConsumeOldestNotification | crates/dbos-core/src/db/sqlite.rs:1106-1138 | Marks an oldest unread message of the topic as consumed, or finds that there is none |
| SystemDb.SqliteDb.SetEvent | crates/dbos-core/src/db/sqlite.rs:1140-1178 | Writes the current value and the history entry of the step together |
| Queues.DequeueKeepsGlobalCap | crates/dbos-core/src/db/sqlite.rs:716-735 | One poll takes the PENDING rows of its queue no further than the global limit and adds none elsewhere |
| Queues.DequeueKeepsWindow | crates/dbos-core/src/db/sqlite.rs:696-714 | One poll keeps every window of one period within the rate limit, although it counts once and stamps later |
| Queues.LaterPollClaimsNoLess | crates/dbos-core/src/db/sqlite.rs:696-735 | The claim count is monotone in the time of the poll |
| Queues.PollIsMaximal | crates/dbos-core/src/db/sqlite.rs:690-797 | A poll that claims fewer rows than wait has met one of its limits: worker, per-poll, global or rate; and it exceeds none |
| Queues.StartedGrow | crates/dbos-core/src/db/sqlite.rs:696-714 | For every start of window before a poll: its claims, and no others, join the starts counted there, exactly if the queue has a limiter |
| Queues.ClaimedRow | crates/dbos-core/src/db/sqlite.rs:737-797 | Only waiting rows of the queue and version are claimed; each is then PENDING with this executor, version and start, and its deadline counts from there |
| Queues.UrgentRowsFirst | crates/dbos-core/src/db/sqlite.rs:737-749 | No row that was left is more urgent than one that was claimed, by priority number and then by age |
| Queues.ClaimedInOrder | crates/dbos-core/src/db/sqlite.rs:737-749 | The claimed rows come out by priority number and then by age |
| TableRuns.RunKeepsInv | crates/dbos-core/src/db/sqlite.rs:189-995 | Over every run of inserts, outcomes, clears, polls, promotions, cancels, resumes, deletes and forks: unique dedup slots, none held by a finished, cancelled or dead-lettered row, global limits, rate windows |
| TableRuns.EmptyTableMeetsInv | crates/dbos-core/migrations/0001_initial_schema.sql:62-63 | The invariants hold of the empty table, so of every reachable one |
| TableRuns.StepKeepsFinal | crates/dbos-core/src/db/sqlite.rs:382-409 | Statement by statement, a row keeps owner, parent, name and input, finished stays finished, only a resume leaves CANCELLED |
| TableRuns.RunKeepsFinal | crates/dbos-core/src/db/sqlite.rs:828-872 | Over every run, SUCCESS or ERROR never becomes unfinished, and CANCELLED is left only by a resume |
| TableRuns.InsertTouchesOneRow | crates/dbos-core/src/db/sqlite.rs:217-236 | The insert transaction changes at most the row of its own id |
| TableRuns.ClosedWindowMayExceed | crates/dbos-core/src/db/sqlite.rs:696-714 | A run of two polls, one period apart, after which a closed window of one period holds one start more than the limit |
| Executor.DbosContext.RunWorkflowErased | crates/dbos-core/src/workflow/run.rs:93-263 | The run core: rejected options, the insert, and the decision between launching here and handing back a polling handle |
| Executor.DbosContext.DequeueAndDispatch | crates/dbos-core/src/queue/runner.rs:47-99 | One poll claims and dispatches exactly the claimed rows; every one of them that can run does so here for the queue, and no more run here than the worker limit or than there were |
| Executor.DbosContext.Dispatch | crates/dbos-core/src/queue/runner.rs:76-98 | The dispatch loop starts each claimed row in turn and goes on after an error |
| Executor.DbosContext.RecoverPendingWorkflows | crates/dbos-core/src/recovery.rs:21-97 | The recovery pass: lists the pending rows of the executors and this version; queued rows go back to their queue, registered direct rows run again, the first error ends the pass |
| Executor.RecoveryIsCompleteIff | crates/dbos-core/src/recovery.rs:44-97 | The pass succeeds if and only if no listed row is about to be dead-lettered, and touches no row that was not listed |
| Executor.RecoveryRestarts | crates/dbos-core/src/recovery.rs:44-97 | A pass that succeeds puts every listed queued row back on its queue, runs every other registered one here, and hands out a handle for each |
| Executor.ExhaustedRowBlocksRecovery | crates/dbos-core/src/recovery.rs:76-88 | A concrete table: a row out of attempts that is older than a healthy one is listed first and leaves the healthy one unrecovered |
| Executor.FailureEndsRecovery | crates/dbos-core/src/recovery.rs:76-88 | Rows behind the first failure are not looked at |
| Executor.DispatchAddsAtMost | crates/dbos-core/src/queue/runner.rs:76-98 | Dispatching n rows adds at most n active entries to any queue, only for those rows |
| Executor.DispatchStarts | crates/dbos-core/src/queue/runner.rs:76-98 | Every dispatched row that is registered, unfinished and has attempts left runs here afterwards, for its own queue |
| Executor.RerunLaunchesIff | crates/dbos-core/src/workflow/run.rs:216-263 | A dispatched or recovered row is launched if and only if its workflow is registered, it is not finished, has attempts left and does not run here; its body gets the row's input and deadline, and the attempt is counted |
| Executor.SpawnIsRecordedIff | crates/dbos-core/src/workflow/run.rs:388-426 | A spawn succeeds, and fails on a dead-lettered child, each exactly under a condition on the tables before it; the parent's log gains the child in these two cases, and in any other nothing at all changes |
| Executor.ParkedSpawnIsRecorded | crates/dbos-core/src/db/sqlite.rs:325-374 | A concrete table: the child is dead-lettered and its parent runs; the spawn fails and the parent's log has the child |
| ExecutorRuns.LaunchBoundHolds | crates/dbos-core/src/db/sqlite.rs:352-374 | Whatever mix of direct runs, dispatches and recoveries on whatever processes, a body is launched at most maximum + 1 times per creation or resume |
| ExecutorRuns.PlainRunLaunchesOnlyNewRow | crates/dbos-core/src/workflow/run.rs:216-237 | Of the plain runs of one id only the one that creates the row launches, and the row keeps its token |
| ExecutorRuns.WorkerCapHolds | crates/dbos-core/src/queue/runner.rs:47-99 | In every reachable state of a process whose runner polls any queues, limited or not, no more runs claimed from a queue with a worker limit are active than it allows |
| Lifecycle.PlainLaunchesIff | crates/dbos-core/src/workflow/run.rs:120-263 | A request for a new id that names no queue launches if and only if its workflow is registered, it asks for nothing that needs a queue, and the id does not run here; body and row have its input and its deadline |
| Lifecycle.EnqueuesIff | crates/dbos-core/src/workflow/run.rs:125-233 | A request for a new id that names a queue leaves a row if and only if its workflow is registered, its options go together and its slot is free; the row waits there, or is due now plus the delay |
| Lifecycle.KnownRequest | crates/dbos-core/src/db/sqlite.rs:217-374 | A request for a known id launches nothing; it fails exactly for another workflow or queue, parks a row out of attempts, and otherwise is answered with the known one |
| Lifecycle.TakenOverUnlessQueued | crates/dbos-core/src/db/sqlite.rs:231-236 | After such a request the recovery of the process that runs the workflow lists it if and only if the request named a queue |
| Lifecycle.TickPromotesIff | crates/dbos-core/src/db/sqlite.rs:814-826 | A tick makes a delayed row wait if and only if its time has come |
| Lifecycle.NeverClaimedEarly | crates/dbos-core/src/db/sqlite.rs:690-826 | Over every run of statements no poll of any queue claims a delayed row before its time, unless it is resumed |
| Lifecycle.ClaimedLaunchesIff | crates/dbos-core/src/queue/runner.rs:47-99 | From a claim through dispatch to a launch on the row's own input, for its queue, with its timeout counted from the claim, if and only if registered, within attempts and not running here |
| Lifecycle.ClaimedIsRecoverable | crates/dbos-core/src/db/sqlite.rs:751-797 | A claimed row is listed by the recovery of exactly its executor and version |
| Lifecycle.RecoveredWaitsAgain | crates/dbos-core/src/recovery.rs:44-75 | After a recovery a claimed row waits for the same polls again, with its work unchanged |
| Lifecycle.GivenBackIff | crates/dbos-core/src/db/sqlite.rs:676-688 | A running row that is given back waits for exactly the polls of its queue and version; a row on no queue is left alone |
| Lifecycle.ResumedWaits | crates/dbos-core/src/db/sqlite.rs:855-872 | An unfinished row waits for exactly the polls of the internal queue by its version right after a resume; a finished one is left alone |
| Lifecycle.ResumedLaunchesIff | crates/dbos-core/src/db/sqlite.rs:855-872 | However often it was tried before, a resumed row that is claimed and dispatched runs on its own input with its whole timeout ahead, if and only if registered and not running here |
| Lifecycle.ForkSucceedsIff | crates/dbos-core/src/db/sqlite.rs:916-945 | A fork is made exactly for a known original, a new id and a start step that is not negative; otherwise nothing changes |
| Lifecycle.ForkWaitsIff | crates/dbos-core/src/db/sqlite.rs:916-958 | A fork waits for exactly the polls of the queue and version it asks for, by default the internal queue and the original's version |
| Lifecycle.ForkLaunchesIff | crates/dbos-core/src/db/sqlite.rs:943-975 | Whatever became of the original, a fork that is claimed and dispatched runs on the original's input |
| Lifecycle.FreshFork | crates/dbos-core/src/db/sqlite.rs:943-982 | A fork is a new, untried row of the original's work, made now, and names its original, which is marked |
| Lifecycle.RunKeepsWork | crates/dbos-core/src/db/sqlite.rs:189-995 | Over every run of statements a row keeps its name, input, owner, parent, priority, age and timeout |
| Lifecycle.CancelledCountsNowhere | crates/dbos-core/src/db/sqlite.rs:828-853 | A cancelled row is on no queue, waits for no poll, counts against no limit and holds no slot |
| Lifecycle.ParkedCountsNowhere | crates/dbos-core/src/db/sqlite.rs:349-372 | A dead-lettered row counts nowhere either, and its work is kept |
| StepLog.WfCtx.NextStepId | crates/dbos-core/src/context/state.rs:25-27 | Steps of a run are numbered from 0 without gaps |
| StepLog.WfCtx.RunStep | crates/dbos-core/src/workflow/step.rs:55-78 | A step call: recorded result, or run and record, with its error cases, another execution's record in between, and whether the closure ran |
| StepLog.StepIsMemoized | crates/dbos-core/src/workflow/step.rs:200-277 | Once recorded, a step never runs its closure again and changes nothing, whatever the closure would return |
| StepLog.ReplayShowsTheSame | crates/dbos-core/src/serialization.rs:265-291 | A replay shows the same value, or a failure for a failure |
| StepLog.ReplayIsExactIff | crates/dbos-core/src/serialization.rs:287-291 | A replay shows the very same result if and only if it is a value; an error keeps its code only if that is the one for workflow execution |
| StepLog.WfCtx.DurableDeadline | crates/dbos-core/src/workflow/comms.rs:283-330 | A deadline is the recorded one, or now plus the timeout, recorded; an execution that is beaten to the insert reads the other's back |
| StepLog.WakeTimeIsFixed | crates/dbos-core/src/workflow/comms.rs:283-330 | No later call at the step moves a recorded wake time or changes the log, whoever recorded it |
| StepLog.WfCtx.Sleep | crates/dbos-core/src/workflow/step.rs:116-180 | A sleep takes one step id and lasts until the checkpointed wake time |
| StepLog.WfCtx.WaitUntil | crates/dbos-core/src/workflow/comms.rs:333-352 | The polling wait: it ends with an unread message of the topic or past the deadline, it looks after every nap and ends with the first message it finds, no nap is longer than the poll interval or asked to last past the deadline, and messages that arrive meanwhile are kept in order |
| StepLog.WfCtx.Recv | crates/dbos-core/src/workflow/comms.rs:56-144 | A receive takes two step ids, settles its deadline, waits until a message is there or the deadline has come and no longer, and consumes an oldest unread message; it records a timeout only past the deadline with nothing unread |
| StepLog.WfCtx.PublishEvent | crates/dbos-core/src/workflow/comms.rs:148-196 | An event is published before its step is recorded, and not published again once it is |
| StepCalls.StepCallIsProtocol | crates/dbos-core/src/workflow/step.rs:55-78 | Whatever the log holds and whoever else runs the step: a step call is a run of the protocol over the same tables, and the body goes on with exactly what the call returned, which on a first run is the closure's own result |
| StepCalls.WakeCallIsProtocol | crates/dbos-core/src/workflow/comms.rs:283-330 | The call for a wake time or deadline is such a run, too; the execution waits until exactly the time returned, on a first run now plus the time asked for |
| StepCalls.ReceiveIsProtocol | crates/dbos-core/src/workflow/comms.rs:91-144 | What a receive records is what it returns and what the body goes on with |
| StepCalls.PublishCallIsProtocol | crates/dbos-core/src/workflow/comms.rs:148-196 | A publication is such a run, too, and the body goes on exactly if the call succeeded |
| StepLog.ShownTellsApart | crates/dbos-core/src/error.rs:414-418 | The text stored for an error tells its category and its message |
| ReplayInv.StepKeepsInv | crates/dbos-core/src/workflow/step.rs:200-277 | Every atomic step keeps the log equal to what one history of the body accounts for, and every execution on a prefix of that history |
| ReplayInv.RunKeepsInv | crates/dbos-core/src/workflow/run.rs:291-341 | The invariant holds in every state of every run, crashes and concurrent executions included |
| ReplayInv.CheckKeepsExec | crates/dbos-core/src/workflow/step.rs:200-229 | A lookup by a deterministic body never fails, and a hit shows what was recorded |
| ReplayInv.PositionsGrow | crates/dbos-core/src/context/state.rs:25-27 | Along a logged history the step ids of successive actions do not overlap |
| Durable.OutcomeIsEvaluation | crates/dbos-core/src/workflow/run.rs:291-341 | Crash-replay refinement: any outcome ever written is the evaluation of the body against the step log, then and at any later time; with answers outside the log, see the rows of Refusals |
| Durable.EvalFollows | crates/dbos-core/src/workflow/step.rs:200-229 | Evaluating a body against a log reaches the end of any finished history that the log accounts for |
| Durable.EvaluatesOnce | crates/dbos-core/src/workflow/step.rs:200-229 | A log has at most one evaluation |
| Durable.HistoriesAgree | crates/dbos-core/src/workflow/step.rs:200-229 | Two histories that one log accounts for never differ |
| Durable.RunGrows | crates/dbos-core/src/db/sqlite.rs:411-456 | Over every run no recorded result is changed or lost |
| Durable.FinishersAgree | crates/dbos-core/src/workflow/run.rs:306-328 | All executions that finish with an outcome, including losers that waited for it, finish with the same one |
| Durable.DeniedFoundNoOutcome | crates/dbos-core/src/db/sqlite.rs:660-667 | An execution finishes otherwise only as a loser that read the row while it was cancelled or dead-lettered |
| Durable.ResultsAgree | crates/dbos-core/src/workflow/step.rs:200-277 | Any two executions, at any two times, saw the same result at the same place |
| Durable.NoLookupFails | crates/dbos-core/src/workflow/step.rs:200-229 | No deterministic body is ever reported as non-deterministic |
| Durable.LatestInserterHasNotLost | crates/dbos-core/src/workflow/run.rs:306-328 | Conflicts never stop everyone: the execution that made the latest insert has not lost one |
| Durable.WakeTimesAgree | crates/dbos-core/src/workflow/step.rs:128-170 | All callers at one sleep or deadline agree on one wake time, which was there from the start or is what some earlier caller of that step computed as its own clock plus the timeout |
| Durable.SoloRun | crates/dbos-core/src/workflow/step.rs:200-277 | In solo runs nobody loses an insert, and past a missed lookup the execution is at the end of the log |
| Durable.RecordedClosureNeverRuns | crates/dbos-core/src/workflow/step.rs:55-78 | In solo runs a closure with a recorded result never runs again |
| Reruns.RunsAgainIffUnrecorded | crates/dbos-core/src/workflow/step.rs:55-78 | From every reachable solo state: a closure or publication that has run can run again if and only if its result is not in the log |
| Resuming.ResumeIsSafeIff | crates/dbos-core/src/db/sqlite.rs:855-872 | From every cancelled state: all runs after a resume refine the evaluation of the log if and only if no execution has seen the cancellation without having ended |
| Resuming.EarlyResumeLosesResult | crates/dbos-core/src/db/sqlite.rs:382-409 | A run in which a stopped execution's error replaces the SUCCESS that the log evaluates to |
| LogShape.UnforkedLogHasNoGap | crates/dbos-core/src/workflow/comms.rs:68-115 | The log of an unforked workflow holds exactly the ids of its recorded actions, at most the deadline of the wait that comes next, and rows that failed spawns left |
| Progress.GoesOnIff | crates/dbos-core/src/workflow/run.rs:291-341 | In every reachable state an execution that has not ended can take a step of its own if and only if it is not a loser whose winner has not ended |
| Progress.CallGoesOn | crates/dbos-core/src/debouncer.rs:126-206 | In every reachable world of racing callers each call that has neither returned nor failed can take its next step at once |
| Refusals.LogAccountsIff | crates/dbos-core/src/workflow/run.rs:388-426 | Over every run with refusals and awaited children: the log accounts for every result of every execution if and only if there is none of them, and then all guarantees hold |
| Refusals.ResultsAgreeIff | crates/dbos-core/src/workflow/run.rs:388-426 | In every run, forks and parked spawns included: executions never see different results if and only if each spawn, enqueuing and awaited child is answered as at every other attempt at that point |
| Refusals.SteadyRunRefines | crates/dbos-core/src/workflow/run.rs:291-341 | With steady answers, of forks too, outcomes are the evaluation of the log and those answers, finishers agree, no lookup fails, and the latest inserter has not lost |
| Refusals.RefusalBreaksAgreement | crates/dbos-core/src/db/sqlite.rs:272-278 | A run in which a refused spawn ends in an outcome that the log does not evaluate to, and another execution ends differently |
| Refusals.RefusalBreaksLookup | crates/dbos-core/src/workflow/step.rs:200-229 | A run in which a body that catches the refusal makes another execution's lookup fail |
| Refusals.ParkedSpawnReplaysAsSuccess | crates/dbos-core/src/db/sqlite.rs:325-374 | After a spawn that failed on a dead-lettered child every later lookup at that point finds the child |
| Simulation.StepIsCall | crates/dbos-core/src/db/sqlite.rs:382-528 | Every step of the protocol does to status, log, events and history what its database call does |
| Simulation.TablesShowProtocol | crates/dbos-core/src/db/sqlite.rs:382-528 | Over every run of the protocol the tables show its status, log, events and history |
| Simulation.ParkingIsStep | crates/dbos-core/src/db/sqlite.rs:349-374 | An insert that finds the workflow out of attempts is the protocol's step that parks it |
| Answers.WideStepIsCall | crates/dbos-core/src/workflow/run.rs:388-426 | Refused and parked spawns, refused enqueuings and awaited results, too, do to status, log, events and history what their calls do |
| Answers.TablesShowWideRun | crates/dbos-core/src/workflow/run.rs:388-426 | Over every run with such answers the tables show its status, log, events and history |
| Answers.EverySpawnIsStep | crates/dbos-core/src/workflow/run.rs:388-426 | Whatever a spawn meets in the tables, what the run core makes of it is a step of the protocol |
| Answers.OutcomeIsRead | crates/dbos-core/src/db/sqlite.rs:382-409 | What an execution writes at its end is what everybody reads who waits for it, unless the row was cancelled before |
| Answers.AwaitedAnswerStays | crates/dbos-core/src/db/sqlite.rs:622-673 | Over every run of statements: what is read from the row of a finished child stays, and so does the failure of a cancelled or dead-lettered one that is not resumed, provided later outcomes written for it are the same |
| Answers.ResumeChangesAnswer | crates/dbos-core/src/db/sqlite.rs:855-872 | A run of statements in which a cancelled child is resumed and its awaited failure becomes a result |
| Events.PublishKeepsAgreementIff | crates/dbos-core/src/db/sqlite.rs:1140-1178 | Publishing keeps the current value equal to the latest history entry if and only if nothing later in the history differs |
| Events.ConcurrencyBreaksAgreement | crates/dbos-core/src/workflow/comms.rs:148-196 | A run of two executions in which the one behind puts an old value back |
| Events.EventsAgreeWithHistory | crates/dbos-core/src/workflow/comms.rs:148-196 | In solo runs, through crashes and replays, every current value is the history entry with the greatest step id, and each entry is what the body publishes at that step |
| Notifications.ReturnedAtMostOnce | crates/dbos-core/src/workflow/comms.rs:91-115 | Under any interleaving a message is the result of at most one recorded receive |
| Notifications.MessagesAreConserved | crates/dbos-core/src/db/sqlite.rs:1062-1138 | A sent message keeps its place and content and is at most marked consumed; recorded results never change |
| Notifications.MessageIsLostIff | crates/dbos-core/src/workflow/comms.rs:91-115 | A message is lost exactly by a stop between consuming and recording, or by consuming it for a step that was recorded meanwhile |
| Notifications.CrashLosesMessage | crates/dbos-core/src/workflow/comms.rs:91-115 | A run in which a crash loses a message |
| Notifications.ReturnedInOrder | crates/dbos-core/src/workflow/comms.rs:56-144 | On runs without such a stop, what the receives of a topic return is a prefix of what was sent to it |
| Notifications.SentIsUnread | crates/dbos-core/src/db/sqlite.rs:1062-1088 | Sending to a workflow that exists adds one unread message at the end of its mailbox, for its topic alone, and changes nothing else |
| Notifications.SentIsReceivedNext | crates/dbos-core/src/db/sqlite.rs:1062-1138 | A receive of that topic gets that message if nothing older is unread, and otherwise an older one |
| Receiving.LoggedAtMostOnce | crates/dbos-core/src/workflow/comms.rs:56-144 | Over every run of the protocol whose receives consume from the mailbox: the log of a receive holds a message that was sent, or a timeout, and no message is in two |
| Receiving.LoggedInOrder | crates/dbos-core/src/workflow/comms.rs:91-115 | Without a crash or race between consuming and recording, what the history's receives of a topic returned is a prefix of what was sent to it |
| Fork.ForkCopiesBelow | crates/dbos-core/src/db/sqlite.rs:916-995 | A fork's log is the original's below the start step; every other log and the original's row stay |
| Fork.ForkIsInitial | crates/dbos-core/src/db/sqlite.rs:960-990 | Wherever the log is cut, some history of the body accounts for it, so all guarantees hold for the fork |
| Fork.ForkSeesOriginal | crates/dbos-core/src/workflow/step.rs:200-229 | Executions of the fork see the original's results below the start step |
| Fork.ForkEndsLikeOriginal | crates/dbos-core/src/db/sqlite.rs:916-995 | If the later steps yield the same results, the fork ends as the original did |
| Debouncer.InternalDebouncerBody | crates/dbos-core/src/debouncer.rs:246-318 | The loop as written does, result by result, what the body of the protocol does, enqueues the row that body enqueues, and ends where it returns |
| Debouncer.Collect | crates/dbos-core/src/debouncer.rs:267-297 | One pass of the loop: clock, receive, push back under the cap, acknowledge |
| Debouncer.PushBackIsBounded | crates/dbos-core/src/debouncer.rs:256-297 | Over every sequence of results: the start is where the last message asks for it but never past first start + timeout, there is at most one pass more than messages, and the last received input is kept |
| Debouncer.SucceedsIff | crates/dbos-core/src/debouncer.rs:299-318 | For every sequence of results: the workflow succeeds if and only if the enqueuing of its target was accepted |
| Debouncer.AckFollowsAccept | crates/dbos-core/src/debouncer.rs:289-293 | Only received messages are acknowledged |
| DebounceTiming.WaitsUntilTarget | crates/dbos-core/src/debouncer.rs:267-278 | For every history: a receive waits from the clock reading before it exactly until the start asked for last, capped at the first start plus the timeout |
| DebounceTiming.WaitsIffEarly | crates/dbos-core/src/debouncer.rs:267-276 | After a clock reading the loop waits if and only if that start lies ahead, and enqueues otherwise |
| DebounceTiming.NeverEnqueuedEarly | crates/dbos-core/src/debouncer.rs:246-318 | Over every timed run, crashes and concurrent executions included: the target is enqueued no earlier than that start, unless a receive ended in an error |
| DebounceTiming.PushedBackWithinTimeout | crates/dbos-core/src/debouncer.rs:126-206 | Over every run of racing callers: no caller pushes a target's start further from its cycle's first start than the debouncer's timeout |
| DebounceCalls.CallersShareTheRun | crates/dbos-core/src/debouncer.rs:126-206 | Over every run of racing callers, crashing, cancelled and resumed internal workflows, refused targets and deleted rows, with no harmful receive: a returned call's input was taken over by one cycle, its id is that cycle's target or one nothing ever runs under, and that target is enqueued by that cycle alone, with that input or a later one |
| DebounceCalls.StrandedIff | crates/dbos-core/src/debouncer.rs:187-206 | A call that saw its acknowledgement returns an id of no cycle if and only if the internal row was deleted between that and its reading of the row |
| DebounceCancel.CarefulRunsAreComplete | crates/dbos-core/src/debouncer.rs:246-318 | Over every run of the internal workflow, cancelled, crashed and resumed at any time, in which no receive swallows the cancellation harmfully: the target's row has every input taken over |
| DebounceCancel.SwallowIsSafeIff | crates/dbos-core/src/debouncer.rs:277-297 | In every cancelled state such a run reaches, at every lookup of a receive: taking the cancellation for a timeout loses nothing in any continuation if and only if the target is enqueued or the log has a timeout there |
| DebounceCancel.LaterMessageIsLost | crates/dbos-core/src/debouncer.rs:277-316 | For every such state at the end of the log and every message: swallowed, resumed and replayed, the workflow acknowledges the message while its target has been enqueued without it |
| DebounceLoss.SwallowingLosesCall | crates/dbos-core/src/debouncer.rs:150-206 | In every reachable world about to do so, for every call that has found the internal workflow: some continuation acknowledges the call, returns the target's id, and has run the target without its input |
| DebounceLoss.LossIsReached | crates/dbos-core/src/debouncer.rs:126-164 | A run of two callers up to such a world |
| DebounceCalls.OneCycleOneRow | crates/dbos-core/src/debouncer.rs:299-316 | At most one cycle holds the slot, each enqueues at most one row, and no two the same |
| DebounceCalls.AckedWasTaken | crates/dbos-core/src/debouncer.rs:283-293 | A published acknowledgement means the message was taken over |
| DebounceCalls.ResultsStay | crates/dbos-core/src/debouncer.rs:126-206 | The result of a returned call and the inputs taken over by then are kept for ever |
| Scheduler.Scheduler.Reconcile | crates/dbos-core/src/scheduler/engine.rs:175-233 | After a pass exactly the active schedules are installed under their current ids, unchanged ones go on undisturbed, every other task is stopped, each new one fires by the row as it was read, and missed ticks have their rows |
| Scheduler.Scheduler.RemoveStale | crates/dbos-core/src/scheduler/engine.rs:188-201 | The first phase keeps exactly the entries that are active and not replaced, and cancels the rest |
| Scheduler.Scheduler.InstallMissing | crates/dbos-core/src/scheduler/engine.rs:203-232 | The second phase installs exactly the active schedules that were missing |
| Scheduler.Scheduler.BackfillAndInstall | crates/dbos-core/src/scheduler/engine.rs:212-231 | A schedule is installed whether or not its backfill works |
| Scheduler.Scheduler.CancelAll | crates/dbos-core/src/scheduler/engine.rs:145-150 | After a shutdown no firing task is live |
| Scheduler.Scheduler.Remove | crates/dbos-core/src/scheduler/engine.rs:134-138 | Removing an entry cancels its token and no other |
| Scheduler.Scheduler.Install | crates/dbos-core/src/scheduler/engine.rs:226-230 | A new entry gets a token of its own, so every live token belongs to exactly one entry |
| Scheduler.Scheduler.RunSchedule | crates/dbos-core/src/scheduler/engine.rs:264-280 | The firing loop fires the first tick after each clock reading, having slept until its time and no further, until it is cancelled or no tick is left; it adds rows for these ticks alone and notes one of them as the last firing |
| Scheduler.FiredOrPassed | crates/dbos-core/src/scheduler/engine.rs:264-280 | Over every sequence of clock readings: ticks are fired in order, none twice, and one whose time comes is fired or else its time went by during an earlier round |
| Scheduler.FiresAllIff | crates/dbos-core/src/scheduler/engine.rs:264-280 | Every tick is fired if and only if, each time the loop comes round, the tick after the one just fired is still ahead |
| Scheduler.PassedTickIsNotMadeUp | crates/dbos-core/src/scheduler/engine.rs:212-224 | A tick passed over before a later one was fired gets no row from an automatic backfill |
| Scheduler.SlowRoundSkipsTick | crates/dbos-core/src/scheduler/engine.rs:264-280 | Concrete clock readings with which a schedule of every second skips one |
| Scheduler.Scheduler.Fire | crates/dbos-core/src/scheduler/engine.rs:282-347 | A cancelled task fires no more; a live one enqueues the tick's row under its id and notes the last firing exactly if that worked |
| Scheduler.Scheduler.Backfill | crates/dbos-core/src/scheduler/engine.rs:351-400 | A backfill gives every tick of the open interval its row and adds no other, keeps the rows that exist, and fails exactly for an unparsable schedule or an unknown workflow with a tick left, changing nothing |
| Scheduler.TickIdTellsApart | crates/dbos-core/src/scheduler/engine.rs:283-287 | Two ticks have the same id if and only if schedule name and time agree, whatever the names |
| Scheduler.TickInputTellsApart | crates/dbos-core/src/scheduler/engine.rs:288-333 | The started workflow can tell its scheduled time and context from its input, and is the schedule's, on the schedule's queue |
| Scheduler.FreshTick | crates/dbos-core/src/scheduler/engine.rs:372-397 | The first enqueuing of a tick adds one waiting row and launches nothing |
| Scheduler.KnownTick | crates/dbos-core/src/scheduler/engine.rs:317-336 | Any further one adds no row, launches nothing, and at most parks a row that ran out of attempts |
| Scheduler.NothingOutsideWindow | crates/dbos-core/src/scheduler/engine.rs:368-371 | A backfill adds no row for a tick outside its interval |
| Scheduler.AutomaticBackfillCoversIff | crates/dbos-core/src/scheduler/engine.rs:212-224 | The automatic backfill makes up for every tick since the last firing if and only if none lies exactly one second after it without a row |
| Scheduler.CaughtUpCoversIff | crates/dbos-core/src/scheduler/engine.rs:212-224 | After a pass every tick of a caught-up schedule since its last firing has its row if and only if the one exactly a second after that firing, should there be one, had it before |
| Scheduler.OnlyMissedIsMadeUp | crates/dbos-core/src/scheduler/engine.rs:212-224 | A pass makes up for a tick only of a schedule that asks for it and has been fired, and only later than a second after that |
| Scheduler.EverySecondLosesTick | crates/dbos-core/src/scheduler/engine.rs:212-224 | A schedule of every second loses the first tick after its last firing |
| Manage.DeleteWorkflow | crates/dbos-core/src/workflow/manage.rs:67-86 | Deletes exactly the workflow, or it and all its descendants, each once, with everything they own, provided it is not its own ancestor |
| Manage.FindFamily | crates/dbos-core/src/workflow/manage.rs:72-81 | The breadth-first loop ends and collects each descendant exactly once |
| Manage.CycleNeverEnds | crates/dbos-core/src/workflow/manage.rs:75-80 | Below a workflow that is its own ancestor the loop always has work left |
| Manage.InsertKeepsAcyclicIff | crates/dbos-core/src/workflow/manage.rs:67-86 | A new row closes a cycle if and only if its parent descends from the new id |
| Manage.DeletionCanCloseCycle | crates/dbos-core/src/db/sqlite.rs:874-881 | Deleting a parent's row and letting its child spawn a workflow under that id, two transactions that succeed, makes a cycle |
| Manage.RunKeepsTree | crates/dbos-core/src/db/sqlite.rs:874-889 | Over every run that deletes rows only with their descendants, the parent relation stays acyclic and complete |
| Manage.FamilyDeletionKeepsTree | crates/dbos-core/src/workflow/manage.rs:82-84 | Deleting a whole family leaves no orphan and no cycle |

## Left out

- SQL text, connection pools, row decoding and migrations: each statement or transaction is one update of maps, with the schema's keys, unique index and cascades.
- `crates/dbos-core/src/db/postgres.rs`: it mirrors the SQLite backend; isolation weaker than one atomic transaction is not modelled.
- `crates/dbos-core/src/db/retry.rs`: a repeated insert whose first commit was ambiguous can conflict with itself; results here are definite.
- Serializers: encoding and decoding are inverse; the portable error format, which keeps more of an error, is not modelled.
- Columns that no modelled decision reads: authentication, class and configuration names, queue partition keys, updated and completed times.
- StepLog.WfCtx.WaitUntil: shutdown, which ends a wait early, is not modelled; what others send during a nap is a parameter.
- StepLog.WfCtx.Sleep: only the wake time is durable; the remainder it returns differs between replays, so bodies are taken not to look at it.
- StepLog.WfCtx.RunStep: retries of a step, nested steps and steps run concurrently inside one body are left out.
- SystemDb.SqliteDb.SelectCandidates: rows equal in priority and creation time may come in either order.
- Executor.DbosContext.RunWorkflowErased: the run core reads the clock once, and the spawned execution and its deadline watcher are steps of the protocol in `Replay.dfy`, the watcher as a cancellation at any time.
- Answers.WideStepIsCall: a child's result is read from its row; the handle of a child that runs in the same process hands its result over directly the first time, which differs from the row only if the child was cancelled meanwhile.
- Scheduler.Scheduler.RunSchedule: the cancellation of its task is a number of firings after which it comes; statically registered schedules and the table of schedules itself are left out, and a pass reads that table as a parameter.
- Scheduler.Scheduler.Backfill: cron parsing and time zones are an abstract function to the next tick.
- DebounceCalls.CallersShareTheRun: nothing is claimed about when a call returns; a call whose acknowledgement does not come in time starts over, and its input may then be taken over twice.
- Sending from inside a workflow, `get_event` as a client call, streams, garbage collection, application versions and listing queries: easy single-table facts.
- `set_workflow_status_pending`: a hook for tests, outside the step relation.
- The HTTP server, the conductor, the command line and the client wrappers.
