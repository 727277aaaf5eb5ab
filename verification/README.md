# Formal model of the scheduler

This project models the parts of the scheduler whose correctness is hardest to see
from the code, and proves what every run of them keeps:

- **The run lifecycle** (`Run*.dfy`, `Dependencies.dfy`): several Core processes that
  enqueue, claim under a fenced lease, hand over to an executor, complete, expire,
  retry, cancel and cover job runs in one database.
- **The executor** (`Executor*.dfy`): the state directory of accepted executions and
  completions, crashes between any two file operations, recovery, slots and history.
- **Notifications** (`Outbox*.dfy`): fan-out of outbox events to channels, and when an
  event counts as published.
- **Schedules** (`Calendar.dfy`, `Quartz.dfy`, `Schedule.dfy`): misfires, previews and
  the Quartz calendar search.
- **Routing** (`Routing.dfy`): consistent hashing of executors.

`dafny verify dfyconfig.toml` checks all of it.

## How the model is built

*Transactions.* A database transaction is one atomic step: a function from the tables
before to the tables after, or to the error that rolls it back (`RunTransactions`,
`RunSystem.Apply`). `RunSystem.Exec` is the database after any sequence of
transactions, so a lemma over `Exec(actions)` speaks about every interleaving of any
number of Core processes. A worker acts on the claim it was handed, however old; a
crashed worker is one that never acts again. The class `RunStore.Store` holds the same
tables as fields, and its methods, written as the code is, with its loops, are proved
to do exactly what the transaction functions say, including the rollback. The
notification tables are treated the same way (`Outbox.Apply`, `OutboxStore.Notifications`).

*The atomic-step assumption carries weight* in three places that read other rows
without a common lock: the sibling check of a broadcast
(internal/store/run_state.go:58-65), the last-pending-delivery check
(internal/store/outbox.go:435-443) and the job and tenant caps of the claim query
(internal/store/scheduler.go:176-177). Nothing is claimed there for two READ COMMITTED
transactions that overlap.

*Identifiers and clocks.* UUIDs and lease tokens come from a counter that never repeats.
Every transaction gets its instants as arguments; the run lifecycle needs no monotone
clock.

*History variables.* `Run.trail` records every value written to a status column, and
`Db.claims` every claim handed out. Both only grow and no transaction decides by the
trail.

*How the invariants are proved.* `RunBlocks` states what one group of statements may do
to the tables and derives the table invariants from that alone; `RunBlockLemmas` shows
every group is of that kind; `RunMicro` turns the groups into a small step machine, with
the rearming a transaction still owes as part of its state; `RunRefinement` shows every
transaction is a run of that machine; and each property over histories is proved step by
step on the machine and lifted to `Exec` (`RunHistory`, `RunDelay`, `RunOverlap`,
`RunRetries`, `RunFanout`, `RunGuarantees`). `RunDelayTimes` and `RunWaiting` follow the
transactions themselves, because they also say which transaction may do what, and so does
`RunQueue`, job by job.

*What the operations do.* Invariants do not say that anything happens, so every main
operation is also described exactly on the columns of the tables before and after, without
the functions the transactions are made of: `RunTakeover` (claims), `RunStarts` (triggers
and dependents), `RunTurns` (due jobs), `RunAnswers` (outcomes, retries, cancellations,
commands, administration), `OutboxFanout` (notifications), `ExecutorDispatch` (dispatch
and completion) and the rules of `Quartz` (`StandsFor`, with dated examples).

*The executor.* `ExecutorMachine` has one step for every critical section under the
server's mutex, every file operation and every answer from Core, and a crash that may
come between any two. A file operation can stop before or after its rename or removal.
`ExecutorSafety`, `ExecutorSlots` and `ExecutorRestarts` are about all its runs.
`ExecutorServer` has the state directory and the server as classes, with the pruning
loop, dispatch, finish, cancel, delivery and the two recovery loops. Below that, a
rename followed by a directory sync is taken to be durable.

## What the proofs brought out

- A fixed-delay job overlaps with itself exactly when an update, or switching it off and
  on, gives it a next time while one of its runs is unfinished
  (`RunDelay.OverlapsExactlyWhenDisturbed`; two histories that do it are in
  `RunDelay.ReconfigurationStartsASecondCycle`). A script rollback and any change made
  while nothing is awaited are harmless.
- `L-29` and `L-30` are accepted by the parser, but in a month shorter than the offset
  the search stops with a parse error, also when the month field excludes that month
  (`Quartz.LargeOffsetsCanFailForNothing`, for every February of 28 days).
  `Quartz.Answers` says exactly when.
- The seconds of a fixed schedule are multiplied as an int64 of nanoseconds. The product
  is positive up to 9223372036 seconds; one second more makes it negative, and far longer
  schedules creep forward, stand still or step back (`Schedule.FixedOverflows`). The
  misfire loop of a fixed schedule ends if and only if the product is positive, or the
  schedule starts at Go's zero time or meets it going backwards
  (`Schedule.FixedSearchEndsExactly`).
- The counter of execution records falls behind the directory exactly when the directory
  sync of a new record fails (`ExecutorRestarts.DriftsExactly`). It never lags by more
  than one, because that server takes on nothing more, so the directory stays within its
  limits and can always be opened again (`ExecutorRestarts.DirectoryAlwaysReopens`).
- The pending runs of a job can exceed max_queue_size in exactly four ways, each readable
  before the transaction: more due times on the batched path of parallel jobs than there is
  room for, more retries than there is room for, a covering broadcast wider than the limit,
  and an update to a limit below the queue (`RunQueue.QueueBoundExactly`).
  `RunQueueHistories` has a history for each.
- An executor starts a handler for a run once, and once more for every time its process
  forgot the run (`ExecutorSlots.HandlersStartOncePerEntry`), which without a crash happens
  only to entries that have ended (`ExecutorSlots.OnlyEndedEntriesAreForgotten`).
- Executor entries that wait for a callback are never pruned, since pruning drops only
  entries that have a finishing time (`ExecutorHistory.PruneKeepsTheNewest`).
- A job named as its own child is refused as not found, because the count of named jobs
  comes first; the later self-cycle test is never reached
  (`Dependencies.SetDependenciesExact`).

## Model

| member | source | states |
|---|---|---|
| RunDelay.DelayJobsNeverStall | internal/store/run_state.go:54-83 | in every history, an enabled fixed-delay job has a next time or an unfinished run that will set it |
| RunDelay.DelayJobsNeverOverlap | internal/store/scheduler.go:47-128 | in every history in which no reconfiguration sets a next time while a run is awaited, an enabled fixed-delay job has exactly one of the two, and the awaited runs are one run or the shards of one broadcast |
| RunDelay.OverlapsExactlyWhenDisturbed | internal/store/jobs.go:207-318 | and only then: a history is free of overlap throughout if and only if every reconfiguration that set a next time found no run awaited |
| RunDelay.CycleOverlapsExactly | internal/store/jobs.go:270-310 | one update to an enabled fixed delay, or one switching on, leaves no next time beside an awaited run if and only if none is awaited |
| RunDelay.AdministeredSingle | internal/store/script_versions.go:59-100 | every other administration, a script rollback included, cannot make a job overlap |
| RunDelay.ReconfigurationStartsASecondCycle | internal/store/jobs.go:207-318 | two histories that end with a next time beside an awaited run: an edit during the run, and switching the job off and on |
| RunDelay.PlayDelay | internal/store/trigger.go:185-223 | every step, covering and skipping included, keeps both statements for every job, counting the rearming still owed in the transaction |
| RunDelay.RearmKeeps | internal/store/run_state.go:54-83 | rearming settles the debt: with an awaited sibling the job stays armed by it, otherwise by its next time, never by both |
| RunDelayTimes.DelaysCountFromTheEnd | internal/store/run_state.go:74-82 | a transaction leaves the next time of a fixed-delay job alone, clears it, or sets it one period after its own instant; it does not touch a job that is switched off, and whatever it switches off loses its next time |
| RunDelayTimes.SwitchedOffJobsStayQuiet | internal/store/jobs.go:270-283 | in every history a job that is switched off has no next time |
| RunGuarantees.LeaseExactlyWhileRunning | internal/store/scheduler.go:180 | a run has a lease token and a lease end exactly while running, and a callback exactly while waiting for it |
| RunGuarantees.LostLeaseStaysLost | internal/store/runs.go:28-57 | once a claim has lost its lease it never holds one again |
| RunGuarantees.StaleWorkersChangeNothing | internal/store/executor.go:388-408 | a write under a lost lease is refused and changes nothing, at any later time |
| RunGuarantees.TwoHolders | internal/store/scheduler.go:154-184 | no two claims hold the lease of one run |
| RunGuarantees.ReclaimFences | internal/store/scheduler.go:180 | claiming a run again takes the lease from every earlier claim |
| RunGuarantees.TerminalIsAbsorbing | internal/store/run_state.go:29 | a terminal row never changes again in any column |
| RunGuarantees.StatusesClimb | internal/store/run_state.go:200-243 | statuses only climb; while a run waits for its callback its row does not change |
| RunGuarantees.PreparedAtMostOnce | internal/core/engine_execution.go:81-91 | no run passes the dispatch preparation twice, by whichever worker |
| RunGuarantees.EventsSpellTheTrail | internal/store/outbox.go:54-74 | the events of a run, without exhausted, are the distinct statuses it entered, in order, ending in the status of its row; exhausted comes at most once |
| RunGuarantees.EventsOnlyGrow | internal/store/outbox.go:66-74 | events of a run are never taken back |
| RunGuarantees.CancelCommandsExact | internal/store/runs.go:93-152 | a cancel command exists exactly for the cancelled runs with an executor address, and goes to that address |
| RunGuarantees.PreparedThenCancelled | internal/store/executor.go:388-408 | a run prepared on a node keeps that node's address, and has a command, to that very address, exactly if it is cancelled later and the address is not empty |
| RunGuarantees.CommandsStayUntilDelivered | internal/store/executor_commands.go:34-86 | a pending command is never dropped, and only the live holder of its lock marks it delivered |
| RunGuarantees.DeliveredStays | internal/store/executor_commands.go:63-72 | a delivered command never changes again |
| RunGuarantees.KeyedTriggersRunOnce | internal/store/trigger.go:81-97 | a trigger repeated with the same key returns the first run and changes nothing, whatever happened in between |
| RunGuarantees.TriggerAnswersARun | internal/store/trigger.go:118-173 | a trigger whose key is new answers with a manual run of that job that was not there before |
| RunGuarantees.CancelIsIdempotent | internal/store/runs.go:93-141 | cancelling a run again succeeds and changes nothing |
| RunAnswers.CancelsExactly | internal/store/runs.go:93-141 | any unfinished run of the tenant is cancelled and its executor told, a cancelled one stays, other ended ones are refused, and those of other tenants are not found |
| RunAnswers.CommandsClaimed | internal/store/executor_commands.go:34-61 | a claim locks exactly the listed commands that are free, for half a minute, and counts the attempt |
| RunAnswers.HoldersDeliver | internal/store/executor_commands.go:63-86 | exactly the live holder of a command can mark it delivered or put it back for later |
| RunAnswers.HoldersPrepare | internal/store/executor.go:388-408 | exactly the worker whose token the row carries can prepare the dispatch, and that hands over node, address and callback |
| RunAnswers.HoldersComplete | internal/store/run_state.go:14-52 | exactly that worker can report the outcome, and a failure reported so is final |
| RunAnswers.SuccessesCommit | internal/store/run_state.go:14-52 | its success commits unless a dependent broadcast has no nodes, and ends the run as succeeded |
| RunAnswers.CallbacksSucceed | internal/store/run_state.go:200-243 | so does a successful callback that is the expected one |
| RunAnswers.WrittenRowsAreScheduled | internal/store/jobs.go:34-318 | a job row that is created, changed or switched has the next time of its schedule exactly if it is switched on, under the next version |
| RunAnswers.CreatedColumns | internal/store/jobs.go:34-90 | the other columns of a new job are those asked for, with defaults for missing limits |
| RunAnswers.UpdatedColumns | internal/store/jobs.go:207-265 | the other columns of a changed job are those asked for |
| RunAnswers.SwitchedColumns | internal/store/jobs.go:285-318 | switching a job changes no other column and no other job |
| RunAnswers.PresentVersionsCommit | internal/store/jobs.go:207-318 | whoever names the present version is let through, if the schedule has an answer |
| RunTriggers.FiringRespectsTheQueue | internal/store/trigger.go:107-140 | a trigger that fires without covering leaves at most max_queue_size pending runs of the job; one that covers leaves exactly its own, however many |
| RunTriggers.FastPathIgnoresTheQueue | internal/store/scheduler.go:52-59 | the batched path of parallel jobs adds a pending run per due time, whatever the limit |
| RunTriggers.RetriesIgnoreTheQueue | internal/store/run_state.go:256-267 | a retry adds a pending run whatever the limit, unless the run it retries was pending itself |
| RunQueue.QueueBoundExactly | internal/store/trigger.go:107-140 | in every history the pending runs of a job stay within max_queue_size throughout if and only if no committed transaction overflows it, by a condition on the tables before that transaction |
| RunQueue.QueueStep | internal/store/scheduler.go:47-116 | per transaction, batches and dependents included: the limit is kept if and only if the transaction is none of the four |
| RunQueue.DueQueue | internal/store/scheduler.go:14-143 | a batch overflows the queue of a job exactly when the turn of that job does: too many due times on the fast path, or one that covers too widely |
| RunQueue.TimesOverflow | internal/store/scheduler.go:60-116 | off the fast path, any number of due times overflows exactly when there is one and the first covers too widely |
| RunQueue.SuccessQueue | internal/store/run_state.go:85-176 | a success overflows the queue of a job exactly when the job depends on it and its trigger covers too widely |
| RunQueue.ExpireQueue | internal/store/run_state.go:283-333 | expiring callbacks adds exactly the retries of the expired rows to the pending runs of a job |
| RunQueueHistories.FastPathOverflows | internal/store/scheduler.go:52-59 | a history that exceeds the limit by two due times of a parallel job |
| RunQueueHistories.CoverOverflows | internal/store/trigger.go:107-140 | one by a broadcast that covers |
| RunQueueHistories.RetryOverflows | internal/store/runs.go:55-76 | one by a retry after another run has taken the place in the queue |
| RunQueueHistories.UpdateOverflows | internal/store/jobs.go:207-252 | one by an update that lowers the limit |
| RunTriggers.BroadcastReachesEveryNode | internal/store/broadcast.go:32-43 | a broadcast starts exactly one run per node, numbered like the nodes, all in one new group |
| RunTriggers.RetriesWait | internal/store/run_state.go:256-267 | a retry can be claimed exactly from the end of the run it retries plus its delay |
| RunTriggers.NewRunsStartAtOnce | internal/store/scheduler.go:102-109 | a run that a schedule or a dependency triggers can be claimed exactly from the instant of its trigger, one recorded as skipped never |
| RunStarts.ManualTriggers | internal/store/trigger.go:55-174 | a manual trigger, exactly: not found, answered from its key, recorded as skipped by a busy job that discards, started by one run or one per node if policy and queue allow it, refused for want of a node to broadcast to, or refused by a full queue |
| RunStarts.AdmitFailsStranded | internal/store/scheduler.go:60-116 | a scheduled or dependency trigger fails exactly if policy and queue would take it and there is no node to broadcast to |
| RunStarts.AdmitObeys | internal/store/scheduler.go:60-116 | a scheduled or dependency trigger starts one pending run, or one per node, exactly if policy and queue allow it, after cancelling what is unfinished if it covers, and otherwise records one skipped run |
| RunStarts.DependentsStart | internal/store/run_state.go:85-176 | after a success a job is reserved for the run exactly if it depends on the run's job, and then it has the new run, broadcast or skipped run that its policy and queue called for before |
| RunTurns.DueJobsAreServed | internal/store/scheduler.go:14-143 | a due job of the batch gets the next time of its schedule, is switched off exactly if it was one-shot without one, keeps its other columns, and has a new run for each due time and no other; a fixed delay has one order, or a new next time if it was missed and is to be skipped |
| RunTurns.OthersAreLeftAlone | internal/store/scheduler.go:14-143 | a job that is not in the batch, or not due, keeps its row and its runs |
| RunTriggers.CallbackRetriesBackOff | internal/store/run_state.go:245-254 | callback retries wait one second, doubling, never more than 64 |
| RunTriggers.CallbackOrExpiry | internal/store/run_state.go:279-281 | at every instant a waiting run either accepts its callback or is expired, never both |
| RunWaiting.WaitingEndsInFourWays | internal/store/run_state.go:200-333 | in every history a run stops waiting only by a callback in time with the hash of its own preparation, by its expiry, by its cancellation, or by a trigger of its job that covers, and ends as that way says |
| RunWaiting.WaitsForItsPreparation | internal/store/executor.go:388-408 | a run that waits was prepared earlier in the history, for the very callback it waits for |
| RunWaiting.DoStep | internal/store/run_state.go:200-333 | per transaction: only the preparation of a run makes it wait, and only the four ways end that |
| RunTriggers.FailedDispatchesAreAnswered | internal/core/engine_execution.go:81-91 | a worker whose dispatch fails after the preparation can end the run with the token it prepared, until the deadline |
| RunTriggers.OneShotJobsStop | internal/store/scheduler.go:117-128 | a one-shot job without a further time is not due again after its turn |
| RunClaims.TenantCapacity | internal/store/scheduler.go:154-180 | for every limit and every set of locked rows, a claim leaves a tenant's live runs at most at its cap, or where they were |
| RunClaims.ClusterCapacity | internal/store/scheduler.go:154-180 | the same per Kubernetes cluster, whose cap is 1 when none is configured |
| RunClaims.JobCapacity | internal/store/scheduler.go:154-180 | the same per job, with the cap widened to the size of the broadcasts claimed |
| RunClaims.PickIsPrefix | internal/store/scheduler.go:174-179 | a claim takes the first unlocked eligible rows in order, and leaves none behind below the limit |
| RunClaims.ClaimedUntilLeaseEnds | internal/store/scheduler.go:180 | every claimed row has a token of its own that was never in use, and cannot be claimed again before a lease that outlasts the job timeout ends |
| RunTakeover.ClaimsExactly | internal/store/scheduler.go:154-184 | a claim takes exactly the first unlocked runs in line, up to its limit, that are pending and available or running under an ended lease, and that fit the caps of job, tenant and cluster behind those ahead of them; each gets a new token, a claim and a lease that outlasts its timeout, and every other row stays |
| RunTakeover.LostRunsAreTakenOver | internal/store/scheduler.go:173-180 | a run whose lease has ended, or that is pending and available, is running under a new token after the next claim that has room for it |
| RunOverlap.OneTriggerAtATime | internal/store/trigger.go:33-45 | while the policy is discard_later or cover_early, all unfinished runs of the job descend from one trigger |
| RunOverlap.PlayOneTrigger | internal/store/trigger.go:107-117 | every step keeps that, from schedule, manual call and dependency alike |
| RunFanout.GraphStaysAcyclic | internal/store/job_dependencies.go:21-39 | in every history the dependency graph has no cycle |
| RunFanout.ParentsFollowEdges | internal/store/run_state.go:85-110 | every run with a parent run follows an edge of the graph |
| RunFanout.ParentChainsAreShort | internal/store/run_state.go:85-176 | while the graph stays within an acyclic one, a chain of parent runs has no more members than there are jobs |
| RunFanout.ChildrenStartedOnce | internal/store/run_state.go:107-119 | a succeeded run starts each child job at most once, as one run or one broadcast |
| RunRetries.BrokenRunsAnsweredOnce | internal/store/runs.go:55-76 | a failed or timed-out run has exactly one of a retry and an exhausted event, and at most one retry |
| RunRetries.OnlyBrokenRunsAnswered | internal/store/run_state.go:218-241 | no other run is retried or exhausted |
| RunRetries.RetryLineage | internal/store/run_state.go:256-267 | every run ends exactly one chain of retries, with attempts 1, 2, ..., k, and all but the last are failed or timed out |
| RunRetries.AttemptsStayBounded | internal/core/engine_execution.go:141-168 | while the job allows at most m retries, no attempt exceeds m + 1, not even through claims handed out earlier |
| RunAnswers.FailuresAreAnswered | internal/core/engine_execution.go:141-168 | the holder of a run can fail it, and then it has a retry, later by the delay and otherwise alike, exactly if its attempt is within the limit of its claim |
| RunAnswers.CallbacksAreAnswered | internal/store/run_state.go:200-243 | a failing callback commits exactly if it is the expected one in time, and is retried within the job's limit |
| RunAnswers.OverdueRunsTimeOut | internal/store/run_state.go:283-333 | a listed run whose callback is overdue times out and is retried within the job's limit; any other is left alone |
| RunHistory.ExecSound | internal/store/run_state.go:14-333 | every reachable database satisfies all the table invariants |
| RunHistory.ExecEvolves | internal/store/scheduler.go:14-128 | along every history rows, events, claims and commands only move forward |
| RunRefinement.RefineAction | internal/store/run_state.go:14-333 | every transaction on runs that commits is a run of the step machine and ends with nothing owed |
| RunBlocks.BlockInv | internal/store/run_state.go:218-241 | whatever one group of statements does, lineage, groups, claims, commands and events stay consistent |
| RunCover.CoveredStep | internal/store/trigger.go:208-220 | one round of the covering loop brings the tables to what the closed form says for one run less |
| RunStore.Store.CoverRuns | internal/store/trigger.go:185-223 | the covering loop cancels, announces, tells and rearms exactly as the closed form, in whatever order the rows come |
| RunStore.Store.InsertShards | internal/store/scheduler.go:89-98 | the broadcast loop inserts one row and one event per node, under one new group |
| RunStore.Store.TriggerJob | internal/store/trigger.go:55-174 | the new tables and the returned run or error are those of the trigger transaction, rolled back on error |
| RunStore.Store.EnqueueTimes | internal/store/scheduler.go:53-116 | the loop over due times admits, skips or inserts each of them in order |
| RunStore.Store.EnqueueJob | internal/store/scheduler.go:42-129 | one job of the batch is enqueued and advanced as the transaction says |
| RunStore.Store.EnqueueDue | internal/store/scheduler.go:14-143 | the batch is enqueued with the fast-path jobs last, or rolled back |
| RunStore.Store.FailRun | internal/store/runs.go:35-81 | a held lease ends in a retry or in exhaustion and rearming; anything else is refused |
| RunStore.Store.CancelRun | internal/store/runs.go:93-141 | an unfinished run is cancelled and its executor told, a cancelled one is left, others are refused |
| RunStore.Store.PrepareDispatch | internal/store/executor.go:388-408 | the holder of the lease moves the run to waiting with node, address and callback |
| RunStore.Store.TriggerChildren | internal/store/run_state.go:107-176 | the loop over dependents reserves and triggers each child once |
| RunStore.Store.CompleteRun | internal/store/run_state.go:14-52 | a completion writes the outcome, the dependents and the rearming, or rolls back |
| RunStore.Store.CompleteCallback | internal/store/run_state.go:200-243 | a callback with the right token in time writes the outcome, or nothing |
| RunStore.Store.ExpireCallbacks | internal/store/run_state.go:283-333 | the loop over expired rows times each out, with its retry or its exhaustion |
| RunStore.Store.ClaimRuns | internal/store/scheduler.go:154-184 | the picked rows become running under new tokens, with an event only for the pending ones |
| RunStore.Store.ClaimCommands | internal/store/executor_commands.go:34-61 | the picked commands are locked for half a minute and counted |
| RunStore.Store.CompleteCommand | internal/store/executor_commands.go:63-72 | only the live lock holder delivers a command |
| RunStore.Store.RetryCommand | internal/store/executor_commands.go:74-86 | only the live lock holder puts a command back |
| RunStore.Store.SetJobDependencies | internal/store/job_dependencies.go:8-40 | the parent's edges are replaced, or nothing changes |
| Dependencies.SetDependenciesExact | internal/store/job_dependencies.go:15-39 | an update is accepted exactly when the named jobs exist and differ and the new graph has no cycle |
| Dependencies.Descendants | internal/store/job_dependencies.go:29 | the recursive query finds exactly the jobs that can be reached |
| Dependencies.PathIsShort | internal/store/job_dependencies.go:21-39 | a path of an acyclic graph has no more members than there are jobs |
| ExecutorSafety.AcknowledgedRunsAreNeverLost | pkg/executor/grpc.go:185-206 | at every crash point an acknowledged run is cancelled, awaits its callback, was accepted by Core, or has a record on disk |
| ExecutorSafety.StepLosesNothing | pkg/executor/grpc.go:288-331 | no step removes a record whose run still needs it |
| ExecutorSlots.SlotsCountHandlers | pkg/executor/grpc.go:170-203 | a pool's occupied slots are its handlers that have not returned, and never more than its capacity |
| ExecutorSlots.HandlersStartOncePerEntry | pkg/executor/grpc.go:169-206 | over every run, however often a run is dispatched, the handlers started for it are as many as the times it was forgotten, plus one while it is remembered |
| ExecutorSlots.OnlyEndedEntriesAreForgotten | pkg/executor/grpc.go:569-586 | without a crash only an entry that has ended is forgotten; a running or waiting one stays |
| ExecutorSlots.ClosedServersTakeNothing | pkg/executor/grpc.go:161-169 | a server that drains, or whose directory has failed, takes on nothing more until it is started again |
| ExecutorDispatch.TakenExactly | pkg/executor/grpc.go:147-203 | a new run is taken exactly if its request is complete, its handler known, the server open, and there is room in its pool and in the directory |
| ExecutorDispatch.TakenUntil | pkg/executor/grpc.go:151-154 | what is taken is on disk, and in its handler's hands, with a deadline of its timeout in seconds from now, or the one it had when it is resumed |
| ExecutorDispatch.NotFailedBeforeItsTime | pkg/executor/grpc.go:440-472 | through any crashes and restarts, no recovery fails external work before its timeout has passed since it was taken |
| ExecutorDispatch.SavedAsReturned | pkg/executor/grpc.go:304-331 | what a handler returned is what is saved for its run, under its token |
| ExecutorDispatch.FinishesInFiveSteps | pkg/executor/grpc.go:288-346 | undisturbed, a returned handler ends with its completion on disk, its execution record gone and its entry ended |
| ExecutorSlots.EntriesEndOnce | pkg/executor/grpc.go:332-346 | over every run, between two dispatches an entry leaves running at most once, whoever ends it, and then stays as it is until it is forgotten |
| ExecutorHistory.PruneKeepsTheNewest | pkg/executor/grpc.go:569-586 | pruning keeps exactly the newest unexpired items within the limit with their entries, and every running or waiting entry |
| ExecutorHistory.SettleOk | pkg/executor/grpc.go:332-341 | a terminal transition moves only a running entry and keeps items and entries matched and in order |
| ExecutorRestarts.InterruptedRecoveries | pkg/executor/grpc.go:423-483 | through any number of crashes and restarts, recovery keeps the set of known runs, every completion and every deadline that is set, and adds only failures of runs on disk |
| ExecutorRestarts.RecoveriesBesideHandlers | pkg/executor/grpc.go:476-481 | the same while resumed handlers finish beside it: completions only come, for work that was on disk and under its token, no execution record appears or changes but to gain a deadline, and only runs whose handler awaits a callback are forgotten |
| ExecutorRestarts.FinishedRecovery | pkg/executor/grpc.go:423-483 | a recovery that ends without an error has dealt with every record it found, whatever resumed handlers did beside it: completed runs keep their completion, local and expired ones have a failed completion instead of their record, all others are resumed unless they expired before their turn |
| ExecutorRestarts.DirectoryAlwaysReopens | pkg/executor/completion_store.go:92-114 | over every run the directory stays within both limits, so it can always be opened again, and the counter lags by at most one, only in a server that has failed or is down |
| ExecutorRestarts.DriftsExactly | pkg/executor/completion_store.go:277-325 | whatever the step, exact counters stay exact unless it publishes a new execution record whose directory sync fails, and then they do not |
| ExecutorRestarts.CountersExactSinceOpening | pkg/executor/completion_store.go:92-115 | from any opening of the directory on, the counters are exact until such a sync fails |
| ExecutorServer.FileStore.Save | pkg/executor/completion_store.go:124-187 | a completion is published once and within the limit, and counted with its rename |
| ExecutorServer.FileStore.SaveExecution | pkg/executor/completion_store.go:277-325 | a request is published once, repeated freely, and may only gain a missing deadline |
| ExecutorServer.FileStore.DeleteExecution | pkg/executor/completion_store.go:369-395 | the record is removed and counted down, unless the removal fails |
| ExecutorServer.FileStore.Delete | pkg/executor/completion_store.go:242-275 | the execution record goes before the completion, at every point of failure |
| ExecutorServer.Server.Prune | pkg/executor/grpc.go:569-586 | the loop drops what the pruning function drops |
| ExecutorServer.Server.Settle | pkg/executor/grpc.go:332-346 | the critical section reports whether it made the transition |
| ExecutorServer.Server.Dispatch | pkg/executor/grpc.go:147-207 | the verdict, the directory, the slots and the entries are those of the machine's dispatch |
| ExecutorServer.Server.Finish | pkg/executor/grpc.go:288-364 | an outcome is saved before its execution record goes, so the run keeps a record; only a running entry is settled, and Core is told directly exactly when nothing could be saved |
| ExecutorServer.Server.Cancel | pkg/executor/grpc.go:588-655 | an execution record is erased only for a run cancelled in memory or, for external work, after its canceller agreed; an accepted answer means it is gone and nothing runs |
| ExecutorServer.Server.DeliverCompletions | pkg/executor/grpc.go:515-558 | what Core does not accept stays as it is, what it accepts loses both records unless a removal fails |
| ExecutorServer.Server.Reconcile | pkg/executor/grpc.go:440-472 | one record is left alone, failed or forgotten as its fate says, and no other run is touched |
| ExecutorServer.Server.RecoverExecutions | pkg/executor/grpc.go:423-483 | stopping anywhere no run is forgotten; finished, every local or expired record is a failed completion and exactly the others are resumed, none of which had a completion |
| OutboxSafety.PublishedWhenNothingPending | internal/store/outbox.go:422-445 | in every history an event with deliveries is published exactly when none is pending |
| OutboxSafety.EndedIsFinal | internal/store/outbox.go:300-340 | a delivery that ended never changes, and a published event neither changes nor gains deliveries |
| OutboxSafety.TerminalizeOk | internal/store/outbox.go:220-230 | ending a channel's pending deliveries publishes exactly the events no other channel keeps waiting |
| OutboxSafety.ClosedChannelsHaveNothingPending | internal/store/outbox.go:147-193 | in every history pending deliveries belong to channels that are enabled and not deleted |
| OutboxFanout.EventsFanOut | internal/store/outbox.go:300-367 | each listed open event gets a fresh delivery for exactly the channels in use by its tenant that listen to its topic and to its job or all jobs, or is published if there are none; other events stay |
| OutboxFanout.DeliveriesClaimed | internal/store/outbox.go:370-390 | a claim locks exactly the listed deliveries that are free, for half a minute, and counts the attempt |
| OutboxFanout.HoldersAnswer | internal/store/outbox.go:422-477 | exactly the live holder of a delivery can end it or put it back for later |
| OutboxFanout.ChannelsSwitchExactly | internal/store/outbox.go:147-230 | a channel is switched or deleted exactly under its present version by its own tenant; its subscription and the other channels stay, and exactly what it was waiting for is given up when it closes |
| OutboxStore.Notifications.PrepareDeliveries | internal/store/outbox.go:300-340 | the loop over events publishes or fans out each of them |
| OutboxStore.Notifications.InsertDeliveries | internal/store/outbox.go:335 | one pending delivery per matching channel, existing ones kept |
| OutboxStore.Notifications.ClaimDeliveries | internal/store/outbox.go:370-390 | the picked deliveries are locked and counted |
| OutboxStore.Notifications.FinishDelivery | internal/store/outbox.go:422-445 | only the live lock holder ends a delivery, and the last one publishes the event |
| OutboxStore.Notifications.RetryDelivery | internal/store/outbox.go:468-477 | only the live lock holder puts a delivery back |
| OutboxStore.Notifications.TerminalizeDeliveries | internal/store/outbox.go:220-230 | the two updates do what the single statement does |
| OutboxStore.Notifications.SetEnabled | internal/store/outbox.go:147-174 | disabling a channel ends its pending deliveries, under the right version only |
| OutboxStore.Notifications.DeleteChannel | internal/store/outbox.go:176-193 | deleting a channel ends its pending deliveries, under the right version only |
| Schedule.Due | internal/schedule/misfire.go:26-53 | wherever the search for the next time ends, that time is the first of the schedule's times after now, whatever the policy; catching up fires the passed times up to the limit |
| Schedule.PassedIsOrbit | internal/schedule/misfire.go:42-52 | the passed times are the orbit of the schedule up to now, and the next time is the one that follows |
| Schedule.FirstAfterIsAfter | internal/schedule/misfire.go:42-52 | whatever the schedule, the next time it settles on is after now |
| Schedule.PassedAscends | internal/schedule/misfire.go:42-52 | the passed times increase strictly and start with the first due one |
| Schedule.MisfiresExactly | internal/schedule/misfire.go:27-41 | later than two seconds a due time is dropped or fired now, as the policy says, and catching up takes the first of the passed times, ten by default |
| Schedule.Preview | internal/schedule/calculator.go:14-32 | as many of the following times as asked for, unless the schedule ends or fails |
| Schedule.FollowingAscends | internal/schedule/calculator.go:14-32 | previewed times increase strictly and lie after the cursor |
| Schedule.EndsExactly | internal/schedule/misfire.go:42-52 | the search ends exactly when some time of the schedule is missing or after now |
| Schedule.FixedAdvances | internal/schedule/calculator.go:69-74 | a fixed schedule moves forward, as far as it answers, exactly when its duration, as an int64, is positive |
| Schedule.FixedSearchEndsExactly | internal/schedule/misfire.go:42-52 | for a fixed schedule that is due, the search ends exactly when that duration is positive, or the schedule starts at the zero time or meets it going backwards |
| Schedule.FixedMeetsZero | internal/schedule/misfire.go:42-52 | a schedule that goes backwards onto the zero time ends without a next time |
| Schedule.FixedNeverPasses | internal/schedule/calculator.go:69-74 | a schedule that neither moves forward nor meets the zero time has all its times, and none after now |
| Schedule.FixedAdvancesWithoutOverflow | internal/schedule/calculator.go:69-74 | up to 9223372036 seconds the duration is the product itself, so positive |
| Schedule.FixedOverflows | internal/schedule/calculator.go:69-74 | beyond that it can be negative, far too small, zero or a small step back |
| Quartz.Next | internal/schedule/quartz_calendar.go:188-214 | the search answers the least matching instant after its argument, fails on the first month with a negative day, or finds nothing in 1200 months |
| Quartz.LeastMatchIsFound | internal/schedule/quartz_calendar.go:188-214 | if the least match lies within the months searched and no month up to it has a negative day, it is the answer |
| Quartz.SmallOffsetsAreNeverRejected | internal/schedule/quartz_calendar.go:216-247 | up to L-28 no month has a negative day |
| Quartz.LargeOffsetsCanFailForNothing | internal/schedule/quartz_calendar.go:195-202 | asked on the first of any February of 28 days for L-29 of March, the search fails although 2 March matches |
| Quartz.DaysAreExact | internal/schedule/quartz_calendar.go:216-264 | dayInMonth answers exactly the day its rule stands for: L-n the day with n days after it, nW and LW the workday nearest to their day, nL the last and n#k the k-th such weekday, or 0 for none |
| Quartz.NearestIsNearest | internal/schedule/quartz_calendar.go:249-264 | nearestWeekday gives a Monday to Friday of the month with no nearer one in it |
| Quartz.FiresThatFriday | internal/schedule/quartz_calendar.go:188-264 | 56 34 12 15W 8 matches Friday 14 August 2026 at 12:34:56 |
| Quartz.LastOfIsLast | internal/schedule/quartz_calendar.go:232-235 | nL gives the last such weekday of the month |
| Quartz.NthOfIsNth | internal/schedule/quartz_calendar.go:236-243 | n#k gives the k-th such weekday of the month, or 0 exactly when there are fewer |
| Quartz.DaysAreInTheMonth | internal/schedule/quartz_calendar.go:216-247 | a rule's day is never past the month, and negative only for L-n with n above the month's length |
| Quartz.DayRange | internal/schedule/quartz_calendar.go:176-186 | the loop ends with the cyclic interval of ((end - start) mod 7) + 1 days |
| Quartz.Normalize | internal/schedule/quartz_calendar.go:108-174 | a day is selected exactly when some item reaches it in whole steps |
| Calendar.MonthStep | internal/schedule/quartz_calendar.go:209-211 | months follow each other without gap or overlap |
| Calendar.NewYear2000 | internal/schedule/quartz_calendar.go:249-250 | 1 January 2000 was a Saturday |
| Routing.ConsistentHash | internal/core/routing.go:65-84 | the sorted ring, the binary search and the wrap-around give the node behind the key's successor |
| Routing.RemovalMovesNoOtherKey | internal/core/routing.go:65-84 | without collisions, removing a node that was not chosen leaves the choice of every key |
| Routing.AdditionMovesKeysOnlyThere | internal/core/routing.go:65-84 | without collisions, adding a node moves a key to that node or not at all |
| Routing.Search | internal/core/routing.go:79 | the binary search finds the first position at or after the key |

## Left out

- Overlapping transactions: isolation levels, row locks and advisory locks are replaced by atomic steps, as said above.
- SQL text, row scanning, connection and commit failures; a failed commit is a transaction that did not happen.
- The query that selects due jobs, expired callbacks and due commands: its rows are arguments, and a row that no longer qualifies is passed over. `RunQueue.QueueStep` takes the due jobs to be listed once each, as the query does.
- `schedule.Due` inside EnqueueDue, for all but fixed delays: the plan it returns is an argument there; `Schedule.Due` treats it on its own. All jobs of one batch see the same instant.
- The route cursor and use counts of ReserveExecutorRoute, override addresses, executor labels and the listing of live nodes: the nodes of a broadcast are an argument, already filtered and sorted.
- Response codes, bodies, messages, inputs and last-run columns, which decide nothing that is modelled.
- Deleting jobs, purging history and dropping partitions; MarkClaimedWaitingCallback, AssignClaimedRunExecutor and the plain outbox helpers, which nothing calls.
- ActivateClaimedRunToken (internal/store/run_logs.go:22-34), which the services do not call: it would give a running row a callback, so that a callback is no longer there exactly while waiting.
- Job administration is a function of the tables only (`RunSystem.CreateJob`, `UpdateJob`, `SetJobEnabled`, `RollbackScript`), with no method in `RunStore.Store`; the validation of job fields and the script revisions themselves are left out.
- RunClaims.JobCapacity: says the cap that holds is any bound on the widened caps of the runs claimed, since the query widens it per run.
- RunFanout.ParentChainsAreShort: needs the graph to stay within one acyclic graph; edges that were replaced in between can lengthen a chain.
- ExecutorServer.Server.Finish: one goroutine from end to end; how several interleave is the matter of `ExecutorMachine`, and the same holds for Cancel and the delivery of completions.
- ExecutorServer.Server.RecoverExecutions: one goroutine, beside which no resumed handler runs; `ExecutorRestarts.RecoveriesBesideHandlers` and `FinishedRecovery` are about the handlers that do.
- ExecutorSafety.AcknowledgedRunsAreNeverLost: a completion counts as accepted by Core also when Core refuses it for good, as an invalid, unknown or repeated one (pkg/executor/grpc.go:560-567).
- Opening the state directory with lower limits than before, which it may refuse; its temporary files, which it removes.
- Executor request contents beyond what dispatch and recovery look at, and retries of reportCompletion, which are one answer from Core.
- An executor configured without a state directory, which keeps no promise across crashes.
- Durability below a rename followed by a directory sync.
- Schedule.Due: asks that the search for the next time ends, since the loop has no result otherwise.
- Go's zero time as the next time of a job row: job administration and rearming take one step from the present, and no single step of a fixed schedule from after the year 293 meets it (`Schedule.OneStepIsNotZero`).
- Parsing of cron fields and of calendar rules, the cron library (its Next is the least match within five years), time zones other than a fixed offset, daylight saving.
- MD5: the hash is any function from keys to numbers; routing strategies other than consistent hashing.
- Notification channel configuration (with the check of its list of jobs), encryption, senders and backoff, and the lock columns of outbox events.
- Authentication, REST, CLI, metrics and the other services of the repository.
