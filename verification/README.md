# A verified model of the notification service and its task scheduler

The repository holds two queue engines and three smaller pieces, all modelled here in Dafny 4.11.

**Task scheduler.** A `tasks` table, a Redis read cache, a dead-letter table, and any number of replicas,
each with one ticker, a bounded channel and a pool of workers. `Scheduler.dfy` is the state machine: one
event per committed transaction, Redis command, channel operation or callback, one for the death of a process
and one for a start with its recovery, so that every interleaving of clients, tickers, workers, crashes and
starts is a run. `RetryAutomaton.dfy` is one task by itself, and `Simulation.dfy` proves that every machine step
is, for each task, one move of that automaton. The conclusions are in `SchedulerTheorems.dfy` (ownership, retries,
cache), `SchedulerTermination.dfy` (finite work), `SchedulerProgress.dfy` (nothing is stuck), `SchedulerEdits.dfy`
(no edit is lost), `SchedulerRequests.dfy` (what was requested is done, and on time), `SchedulerRecords.dfy` (what is
cached and archived is the task) and `DeadLetters.dfy` (when a task is archived twice); `SchedulerWitnesses.dfy` has the runs that
break what does not hold. `PostgresRepo.dfy` and `TaskScheduler.dfy` are the program's own objects and loops; a ghost
trace ties their fields to a run of the machine, so the theorems hold of them.

**Notification engine.** A `notifications` table whose rows the workers overwrite whole, a channel, creators,
pollers, dispatch callbacks. `Notifications.dfy` is the machine, in which every database write may fail, workers may
panic, and the process may end at any moment and start again with nothing but the tables; `NotificationBounds.dfy` proves its inductive budget, `NotificationTheorems.dfy` the bounds,
`NotificationWitnesses.dfy` that they are met exactly, `NotificationRequests.dfy` that what was requested is what is
sent, and when a retry may be, `NotificationLosses.dfy` when a notification is lost for good,
`NotificationSystem.dfy` the objects and loops.

**Rate limiter.** `FixedWindows.dfy` is the counter and the rate it enforces, `RateLimitRegistry.dfy` the
double-checked registry under concurrent callers, `RateLimiter.dfy` the objects.

**Templates.** `Rendering.dfy` is the placeholder loop, `Templates.dfy` the table with its two lookup queries.

## What does not hold

- A task can get two dead-letter entries without any crash, recovery or reschedule: a worker that stalls between
  its failing `Update` and the `Get` after it sees the FAILED status that a later attempt wrote (`DeadLetterTwice`).
  In any state that a run without such events reaches and in which the last attempt may still fail, some
  continuation without them archives the task twice if and only if some worker, of whatever replica, lags there
  (`TwiceIffLaggard`).
- The repository's README says replicas can run side by side without double delivery. Starting one beside another
  breaks that: its recovery reverts rows that the other is working on, and both run the callback, without a crash
  (`RecoveryDuplicates`). At most one owner at a time holds after a step exactly when the step is no start that meets
  a held row and no reschedule of a held row (`ExclusiveOwnership`); exactly one owner for each claimed row holds
  after a step exactly when it is, besides, no crash of a process with claimed work (`ExactOwnership`), and the next
  safe start restores it (`RecoveryRestores`).
- The backoff of 2^n * 2 seconds is what the int64 arithmetic yields exactly when n <= 32; the 33rd is negative.
- A notification is not processed once. A new row is both PENDING and on the channel, and two tokens and
  2 * (maxRetry + 1) sends are both possible (`SendsBoundIsTight`). Dispatch callbacks that overlap multiply this
  (`TokensBoundIsTight`); there is at most one dispatch exactly when they do not overlap (`SerialIffOneDispatch`).
- The limit of 100 notifications is exceeded by k - 1 with k creators at once (`CapIsTight`).
- A notification can be lost. The engine has no recovery, so a PROCESSING row of which nobody holds a copy stays as it
  is for good (`StrandedForGood`); a failed scan of claimed rows leaves one (`FailedScanStrands`), and so do a failed
  write after a send (`FailedWriteStrands`) and every orderly shutdown with a claimed job on its way (`ShutdownStrands`,
  `Shutdown`). This happens to no notification in a run, with any number of shutdowns and crashes, exactly when no step
  of it takes the last copy of a PROCESSING row (`AlwaysServedIff`).
- A row whose holder crashed waits for the next start: with a process up, everything can finish exactly when every row
  in flight is held by somebody (`EverythingCanFinish`).
- Rendering can depend on the order in which the map is ranged over, and need not be the simultaneous substitution. For
  a map of any size whose placeholders cannot overlap, as those of keys without braces cannot (`BraceFreeKeys`), it is
  independent of the order exactly when no value can take part in the placeholder of another variable, other than one
  whose value is its own placeholder (`OrderFreeIffSeparate`). The request handler also accepts keys with braces; with
  overlapping placeholders a template no longer says which of them it has (`OverlapIsAmbiguous`), and harmless values
  do not help (`BracesMatter`).

## Assumptions

- One monotone clock, in nanoseconds; it does not advance inside a step.
- Arguments stand for what the methods cannot know: the answer of a provider, a callback or the task scheduler, and
  in the notification engine and the template table whether each database statement succeeds (insert, update, count,
  lookup, claim and scan, dead-letter insert, upsert).
- Task scheduler: repository calls succeed, Redis `Del` succeeds, and `Get` (read, then write back) is one step.
- `SKIP LOCKED` is an arbitrary set of rows that the claim ignores; the order of the returned rows is arbitrary.
- A generated notification id is new.

## Model

| member | source | states |
|---|---|---|
| SchedulerTheorems.ExclusiveOwnership | internal/scheduler/repository/postgres.go:167-214 | over every safe run of any number of replicas, whatever crashes, a QUEUED row has at most one waiting copy, a PROCESSING row at most one worker, others none; the next step keeps this if and only if it is safe |
| SchedulerTheorems.ExactOwnership | internal/scheduler/repository/postgres.go:167-214 | over every gentle run the QUEUED rows are exactly the waiting copies and the PROCESSING rows the busy workers; the next step keeps this if and only if it is gentle, that is safe and no crash with work in hand |
| SchedulerTheorems.RecoveryRestores | internal/scheduler/repository/postgres.go:216-233 | after any crashes, a start that meets no held row makes ownership exact again; it loses no row and reverts exactly the rows in flight |
| SchedulerTheorems.SingleProcessOwnership | internal/scheduler/service/scheduler.go:42-61 | with one replica, crashes and starts at any moment never revive a task; until a reschedule of it in flight does, it has at most one owner, and exactly one for every claim whenever the process is up |
| SchedulerTheorems.ExclusiveIffSafe | internal/scheduler/handler/task_handler.go:90-103 | one step keeps at most one owner everywhere if and only if it neither reschedules a held row nor recovers one |
| SchedulerTheorems.ExactIffGentle | internal/scheduler/service/scheduler.go:42-61 | one step keeps exactly one owner for each claim if and only if, besides, it is no crash that takes one away |
| SchedulerTheorems.CopiesBounded | internal/scheduler/service/scheduler.go:93-106 | in every run whatever, executable copies plus one for a PENDING row never exceed one plus the revivals, and revivals never exceed reschedules plus recoveries |
| SchedulerTheorems.RetryHistory | internal/scheduler/service/worker.go:31-47 | as long as a task was never revived and no crash aborted a callback of it, its callback outcomes are F^k or F^k S, at most maxRetries + 1 long, and COMPLETED, FAILED and retry_count are functions of them |
| Simulation.StepSimulates | internal/scheduler/service/worker.go:19-48 | every step of the concurrent machine is, for every task, an allowed move of its own retry automaton |
| RetryAutomaton.NextKeeps | internal/scheduler/service/worker.go:81-113 | every move keeps ownership, retry counting, spacing, cache coherence and the archive invariant |
| RetryAutomaton.NextAttends | internal/scheduler/service/scheduler.go:82-107 | every move but a crash leaves a row in flight with somebody who may still run or record a callback, whatever was rescheduled or recovered before; a recovery restores this |
| SchedulerTheorems.CallbacksBounded | internal/scheduler/service/worker.go:82-92 | callbacks started by a task never revived never exceed maxRetries + 1 + crashes |
| SchedulerTheorems.StatusChanges | internal/scheduler/service/worker.go:19-47 | as long as nothing crashed and it was never revived, a task changes status at most 3 * (maxRetries + 1) times, and a third of them is its recorded attempts |
| SchedulerTermination.WorkIsFinite | internal/scheduler/service/worker.go:19-48 | from any reachable state and in any run whatever, at most as many steps move a task's row or copies as its measure says, plus ten for each later start and ten for each try that a later reschedule gives back; so at most its measure if the run has neither, whatever crashes and whatever other tasks do |
| SchedulerTermination.MoveUses | internal/scheduler/service/worker.go:81-113 | in any state of a task, with any number of copies: claim, enqueue, dequeue, mark, key deletion, outcome, record, look and burial each strictly decrease the measure; no other move increases it, but a recovery by at most one try and a reschedule by at most all of them |
| SchedulerTermination.NewTaskWork | internal/scheduler/handler/task_handler.go:29-45 | a new task takes at most ten steps for each of its maxRetries + 1 tries, if it is not rescheduled and no process starts |
| SchedulerTermination.RunsAreFinite | internal/scheduler/service/scheduler.go:42-61 | from every reachable state, whatever was revived before, every run without new tasks, reschedules and recoveries makes at most as many effective steps as all measures add up to, with any number of crashes |
| SchedulerTermination.GoroutinesAreEffective | internal/scheduler/service/worker.go:19-48 | every claim of a row and every step of channel and workers is one of the effective steps |
| SchedulerProgress.Progress | internal/scheduler/service/scheduler.go:82-107 | with every row in flight held by somebody, whatever was revived before: while a task is unfinished and a process is up, the goroutines and the clock can always bring about one more effective step |
| SchedulerProgress.EverythingCanFinish | internal/scheduler/service/worker.go:19-48 | in every reachable state with a process up, tickers, workers and the clock alone can bring every task to COMPLETED or FAILED if and only if every row in flight is held by somebody; which is so if nothing has crashed at all or since the last start |
| SchedulerTheorems.BackoffRespected | internal/scheduler/service/worker.go:87-90 | an attempt of a task never revived that starts after k <= 32 failures starts at least 2^(k+2) - 4 seconds after the first of them, over the whole run |
| Tasks.BackoffExactness | internal/scheduler/service/worker.go:88-90 | the int64 delay is 2^n * 2 seconds if and only if n <= 32 |
| Tasks.BackoffOverflows | internal/scheduler/service/worker.go:89-90 | the 33rd delay is negative |
| SchedulerTheorems.CacheStaleness | internal/scheduler/repository/postgres.go:49-107 | an id with no pending invalidation is read correctly on every field but the status, terminal statuses are read exactly, others differ only among unfinished ones |
| SchedulerTheorems.DeadLetters | internal/scheduler/service/worker.go:98-109 | every entry of a task never revived records maxRetries + 1 failures, in runs with crashes and reschedules at rest too; without any crash and reschedule so far, entries exist only if the row is FAILED, there are at most one more than workers lagged at the final failure, and a FAILED task has one as soon as no worker is between recording the final failure and archiving it |
| DeadLetters.TwiceIffLaggard | internal/scheduler/service/worker.go:99-107 | in every reachable state with the last attempt under way and no crash, reverting recovery or reschedule so far, a continuation without crash, recovery and reschedule archives the task twice if and only if some worker lags before its `Get` |
| DeadLetters.LaggardDuplicates | internal/scheduler/service/worker.go:99-107 | whatever other tasks, channels and replicas hold, a laggard beside the last attempt of a task not archived yet lets a run archive the task twice |
| SchedulerWitnesses.DeadLetterTwice | internal/scheduler/repository/dlq.go:18-28 | a run from the empty system, of a task with one retry and a callback URL in a replica with two workers, that leaves two dead-letter entries |
| SchedulerWitnesses.RecoveryDuplicates | internal/scheduler/repository/postgres.go:216-233 | a run in which the start of a second replica, without any crash, puts one task in two callbacks at once |
| SchedulerTheorems.NeverSaturated | internal/scheduler/service/scheduler.go:85-106 | the channel and the unsent batch together never exceed the capacity, so the bypass branch is never taken |
| SchedulerTheorems.InFlightBounded | internal/scheduler/service/scheduler.go:86-105 | in every reachable state at most one row per channel slot and worker is held; at most as many are QUEUED or PROCESSING if nothing has crashed since the last start, whatever was rescheduled or recovered, or if every claim has its one owner |
| SchedulerTheorems.JobsAreCurrent | internal/scheduler/service/worker.go:52-65 | URL, payload, retry limit and creation time of every record in the batch, in the channel or with a worker are those of the current row |
| SchedulerEdits.NoEditIsLost | internal/scheduler/handler/task_handler.go:90-97 | in every run, whatever claims, workers, retries, crashes and recoveries happen in between, title and description of a row are those of its creation with all edits applied in commit order |
| SchedulerEdits.NoRescheduleIsLost | internal/scheduler/handler/task_handler.go:97-104 | in every run, as long as a task has not failed since, its execution time is that of its creation or of the last reschedule of it in commit order |
| SchedulerEdits.EditsCommute | internal/scheduler/handler/task_handler.go:90-97 | an edit of title or description of a known task and any other step of the machine, but an edit of the same task, leave the same table in either order |
| SchedulerRequests.RequestKept | internal/scheduler/handler/task_handler.go:22-45 | from the creation on, in every run, the row and every record in a batch, a channel or a worker's hands has the id, URL, payload and retry limit of the request, three if that was not positive |
| SchedulerRequests.CreatedOnTime | internal/scheduler/handler/task_handler.go:36-40 | in every run without a reschedule, a new task is neither claimed nor its callback started before the time of the request, or its creation if there was none, and until it is claimed it is ready exactly from then on |
| SchedulerRequests.RescheduledOnTime | internal/scheduler/handler/task_handler.go:97-104 | after a reschedule of a task that nobody can execute the same holds of the new time, with all retries; an edit without a time changes neither time, status nor retries, and no edit changes another row |
| SchedulerRequests.RetriedOnTime | internal/scheduler/service/worker.go:82-92 | after a failure recorded while nobody else can execute the task, with retries left, the same holds of now plus 2^(n+1) seconds for failure number n up to 32, and of the int64 delay beyond |
| SchedulerRequests.ClaimsInOrder | internal/scheduler/repository/postgres.go:167-214 | a claim takes only PENDING rows that are due and unlocked, none twice, within the free slots that were read; such a row is left behind only if these are used up by rows due no later; no other row changes |
| SchedulerRequests.HistoryIsTrue | internal/scheduler/service/worker.go:19-48 | callbacks started, their outcomes and the first failure, as the laws above count them, are the marks, the returns and the first recorded failure of the machine |
| SchedulerRecords.ArchivedIsTheTask | internal/scheduler/repository/dlq.go:18-28 | in every reachable state each dead-letter entry is FAILED and has the id, URL, payload, retry limit and creation time of its task, and so has each cached record |
| SchedulerRecords.ArchivedAsRequested | internal/scheduler/service/worker.go:99-109 | in every run from its creation on, a task is archived with the URL and payload of its request |
| SchedulerTheorems.Drained | internal/scheduler/service/scheduler.go:64-71 | if nothing has crashed since the last start, then once channels are empty and workers idle no row at all is left QUEUED or PROCESSING, whatever was rescheduled or recovered |
| SchedulerTheorems.RecoveredAllHeld | internal/scheduler/repository/postgres.go:216-233 | if nothing has crashed since the last start, or nothing at all, every QUEUED or PROCESSING row is held by somebody who may still run or record its callback, whatever was rescheduled or recovered |
| PostgresRepo.TaskRepo.Create | internal/scheduler/repository/postgres.go:35-47 | inserts unless the id exists, and says which |
| PostgresRepo.TaskRepo.Get | internal/scheduler/repository/postgres.go:49-107 | the cached record, else the row, which is then cached; None for an unknown id |
| PostgresRepo.TaskRepo.Update | internal/scheduler/repository/postgres.go:109-165 | the closure is applied to the current row, the key is dropped, and an unknown id changes nothing |
| PostgresRepo.TaskRepo.ClaimReadyTasks | internal/scheduler/repository/postgres.go:167-214 | claims exactly the earliest PENDING rows that are due and unlocked, up to the limit, leaves another such row behind only if the limit is used up by rows due no later, changes nothing else, and returns the claimed rows as QUEUED |
| PostgresRepo.TaskRepo.RecoverTasks | internal/scheduler/repository/postgres.go:216-233 | the whole table after recovery |
| TaskSchedulers.TaskScheduler.constructor | internal/scheduler/service/scheduler.go:24-39 | non-positive worker count or capacity becomes the default; nothing is queued |
| TaskSchedulers.TaskScheduler.ExecuteCallback | internal/scheduler/service/worker.go:52-79 | an empty URL succeeds, otherwise the endpoint's answer decides, and the outcome joins the task's history |
| TaskSchedulers.TaskScheduler.HandleFailure | internal/scheduler/service/worker.go:81-113 | counts the failure on the current row, delays it by the backoff or fails it, and archives exactly the row that became FAILED, as it is, under this second unless that is taken; every other entry is as before |
| TaskSchedulers.TaskScheduler.Process | internal/scheduler/service/worker.go:19-48 | one turn of the worker loop: the head of the channel is executed, its row completed, retried after the backoff or failed, with no other column changed, and archived exactly in the last case |
| TaskSchedulers.TaskScheduler.TickOnce | internal/scheduler/service/scheduler.go:84-107 | one tick claims the earliest due rows, as many as the channel has room for, and enqueues all of them in order; a due unlocked row is left behind only if the channel is full then; a full channel claims nothing |
| TaskSchedulers.TaskScheduler.Stop | internal/scheduler/service/scheduler.go:64-71 | draining empties the channel and leaves no row at all in flight, also after reschedules and after restarts of the process |
| TaskSchedulers.TaskScheduler.Reboot | internal/scheduler/service/scheduler.go:42-61 | crash and start: channel and workers are lost, the table is recovered |
| TaskSchedulers.TaskScheduler.CreateTask | internal/scheduler/handler/task_handler.go:22-59 | a new PENDING row with every field of the request, three retries if it asks for none and now if it asks for no time; for a known id the stored task and an unchanged table |
| TaskSchedulers.TaskScheduler.UpdateTask | internal/scheduler/handler/task_handler.go:76-115 | the texts that were given, and with a time that time, PENDING and no retries, else time, status and retries as they were; not found if and only if the id is unknown |
| NotificationTheorems.TokensBounded | internal/service/system.go:147-189 | live copies plus one for a PENDING row never exceed two per dispatch (two if none), though writes fail, workers panic and the process ends and starts again |
| NotificationTheorems.SendsBounded | internal/service/system.go:155-181 | sends made plus all sends that copies and row can still cause never exceed 2 * (maxRetry + 1) per dispatch |
| NotificationTheorems.SerialBounds | internal/handler/notification_handler.go:157-177 | with dispatches that do not overlap, two tokens and 2 * (maxRetry + 1) sends are the most in any run |
| NotificationTheorems.SerialIffOneDispatch | internal/handler/notification_handler.go:157-169 | a notification has at most one dispatch throughout a run if and only if its dispatches do not overlap |
| NotificationTheorems.TableCapped | internal/service/system.go:236-243 | from a table within that bound, rows plus admitted creators never exceed 99 + k with at most k creators between check and save |
| NotificationBounds.StepBudgeted | internal/service/system.go:306-321 | every step of creators, pollers, callbacks and workers, and every end of the process, keeps the budget of every notification |
| NotificationWitnesses.SendsBoundIsTight | internal/service/system.go:272-284 | for every retry limit a run sends one immediate notification 2 * (maxRetry + 1) times |
| NotificationWitnesses.TokensBoundIsTight | internal/handler/notification_handler.go:157-177 | for every d a run with d overlapping dispatches has 2 * d copies in circulation |
| NotificationWitnesses.CapIsTight | internal/service/system.go:236-243 | for every k a run with at most k creators at once reaches 99 + k rows |
| NotificationLosses.StepServed | internal/service/system.go:147-205 | one step leaves a PENDING or PROCESSING notification without copy and without claimable row if and only if it takes the last copy of a PROCESSING row: its goroutine gives up, its worker panics, the write of its outcome fails, or the process ends |
| NotificationLosses.AlwaysServedIff | internal/service/system.go:305-322 | throughout a run, with any number of shutdowns and crashes of the process, every PENDING or PROCESSING notification has a copy or a claimable row if and only if no step of the run does that |
| NotificationLosses.StrandedForGood | internal/repository/postgres/notification_repository.go:124-134 | a PROCESSING row without copies, callbacks and a creator still at work on it stays as it is in every further run, also of new processes, and is never sent again |
| NotificationLosses.FailedScanStrands | internal/repository/postgres/notification_repository.go:148-154 | for every positive retry limit a run with one failed scan strands a notification after its first send |
| NotificationLosses.FailedWriteStrands | internal/service/system.go:183-188 | for every retry limit a run with one failed write strands a notification that was sent |
| NotificationLosses.ShutdownStrands | cmd/notification-service/main.go:113-124 | for every retry limit a run in which every statement succeeds and the process ends strands a notification that has two copies and was never sent |
| NotificationSystems.NotificationRepo.Save | internal/repository/postgres/notification_repository.go:22-58 | stores the row, with the global owner if it has none, if and only if the id is new and the database accepts it |
| NotificationSystems.NotificationRepo.Update | internal/repository/postgres/notification_repository.go:60-83 | overwrites every column but the owner of a known row; changes nothing otherwise |
| NotificationTheorems.VisibilityFixed | internal/repository/postgres/notification_repository.go:85-115 | at any later time of any run a user can read a notification if and only if the user created it, it belongs to nobody in particular, or the user is the system; no write of workers, pollers and callbacks changes that |
| NotificationRequests.NotificationKept | internal/service/system.go:258-271 | from the save on, in every run, the row and every copy, on the channel, with goroutines and workers and in the dead-letter table, has the recipient, template, variables, kind and owner of the request; while SCHEDULED, the row has the time that was asked for |
| NotificationRequests.RetryRespected | internal/service/system.go:171-181 | in every run, after a recorded failure of the last copy with retries left, the notification is PENDING with one retry more and the reason, is neither claimed nor sent before 2^n seconds after failure number n, and until it is claimed is ready exactly from then on |
| NotificationSystems.NotificationRepo.GetReadyJobs | internal/repository/postgres/notification_repository.go:117-171 | claims exactly the oldest PENDING rows that are due and unlocked, fifty at most, and changes nothing else; a failed statement claims none, a failed scan returns none of those it claimed |
| NotificationSystems.NotificationSystem.SendEmail | internal/service/system.go:32-101 | succeeds if and only if the recipient is not the fixed one, the template resolves and can be read, and the provider accepts; the provider's own refusal comes back; what it is handed is always the user's template after one pass for each variable in some order, and, if the values are separate and the template is readable for the keys, that template with every placeholder substituted |
| NotificationSystems.NotificationSystem.Process | internal/service/system.go:147-189 | for every provider answer and every combination of failing statements: a stored outcome is SENT if and only if the provider was asked and accepted, else one retry more with the provider's reason, PENDING after the backoff or DLQ with the retries used up; what was to be sent is unchanged, and exactly a final failure is archived, with it; one send is counted if its kind has a sender |
| NotificationSystems.NotificationSystem.CreateNotification | internal/service/system.go:231-287 | refused, leaving the table alone, if and only if shutting down, at the limit of 100, without a template, or the count, the lookup or the insert fails; otherwise the saved row with every field of the request and an owner, on the channel if immediate and there is a slot |
| NotificationSystems.NotificationSystem.PollOnce | internal/service/system.go:305-322 | the oldest due rows are claimed and go on the channel in order: all of them, or as many as fill it, and none at shutdown or after a failed query |
| NotificationSystems.NotificationSystem.Shutdown | internal/service/system.go:289-294 | afterwards no creator is admitted and nothing is forwarded; a worker has taken some prefix of the channel, only rows of that prefix have changed, the rest of the channel is gone, and every row then PROCESSING is lost for good |
| NotificationSystems.NotificationSystem.Create | internal/handler/notification_handler.go:73-97 | the table and the answer in every case: the row has every field of the request; a scheduled notification whose delegation fails is refused, and marked DLQ with the reason if that write succeeds |
| NotificationSystems.NotificationSystem.DispatchCallback | internal/handler/notification_handler.go:149-177 | each answer with its exact condition; a SCHEDULED row becomes PENDING and is queued if there is a slot |
| NotificationSystems.NotificationSystem.TokensHold | internal/service/system.go:276-284 | the copies on the object's channel, with its workers and with the goroutines on their way to the channel, plus its PENDING row, stay within two per dispatch |
| FixedWindows.WindowRate | internal/ratelimit/ratelimit.go:25-41 | with a positive duration, any span that with the clock skew is k durations long sees at most (k + 1) * maxTokens grants |
| FixedWindows.WindowRateIsTight | internal/ratelimit/ratelimit.go:25-41 | for every k that many grants do occur |
| FixedWindows.VerdictExact | internal/ratelimit/ratelimit.go:30-40 | with a positive duration and a window that starts full, a call is granted if and only if fewer than maxTokens calls were granted since its window began, less than a duration ago |
| RateLimitRegistry.WindowsKept | internal/ratelimit/ratelimit.go:60-86 | over every interleaving a key has at most one window, never replaced, and no window is without a key |
| RateLimitRegistry.PerKeyLimiter | internal/ratelimit/ratelimit.go:60-106 | the verdicts of a key in lock order are those of one fixed window on that key's calls alone |
| RateLimitRegistry.KeyRate | internal/ratelimit/ratelimit.go:96-106 | the rate each key gets, with a positive duration, when the clock is read outside the lock and calls are decided within a latency |
| RateLimiter.FixedWindow.Allow | internal/ratelimit/ratelimit.go:25-41 | verdict and new window are those of the counter's function |
| RateLimiter.RateLimitSystem.GetOrCreate | internal/ratelimit/ratelimit.go:60-86 | the existing window, or a fresh full one; no other entry changes |
| RateLimiter.RateLimitSystem.Allow | internal/ratelimit/ratelimit.go:96-106 | the key's own window decides, all other windows keep their values |
| Rendering.OrderFreeIffSeparate | internal/service/system.go:44-48 | for a map of any size whose placeholders cannot overlap: all orders of all its variables render every template that has its placeholders exactly where its holes are alike, and as the simultaneous substitution, if and only if no value can take part in the placeholder of another variable (one whose value is its own placeholder aside) |
| Rendering.OrderIrrelevant | internal/service/system.go:44-48 | under that condition on the values, whatever the keys, any order of all variables renders such a template as the simultaneous substitution, with unknown keys untouched |
| Rendering.PlainValues | internal/service/system.go:46-48 | values without "{{" inside or '{' at the end satisfy that condition, whatever the keys |
| Rendering.BraceFreeKeys | internal/service/system.go:46-48 | keys without braces: their placeholders cannot overlap, and every well-formed template, of texts without "{{" inside or '{' at the end and placeholders without braces inside, has theirs exactly where its holes are |
| Rendering.WellFormedIffSeparate | internal/service/system.go:44-48 | for keys without braces the well-formed templates alone are rendered alike in all orders if and only if the values are separate |
| Rendering.OverlapIsAmbiguous | internal/service/system.go:46-48 | for any keys whose placeholders overlap, at any offset, one text is the print of a template that has the one and of a template that has the other there |
| Rendering.BracesMatter | internal/handler/notification_handler.go:26 | an instance: keys "a" and "a}}b" with plain values, and a well-formed template, rendered differently in the two orders |
| Rendering.OrderMatters | internal/service/system.go:46-48 | an instance: a map of two variables, one of whose values holds the other's placeholder, rendered differently in its two orders |
| Rendering.Render | internal/service/system.go:45-48 | the loop over the map, in an order nobody chooses, makes one pass for each variable; under that condition on the values it yields the simultaneous substitution on every such template |
| Templates.FirstIsView | internal/repository/postgres/template_repository.go:39-43 | under the primary key, the first row in the query's order exists if and only if the overridden global map has the name, and carries its body |
| Templates.ListingIsView | internal/repository/postgres/template_repository.go:60-82 | the map filled from any listing is the global map overridden by the user's |
| Templates.SaveChangesViews | internal/repository/postgres/template_repository.go:19-33 | exactly whose view a save changes, and how |
| Templates.SavesIsolated | internal/repository/postgres/template_repository.go:19-33 | after any saves a user's view is what the user's own and the global saves alone would give |
| Templates.TemplateRepository.Save | internal/repository/postgres/template_repository.go:19-33 | the table and every user's view after the upsert, or after its failure; an empty user is the global one |
| Templates.TemplateRepository.Get | internal/repository/postgres/template_repository.go:35-54 | the view's body, or an error exactly when the view lacks the name or the query fails |
| Templates.TemplateRepository.GetAll | internal/repository/postgres/template_repository.go:56-86 | the whole view, unless the query fails |

## Left out

- HTTP routing, JSON, logging, Auth0, Resend, configuration, migrations and the HTML pages; sends and callbacks may have any outcome.
- The internals of PostgreSQL and Redis; each statement is its effect on a map. Column widths and the INT range of `retry_count` are not modelled.
- Repository errors in the task scheduler: a failed update there leaves the row to the next recovery, and a start whose recovery query fails is not an event.
- A cache write-back that races with a commit: `Get` is one step here.
- `int(f)` of a float64 outside int64 follows amd64; other platforms differ.
- Overflow of the notification backoff shift for retry counts of 63 and more; the delay there is unbounded here.
- Durations and times are unbounded integers; saturation of `Time.Sub` after 292 years is not modelled.
- Interference inside one method: the classes run a goroutine's steps without interruption, interleavings are the state machines' part.
- The text of error messages beyond what decides a branch; a template that cannot be loaded is reported without its name.
- The HTTP handlers that only read, such as the dead-letter fallback of `GetByID`.
- `NotificationSystems.NotificationSystem` does not panic; panics are events of the state machine.
- A creator or poller that blocks on a full channel: the method returns with the copy still held, and the machine's `Push` completes it.
- Several notification processes on one table: the machine has one process at a time, which may end and start again.
- A SCHEDULED notification that was never handed to the task scheduler, since the process ended in between or the clean-up failed, is not among the losses counted.
- Shutdown races: `Stop` closing the channel during a tick, and the poller outside the wait group.
- The table drop at start-up in cmd/task-scheduler/main.go; recovery is modelled over a surviving table.
- Scheduled delivery end to end: the scheduler's callback carries no Bearer header, which the dispatch endpoint requires.
- The dead-letter primary key is the pair of task id and second.
- The idempotency repository, the token cache, and the push and SMS senders beyond their arbitrary outcome.
- WindowRateIsTight: needs a duration of at least two nanoseconds, since with one each instant is its own window.
