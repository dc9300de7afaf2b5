# Verified model of go-keylane

go-keylane is an in-process scheduler. A submitter hashes a key to a shard and pushes a job into a
bounded ring buffer, one per lane of the shard. Workers receive shard ids ("tokens") from a channel,
drain every lane of the shard up to its quota, run the batch outside the lock, and send the token
again if work remains. On top of that sit pipelines whose stages may yield, a hot-key tracker with
per-key admission, bounded retry, versioned quota policies with an adaptive controller, an autoscaling
signal, and composite keys.

This project models that behaviour in Dafny and proves what it promises. `dafny verify dfyconfig.toml`
checks all of it.

## How the model is laid out

| files | what they hold |
|---|---|
| `Basics`, `Jobs`, `Protocol` | shared facts, and the scheduler as labelled steps: one step per locked region or atomic operation, in any interleaving of any number of threads |
| `Tokens`, `Accounting`, `Drain`, `Fairness`, `Service` | what every run of that machine keeps: tokens, counters, the drain verdict, order of service; and that the work can always be done and the scheduler stopped |
| `LaneQueue`, `ShardQueues`, `WorkerLedger` | the sequential code as classes and loops; `ShardQueues` and `WorkerLedger` show that they take the machine's steps |
| `Registry`, `Continuations` | the continuation registry, and pipelines with yielding stages as labelled steps |
| `SingleDriver`, `Answers`, `Meaning`, `StageOrder`, `Progress`, `Stranding`, `Cancellation` | one driver per request, one answer per continuation, same result as the synchronous runner, stages in order, termination and completion, the one way an answer is lost, and what the end of a context does |
| `HotKeys`, `PerKeyAdmission`, `AdmissionRules`, `KeyHistory`, `HotKeyTracker` | the tracker and per-key admission as functions with their laws over event sequences, when exactly a key is refused, what a slot says about the events it saw, and the in-place class that computes it all |
| `Backoff`, `Failures`, `Retry` | backoff in 64-bit durations, the two error classifiers, then the decision, duplicate safety, the loop and the pipeline's one-step form |
| `Quotas`, `QuotaStore`, `Adaptive`, `AdaptiveRuns`, `AdaptiveTick` | quota snapshots and concurrent updaters, the evaluator, and the controller beside other updaters |
| `PolicyRuns` | the scheduler and the quota updaters side by side |
| `ScaleSignal`, `CompositeKey` | the consecutive-window rule; the length-prefixed key encoding and its decoder |

Time is an integer clock, ratios and backoff are reals, the key hash is an arbitrary number, and what
user code does (outcomes, answers, hooks, cancelled contexts, jitter draws) is an arbitrary parameter. So
is what a platform makes of a floating-point number that does not fit a duration.

## What the proofs showed about the code

- A token given up in a context-cancelled send (`submit.go:62`, `internal/core/process_shard.go:149`)
  is gone for good: the shard keeps its ready flag, nobody sends its id again, and its jobs are never
  run. `Tokens.NoLostWakeup` shows that this is the only way to lose one, `Tokens.AbandonedShardStarves`
  that it is final, and `Tokens.AbandonReachable` gives the run.
- The `default` branches of the non-blocking sends (`try_submit.go:59`,
  `submit_pipeline_continuation.go:43`) cannot be taken, and the "late resolution" return of the
  resolver (`submit_pipeline_continuation.go:391-395`) cannot be reached.
- A continuation goes by the context its stage gave `NewContinuation` until the runner puts the
  request's in its place (`continuation.go:226-234`, `submit_pipeline_continuation.go:292`). A completer
  call that takes that context and finds it ended spends the completer's one shot and delivers nothing
  (`continuation.go:175-178`); the runner then waits for an answer that cannot come, and the request
  hangs until its own context ends. `Answers.NoAnswerIsLost` shows that this is the only way an answer
  is lost, `Stranding.StrandedForever` that it is final, and `Stranding.HangReachable` gives the run. A
  stage is safe if the context it passes lasts for the completer calls made before the runner has
  adopted the continuation; the context the stage itself was given ends only with the request's.
- A versioned lane update that names a version not published yet can be accepted and still wipe out
  another updater's change: `Quotas.UpdatesCanBeLost` gives such a run of a new scheduler for every
  version above zero and every other lane. Naming a version that already exists is exactly what rules
  this out (`Quotas.LaneUpdatesAreSafe`).
- Construction puts no upper bound on a lane's quota, but a single-lane update copies all lanes, cuts
  them to 32 bits (`internal/core/quota_policy.go:141`) and validates them again. So a lane configured
  above `MaxLaneQuota` makes every update of another lane fail, unless what 32 bits keep of it is in
  range: then the update is accepted and rewrites it too (`Quotas.EditAccepted`,
  `Quotas.WideQuotaIsCut`). This can only happen to the first update after construction, and does
  exactly when another lane was configured beyond 32 bits (`Quotas.LaneUpdatesAreSafe`).
- A key whose hash is zero shares the mark of a free tracker slot, so a submit or an enqueue of it
  starts its slot afresh and forgets its mitigation (`PerKeyAdmission.ZeroHashForgets`). Nothing else
  does: without such an event its mitigation holds like that of any key
  (`PerKeyAdmission.MitigationSticks`).
- The backoff is computed in floating point and cut at the cap only after its conversion to a duration
  (`retry_policy.go:400-411`). Where a number too large to convert becomes a negative one, the delay
  drops to zero from the first attempt whose exponential does not fit (`Backoff.WaitCollapses`); while it
  fits, the delay never shrinks (`Backoff.WaitGrows`).
- The retry loop and the pipeline form classify one error differently: a failure marked retryable that
  wraps a deadline error is retried by the loop and is a timeout to the pipeline form
  (`Retry.WrappedDeadlineDiffers`). `Failures.ClassifiersAgree` gives the exact errors on which they
  agree, and `Retry.PipelineRetriesExactly` what follows for retries.
- With `allow` as the default per-key action, a key that is throttled for being hot is let through again
  once the shard is overloaded (`PerKeyAdmission.OverloadRelents`), because the overload branch applies
  the default action as it is and the last branch does not.
- The overload counts that `decreaseReasonForClass` checks for normal lanes
  (`internal/core/adaptive_quota_eval.go:258-260`) never matter: a normal lane only gets there under
  high pressure (`Adaptive.WhyLanesMove`).
- The comment on `CompositeKey` gives the length of "tenant-42" as 8 (`httpkeylane/key.go:74`); the
  code writes 9, and the model follows the code (`CompositeKey.LengthIsInBytes`).

## Model

| member | source | states |
|---|---|---|
| `Jobs.PassConserves` | internal/core/process_shard.go:26-40 | what one pass takes and what it leaves are together exactly what was queued, by any way of counting jobs |
| `Jobs.BatchInLaneOrder` | internal/core/process_shard.go:26-40 | a batch holds the front of each lane, as much as its quota allows, lane after lane |
| `Protocol.RouteShard` | internal/core/route.go:4-6 | a key hash always routes to an existing shard |
| `Protocol.RoutesAround` | internal/core/route.go:4-6 | hashes below the shard count go to their own number, and every shard count hashes on it starts over |
| `Protocol.AdmittedExactly` | internal/core/scheduler.go:267-322 | a TrySubmit gets past the gate exactly while the scheduler is started, any other submission exactly while it is not being stopped |
| `Protocol.ShapeKept` | internal/core/process_shard.go:13-153 | no step of any thread overfills a lane, sends an id of no shard, or touches a thread other than its own |
| `Protocol.QuietEffect` | internal/core/shutdown.go:9-71 | starting, stopping, draining, counting and sending leave queues, history and in-flight counters alone |
| `Tokens.TokenStep` | internal/core/process_shard.go:43-55 | every step of every thread keeps, for every shard, live tokens plus abandoned ones equal to the ready flag |
| `Tokens.NoLostWakeup` | internal/core/enqueue.go:33-38 | in every interleaving a shard has at most one live token, none when not ready, and exactly one when ready unless one was abandoned; a non-empty shard has one if and only if none was abandoned |
| `Tokens.OnlyCancelledSendsLose` | submit.go:59-65 | the two context-cancelled branches are the only steps that ever give a token up |
| `Tokens.WakeupsSurvive` | submit.go:54-65 | without an abandoned send, every shard with work has exactly one live token |
| `Tokens.AbandonedShardStarves` | internal/core/process_shard.go:145-152 | once a shard's token was abandoned, no later run ever takes a job from it |
| `Tokens.AbandonReachable` | submit.go:60-64 | one submit whose context ends before its send already leads there |
| `Tokens.ChannelIsFifo` | internal/core/worker.go:9-21 | over any run, shards are taken up in the order in which their tokens were sent |
| `Tokens.RoomForHolder` | internal/core/scheduler.go:68-68 | whoever holds a token finds room in the channel, because channel contents are distinct shard ids |
| `Tokens.SendsAlwaysDeliver` | try_submit.go:56-62 | in every run, also before start, a sender's step is enabled and delivers its token |
| `Accounting.ConserveStep` | internal/core/process_shard.go:47-88 | every step keeps accepted jobs equal to queued plus held plus ended ones, for any way of counting |
| `Accounting.OneFate` | internal/core/process_shard.go:66-143 | in every run each accepted job is in exactly one place or ended in exactly one way |
| `Accounting.FlightStep` | internal/core/process_shard.go:47-54 | every step keeps the global, per-shard and per-lane in-flight counters equal to what workers really hold |
| `Accounting.InflightAgrees` | internal/core/process_shard.go:49-53 | global in-flight equals both the sum over shards and the sum over lanes |
| `Accounting.BookStep` | internal/core/lane_counters.go:204-231 | every step keeps the admission and outcome counters tied to what happened |
| `Accounting.WorkConserved` | internal/core/scheduler.go:267-295 | at quiescent points of every run, per lane: accepted = queued + in flight + completed + failed + cancelled, and submitted + pressure-rejected = accepted + rejected |
| `Drain.NoPushAfterGate` | internal/core/scheduler.go:274-279 | once stopping is set no push can happen any more |
| `Drain.ClearStep` | internal/core/drain.go:9-17 | a shard found empty while stopping stays empty with no popped job hidden inside its critical section |
| `Drain.VerdictSound` | internal/core/drain.go:5-20 | a full scan followed by a zero in-flight read means all queues are empty and no popped job is unfinished |
| `Drain.DrainSound` | internal/core/shutdown.go:25-43 | after a positive scan, at every later point of every run, every accepted job has ended and stays ended |
| `Drain.DrainedOnlyByScan` | internal/core/drain.go:18-19 | only the second in-flight read of a full scan gives that verdict |
| `Service.ScanIsExact` | internal/core/drain.go:5-20 | undisturbed, the scan says yes if and only if nothing is in flight and every shard is empty |
| `Service.ScanGivesUpForCause` | internal/core/drain.go:6-19 | interleaved with anything else, a scan falls back exactly over a job it sees queued or in flight |
| `Service.WorkGetsDone` | internal/core/process_shard.go:13-153 | from any point of any run of started workers at which the other threads stand by and no token was given up, one worker can bring every accepted job to its end |
| `Service.GracefulStop` | internal/core/shutdown.go:9-71 | from any point of any run of a started scheduler at rest with no token given up, a draining stop can end with every accepted job ended, the scan positive and the scheduler stopped |
| `Service.StopAtOnce` | internal/core/shutdown.go:25-45 | a stop that does not drain cancels the workers whatever is queued |
| `Service.StartsOnce` | internal/core/scheduler.go:242-265 | a scheduler can be started exactly when it is new |
| `Service.NothingIsTakenBeforeStart` | internal/core/scheduler.go:242-262 | in every run nothing is taken from the queues before the start |
| `Service.NoJobStartsOnceCancelled` | internal/core/process_shard.go:65-81 | in every run no job is started after the workers were cancelled |
| `Service.CancelledExactly` | internal/core/scheduler.go:253-254 | the workers are cancelled by a stop or by the end of the context they were started with, and by nothing else |
| `Service.NothingIsDroppedBefore` | internal/core/process_shard.go:67-81 | in every run jobs are dropped unrun and workers' tokens given up only once the workers are cancelled |
| `Service.StopsExactly` | internal/core/shutdown.go:10-28 | a stop begins if and only if none has before and no submission is between the gate and its end |
| `Service.StoppedMeansCancelled` | internal/core/shutdown.go:45-62 | in every run the scheduler is marked stopped only after its workers were cancelled |
| `Service.LockedIsLeftAlone` | internal/core/process_shard.go:13-55 | while a pass is inside its critical section no other step changes the shard's queues or flag |
| `Fairness.FifoStep` | internal/core/lane_queue.go:58-80 | a pass takes exactly the first min(quota, depth) jobs of a lane, and other steps only append |
| `Fairness.LaneIsFifo` | internal/core/lane_queue.go:23-80 | over any run, jobs leave a lane in the order they were accepted, none skipped and none twice |
| `Fairness.ServedInTurn` | internal/core/process_shard.go:17-40 | a job leaves, in its turn, as soon as the quota offered to its lane exceeds its position |
| `Fairness.BoundedBypass` | internal/core/process_shard.go:20-40 | with quotas of at least q, the job at position p is gone after p/q + 1 passes over its shard, whatever else happens |
| `Fairness.LeavesWithinPositionPlusOne` | internal/core/process_shard.go:17-40 | passes with positive quotas, whatever they are, remove position p within p + 1 of them; that published quotas are positive is `PolicyRuns` below |
| `Fairness.WorkIsNeverStuck` | internal/core/worker.go:9-21 | a shard with work whose token was not abandoned has its id waiting in the channel, or a holder whose next step is enabled or waits only for the shard lock |
| `LaneQueues.LaneQueue.constructor` | internal/core/lane_queue.go:17-21 | a new ring is empty and has the given capacity |
| `LaneQueues.LaneQueue.Push` | internal/core/lane_queue.go:23-31 | the ring refines a FIFO sequence: a push appends, or fails exactly when full and changes nothing |
| `LaneQueues.LaneQueue.StampNewestAccepted` | internal/core/lane_queue.go:34-45 | only the job pushed last is stamped |
| `LaneQueues.StampsExactly` | internal/core/lane_queue.go:34-45 | the two times are set exactly where asked for, and the rest of the job stays |
| `LaneQueues.LaneQueue.Pop` | internal/core/lane_queue.go:47-56 | a pop returns and removes the front of the sequence, or reports that it is empty |
| `LaneQueues.LaneQueue.PopN` | internal/core/lane_queue.go:58-80 | moves the front of the queue to the end of the batch, clipped by limit, depth and room |
| `LaneQueues.JobBatch.Acquire` | internal/core/pool.go:24-30 | the batch is empty and has at least the capacity asked for |
| `LaneQueues.JobBatch.Reset` | internal/core/pool.go:9-14 | the batch is emptied and every slot cleared |
| `ShardQueues.ShardQueue.constructor` | internal/core/shard.go:13-21 | every lane of a new shard is empty, and the shard is not ready |
| `ShardQueues.ShardQueue.HasWorkLocked` | internal/core/shard.go:31-38 | true exactly when some lane is non-empty |
| `ShardQueues.ShardQueue.TotalDepthLocked` | internal/core/shard.go:23-29 | the number of jobs in all lanes |
| `ShardQueues.ShardQueue.EnqueueIntoShard` | internal/core/enqueue.go:17-39 | appends the stamped job and reports a shard that became ready, or fails without any change for an unknown lane or a full one |
| `ShardQueues.ShardQueue.CollectBatch` | internal/core/process_shard.go:20-46 | the batch holds exactly the first min(quota, depth) jobs of each lane (the capacity clip never bites), and ready is cleared exactly when nothing is left |
| `ShardQueues.PassRefines` | internal/core/process_shard.go:13-55 | the class's pass does what the machine's pop step does |
| `ShardQueues.EnqueueRefines` | internal/core/enqueue.go:17-39 | the class's enqueue does what the machine's push step does |
| `WorkerLedger.OutcomesPartition` | internal/core/process_shard.go:126-135 | whatever jobs return, completed, failed and cancelled ones make up the batch |
| `WorkerLedger.Ledger.Account` | internal/core/process_shard.go:47-54 | the whole batch is added to the three in-flight counters |
| `WorkerLedger.Ledger.DropRest` | internal/core/process_shard.go:67-81 | the unrun rest is taken off the in-flight counters and counted as cancelled |
| `WorkerLedger.Ledger.RunBatch` | internal/core/process_shard.go:65-143 | wherever cancellation hits, all the batch added to the in-flight counters is taken back and each job is counted under one outcome |
| `WorkerLedger.AccountMirrors` | internal/core/process_shard.go:47-54 | the class's accounting does what the machine's account step does |
| `WorkerLedger.DropMirrors` | internal/core/process_shard.go:67-81 | dropping the rest of a batch does what the machine's cancel step does |
| `WorkerLedger.JobsRun` | internal/core/process_shard.go:83-143 | the start, finish and settle steps of the first k jobs of a batch are a run of the machine, and its counters end up as the tally of those jobs |
| `WorkerLedger.RunMirrors` | internal/core/process_shard.go:65-143 | running a batch in memory up to a cancellation ends where that run ends |
| `Registry.RegisterKeeps` | continuation_registry.go:75-89 | registering keeps the census exact and both limits respected |
| `Registry.ResolveKeeps` | continuation_registry.go:103-131 | resolving keeps the census exact, and counts a found entry under exactly one outcome |
| `Registry.RegisterExactly` | continuation_registry.go:75-89 | a registration succeeds if and only if there is room below both limits, and only the entries of its own shard count against the second |
| `Registry.ResolveExactly` | continuation_registry.go:103-131 | resolving a pending entry removes it and raises the counter of its kind alone; otherwise it counts as late |
| `Registry.FoundOnce` | continuation_registry.go:103-110 | over any operations no id is resolved as found twice, in whatever order allocated ids are registered |
| `Registry.BooksBalance` | continuation_registry.go:118-131 | completed + failed + cancelled + pending = successful registrations, over any order of allocations, registrations and resolutions |
| `Registry.RegistrySafe` | continuation_registry.go:59-131 | from an empty registry, with allocation and registration as steps of their own in any interleaving: limits hold, the per-shard count is exact, the books balance and no id is found twice |
| `Registry.ContinuationRegistry.AllocId` | continuation_registry.go:68-71 | each id is one more than the one before, so none is zero or used twice |
| `Registry.ContinuationRegistry.Add` | continuation_registry.go:75-89 | the class does what the specification's registration does, and fails exactly without room |
| `Registry.ContinuationRegistry.Settle` | continuation_registry.go:103-131 | the class does what the specification's resolution does, and reports whether the entry was there |
| `Continuations.RunPipelineStages` | submit_pipeline.go:104-184 | the synchronous stage loop, with its check before each stage, gives the reference meaning or is stopped by a check; it ran a prefix of the stages, each once and in order, and exactly those before the check that stopped it |
| `SingleDriver.EntryStep` | submit_pipeline_continuation.go:323-381 | every step keeps each pending registry entry owned by exactly one resolver |
| `SingleDriver.ResolverFindsEntry` | submit_pipeline_continuation.go:381-395 | a resolver that is about to resolve finds its entry |
| `SingleDriver.DriverStep` | submit_pipeline_continuation.go:122-158 | every step keeps drivers + completions + discarded jobs of a request equal to one once submitted |
| `SingleDriver.OneDriverUntilDone` | submit_pipeline_continuation.go:178-515 | in every interleaving an accepted request has exactly one driver until its future completes and none after, so the future completes at most once, and exactly once unless its job was discarded at shutdown or it is still driven |
| `SingleDriver.NoLateResolution` | submit_pipeline_continuation.go:391-395 | the not-found branch is never taken in any run |
| `Answers.OneAnswerWins` | continuation.go:169-209 | in every run at most one Complete, Fail or Cancel call per continuation returns true, and an answer that is waiting or being acted on came from such a call |
| `Answers.NoAnswerIsLost` | continuation.go:171-190 | in every run, where a resolver waits on an empty buffer under a good request context, its completer has been called if and only if a call spent the shot after finding the stage's own context ended, which no call did if that context lasted for the calls made before adoption |
| `Stranding.StrandedForever` | submit_pipeline_continuation.go:342-379 | once so, no run completes the request before its own context ends |
| `Stranding.GlimpseStrands` | continuation.go:175-178 | while a resolver waits for a completer not yet called, a call that took the stage's context before adoption and found it ended can still strand it |
| `Stranding.HangReachable` | continuation.go:226-234 | for every pipeline whose first stage yields there is such a run of a new queue, free of faults and with every completer called |
| `Meaning.MeaningRun` | submit_pipeline_continuation.go:247-515 | every task of every run carries a state from which the synchronous runner still reaches the request's result |
| `Meaning.ResultIsSynchronous` | submit_pipeline_continuation.go:397-439 | whatever the interleaving, a completed request's result is what the synchronous runner gives for the attempt that completed it, unless the environment cut it short |
| `Progress.FaultFreeMeaning` | submit_pipeline_continuation.go:247-515 | with no deadline, cancellation or retry a request that has completed holds the result of the synchronous runner in which each yielding stage returns its answer |
| `Progress.RestMeansDone` | submit_pipeline_continuation.go:178-515 | in every run an accepted and undiscarded request none of whose drivers can move has exactly one result and no driver left, or a sole driver awaiting a completer that was never called or whose shot was wasted; the last is excluded if the contexts given to its continuations last for the calls made before adoption |
| `Progress.FaultFreeCompletion` | submit_pipeline_continuation.go:247-515 | in a fault-free run, once its completers were called and none of its drivers can move, a request's future holds exactly the result of the synchronous runner if and only if no shot was wasted, and none is if the contexts given to its continuations last for the calls made before adoption |
| `Progress.NoDeadEnds` | submit_pipeline_continuation.go:122-158 | from every point of every run each accepted and undiscarded request can still be completed exactly once, and without ending any context if those given to its continuations lasted for the calls made before adoption |
| `Progress.DriverDescends` | submit_pipeline_continuation.go:208-245 | every step of a driver ends the request or lowers (attempts left, stages left) lexicographically |
| `Progress.RequestsTerminate` | submit_pipeline_continuation.go:122-158 | every request takes fewer than MaxAttempts * (6 * stages + 6) driver steps in any run |
| `Progress.DriverCanMove` | submit_pipeline_continuation.go:342-379 | a driver other than one awaiting its answer always has an enabled next step |
| `Cancellation.ContextDecides` | submit_pipeline_continuation.go:260-308 | stages, registrations and retries need a good context, and a yielded stage and a waiting resolver are cut short exactly by its end |
| `Cancellation.NoStageOnceEnded` | submit_pipeline_continuation.go:260-268 | once a request's context has ended, wherever the request stands, in every run from there no further stage of it starts, no continuation is set up and no retry scheduled |
| `Cancellation.EndedWhileWaiting` | submit_pipeline_continuation.go:342-379 | the end of the context overrides an answer: if it has ended while the resolver waits, then in every run from there the result is none or an interruption, no stage runs, and the continuation counts as cancelled |
| `Cancellation.AnswersAreCounted` | continuation_registry.go:118-131 | in every run a settlement raises exactly the counter its answer names, or cancelled where the context had ended |
| `Cancellation.AnswersDecide` | submit_pipeline_continuation.go:397-439 | a value goes on to the next stage, an error fails the stage, a cancellation ends the attempt, whether answered or returned by the stage itself |
| `Cancellation.RetryStartsOver` | submit_pipeline_continuation.go:206-236 | a failed attempt that may be retried can be followed by the next one, which starts with the first stage and the initial state |
| `Cancellation.RefusalsEnd` | submit_pipeline_continuation.go:418-428 | a resumption or retry that cannot be queued, and a job whose context ended before it starts, complete the request at once as interrupted |
| `StageOrder.StagesRunInOrder` | submit_pipeline_continuation.go:247-274 | in every run the attempt that completed a request ran stages 0, 1, 2, ... once each and in order: all of them if it reached the end, up to the failing or cancelled one otherwise |
| `HotKeys.FirstFree` | internal/core/hotkey_tracker.go:232-238 | the slot found is the first free one |
| `HotKeys.Oldest` | internal/core/hotkey_tracker.go:239-248 | the slot found is the first with the least last-seen time |
| `HotKeys.Touch` | internal/core/hotkey_tracker.go:127-148 | touching keeps index and slots coherent and ends with the key in the slot returned |
| `HotKeys.ExpireExactly` | internal/core/hotkey_tracker.go:268-285 | expiry blanks exactly the stale slots and forgets exactly their keys |
| `HotKeys.IndexAgrees` | internal/core/hotkey_tracker.go:287-298 | a non-zero hash is indexed at a slot if and only if that slot holds it |
| `HotKeys.IndexBounded` | internal/core/hotkey_tracker.go:226-228 | whatever is in the slots, the index never has more entries than there are slots |
| `HotKeys.KeysLeaveForAReason` | internal/core/hotkey_tracker.go:230-252 | one observation drops a tracked key only if it is stale, or if all slots hold fresh keys and none was seen longer ago |
| `PerKeyAdmission.TotalsAgree` | internal/core/hotkey_tracker.go:195-209 | totals that skip stale entries equal plain totals after expiry |
| `AdmissionRules.TotalsAddUp` | internal/core/hotkey_tracker.go:197-209 | the totals are the sums over the taken slots that are not stale, where a queue counts for at least none |
| `AdmissionRules.HeatExactly` | internal/core/per_key_policy.go:110-150 | a key is hot if and only if some share of it reaches its threshold, dominant if moreover one reaches 0.7, and its ratio is the largest share |
| `AdmissionRules.RefusedExactly` | internal/core/per_key_policy.go:283-351 | a tracked fresh key is refused if and only if, in its counts and the settings, it is not excused and it queues or runs too much, was rejected often enough, is cooling down, or is hot enough and either the shard is overloaded and the default is not to allow, or it is not and the pressure counts |
| `AdmissionRules.AnswerExactly` | internal/core/per_key_policy.go:283-396 | action, reason, retry time and remaining cooldown of the answer, by the rule that decides, and what it leaves in the slot |
| `AdmissionRules.UnknownIsAllowed` | internal/core/per_key_policy.go:229-257 | keys without a slot or with a stale one are let through, and all are when tracker or policy is off |
| `PerKeyAdmission.DryRunAgrees` | internal/core/per_key_policy.go:183-366 | in every coherent tracker state the dry run answers as the real evaluation does; only the remaining cooldown may differ, and only when the evaluation restarts it |
| `PerKeyAdmission.IndexSafe` | internal/core/hotkey_tracker.go:41-55 | from a new tracker, after any observations and evaluations at any times, the index agrees with the slots and fits them |
| `PerKeyAdmission.EventsKeepFreshKeys` | internal/core/hotkey_tracker.go:239-251 | the same rule for every kind of event: an evaluation never drops a fresh key |
| `PerKeyAdmission.CountersStayNonNegative` | internal/core/hotkey_tracker.go:93-96 | over any events the queued and in-flight counts of every slot stay at least zero |
| `KeyHistory.EntryTellsHistory` | internal/core/hotkey_tracker.go:61-125 | while a key keeps its slot, its counts are the numbers of its events, and the time it was last seen is that of its last observation or recorded decision |
| `KeyHistory.HistorySinceSlot` | internal/core/hotkey_tracker.go:287-298 | a key gets its slot with its first submission or queued job and everything else from nothing, so its counts are the numbers of events since |
| `KeyHistory.StaleIsForgotten` | internal/core/hotkey_tracker.go:150-170 | any other observation of a key that has gone stale forgets it and frees its slot |
| `KeyHistory.SweepsStale` | internal/core/hotkey_tracker.go:61-81 | a submission, an enqueue or an evaluation of another key sweeps a stale key out |
| `PerKeyAdmission.HeatGrows` | internal/core/per_key_policy.go:110-150 | a key with more queued, submitted or waited against the same totals is never judged cooler |
| `PerKeyAdmission.PressureNeverHelps` | internal/core/per_key_policy.go:321-350 | unless the default action is to allow, more shard pressure never turns a refusal into an admission |
| `PerKeyAdmission.OverloadRelents` | internal/core/per_key_policy.go:325-350 | with allow as the default action, overload admits exactly the keys that were throttled for their heat alone |
| `PerKeyAdmission.MitigationSticks` | internal/core/per_key_policy.go:283-323 | once mitigated, a key is refused at every later attempt less than a cooldown after the previous one, for any number of attempts and any other events, if never evicted; for hash zero, if also never submitted or enqueued meanwhile |
| `PerKeyAdmission.RefusalHolds` | internal/core/per_key_policy.go:368-396 | every refusal starts such a mitigation |
| `PerKeyAdmission.RecoveryOpens` | internal/core/per_key_policy.go:288-297 | past the recovery window a key that is not hot is let in and its mitigation record wiped |
| `PerKeyAdmission.ZeroHashForgets` | internal/core/hotkey_tracker.go:134-137 | after a submit or an enqueue of the key with hash zero its next attempt is judged without its mitigation: it is refused exactly after an enqueue where one queued job is already the limit |
| `PerKeyAdmission.ZeroHashHeld` | internal/core/per_key_policy.go:299-301 | that key can be under mitigation when this happens |
| `HotKeyTrackers.HotKeyTracker.constructor` | internal/core/hotkey_tracker.go:41-55 | a new tracker is empty, and has no slots when disabled |
| `HotKeyTrackers.HotKeyTracker.ExpireStaleEntries` | internal/core/hotkey_tracker.go:268-285 | the in-place scan computes the specified expiry |
| `HotKeyTrackers.HotKeyTracker.RemoveSlotFromIndex` | internal/core/hotkey_tracker.go:254-266 | exactly the index entries of the slot go |
| `HotKeyTrackers.HotKeyTracker.ChooseSlot` | internal/core/hotkey_tracker.go:230-248 | the two scans find the first free slot, or else the first least recently seen one |
| `HotKeyTrackers.HotKeyTracker.TouchKey` | internal/core/hotkey_tracker.go:127-148 | the in-place touch computes the specified one |
| `HotKeyTrackers.HotKeyTracker.ObserveSubmit` | internal/core/hotkey_tracker.go:61-70 | expires, touches and counts a submission, as specified, and keeps index and slots coherent |
| `HotKeyTrackers.HotKeyTracker.ObserveEnqueue` | internal/core/hotkey_tracker.go:72-81 | the same for an enqueue |
| `HotKeyTrackers.HotKeyTracker.EntryIfFresh` | internal/core/hotkey_tracker.go:150-161 | finds exactly the tracked keys, and blanks the slot first if it went stale |
| `HotKeyTrackers.HotKeyTracker.ObserveDequeue` | internal/core/hotkey_tracker.go:83-97 | takes one off the queued count of a tracked key, never below zero |
| `HotKeyTrackers.HotKeyTracker.ObserveReject` | internal/core/hotkey_tracker.go:99-111 | counts a rejection of a tracked key |
| `HotKeyTrackers.HotKeyTracker.ObserveQueueWait` | internal/core/hotkey_tracker.go:113-125 | adds the wait to a tracked key; a wait of zero changes nothing |
| `HotKeyTrackers.HotKeyTracker.ObserveInflightStart` | internal/core/per_key_policy.go:398-410 | adds one to the in-flight count of a tracked key |
| `HotKeyTrackers.HotKeyTracker.ObserveInflightEnd` | internal/core/per_key_policy.go:412-426 | takes one off it, never below zero |
| `HotKeyTrackers.HotKeyTracker.Totals` | internal/core/per_key_policy.go:259-269 | the loop sums the occupied slots |
| `HotKeyTrackers.HotKeyTracker.TotalsForObservation` | internal/core/hotkey_tracker.go:197-209 | the loop sums the occupied slots that are not stale |
| `HotKeyTrackers.HotKeyTracker.EvaluateAdmission` | internal/core/per_key_policy.go:210-351 | for real it computes the specified evaluation; as a dry run it leaves every slot and the index as they were |
| `Retry.Normalize` | retry_policy.go:239-262 | an enabled policy ends up with at least one attempt and positive backoff, cap, multiplier, jitter fraction and reserve |
| `Retry.NormalizeFills` | retry_policy.go:239-262 | what a policy means by what it leaves unset, value by value |
| `Backoff.FirstWait` | retry_policy.go:385-411 | the first retry waits the initial backoff cut at the cap, 10 and 250 milliseconds unless set |
| `Backoff.BaseMultiplies` | retry_policy.go:400-404 | each further attempt multiplies the uncapped exponential, by two unless set |
| `Backoff.WaitExactly` | retry_policy.go:405-408 | while it fits, the wait is the whole part of the exponential, or the cap if that is less |
| `Backoff.DelayExactly` | retry_policy.go:409-424 | without jitter the delay is the wait; with it the whole part of the wait moved by the offset, and never negative |
| `Backoff.DrawsSpread` | retry_policy.go:417-419 | draws spread evenly from the whole fraction off to the whole fraction on |
| `Backoff.WaitBounds` | retry_policy.go:385-411 | the wait is never above the cap, whatever the platform does with numbers that do not fit, and never negative where they fit |
| `Backoff.WaitGrows` | retry_policy.go:400-411 | with a multiplier of at least one, waits never shrink from one attempt to the next while the exponential fits a duration |
| `Backoff.WaitCollapses` | retry_policy.go:400-424 | where it does not fit and converts to a negative duration the delay is zero |
| `Backoff.DelayBounds` | retry_policy.go:407-424 | jitter adds at most its fraction, so the cap holds up to that fraction, for every attempt and on every platform |
| `Backoff.DelayFloor` | retry_policy.go:412-424 | where nothing overflows, jitter takes off at most its fraction |
| `Backoff.DrawsAreWithin` | retry_policy.go:414-419 | every draw from zero to one moves the wait by at most its fraction |
| `Failures.ClassifiersAgree` | future.go:93-110 | the exact errors on which the loop's classifier and the pipeline's agree: those without a context error, the budget spent before a stage, and those the loop classifies as that context error |
| `Failures.ClassOfChain` | failure.go:146-172 | wrapping does not change an error's class; the outermost typed failure decides, and without one what lies at the bottom |
| `Failures.ApplicationIsHeard` | failure.go:130-144 | the application's classifier is heard exactly on errors without a typed failure and unless it answers that it does not know |
| `Retry.RulingIsExact` | idempotency.go:112-159 | a repeat is allowed if and only if the job is declared safe, waived, or vouched for by its hook, and has its key where one is required |
| `Retry.RulingReasons` | idempotency.go:112-175 | the reason given for a ruling, in order of precedence; a hook's own reason is kept unless it contradicts its answer or is missing |
| `Retry.RunWithRetry` | retry_policy.go:439-637 | every attempt but the last failed and was granted another, the last ended the loop for the reason reported, and the retries asked for are recorded in order |
| `Retry.RunsAreBounded` | retry_policy.go:461-461 | with retry enabled the handler runs at most MaxAttempts times, the fall-through return is unreachable, and running out is reported |
| `Retry.LoopEnds` | retry_policy.go:461-637 | how the loop ended, if and only if what happened around its last attempt calls for it |
| `Retry.RecordsTell` | retry_policy.go:528-579 | what is recorded of each attempt that asked for a retry |
| `Retry.UnsafeRunsOnce` | idempotency.go:132-158 | a job that may not be repeated runs at most once |
| `Retry.RetriesQualify` | retry_policy.go:305-382 | every attempt that was followed by another failed in a way the policy retries, with a live context and leave to repeat, and its wait and reserve fitted the deadline |
| `Retry.RetryIsGranted` | retry_policy.go:305-382 | a retry is granted, in the loop and in the pipeline form, if and only if the failure is of a listed kind or, without a list, retryable or of a custom kind marked so, and nothing else stands against it |
| `Retry.LoopGoesOn` | retry_policy.go:461-628 | over the whole loop, an attempt is followed by another if and only if it failed so, under a good context, and its sleep was not cut short |
| `Retry.StopReasons` | retry_policy.go:305-358 | which reason a refused retry is given: the first of those that hold, in their order |
| `Retry.PipelineAgrees` | retry_policy.go:682-808 | on errors classified alike the pipeline form schedules a retry exactly when the loop would, with the same delay, and gives the same reason except for a cancellation past the last attempt |
| `Retry.PipelineRetriesExactly` | retry_policy.go:694-808 | over all errors: it retries what the loop retries unless the error carries a context error, and such an error exactly if the policy lists its kind |
| `Retry.WrappedDeadlineDiffers` | failure.go:130-144 | a failure marked retryable that wraps a deadline error is one on which the classifiers differ |
| `Quotas.BuildSnapshot` | internal/core/quota_policy.go:35-72 | succeeds exactly for acceptable policies, with every lane's own quota or the default; otherwise reports a fault the policy has |
| `Quotas.AcceptableExactly` | internal/core/quota_policy.go:35-66 | a policy is acceptable if and only if its default and the quotas it names, for existing lanes, are from 1 to 1024; each lane then has its own or the default |
| `Quotas.EditTouchesOneLane` | quota_policy.go:76-92 | copying the policy out, overwriting one lane and refilling sets that lane and cuts the others to 32 bits; it changes that lane alone if and only if all others are below 2^32 |
| `Quotas.EditAccepted` | quota_policy.go:72-96 | exactly when a single-lane edit is accepted, including what the other lanes must satisfy once cut to 32 bits |
| `Quotas.VersionsIncrease` | internal/core/quota_policy.go:82-93 | in every interleaving of updaters published versions strictly increase |
| `Quotas.NoLostUpdate` | internal/core/quota_policy.go:115-134 | a lane update whose expected version was not ahead of the snapshot it read is its immediate predecessor with one lane changed, except exactly the first after construction when another lane was configured at 2^32 or above |
| `Quotas.LaneUpdatesAreSafe` | quota_policy.go:62-70 | plain lane updates always, and versioned ones naming an existing version, lose no other updater's change, with the same exact exception |
| `Quotas.FutureVersionLoses` | quota_policy.go:68-96 | from any state in which an updater read its snapshot under a version not yet published, some continuation accepts its update and loses another lane's quota |
| `Quotas.GetAhead` | quota_policy.go:68-96 | a versioned lane update of a new scheduler that names any version above zero gets past its reads |
| `Quotas.UpdatesCanBeLost` | quota_policy.go:68-110 | so for every such version and every other lane there is a run of a new scheduler that accepts the update and loses that lane's quota |
| `Quotas.WideQuotaIsCut` | internal/core/quota_policy.go:137-144 | whenever the first plain lane update of a new scheduler is accepted, it rewrites every other lane configured at 2^32 or above |
| `Quotas.WideQuotaExample` | internal/core/quota_policy.go:141-141 | a lane configured with 2^32 + 5 has 5 after the other lane was updated |
| `Quotas.PositiveRun` | internal/core/quota_policy.go:35-72 | from positive quotas at construction, in every interleaving of updaters, every published quota is positive |
| `PolicyRuns.StartsSound` | internal/core/lane_registry.go:20-47 | a new scheduler, whose lanes all have quotas of at least one, satisfies what joint runs start from |
| `PolicyRuns.WorkIsLegal` | internal/core/process_shard.go:17-18 | in every joint run of workers and updaters, with passes that load the active snapshot, the scheduler's half is a run of the scheduler |
| `PolicyRuns.PublishedPoliciesServe` | internal/core/process_shard.go:17-40 | whatever policies are published meanwhile, the job at position p of a lane is gone after p + 1 passes over its shard |
| `QuotaStore.Store.Publish` | internal/core/quota_policy.go:82-93 | the version goes up by one and the snapshot carries it |
| `QuotaStore.Store.UpdatePolicy` | internal/core/quota_policy.go:98-112 | publishes exactly acceptable policies of a running scheduler, otherwise changes nothing |
| `QuotaStore.Store.UpdatePolicyIfVersion` | internal/core/quota_policy.go:115-134 | the same, and only while the expected version is active |
| `QuotaStore.Store.CurrentView` | internal/core/quota_policy.go:137-144 | the copy has every lane under its name, cut to 32 bits |
| `QuotaStore.Store.UpdateLaneQuotaIfVersion` | quota_policy.go:72-110 | accepted exactly under the stated conditions; it sets one lane and cuts the others to 32 bits, so one lane changes if and only if the others are below 2^32 |
| `QuotaStore.Store.UpdateLaneQuota` | quota_policy.go:62-65 | undisturbed, it does the same and never conflicts |
| `Adaptive.Take` | internal/core/adaptive_quota_eval.go:127-149 | takes as many candidates as there is room for, and none is passed over for one of lower rank |
| `Adaptive.Evaluate` | internal/core/adaptive_quota_eval.go:21-152 | the budget goes to lowering first, to raising with what is left, in each case to the best-ranked candidates; every other lane holds |
| `Adaptive.RaisesComeLast` | internal/core/adaptive_quota_eval.go:138-149 | if anything is raised, every lane that should be lowered was |
| `Adaptive.WhyLanesMove` | internal/core/adaptive_quota_eval.go:55-106 | what must hold for a lane to be raised or lowered, by class; a normal lane is lowered only under high global pressure |
| `Adaptive.LowersExactly` | internal/core/adaptive_quota_eval.go:55-89 | a lane is to be lowered if and only if it takes part, may be, has room, and pressure is high for its class or it is a background or best-effort lane overloaded itself |
| `Adaptive.RaisesExactly` | internal/core/adaptive_quota_eval.go:55-106 | a lane is to be raised if and only if it takes part, may be, has room, pressure is low and it waits too long, with the stated exceptions |
| `Adaptive.ReasonsByClass` | internal/core/adaptive_quota_eval.go:211-266 | the reason of a change names the class |
| `Adaptive.HoldReasons` | internal/core/adaptive_quota_eval.go:55-118 | why a lane holds: the first of the reasons that apply, in their order |
| `Adaptive.DecisionsSayWhy` | internal/core/adaptive_quota_eval.go:38-118 | every decision carries the reason of its lane, or none where only the budget was missing |
| `Adaptive.MovesOneStep` | internal/core/adaptive_quota_eval.go:154-176 | a change is by one step, cut at the lane's own bound |
| `Adaptive.ClassesInOrder` | internal/core/adaptive_quota_eval.go:268-290 | best effort is lowered before background before normal, critical is raised before normal before background |
| `Adaptive.UsesBudget` | internal/core/adaptive_quota_eval.go:121-149 | a tick makes as many changes as are wanted, up to its budget, which is at least one |
| `Adaptive.MixedTicksAreLocal` | internal/core/adaptive_quota_eval.go:67-82 | a tick that both raises and lowers lowers only lanes that are themselves overloaded |
| `Adaptive.WithinBudget` | internal/core/adaptive_quota_eval.go:121-136 | no tick decides on more changes than allowed |
| `Adaptive.ChangeIsSafe` | internal/core/adaptive_quota_eval.go:154-176 | a change moves the quota the way it says and not past its bound; one inside the range stays inside; a cooling lane is never changed |
| `AdaptiveRuns.ChangesAreSpaced` | internal/core/adaptive_quota_controller.go:159-239 | beside any other updaters, a tick publishes at most one decision and two changes of one lane are a cooldown apart |
| `AdaptiveRuns.ChangesStayInRange` | internal/core/adaptive_quota_controller.go:198-230 | every published change keeps a quota in range in range and is its immediate predecessor with one lane changed, except exactly the first update after construction when another lane was configured at 2^32 or above |
| `AdaptiveTick.Controller.Tick` | internal/core/adaptive_quota_controller.go:159-239 | an undisturbed tick changes nothing, or sets one lane that wanted to move and was not cooling, with the others cut to 32 bits and so unchanged if and only if they are below 2^32, and restarts only that lane's clock |
| `ScaleSignal.EvaluateTriggers` | internal/core/scale_signal.go:191-240 | unhealthy exactly when some trigger fires, and the reason is the one of highest priority |
| `ScaleSignal.UnhealthyExactly` | internal/core/scale_signal.go:191-240 | the condition of each trigger, any of which makes a sample unhealthy |
| `ScaleSignal.LeaderIsFirst` | internal/core/scale_signal.go:191-240 | the reason is the first trigger to hold, in their order |
| `ScaleSignal.ScopeExactly` | internal/core/scale_signal.go:161-189 | the scope is one shard exactly for the triggers and samples that a single hot shard explains |
| `ScaleSignal.Calculator.Configure` | internal/core/scale_signal.go:459-473 | configuring forgets the streak and the last sample |
| `ScaleSignal.Calculator.Calculate` | internal/core/scale_signal.go:62-144 | updates the streak as specified, recommends exactly under the specified condition, and gives the reason and scope of the trigger that fired, or why there is none |
| `ScaleSignal.DataBeforeTriggers` | internal/core/scale_signal.go:91-127 | too little data, and pressure that hot keys explain, are said before any trigger, exactly when they apply |
| `ScaleSignal.WindowsExactly` | internal/core/scale_signal.go:105-143 | a sample counts as a window if and only if it has data and none was counted since configuration or the last is a window old |
| `ScaleSignal.Hysteresis` | internal/core/scale_signal.go:105-143 | over any calls, a sample is answered with a recommendation if and only if it has data, is unhealthy and not localized, and the last ConsecutiveWindows advancing samples since configuration were all unhealthy, each a window after the one before |
| `ScaleSignal.TroubleLasted` | internal/core/scale_signal.go:130-142 | a recommendation rests on trouble over at least ConsecutiveWindows - 1 whole windows |
| `CompositeKey.Encode` | httpkeylane/key.go:77-94 | the loop writes the non-empty parts, each with its length in front, with bars between |
| `CompositeKey.NonEmptyConcat` | httpkeylane/key.go:81-85 | what is kept of a list of parts is what is kept of its pieces, in order |
| `CompositeKey.EmptyPartsVanish` | httpkeylane/key.go:82-85 | an empty part anywhere makes no difference |
| `CompositeKey.KeyGrows` | httpkeylane/key.go:86-91 | a part is written as its decimal length, a colon and its bytes, and keys of pieces are joined by a bar |
| `CompositeKey.DecimalValue` | httpkeylane/key.go:89-89 | lengths are written in decimal without a leading zero |
| `CompositeKey.RoundTrip` | httpkeylane/key.go:70-76 | a decoder recovers exactly the list of non-empty parts, whatever bytes they hold |
| `CompositeKey.NoCollisions` | httpkeylane/key.go:75-76 | two lists of parts get the same key if and only if their non-empty parts are the same list, so lists without empty parts if and only if they are the same |

## Left out

- HTTP middleware, Prometheus and OpenTelemetry adapters, debug and stats snapshots, and hook dispatch: input, output and field copying.
- Configuration validation and normalization other than the retry policy's: one-branch facts.
- Overload and admission thresholds, retry-suppression thresholds and backend leases: decision tables and counters. Suppression is an arbitrary boolean inside the retry loop.
- Panics inside a job or a stage, and the timers that wake the drain loop and the controller: the loop's next round and a tick may come at any time.
- Several atomic counter updates made one after another outside a lock are one step: the three in-flight counters of a batch or a job, and the two counters of a pressure rejection. A reader between them is not modelled.
- The worker wait at the end of Stop: the scheduler may be marked stopped at any time after its workers were cancelled, which allows more runs than the program does.
- A completer's check of its `done` signal: an answer may also be published to a continuation that is already done, which allows more runs than the program does. So may one while the stage's own context has ended.
- A continuation handed out by two yields: each yield makes its own.
- The moment between a check of a request's context and what follows a good one: they are one step, because a context that ends in between might as well end right after.
- That a Complete call which returned true had its answer used is not claimed: the program may publish after the resolver's last look.
- Mutual exclusion per shard while jobs run is not claimed: once ready is cleared another worker may pass over the shard while the first still runs its batch.
- Calls from the enqueue path and from workers into the hot-key tracker: the tracker is modelled under arbitrary sequences of observations instead.
- Raw-key labels and epochs of tracker slots: labels only, and a reused slot may keep an old one.
- 64-bit wrap-around of versions, ids and counters, and floating-point rounding of ratios and of the backoff.
- Errors that join several others: an error wraps at most one.
- Tracker events out of clock order: the source takes the time before the tracker's lock, so two events may reach it in the other order. `PerKeyAdmission.MitigationSticks` assumes that time does not go back; the other results about the tracker do not.
- Adaptive.Take: picks a best-ranked candidate each time instead of sorting first; candidates of equal rank may come in either order, as with the program's unstable sort.
- Several controller ticks at once: the controller runs its ticks one after another.
- Counter samples from which the scale signal's admission rates are computed: the rates are arbitrary inputs.
