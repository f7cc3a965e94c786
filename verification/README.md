# Verified model of the surfbot agent's scheduling core

This project models the daemon's scheduler and the stateful pieces around it, and proves what each of them keeps over
every run. Time is an integer number of nanoseconds (stored heartbeats and last-seen times are whole seconds), a recurrence is
a strictly increasing, possibly finite sequence of instants, and concurrency is a step system whose steps are the
atomic actions of the goroutines.

`dafny verify dfyconfig.toml` checks everything.

## How it is built

* **Blackouts and next runs.** `Recurrences`, `Blackouts`, `BlackoutApi`, `RRuleExpander` and `BlackoutSkip` hold the evaluator, the
  API's two expansions and the skip loop, each compared with the plain meaning "some occurrence covers the instant".
* **The scheduler.** `SchedulerSteps` is the step system of one tick goroutine, any number of ad-hoc callers, any number of
  worker loops, and the lifecycle around them. `SchedulerSafety`, `SchedulerLedger`, `SchedulerPauses` and `SchedulerCounts` prove
  what each step keeps; `SchedulerTheorems` draws the consequences for every reachable state, and `SchedulerShrink` those for
  the pool's size. `TargetLocks` and `WorkerPools` are
  the two shared objects. `Scheduler` has the methods themselves over real fields: each performs steps of the system, and
  between them `Interfere` stands for any steps of the other goroutines, of which a method may use the contract alone;
  `SchedulerRely` proves that this contract is all that such steps can do.
* **One process at a time.** `SchedulerLock` has the row's three statements, a process's use of them, and the protocol.
* **Smaller machines.** `LogSink`, `Breaker` and `Admission` (step systems and classes in the same style), `AssetStore`, `Diff` and
  `ScanStatuses` (the asset statuses across a scan), `Reap`, `Overlap`, `Cascade` with `Recompute`
  (next runs after a template change), `Windows`.

Loops over Go maps pick their next key arbitrarily, so what is proved holds for every iteration order.

## What the proofs found

Each of these is a lemma with a concrete input or an exact condition.

* `rule.After(end, false)` is strict, so an occurrence exactly at a window's end is passed over although it is free
  (`AnEndCanBeOpen`, `ExactForEveryStart`).
* The seven-day look-back is exact for every duration the API accepts, but the store accepts longer ones, and for those only
  if the occurrences follow each other closely (`LookBackExact`).
* A pool resized downwards before it is started keeps shrink tokens that can later take it below its size, and only such a
  pool can be taken there (`AResizedPoolSinks`, `EarlyShrinkDecides`).
* `Dispatch` sends after giving up the mutex; an ad-hoc caller, and only that, can meet the queue closed in between
  (`PanicIsACaller`, `PanicCondition`). The HTTP server recovers the goroutine, so the process goes on, with that
  target locked for good (`PanicLeaksTheLock`).
* The comment on the forced reclaim says a process that was raced sees the new holder. It does so only when its clock
  reads no later than the whole second stored for that holder; a moment later the retry takes the row from a live
  process (`ForceIsSafe`, `RacedReclaim`).
* An asset seen again in the very second stored for it ends as disappeared (`SameSecondIsMissed`), and an asset that stays
  away is reported as gone by every scan (`AbsenceIsReportedAgain`). An asset that comes back ends with the status its tool
  gave; the scan itself never writes `returned`.
* A schedule that overrides only its recurrence or only its timezone is passed by when its template changes, although its cadence
  follows the template (`RuleOverrideIsNotEnough`, `ZoneOverrideIsNotEnough`, `IndependentMeansBoth`).
* A legacy window with equal ends was empty and is converted to one that never ends (`EqualEndsDiffer`).

## Model

| member | source | states |
|---|---|---|
| Recurrences.After | internal/daemon/intervalsched/rrule_expand.go:83 | the earliest occurrence strictly after an instant, or None exactly when every occurrence is at or before it; section 3.3.10 of RFC 5545 seen as a strictly increasing sequence |
| Recurrences.Between | internal/daemon/intervalsched/blackout.go:199 | exactly the occurrences of a closed range, in increasing order |
| Blackouts.LookBackExact | internal/daemon/intervalsched/blackout.go:188-206 | the look-back of seven days (604800 seconds) decides coverage by the unbounded recurrence at every instant if and only if the duration is at most that or the occurrences follow each other so closely that a recent one always covers too |
| Blackouts.LookBackMisses | internal/daemon/intervalsched/blackout.go:24 | any longer, sparser window is missed at the instant just past its look-back |
| Blackouts.ActiveMeaning | internal/daemon/intervalsched/blackout.go:136-151 | a target is active exactly when some global or own window has a recent covering occurrence, and the window named is the first that has, global ones before own ones |
| Blackouts.ActiveIsBlackedOut | internal/daemon/intervalsched/blackout.go:136-151 | for windows within the cap, active means covered by an occurrence of some applicable window |
| Blackouts.WindowEndIsReal | internal/daemon/intervalsched/blackout.go:155-162 | on one snapshot a window end is found exactly when the target is active, and it is the end of a real occurrence covering the instant: the one-second fallback is unreachable |
| Blackouts.WindowEndIsFirst | internal/daemon/intervalsched/blackout.go:155-185 | the end found is that of the earliest recent covering occurrence of the first window that covers, whatever the windows' ids |
| Blackouts.RefreshMeaning | internal/daemon/intervalsched/blackout.go:65-107 | the snapshot rebuilt from the rows silences a target at an instant exactly when some enabled row that parses and applies to the target covers it |
| Blackouts.LoadedInOrder | internal/daemon/intervalsched/blackout.go:65-107 | each row that is enabled and parses goes to the end of the list of its scope |
| Blackouts.BlackoutEvaluator.Refresh | internal/daemon/intervalsched/blackout.go:65-107 | a successful listing replaces the snapshot by the one the rows describe; a failed listing leaves the old snapshot in force and records the error |
| Blackouts.BlackoutEvaluator.IsActive | internal/daemon/intervalsched/blackout.go:136-172 | reloads a snapshot that is more than thirty seconds old when the store answers, and then says active exactly when an applicable window covers, naming the first that does |
| Blackouts.BlackoutEvaluator.NextEnd | internal/daemon/intervalsched/blackout.go:155-162 | the end of the earliest recent covering occurrence of the first window that covers, or None exactly when no window is active |
| BlackoutApi.BlackoutActiveAt | internal/api/v1/blackouts.go:314-343 | reports an unparsable row as such, otherwise agrees with the evaluator on every row and instant, and under the API's seven-day cap with coverage by the unbounded recurrence |
| BlackoutApi.AcceptedIsExact | internal/api/v1/blackouts.go:249-294 | a duration is accepted exactly from one second to seven days, and for every accepted one the look-back is exact |
| BlackoutApi.BlackoutOccurrencesIn | internal/api/v1/upcoming.go:197-236 | lists, in order, the occurrences starting at most at `to` and ending at or after `from` that start within the look-back |
| BlackoutApi.ListingExact | internal/api/v1/upcoming.go:215-235 | the listing is complete for every range if and only if the duration is within the cap or the rule has no occurrence at all |
| RRuleExpanders.RRuleExpander.ComputeNextRunAt | internal/daemon/intervalsched/rrule_expand.go:53-114 | the loop over a mutable candidate and random stream computes the specified search, draws included; its answer is the first candidate outside every blackout among the first hundred of the chain that starts with the first occurrence after now and goes from each blacked-out candidate to the first occurrence after its window, jitter added; it is never exactly when the rule ends on the way, and saturation exactly when all hundred are blacked out and the chain goes on |
| RRuleExpanders.RRuleExpander.NextJitter | internal/daemon/intervalsched/rrule_expand.go:116-123 | with jitter on, the next draw modulo one more than the bound, in seconds, advancing the stream by one; else zero, leaving it |
| RRuleExpanders.ComputedAnswerIsOpen | internal/daemon/intervalsched/rrule_expand.go:82-113 | an answer lies after now, outside every blackout, and within the jitter of an occurrence after now |
| RRuleExpanders.RejectionsAscend | internal/daemon/intervalsched/rrule_expand.go:90-108 | rejected candidates strictly increase, each is blacked out and precedes its own window end, so the one-second nudge is never taken |
| RRuleExpanders.SaturationIsEarned | internal/daemon/intervalsched/rrule_expand.go:109 | saturation is reported only after the whole budget of distinct, increasing, blacked-out candidates after now |
| RRuleExpanders.ExactUnlessAnEndIsOpen | internal/daemon/intervalsched/rrule_expand.go:96-107 | without jitter and within the cap, an answer is the earliest free occurrence if and only if no window end the search jumps to is itself a free occurrence |
| RRuleExpanders.ExactForEveryStart | internal/daemon/intervalsched/rrule_expand.go:82-113 | the search is right from every starting instant if and only if the rule and the windows have neither a hundred (the budget) blacked-out occurrences in a row, each the first after the previous one's window, nor a blacked-out occurrence whose window ends on a free one |
| RRuleExpanders.SaturatedMeansLinked | internal/daemon/intervalsched/rrule_expand.go:90-109 | the search saturates exactly on as many such linked occurrences as it has iterations |
| RRuleExpanders.AnEndCanBeOpen | internal/daemon/intervalsched/rrule_expand.go:103 | an hourly schedule and one one-hour blackout: the free occurrence at the window's end is passed over |
| BlackoutSkips.HandleBlackoutSkip | internal/daemon/intervalsched/scheduler.go:392-407 | the skip is recorded, and the search answers as above: an instant found is stored as the next run, none found as none, and a failed search or a failed write leaves the schedule due; so what is stored lies after now, outside every window and within the jitter of an occurrence |
| BlackoutSkips.FinishRun | internal/daemon/intervalsched/scheduler.go:558-593 | after a scheduled scan the run is recorded as a success without an error, as a pause exactly when it was cancelled by the blackout pause, else as failed; the next run is searched and stored in the same way |
| TargetLocks.TargetLockIndex.TryAcquire | internal/daemon/intervalsched/locks.go:23-31 | succeeds exactly when the target was not held, and then the held set gains that target alone |
| TargetLocks.TargetLockIndex.Release | internal/daemon/intervalsched/locks.go:35-41 | the held set loses that target alone, whoever held it; releasing a free target changes nothing |
| TargetLocks.TargetLockIndex.IsHeld | internal/daemon/intervalsched/locks.go:46-49 | tells membership in the held set without changing it |
| WorkerPools.WorkerPool.Start | internal/daemon/intervalsched/workerpool.go:70-81 | the first start spawns as many workers as the size, a later one none |
| WorkerPools.WorkerPool.Free | internal/daemon/intervalsched/workerpool.go:131-139 | size less active, and none while active is at least size |
| WorkerPools.WorkerPool.TrySend | internal/daemon/intervalsched/workerpool.go:158-163 | a send takes the job as the queue's last exactly when the queue is open and has room, and panics exactly when it is closed; the question whether the pool is open comes before, on its own |
| WorkerPools.WorkerPool.Resize | internal/daemon/intervalsched/workerpool.go:169-196 | grows by spawning only between start and stop, shrinks by queueing tokens up to the channel's 1024; queue and active stay |
| WorkerPools.WorkerPool.Stop | internal/daemon/intervalsched/workerpool.go:200-210 | closes the queue once and keeps what is in it; the wait for the workers is not part of it |
| SchedulerTheorems.InvKept | internal/daemon/intervalsched/scheduler.go:343-594 | every step of ticker, ad-hoc callers, worker loops and lifecycle, also after a caller has panicked, keeps the whole invariant of ownership, in-flight table, tickets, outcomes, contexts, walk and counts |
| SchedulerTheorems.LockMeansOneOwner | internal/daemon/intervalsched/scheduler.go:283-313 | in every reachable state, shutdown and panics included, a target's lock is held exactly when one and only one dispatcher, queued job or worker loop owns the target |
| SchedulerTheorems.ReleaseIsOwn | internal/daemon/intervalsched/scheduler.go:526-527 | although release is unconditional, a lock is freed only by its own owner and taken only when nobody owned the target |
| SchedulerTheorems.OneScanPerTarget | internal/daemon/intervalsched/scheduler.go:490-501 | the in-flight entries belong to distinct locked targets and distinct jobs |
| SchedulerTheorems.JobInOnePlace | internal/daemon/intervalsched/workerpool.go:96-127 | an accepted job is in exactly one of queue, worker and past, and the accepted jobs are as many as these together |
| SchedulerTheorems.JobMovesForward | internal/daemon/intervalsched/workerpool.go:96-127 | a job moves only from queue to worker to past, one station at a time and never between workers: it is run once |
| SchedulerTheorems.ResultsNeverBlock | internal/daemon/intervalsched/scheduler.go:469-524 | a worker about to send an ad-hoc result finds the one-slot channel empty, on whichever branch |
| SchedulerTheorems.FinishedMeansReported | internal/daemon/intervalsched/scheduler.go:469-524 | a finished job has an outcome, and has sent a result exactly when it was ad-hoc |
| SchedulerTheorems.OutcomeIsRecorded | internal/daemon/intervalsched/scheduler.go:560-573 | a scan's outcome is a success exactly without an error and a pause exactly for a schedule cancelled with the blackout pause as its context's first cancellation; no other outcome changes |
| SchedulerTheorems.OutcomesStay | internal/daemon/intervalsched/scheduler.go:469-594 | a recorded outcome is never changed |
| SchedulerTheorems.ResultReachesCaller | internal/daemon/intervalsched/scheduler.go:313-324 | the result of an ad-hoc run is there for the waiting caller as soon as it is reported, and taken once |
| SchedulerTheorems.PauseWasSeen | internal/daemon/intervalsched/scheduler.go:560-573 | a run recorded as paused has the blackout pause as its first cancellation, and some tick saw its target blacked out then but not at its start |
| SchedulerTheorems.SightingsAreReal | internal/daemon/intervalsched/scheduler.go:421-442 | what a tick is said to have seen are the snapshots current at its judgement, of the entry it had loaded |
| SchedulerTheorems.FirstCauseStays | internal/daemon/intervalsched/scheduler.go:414-441 | the first cancellation cause of a job is final |
| SchedulerTheorems.WalkIsComplete | internal/daemon/intervalsched/scheduler.go:421-442 | for every run and any reloads: a job registered from before a walk to its end, whose target every snapshot current meanwhile says is blacked out at the tick and was not at the job's start, ends with a cancelled context |
| SchedulerTheorems.SteadyWalkIsComplete | internal/daemon/intervalsched/scheduler.go:421-442 | so on an unchanged snapshot every such job whose target is blacked out now and was not at its start has a cancelled context |
| SchedulerTheorems.PanicIsACaller | internal/daemon/intervalsched/workerpool.go:150-164 | a goroutine panics exactly on a send that meets the closed queue, and the sender is then an ad-hoc caller, never the ticker |
| SchedulerTheorems.ACallerCanPanic | internal/daemon/intervalsched/scheduler.go:307 | for every ad-hoc run with a target, whatever the snapshot at first, a run of the system from its start in which the shutdown overtakes the caller's send and the caller panics |
| SchedulerTheorems.PanicCondition | internal/daemon/intervalsched/scheduler.go:279-313 | some run panics if and only if there is an ad-hoc run with a target to dispatch |
| SchedulerTheorems.PanicLeaksTheLock | internal/daemon/intervalsched/scheduler.go:283-313 | from a panic on, in every continuation, the caller's target stays locked with no other owner: the panic passes over the release |
| SchedulerTheorems.LoopsMatchSize | internal/daemon/intervalsched/workerpool.go:70-128 | between start and shutdown live workers equal size plus pending and lost tokens minus tokens queued before the start, and jobs being run never exceed the workers |
| SchedulerShrink.EarlyShrinkDecides | internal/daemon/intervalsched/workerpool.go:169-196 | with something to dispatch, a started pool can be taken below its size by some continuation if and only if a resize before the start had lowered the size |
| SchedulerShrink.NoEarlyShrinkNeverBelow | internal/daemon/intervalsched/workerpool.go:70-128 | without a shrink before the start no run afterwards, with any resizes and completions, takes the pool below its size before the shutdown begins |
| SchedulerShrink.SinksIffEarly | internal/daemon/intervalsched/workerpool.go:119-126 | from any reachable pool at work some continuation takes it below its size if and only if more tokens were queued early than have been lost |
| SchedulerShrink.AResizedPoolSinks | internal/daemon/intervalsched/workerpool.go:188-195 | a pool made for two, resized to one and then started falls below its size in some run |
| SchedulerTheorems.BoundedConcurrency | internal/daemon/intervalsched/workerpool.go:89-164 | without a resize at most `size` jobs run and at most twice `size` accepted jobs are unfinished |
| SchedulerSafety.OwnershipKept | internal/daemon/intervalsched/scheduler.go:363-388 | every step keeps locks and owners in one-to-one correspondence |
| SchedulerLedger.WorkKeepsTable | internal/daemon/intervalsched/scheduler.go:544-555 | registering and unregistering keep the in-flight table exact: one entry per job between the two, under its own key |
| SchedulerPauses.WorkKeepsWalk | internal/daemon/intervalsched/scheduler.go:421-442 | jobs that come and go during a walk do not make it miss one |
| SchedulerCounts.ResizeKeepsCounts | internal/daemon/intervalsched/workerpool.go:169-196 | a resize keeps the balance of workers, tokens and lost tokens |
| SchedulerBlackouts.PauseMeansBlackout | internal/daemon/intervalsched/scheduler.go:421-442 | a recorded pause means, in terms of the windows loaded, that an occurrence covered the target at a tick and none covered it when the job registered |
| Schedulers.Scheduler.DispatchAdHoc | internal/daemon/intervalsched/scheduler.go:279-325 | with other goroutines stepping in between, the pool's check and its send included: refused for want of a target or as busy exactly when the run names none or its lock is held; refused for a blackout, for a full or stopped pool, handed over under the next ticket, or ended in a panic because some state passed through meanwhile says so, and offered to the pool only after a state without a blackout; handed over exactly when the caller is left waiting for the ticket returned, and then the run's job under that ticket is accepted; the claim is given up except by a panic |
| Schedulers.Scheduler.Tick | internal/daemon/intervalsched/scheduler.go:343-388 | with other goroutines stepping in between: a snapshot reloaded is in force at first, exactly one walk over the in-flight table, then as many rows listed as slots were free at some moment and five more, gone through from the first on, ending at those slots, at the last row or at a full pool; what became of each row is decided by some state passed through meanwhile, the job of every row handed over is accepted, and the ticker is waiting again with no claim |
| Schedulers.Scheduler.EvaluateInFlightBlackouts | internal/daemon/intervalsched/scheduler.go:421-442 | every job in flight from the walk's start to its end was judged on snapshots current meanwhile; one whose target every snapshot current meanwhile says is blacked out now and was not at its own start ends with a cancelled context |
| Schedulers.Scheduler.JudgeEntry | internal/daemon/intervalsched/scheduler.go:424-439 | cancels a job exactly when the snapshot says its target is blacked out now and, reloaded in between or not, was not at its start, and only if nothing cancelled it before |
| Schedulers.Scheduler.DispatchDue | internal/daemon/intervalsched/scheduler.go:363-388 | takes the due rows in order and says of each what became of it, which some state passed through meanwhile decides; ends only at the free slots, the last row or a full pool, and the job of every row handed over is accepted and never lost |
| Schedulers.Scheduler.RunJob | internal/daemon/intervalsched/scheduler.go:469-594 | whichever way a job goes, its outcome is recorded, no entry of its key is in flight and its target's lock is free; it succeeds exactly when its configuration resolved and the scan returned no error |
| SchedulerRely.OthersRun | internal/daemon/intervalsched/scheduler.go:343-388 | whatever any number of steps of the other goroutines do, a goroutine's own claim, place in the round, wait or job stays put and no accepted job is lost: the interference its methods assume is all there can be |
| SchedulerLocks.LockStore.Acquire | internal/storage/scheduler_lock.go:48-108 | refuses exactly on a row whose parsable heartbeat is within the staleness, otherwise the row becomes the caller's with times cut to the second |
| SchedulerLocks.LockStore.Refresh | internal/storage/scheduler_lock.go:114-128 | bumps the heartbeat exactly of the caller's own row |
| SchedulerLocks.LockStore.Release | internal/storage/scheduler_lock.go:133-142 | deletes the caller's own row and leaves any other |
| SchedulerLocks.LockHandle.Acquire | internal/cli/scheduler_lock.go:53-85 | takes the row at once, or by force after a refusal by a dead process of the same host, on whatever row the others have left by then; otherwise the row stays |
| SchedulerLocks.LockHandle.Beat | internal/cli/scheduler_lock.go:103-113 | one beat bumps the heartbeat of the process's own row, and leaves any other row alone |
| SchedulerLocks.LockHandle.Close | internal/cli/scheduler_lock.go:119-127 | deletes the own row on the first close; a second close changes nothing |
| SchedulerLocks.InvKept | internal/storage/scheduler_lock.go:48-142 | every acquire, refresh, release, crash and passing of time keeps each holder alive, in the row and recently written |
| SchedulerLocks.MutualExclusion | internal/storage/scheduler_lock.go:80-82 | in every run without a raced forced reclaim at most one process holds the slot, if and only if no holder's write grows older than sixty seconds less the second lost to truncation |
| SchedulerLocks.ProductionIsSafe | internal/cli/scheduler_lock.go:20-25 | refreshing every fifteen seconds is safe with up to forty-four seconds of delay |
| SchedulerLocks.ForceIsSafe | internal/cli/scheduler_lock.go:65-82 | a forced reclaim keeps the slot exclusive if and only if its clock reading is no later than the whole second stored for every holder's last write |
| SchedulerLocks.RacedReclaim | internal/cli/scheduler_lock.go:71-82 | a run in which two processes reclaim from one dead holder and both end up holding the slot |
| SchedulerLocks.CrashedSlotComesFree | internal/storage/scheduler_lock.go:71-97 | after a crash, and while nobody reclaims by force and no process with the dead one's identity restarts, an acquisition succeeds if and only if it reads the clock more than sixty seconds after the stored heartbeat |
| SchedulerLocks.AReleasedSlotIsFree | internal/storage/scheduler_lock.go:133-142 | after a holder's release, with no write in between, the next process to ask gets the slot whatever its clock reads |
| SchedulerLocks.AFreshHeartbeatHolds | internal/storage/scheduler_lock.go:114-128 | after a holder's heartbeat, with no write in between, another process gets the slot exactly when it reads more than sixty seconds past the heartbeat's whole second |
| LogSinks.InvKept | internal/pipeline/log_sink_sqlite.go:80-172 | every channel operation, insert and close keeps the story exact: each line sent has one fate, and queue, batch, store, failed inserts and drops hold exactly the lines with theirs, in the order sent |
| LogSinks.LinesConserved | internal/pipeline/log_sink_sqlite.go:80-172 | in every run lines sent equal lines persisted, lost in inserts, dropped, batched and queued; the queue holds the newest lines; neither bound is passed |
| LogSinks.StoredInOrder | internal/pipeline/log_sink_sqlite.go:93-105 | the store holds a subsequence of the lines sent, in order |
| LogSinks.DropsFollowOverflows | internal/pipeline/log_sink_sqlite.go:156-172 | no more lines are dropped than callers found the queue full |
| LogSinks.CloseLeavesNothing | internal/pipeline/log_sink_sqlite.go:111-124 | when the sink has finished and nothing was sent meanwhile, queue and batch are empty |
| LogSinks.NothingIsLost | internal/pipeline/log_sink_sqlite.go:80-172 | if the queue never fills and every insert succeeds, a finished sink with an empty queue has persisted exactly what was sent |
| LogSinks.DoneIsFinal | internal/pipeline/log_sink_sqlite.go:111-124 | a line sent after the sink has finished is never persisted |
| LogSinks.OthersRun | internal/pipeline/log_sink_sqlite.go:80-172 | what other callers or the draining goroutine can change during one's own operation, for any number of their steps |
| LogSinks.SQLiteLogSink.Enqueue | internal/pipeline/log_sink_sqlite.go:145-172 | the line becomes the newest in the queue; while others send r lines the loop ends and drops at most r + 1 |
| LogSinks.SQLiteLogSink.Flush | internal/pipeline/log_sink_sqlite.go:85-97 | the batch reaches the store or is lost as a whole, and is empty afterwards |
| LogSinks.SQLiteLogSink.Run | internal/pipeline/log_sink_sqlite.go:80-127 | while it runs, a ticker's beat leaves the batch empty; with nobody else at the queue each waking by a line takes one line off it; with no failed insert and no drop, store, batch and queue hold in order what they held and what was sent since; it ends exactly by selecting the stop signal on a stopped sink, and then batch is empty and, with nobody sending, so is the queue, and the lines sent are as many as those stored, lost in inserts and dropped |
| LogSinks.SQLiteLogSink.Handle | internal/pipeline/log_sink_sqlite.go:98-112 | a waking by a line moves it into the batch, which is stored or lost as a whole and emptied exactly when it is full; a beat stores or loses the batch and empties it |
| LogSinks.SQLiteLogSink.Close | internal/pipeline/log_sink_sqlite.go:191-197 | the first close drains queue and batch, and with no failed insert and no drop into the store in order; a second changes nothing |
| Breakers.Breaker.StoreEntry | internal/detection/breaker.go:50-54 | writing over the oldest slot keeps the ring, read from its position around, equal to the last fifty outcomes |
| Breakers.TimeoutsCounts | internal/detection/breaker.go:63-68 | what is counted is the number of entries that timed out, refusals not among them |
| Breakers.Breaker.CountTimeouts | internal/detection/breaker.go:63-68 | counting over the unordered ring gives the number of time-outs among the last fifty outcomes |
| Breakers.Breaker.RecordResult | internal/detection/breaker.go:46-89 | before fifty outcomes nothing happens; then the ratio is that of time-outs among the last fifty, more than half of them halve a cap above five, to no less than five, less than a quarter restore a lowered cap, and nothing else moves it; cap and halvings stay those of the whole history |
| Breakers.CapInClosedForm | internal/detection/breaker.go:71-88 | after any history the cap is the original divided by two to the number of heavy windows since the last calm one, but at least five; an original of five or less never moves |
| Breakers.FewHalvings | internal/detection/breaker.go:73-82 | the cap is also the original halved as often as it was since the last restore, which is at most logarithmically often, and lies between floor and original |
| Admissions.PlanFor | internal/detection/naabu.go:143-154 | the concurrency is the rate or the default, the retry pool a quarter of it but at least two |
| Admissions.CeilingsHold | internal/detection/naabu.go:248-297 | in every interleaving the shared counter equals the goroutines admitted plus those yet to undo a failed increment; admitted never exceed the concurrency, retries never the retry pool |
| Admissions.AdmissionRespectsCap | internal/detection/naabu.go:289-296 | an admission leaves at most the cap it read admitted; a refusal changes nobody's admission and means the counter had reached the cap |
| Admissions.AnEmptyScannerAdmits | internal/detection/naabu.go:289-323 | with nobody admitted or undoing the next probe gets in: the cap never reaches zero |
| Admissions.EveryProbeEnds | internal/detection/naabu.go:299-368 | when all goroutines have left, the counter is zero, each probe started has ended in one way, and results, failures and errors list exactly those ends, each once |
| Admissions.InvKept | internal/detection/naabu.go:248-365 | every step of every goroutine keeps counter, ceilings and tally |
| Admissions.OthersRun | internal/detection/naabu.go:309-363 | whatever the other goroutines do, a probe's own goroutine stays where it is and its end does not change |
| Admissions.Scanner.TryAdmit | internal/detection/naabu.go:289-296 | with other goroutines between the read, the add and the undo, ends admitted or backing off |
| Admissions.Scanner.Probe | internal/detection/naabu.go:309-363 | a connected probe ends as found, a time-out as failed, a refusal as closed, another fault as an error of its address, by its last attempt, a retry only after a time-out and with a free slot; or it is abandoned after a cancellation; it leaves nothing behind |
| Admissions.Scanner.FileResult | internal/detection/naabu.go:325-363 | the lists gain the probe, the count or the error that its attempt gives, an error only once |
| AssetStores.AssetStore.NormalizeAssetStatuses | internal/storage/storage.go:1074-1083 | exactly the target's new rows become active |
| AssetStores.AssetStore.UpsertAsset | internal/storage/storage.go:581-627 | an existing row keeps id, type and value and takes the sighting's second, status and metadata; an insert stores all of the sighting and fails only on a taken id |
| AssetStores.AssetStore.UpdateAssetStatus | internal/storage/storage.go:1059-1072 | changes the status of the row with the id, or reports that there is none |
| AssetStores.AssetStore.ListAssets | internal/storage/storage.go:629-679 | lists every row of the target once when they fit the limit |
| AssetStores.UpsertsMean | internal/storage/storage.go:613-617 | after any list of upserts each sighted value's row records its last sighting, under the id and type of its first if it was not there before; no other row has changed, and ids stay unique |
| Diffs.BuildAssetMap | internal/pipeline/diff.go:129-135 | the map built in place is the snapshot, each asset under its own key |
| Diffs.SnapshotHas | internal/pipeline/diff.go:129-135 | a snapshot has exactly the assets' keys, each with the last asset of that key |
| Diffs.ComputeChanges | internal/pipeline/diff.go:18-97 | over every order of map iteration the list is exactly the changes between the snapshots, at most one for a key; a first scan lists a baseline for every asset |
| Diffs.AppearedAndGoneMean | internal/pipeline/diff.go:33-80 | appeared means only in the later snapshot, gone means in the earlier one and not seen in another second since, each as significant as the asset's type says |
| Diffs.ModifiedMeans | internal/pipeline/diff.go:82-94 | an asset is reported as modified exactly when it was seen again in another second and some compared key has two different values, with the significance of the first such key |
| Diffs.ApplyStatusChanges | internal/pipeline/diff.go:265-278 | the store ends as the changes one after another leave it |
| Diffs.SettlingMeans | internal/pipeline/diff.go:265-278 | when no two changes share an id, each row's status is decided by its own change alone, whatever the order: new for an appearance, disappeared for a loss, unchanged else |
| ScanStatuses.ScanTarget | internal/pipeline/pipeline.go:163-169 | across a whole scan, untouched rows have disappeared, touched ones carry the tool's status, inserted ones are new, other targets' rows are as before, and the changes returned are those between the snapshots before and after; after a first scan all are new and the changes are one baseline for each |
| ScanStatuses.LiveMeansSeen | internal/pipeline/diff.go:46-51 | an asset ends live exactly when it is new or was seen in another second than the stored one, else disappeared; with every sighting in a later second, exactly when it was seen |
| ScanStatuses.SameSecondIsMissed | internal/pipeline/diff.go:48 | a sighting in the second already stored leaves the asset disappeared |
| ScanStatuses.AbsenceIsReportedAgain | internal/pipeline/diff.go:47-63 | a gone change is reported exactly for known assets whose last-seen second did not move, also when they had disappeared before |
| ScanStatuses.ScanSettles | internal/pipeline/pipeline.go:512-519 | the outcome follows from the reported changes in any order |
| Reaps.ChunkIDs | internal/storage/zombie_reap.go:219-232 | the chunks put together are the list, each within the size, none empty, and as few as possible |
| Reaps.ReapTx.Mark | internal/storage/zombie_reap.go:128-217 | the chunk loop amounts to one update for all ids and counts each changed row once, exactly when no statement fails |
| Reaps.UpdatesCompose | internal/storage/zombie_reap.go:136-155 | updating for two lists one after the other is updating for both, with counts adding up |
| Reaps.ReapTx.ListOrphanedScanIDs | internal/storage/zombie_reap.go:106-126 | lists exactly the running scans, each once |
| Reaps.ReapOrphanedScans | internal/daemon/intervalsched/zombie_reap.go:99-166 | succeeds exactly when every one of its statements, each for up to five hundred ids, does, and then exactly the running scans and what is under way for them are failed, with time and reason, and counted; on any error the store is as it was |
| Reaps.ReapMeans | internal/daemon/intervalsched/zombie_reap.go:68-79 | afterwards no scan runs and no tool run or ad-hoc run of a reaped scan is under way; exactly the rows counted have changed, to failed |
| Reaps.ReapTwice | internal/storage/zombie_reap.go:138-143 | a second reap finds nothing and changes nothing |
| Overlaps.ValidateNoOverlapAt | internal/daemon/intervalsched/overlap.go:52-94 | returns exactly the pairs of runs of the candidate and another schedule of its target that start closer than the duration; with distinct ids they come in the order of schedules and runs and no pair comes twice; fails exactly when the candidate does not expand or, while it has runs, such a schedule does not |
| Overlaps.EmptyMeansApart | internal/daemon/intervalsched/overlap.go:80-84 | the answer is empty if and only if all the half-open run windows are disjoint |
| Overlaps.SameVerdict | internal/daemon/intervalsched/overlap.go:78-92 | two schedules get the same verdict and mirrored pairs whichever is the candidate |
| Cascades.ResolveToolConfig | internal/model/cascade.go:120-145 | over every order of map iteration each tool's entry folds its layers, and exactly the tools of some layer have one |
| Cascades.ShallowMerge | internal/model/cascade.go:150-166 | the overlay's keys win over the base's; a side that is not an object leaves the overlay alone |
| Cascades.MergingIsLookup | internal/model/cascade.go:150-166 | for any number of layers the fold is a lookup from the outermost layer inwards, down to the first layer that is not an object |
| Cascades.ResolvedIsLookup | internal/model/cascade.go:120-145 | with objects throughout, every tool and key has the schedule's value, else the template's, else the defaults', over exactly the union of the domains |
| Cascades.EffectiveMeans | internal/model/cascade.go:70-88 | recurrence and timezone are the schedule's where it overrides them with a value, else the template's, else the default, else the schedule's own; unresolved exactly when no layer gives one |
| Cascades.IndependentMeansBoth | internal/daemon/intervalsched/cascade_recompute.go:43-46 | among all templates, and likewise among those the store accepts, a schedule's recurrence and timezone are independent of its template if and only if it overrides both with values; only those are rightly skipped |
| Cascades.RuleOverrideIsNotEnough | internal/daemon/intervalsched/cascade_recompute.go:44 | any stored schedule overriding only its recurrence is skipped, yet its timezone is that of whichever stored template it has |
| Cascades.ZoneOverrideIsNotEnough | internal/daemon/intervalsched/cascade_recompute.go:44 | any stored schedule overriding only its timezone is skipped, yet its recurrence is that of whichever stored template it has |
| Recomputes.RecomputeNextRunForTemplate | internal/daemon/intervalsched/cascade_recompute.go:23-62 | fails exactly without expander, template or listing; else exactly the schedules overriding neither field whose search finds an answer and whose write succeeds get that answer, and they are counted; each search answers by the first hundred candidates for the rule under the template, so a next run written is after now, outside every window and within the jitter; a failure stops nothing else |
| Windows.NextOpenIsLeast | internal/daemon/intervalsched/window.go:55-109 | the answer is outside the window and every instant from the one asked about up to it is inside, across midnight too |
| Windows.ContainsMeans | internal/daemon/intervalsched/window.go:55-75 | a window contains an instant exactly when it lies between the start on some day and the next time the clock shows the end; with equal ends, or disabled, never |
| Windows.ConvertsExactly | internal/daemon/intervalsched/migrate_legacy.go:266-296 | there is a conversion exactly for an enabled window with two times that parse; it starts as the legacy one and lasts, up to a day, until the clock next shows the end |
| Windows.ConversionMeans | internal/daemon/intervalsched/migrate_legacy.go:266-296 | an enabled window is converted, and from its first occurrence on the result covers exactly what the legacy one contained, midnight wrap included; with start equal to end they part |
| Windows.EqualEndsDiffer | internal/daemon/intervalsched/migrate_legacy.go:285-290 | with start equal to end the legacy window is empty and the converted one is never off |

## Left out

- Recurrence texts, timezones and daylight saving: parsing and expansion are foreign code; a rule is a sequence of instants, a day is twenty-four hours.
- SQL text, drivers and JSON encoding: tables are maps, a transaction is a copy that replaces the store on commit, metadata and parameters are maps of printed values; a JSON `null` layer is excluded.
- Blackouts.LookBackExact: durations are unbounded integers; the program multiplies seconds into 64-bit nanoseconds, which is the same up to 9223372036 seconds (`DurationFits`) and turns a longer stored duration into one that may never be active.
- RRuleExpanders.RRuleExpander.ComputeNextRunAt: one search uses one snapshot and draws without others in between; draws by concurrent searches amount to another random stream, but the evaluator's implicit reload in the middle of a search, when the snapshot turns thirty seconds old, is not modelled.
- Schedulers.Scheduler.Tick: the record and next-run writes for a row skipped for a blackout are in `BlackoutSkips`, not in the loop; between two rows other goroutines run in any case.
- WorkerPools.WorkerPool.Stop: the wait for the workers and its deadline; the workers' end is their own steps of the system.
- Schedulers.Scheduler.DispatchAdHoc: the ad-hoc row's status writes and the caller's wait for its result; the wait is the caller's own steps of the system.
- Schedulers.Scheduler.RunJob: the writes after the scan are in `BlackoutSkips.FinishRun`; the branch for a payload of an unexpected type, which no dispatcher sends, is left out.
- Scheduler.Stop's time limit: the queue is closed only after the tick goroutine has ended, as when the wait completes.
- Due rows fired late, twice or starved: the listing can be stale by the time a lock is taken, and its limit gives no fairness.
- LogSinks.SQLiteLogSink.Enqueue: the escape-sequence stripping, the default fields and the once-a-minute warning are left out.
- LogSinks.SQLiteLogSink.Run: the branch for a closed line channel is left out; nothing closes that channel.
- Admissions.Scanner.Probe: dialling, banners and back-off times are parameters; the outer loops over hosts and ports are the spawn steps, and a probe's retry slot becomes free by other goroutines' steps.
- ScanStatuses.ScanTarget: tools, findings, work counters and ignored store errors are left out; the target has at most 10000 assets, as a snapshot does, and ids of new assets are fresh.
- AssetStores.AssetStore.ListAssets: the order by first-seen time is left out; what is proved holds for any order.
- Reaps.ReapOrphanedScans: the duration in the report and the log lines are left out.
- Overlaps.ValidateNoOverlapAt: resolving a schedule's effective configuration is in `Cascades`; here it either gives a rule or fails.
- Recomputes.RecomputeNextRunForTemplate: reading a recurrence text in a timezone is a parameter, and all its searches use one snapshot.
- Maintenance-window fallback in the cascade: the same shape as the picked strings, and nothing depends on it.
- Windows.NextOpenIsLeast: clock changes inside a day are left out.
- Finding auto-resolution, security score, detection tools, command line, REST handlers and web pages: input and output, or no invariant to state.
