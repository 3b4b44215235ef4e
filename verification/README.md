# scheduling-util: a verified model

`scheduling-util` runs a job again and again, remembers how the attempts ended, takes control
requests while it runs, and limits how often things happen. This project models the parts of it
that hold state across calls, threads and processes, and proves what they promise. Verify it with
`dafny verify dfyconfig.toml`.

| file | models |
|---|---|
| `PathLock.dfy` | the re-entrant path lock: `RLock` states in a reference-counted registry on top of `flock`, for any number of threads in any number of processes |
| `Controller.dfy` | `ScheduleController`, whose locked sections the requests and the loop share |
| `ScheduleLoop.dfy` | the loop of `schedule`, one statement at a time, interleaved with requests and exceptions; and the loop itself as a method that is a run of that system |
| `History.dfy` | `LastRunHistory`: the bounded log in a file that processes share |
| `LastRun.dfy` | `RunPredicate` and `LastRun.wrap`: when a job may run, and what a run records |
| `MinimumPeriod.dfy` | `RateLimiter`: the time of the last action is the modification time of the limiter's own lock file |
| `RollingWindow.dfy` | `RollingWindowRateLimiter`: at most so many events in a window, with pruned state |
| `Framing.dfy` | newline framing of controller messages over arbitrary chunks |
| `Redaction.dfy` | `LogRedactor`: secrets in log messages and records |
| `Wrappers.dfy` | `Option` |

Code that changes state is a class whose methods are proved equal to a step function on values.
The theorems are about runs of those functions: any sequence of steps of any threads or processes,
in any order. Times are integer ticks of one clock.

## What the proofs found

Some promises hold only under a condition. The code is modelled as it is, and the exact condition
is proved.

- A redaction is complete, in every list and every message, exactly when the secret is not empty,
  has no star at either end and does not contain `***` (`Redaction.SafeIsExact`). Any other secret
  can be put together again by the mask of another one.
- The result of reading a message does not depend on how the bytes arrive, exactly when either no
  delivery or every delivery passes 65536 bytes (`Framing.SplitIndependence`). The limit is on the
  buffer, so bytes after the newline count when they arrive in the same chunk.
- `RateLimiter` is to wait a minimum time between actions (`_rate_limiter.py:45-48`). Over all
  interleavings of `ping_if_ready` it does so exactly when the file exists before the first call: a
  process that created the file and is then held up resets the time that another one has recorded
  (`MinimumPeriod.SpacingNeedsTheFile`). On a new file it still does when the reset comes within one
  period of the creation (`MinimumPeriod.PromptCreatorKeepsSpacing`). What the documentation of
  `ping_if_ready` says of concurrent processes (`_rate_limiter.py:80-82`) always holds: no process
  checks between the check of an accepted call and its ping, so of two accepted calls one has pinged
  before the other checks (`MinimumPeriod.AcceptedCallsAreSerial`).
- `persist_to_file` writes what is in memory without looking at the file first. The file goes on
  following the log exactly when every process that calls it has opened, queried or appended since
  the last append of another process (`History.FileFollowsTheLogExactly`, for a history that keeps
  anything and entries that differ; `History.LookingKeepsTheFile` needs neither).
- The documentation of `on_max_failures` speaks of a job that failed *more than* `max_failures` times
  (`_last_run.py:259`). The code stalls a job that failed `max_failures` times, and only if the
  history is long enough to show that many: `2 * max_failures - 1` entries (`LastRunPolicy.StallIsSharp`).
- Attempts keep their distance exactly when the history keeps at least one entry
  (`LastRunPolicy.SpacingNeedsHistory`): with `max_history_entries=0` the job is always due.
- "success_schedule" promises to run again `success_period` after the last successful run, if there is
  one (`_last_run.py:263`). Any finite history that is long enough to show the cap forgets that run: after
  a success and k failures the job never runs again exactly when
  `2 * max_failures - 1 <= max_history_entries <= 2 * k` (`LastRunPolicy.SuccessIsForgotten`; with 1000
  entries, and a cap they can show, from the 500th failure on). A job that always fails executes at most half as often as the history
  has entries, rounded up (`LastRunPolicy.ScheduleIsSharp`). A shorter history never stalls it. One success
  and one failure are enough with two entries (`LastRunPolicy.ForgottenAfterOneFailure`).
- Truncating the history changes no decision exactly under the condition of
  `LastRunPolicy.TruncationIsHarmlessExactly`.
- "busy" is answered exactly when `mark_running` was called and the loop has neither waited nor ended
  since (`ScheduleLoop.BusyIsMarked`), not only while the job executes: taking the next mode does not
  write the state (`ScheduleLoop.BusyBetweenJobs`). So a loop without an interval accepts no run-now from its first `mark_running` until
  `mark_stopped` (`ScheduleLoop.SleeplessLoopStaysBusy`).
- After the end of the loop "stopped" becomes "stopping" exactly when a quit is asked
  (`ScheduleLoop.StoppedUntilQuit`).

## Model

| member | source | states |
|---|---|---|
| PathLock.MutualExclusion | src/scheduling_util/_lock.py:129-161 | after every interleaving of any threads in any processes, with any nesting and failures, two contexts inside a body for one path belong to the same thread |
| PathLock.OneFlockForAPath | src/scheduling_util/_lock.py:145-156 | at most one context at a time, over all threads and processes, has the flock of a path: a nested entry never takes a second one |
| PathLock.ReentryNeverWaits | src/scheduling_util/_lock.py:130-139 | a thread that enters a path again inside its own body is never blocked on the RLock, goes straight to the nested body, and never opens or locks the file |
| PathLock.BlockedByAnother | src/scheduling_util/_lock.py:42-43 | in every reachable state a thread whose next step does not move it waits for another thread: at the RLock for its owner, or at the file for the thread that has its flock; nothing else ever blocks |
| PathLock.UndisturbedVisit | src/scheduling_util/_lock.py:140-161 | from every reachable state, a thread that may enter a path whose RLock has no owner and whose flock nobody has is in the body after five undisturbed steps, with the flock, whether or not the file exists; four steps later threads, flocks and registry are as before |
| PathLock.UndisturbedNestedVisit | src/scheduling_util/_lock.py:145-151 | from every reachable state, inside a body for the path, two undisturbed steps lead to the nested body with every flock as it was, and three more back to exactly the state before |
| PathLock.FailureUnwinds | src/scheduling_util/_lock.py:153-161 | from every reachable state, an error in opening, locking or dating the file leaves, after three undisturbed steps, the thread where it was before it entered, the RLock free and no flock behind |
| PathLock.RegistryIsSound | src/scheduling_util/_lock.py:95-161 | in every reachable state `ref_count` is the number of contexts between get and release and positive for every entry, all contexts of a process for a path share the registered state, and a positive depth means an owned RLock and equals the owner's nesting |
| PathLock.DropDeletesUnused | src/scheduling_util/_lock.py:113-126 | the release that leaves no user of a state deletes its entry, and no other release does |
| PathLock.QuiescentRegistryIsEmpty | src/scheduling_util/_lock.py:120-122 | when no thread is in a context the registry is empty, so it does not grow with the paths used |
| PathLock.StepKeepsInv | src/scheduling_util/_lock.py:129-161 | every step of every thread, including failures to open, lock or date the file, keeps the invariant that links registry, reference counts, RLock owner, depth, nesting and flocks |
| PathLock.RunKeepsInv | src/scheduling_util/_lock.py:129-161 | and so does every run |
| PathLock.EnclosingBody | src/scheduling_util/_lock.py:145-151 | a nested body is inside the body of an outermost context of the same thread for the same path |
| PathLock.BodyHasFlock | src/scheduling_util/_lock.py:42-49 | a thread in a body holds the flock of the path, in that context or in an enclosing one |
| PathLock.LockTable.Get | src/scheduling_util/_lock.py:95-110 | finds or creates the state of a path, counts one more user, and changes nothing else |
| PathLock.LockTable.Release | src/scheduling_util/_lock.py:113-126 | counts one user less and deletes the entry at zero |
| PathLock.LockTable.TryAcquire | src/scheduling_util/_lock.py:143-143 | succeeds exactly for a free RLock or the owner's own, which it then holds once more |
| PathLock.LockTable.EnterDepth | src/scheduling_util/_lock.py:145-153 | the entry is nested exactly when the depth was positive; the depth counts it |
| PathLock.LockTable.LeaveDepth | src/scheduling_util/_lock.py:149-158 | undoes the depth of a nested entry, and resets it after the outermost one |
| PathLock.LockTable.ReleaseLock | src/scheduling_util/_lock.py:160-160 | gives up the RLock once, and frees it when it was held once |
| Controller.ScheduleController.constructor | src/scheduling_util/_controller.py:136-146 | starts in "starting" with nothing pending |
| Controller.ScheduleController.HandleRequest | src/scheduling_util/_controller.py:162-185 | each request has the effect and the answer of its handler, with the status in it |
| Controller.ResponsesTell | src/scheduling_util/_controller.py:162-262 | which request is answered how in which state: `ok` exactly when not refused, the status in the response is the one after the request, a refused request changes nothing, and an accepted one exactly its own flag, the state after a quit and the waiter |
| Controller.ScheduleController.RequestWake | src/scheduling_util/_controller.py:187-210 | refused after a quit, otherwise pending, with the waiting loop notified |
| Controller.ScheduleController.RequestRunNow | src/scheduling_util/_controller.py:212-244 | busy while running, refused after a quit, otherwise pending, with the waiting loop notified |
| Controller.ScheduleController.RequestQuit | src/scheduling_util/_controller.py:246-262 | always accepted; "stopping" unless running; the waiting loop notified |
| Controller.ScheduleController.MarkRunning | src/scheduling_util/_controller.py:264-271 | overwrites the state, even "stopping", and nothing else |
| Controller.ScheduleController.MarkStopped | src/scheduling_util/_controller.py:273-280 | overwrites the state and nothing else |
| Controller.ScheduleController.UpdateRunCount | src/scheduling_util/_controller.py:282-289 | publishes the count and nothing else |
| Controller.ScheduleController.TakeRunMode | src/scheduling_util/_controller.py:299-311 | consumes both pending requests; "run-now" exactly when one was pending |
| Controller.ScheduleController.PendingWork | src/scheduling_util/_controller.py:313-319 | true exactly when a wake, a run-now or a quit is asked |
| Controller.ScheduleController.StartWaiting | src/scheduling_util/_controller.py:321-334 | begins to wait exactly when nothing is asked; otherwise leaves "stopping" or "sleeping" and returns |
| ScheduleLoop.ReachableKeepsInv | src/scheduling_util/_schedule.py:331-359 | in every state that any interleaving of requests, exceptions and loop statements leads to, the published state, the forced value, the requests, the waiting loop and the counts agree |
| ScheduleLoop.BusyIsMarked | src/scheduling_util/_controller.py:217-226 | in every reachable state a run-now is answered "busy", and changes nothing, exactly when `mark_running` was called and neither a wait nor `mark_stopped` came since |
| ScheduleLoop.BusyBetweenJobs | src/scheduling_util/_controller.py:299-311 | a reachable state of a loop without an interval in which no job executes and the next mode has been taken, and a run-now is still answered "busy" |
| ScheduleLoop.SleeplessLoopStaysBusy | src/scheduling_util/_schedule.py:350-356 | without a positive interval no run-now is accepted from the first `mark_running` to `mark_stopped`, over any run |
| ScheduleLoop.StoppedUntilQuit | src/scheduling_util/_controller.py:253-255 | once the loop is over the published state changes exactly when a quit is among the later requests, and then to "stopping" |
| ScheduleLoop.NoRunNowDuringAttempt | src/scheduling_util/_controller.py:218-226 | while an attempt is made a run-now is answered "busy" and changes nothing |
| ScheduleLoop.RequestsStayPending | src/scheduling_util/_controller.py:299-311 | over any run a pending wake or run-now stays pending until `take_next_run_mode` takes it |
| ScheduleLoop.AskedIsServed | src/scheduling_util/_schedule.py:333-356 | while something is asked the loop is not blocked, and takes it within ten of its statements, unless quit or `max_runs` ends the loop |
| ScheduleLoop.AcceptedRequestIsServed | src/scheduling_util/_controller.py:187-244 | an accepted run-now makes a forced iteration begin, and an accepted wake an iteration, within ten statements of the loop, unless quit or `max_runs` ends it |
| ScheduleLoop.AcceptedRunNowIsExecuted | src/scheduling_util/_schedule.py:334-341 | after an accepted run-now the job executes for it, beyond the forced jobs of all earlier requests, within thirteen statements of the loop, unless quit or `max_runs` ends it |
| ScheduleLoop.ForcedIterationsAreRequested | src/scheduling_util/_schedule.py:334-340 | forced iterations never outnumber accepted run-now requests, each one taken executes the job once whatever the history says, and at the head of the loop no forced value is left |
| ScheduleLoop.LoopSleepsBetweenAttempts | src/scheduling_util/_schedule.py:350-356 | with an interval, from the head of the loop on and over any run, a second attempt begins only if the loop has been asleep in the wait since, or a wake or a run-now was accepted |
| ScheduleLoop.QuietLoopSleeps | src/scheduling_util/_schedule.py:333-356 | with an interval and nothing asked, the loop is asleep, unnotified and published as "sleeping", within eleven of its statements, unless `max_runs` ends it |
| ScheduleLoop.AssessedOutcomes | src/scheduling_util/_schedule.py:259-296 | exactly nothing and "success" are a success and exactly "neutral" is neutral, everything else and every exception a failure, and there are details exactly for what was not expected |
| ScheduleLoop.NoWakeUpIsLost | src/scheduling_util/_controller.py:313-334 | a loop that is in the wait while something is asked has been notified, also for requests between `has_pending_work` and `wait_for_work` |
| ScheduleLoop.QuitIsFinal | src/scheduling_util/_controller.py:246-262 | after a quit, over any run: it stands, no wake or run-now is accepted, no new wait is entered, and at most one more attempt begins |
| ScheduleLoop.QuitTerminates | src/scheduling_util/_schedule.py:326-359 | after a quit the loop is never blocked and ends within nine of its statements |
| ScheduleLoop.QuitEndsTheLoop | src/scheduling_util/_controller.py:246-262 | from the request on: a quit in any reachable state is accepted and has both effects |
| ScheduleLoop.ExactlyMaxRuns | src/scheduling_util/_schedule.py:326-342 | without quit and exceptions an ended loop has made exactly `max(0, max_runs)` iterations and published that; the published count never passes `n_runs`, nor `n_runs` the wanted number |
| ScheduleLoop.MaxRunsTerminates | src/scheduling_util/_schedule.py:326-359 | with `max_runs` the loop ends, within thirteen statements for each iteration |
| ScheduleLoop.StoppedStays | src/scheduling_util/_schedule.py:358-359 | a loop that ended for a quit or for `max_runs` does not start again, whatever is asked |
| ScheduleLoop.Scheduler.MakeAttempt | src/scheduling_util/_schedule.py:304-316 | consults the predicate and runs the job as the transition system says, and the history goes on holding the end of the log of all attempts |
| ScheduleLoop.Scheduler.Run | src/scheduling_util/_schedule.py:318-359 | the loop is a run of the transition system whatever happens between its statements; it ends published as "stopped", and after exactly the wanted number of runs when nothing cut it short |
| History.FailuresSpec | src/scheduling_util/_last_run_history.py:157-173 | the number is the size of the set of failures that no later success follows |
| History.FindLastSpec | src/scheduling_util/_last_run_history.py:175-221 | nothing is found exactly when nothing matches; otherwise the match that no match follows |
| History.FiltersMean | src/scheduling_util/_last_run_history.py:185-219 | what each filter asks for: strictly before, strictly after, started, finished, and an outcome, which implies finished |
| History.EntriesOfJoin | src/scheduling_util/_last_run_history.py:285-300 | the entries of a list that is joined from two are those of the two, in order |
| History.ItemsStandAlone | src/scheduling_util/_last_run_history.py:286-298 | an invalid item anywhere in the file is left out and does nothing to the entries around it, and an entry keeps its place |
| History.LogIsWhatWasAppended | src/scheduling_util/_last_run_history.py:128-133 | the log of a run holds exactly the entries that processes appended after opening the history, in lock order |
| History.WrittenIsRead | src/scheduling_util/_last_run_history.py:148-155 | a persisted list reads back as itself |
| History.SuffixOfAppend | src/scheduling_util/_last_run_history.py:128-133 | truncating before an append changes nothing of what is kept after it |
| History.FileFollowsTheLogExactly | src/scheduling_util/_last_run_history.py:114-155 | over any run of processes that open, append, query and persist, with entries that differ and a cap above zero, the file stays the end of everything appended exactly when each `persist_to_file` comes from a process that has looked since the last append of another one |
| History.LookingKeepsTheFile | src/scheduling_util/_last_run_history.py:114-155 | that condition is enough for any cap and any entries |
| History.FaithfulRun | src/scheduling_util/_last_run_history.py:114-155 | the same for what is in memory: the file follows the log exactly when each `persist_to_file` writes the end of it |
| History.SharedLogIsFaithful | src/scheduling_util/_last_run_history.py:87-155 | from an absent file, with any number of processes appending and querying: the file and every query see exactly the last `max_entries` of all entries in lock order, and below the cap nothing is lost |
| History.StalePersistLosesEntries | src/scheduling_util/_last_run_history.py:114-119 | a run in which a stale process wipes out an appended entry |
| History.LoadEntries | src/scheduling_util/_last_run_history.py:264-300 | the valid items in order; none for a missing or invalid file |
| History.LastRunHistory.constructor | src/scheduling_util/_last_run_history.py:59-85 | starts with the bounded end of the file |
| History.LastRunHistory.WithEntries | src/scheduling_util/_last_run_history.py:80-81 | starts with the given entries, and does not look at the file |
| History.LastRunHistory.DiscardOldEntries | src/scheduling_util/_last_run_history.py:96-98 | keeps the last `max_entries` |
| History.LastRunHistory.LoadFromFile | src/scheduling_util/_last_run_history.py:121-140 | takes over the bounded end of the file; a missing file empties the list |
| History.LastRunHistory.Refresh | src/scheduling_util/_last_run_history.py:142-146 | takes over the file when there is one, and keeps the list in memory otherwise |
| History.LastRunHistory.PersistToFile | src/scheduling_util/_last_run_history.py:114-119 | the file becomes what is in memory |
| History.LastRunHistory.Append | src/scheduling_util/_last_run_history.py:128-133 | afterwards the file and the memory are the bounded end of what was there and the entry |
| History.LastRunHistory.Entries | src/scheduling_util/_last_run_history.py:87-94 | a snapshot of the file when there is one |
| History.LastRunHistory.NFailuresSinceLastSuccess | src/scheduling_util/_last_run_history.py:157-173 | the backward count with its early stop is the failure count of the current entries |
| History.LastRunHistory.FindLastEntry | src/scheduling_util/_last_run_history.py:175-221 | the backward search finds the last matching entry of the current entries |
| LastRunPolicy.RunPredicate.Evaluate | src/scheduling_util/_last_run.py:321-363 | answers from the current entries what the policy says, reports exactly the errors it should, and leaves the history as it was |
| LastRunPolicy.PeriodsFollowOutcomes | src/scheduling_util/_last_run.py:326-360 | after a success the job may run exactly past `success_period`, after a neutral outcome past `neutral_period`, after a failure below the cap or under "ignore" past `failure_period`, and at the cap only under "success_schedule" and past `success_period` after the last stored success |
| LastRunPolicy.ErrorsMeanNever | src/scheduling_util/_last_run.py:352-363 | an error is reported exactly for a stored history after which the job may never run again |
| LastRunPolicy.RunPredicate.Call | src/scheduling_util/_last_run.py:279-295 | a forced value answers exactly one call whatever the history says; otherwise the policy answers |
| LastRunPolicy.RunPredicate.ForceNextReturnValue | src/scheduling_util/_last_run.py:297-302 | sets the forced value and nothing else |
| LastRunPolicy.RunPredicate.UnsetNextReturnValue | src/scheduling_util/_last_run.py:304-309 | removes the forced value and nothing else |
| LastRunPolicy.LastRun.Call | src/scheduling_util/_last_run.py:146-177 | appends nothing when skipped, and otherwise one "started" and one "finished"; an exception escapes exactly when it is recorded as a failure, and is swallowed otherwise |
| LastRunPolicy.LogIsBracketed | src/scheduling_util/_last_run.py:146-177 | over any sequence of calls the log stays (started finished)* and only grows at its end |
| LastRunPolicy.KeptIsSuffix | src/scheduling_util/_last_run.py:153-175 | a history that holds the end of the full log still holds it after a call |
| LastRunPolicy.TruncationNeverAddsFailures | src/scheduling_util/_last_run_history.py:157-173 | the bounded history never shows more failures than there were |
| LastRunPolicy.TruncationKeepsPolicy | src/scheduling_util/_last_run.py:326-360 | while the kept end holds a success, last finished, last success, failure count and the decision at every time are those of the full log |
| LastRunPolicy.TruncationKeepsIgnore | src/scheduling_util/_last_run.py:341-346 | under "ignore" it is enough to keep the last finished entry |
| LastRunPolicy.TruncationHidesTheCap | src/scheduling_util/_last_run.py:341-356 | under "stall" truncation changes some decision exactly when the last attempt failed and the cap was reached but is not shown |
| LastRunPolicy.TruncationIsHarmlessExactly | src/scheduling_util/_last_run.py:326-363 | under every policy and for every cap: truncation changes no decision at any time exactly when the last finished entry is kept and, after a failure with no success kept, a reached cap is shown and under "success_schedule" there was no success to go by, save that both schedules may fall due together |
| LastRunPolicy.FailuresNeverPassTheCap | src/scheduling_util/_last_run.py:321-356 | under "stall", without forced runs, for any outcomes and any bound: the stored failures stay within `max(max_failures, 1)`, with room after a neutral outcome |
| LastRunPolicy.FailuresNeverPassTheCapFromEmpty | src/scheduling_util/_last_run.py:321-356 | the same from an empty history |
| LastRunPolicy.FailuresShown | src/scheduling_util/_last_run_history.py:96-98 | after k failures and nothing else a history of m entries shows min(k, ceil(m / 2)) of them |
| LastRunPolicy.StallThreshold | src/scheduling_util/_last_run.py:341-356 | after k failures the job may run exactly when it is due and k is below `max_failures` or the history is shorter than `2 * max_failures - 1` |
| LastRunPolicy.StallIsSharp | src/scheduling_util/_last_run.py:341-356 | however often it is polled, a job that always fails executes at each poll that finds it due until it has executed `max_failures` times, and then never; with a shorter history it goes on executing whenever it is due |
| LastRunPolicy.StrandedIsStalled | src/scheduling_util/_last_run.py:341-363 | under "success_schedule", for every stored history: the job may never run again exactly when the last attempt failed, the stored failures reach the cap and no success is stored |
| LastRunPolicy.SuccessIsForgotten | src/scheduling_util/_last_run.py:348-360 | under "success_schedule", a job that succeeded and then failed k times never runs again exactly when `2 * max_failures - 1 <= max_history_entries <= 2 * k` |
| LastRunPolicy.SuccessShown | src/scheduling_util/_last_run_history.py:96-98 | a history of m entries shows the success before k failed attempts exactly when m exceeds 2 * k |
| LastRunPolicy.ForgottenAfterOneFailure | src/scheduling_util/_last_run.py:350-360 | one success and one failure, with two entries kept: the job never runs again, although by the full log it would |
| LastRunPolicy.ScheduleThreshold | src/scheduling_util/_last_run.py:341-360 | after a success and k failures the job may run exactly when it is due, past the cap by that success, and k is below half the entries, rounded up, or the history is too short to show the cap |
| LastRunPolicy.ScheduleIsSharp | src/scheduling_util/_last_run.py:341-360 | however often it is polled, a job that always fails after a success executes at each poll that finds it due until it has executed half as often as the history has entries, rounded up, and then never; with a history too short to show the cap it goes on executing whenever it is due |
| LastRunPolicy.PredicateReadsOneLog | src/scheduling_util/_last_run.py:326-350 | in any interleaving of other processes between its three reads, each of which refreshes from the file, `_predicate` decides as if it had read all three from the entries it found when it took the lock |
| History.LockKeepsOthersOut | src/scheduling_util/_last_run_history.py:100-112 | the lock goes to whoever asks while it is free, only its holder gives it up, and only what others do has to wait |
| History.OneSnapshot | src/scheduling_util/_last_run_history.py:100-112 | while a process holds the lock and only queries, whatever the others ask for, all its queries answer from the same entries |
| LastRunPolicy.StartsAreSpaced | src/scheduling_util/_last_run.py:326-360 | after any run, an unforced start comes more than the period after the last finished attempt, or, past the cap of "success_schedule", after the last stored success |
| LastRunPolicy.SpacingNeedsHistory | src/scheduling_util/_last_run.py:326-331 | that holds exactly when the history keeps at least one entry |
| MinimumPeriod.FreshFileRace | src/scheduling_util/_rate_limiter.py:76-90 | while less than a period has passed since the file was created, in every interleaving of create, open, flock, reset, check and touch: a call is accepted exactly when it created the file, so at most one is, and one is once the creator has returned |
| MinimumPeriod.AcceptedCallsAreSpaced | src/scheduling_util/_rate_limiter.py:76-118 | on an existing file, over every interleaving, accepted calls are at least the minimum period apart and after the file's first time |
| MinimumPeriod.DelayedCreatorErasesAPing | src/scheduling_util/_lock.py:42-45 | from every fresh state with two processes there is a run that accepts two calls at the same moment |
| MinimumPeriod.SpacingNeedsTheFile | src/scheduling_util/_lock.py:28-45 | with two or more processes the minimum period is kept in every run exactly when the file exists at the start |
| MinimumPeriod.PromptCreatorKeepsSpacing | src/scheduling_util/_lock.py:28-45 | on a new file, when the call that creates it resets the time before one period has passed, accepted calls are at least the minimum period apart in every interleaving of any length |
| MinimumPeriod.NoCheckBeforeThePing | src/scheduling_util/_rate_limiter.py:76-90 | in every interleaving, on any file, no process reads the time between the check of an accepted call and its ping |
| MinimumPeriod.AcceptedCallsAreSerial | src/scheduling_util/_rate_limiter.py:76-90 | of two accepted calls, of one process or of two, one has pinged before the other checks |
| MinimumPeriod.UndisturbedCall | src/scheduling_util/_rate_limiter.py:84-90 | a call that no other process interrupts is accepted exactly when the period has passed, and only then dates the file |
| MinimumPeriod.CallsAreAccepted | src/scheduling_util/_rate_limiter.py:76-100 | for every n, a process that calls again each time one period has passed is accepted n times in a row, each time exactly one period after the time before |
| MinimumPeriod.UndisturbedCreator | src/scheduling_util/_lock.py:42-45 | the call that created the file is accepted whatever was recorded meanwhile |
| MinimumPeriod.RateLimiter.constructor | src/scheduling_util/_rate_limiter.py:64-67 | starts with the stored time, and at the epoch without a file |
| MinimumPeriod.RateLimiter.Refresh | src/scheduling_util/_rate_limiter.py:102-109 | the time in memory becomes the stored one; a missing file is the epoch |
| MinimumPeriod.RateLimiter.TakeLock | src/scheduling_util/_rate_limiter.py:120-127 | creates the file without changing the time that is read from it |
| MinimumPeriod.RateLimiter.Touch | src/scheduling_util/_rate_limiter.py:111-118 | records the present time, in memory and on disk |
| MinimumPeriod.RateLimiter.Ping | src/scheduling_util/_rate_limiter.py:69-74 | records the present time unconditionally |
| MinimumPeriod.RateLimiter.PingIfReady | src/scheduling_util/_rate_limiter.py:76-90 | accepted exactly when the period has passed since the stored time, which then moves on by at least the period, and stays otherwise |
| MinimumPeriod.RateLimiter.IsReady | src/scheduling_util/_rate_limiter.py:92-100 | the same answer, and nothing recorded |
| RollingWindow.PruningIsInvisible | src/scheduling_util/_rate_limiter.py:172-217 | on every sequence of `ping`, `ping_if_ready` and `is_ready` the pruned limiter answers what a limiter that keeps every event would answer |
| RollingWindow.RefinesFrom | src/scheduling_util/_rate_limiter.py:172-217 | the same from any stored list that agrees with the full log from the window on |
| RollingWindow.EveryWindowIsBounded | src/scheduling_util/_rate_limiter.py:183-199 | with `ping_if_ready` alone every window (t - window, t] of the full log has at most `max_events` events |
| RollingWindow.AcceptedEventsAreBounded | src/scheduling_util/_rate_limiter.py:183-199 | the same for the events that the pruned, disk-backed limiter accepts |
| RollingWindow.InWindowSpec | src/scheduling_util/_rate_limiter.py:213-217 | the count of a window is the number of events after its start and up to its end |
| RollingWindow.AnswersTellTheWindow | src/scheduling_util/_rate_limiter.py:183-211 | on every sequence of calls each answer of the pruned limiter is yes exactly when fewer than `max_events` of the events accepted before it lie in the window that ends now: it refuses only when the window is full |
| RollingWindow.StoredIsBounded | src/scheduling_util/_rate_limiter.py:213-217 | and the stored list never has more than `max_events` entries |
| RollingWindow.SharersAnswerAsOne | src/scheduling_util/_rate_limiter.py:172-252 | any number of sharers of one file, each with a list of its own that a refusal prunes and the file does not see, get the answers of a single limiter that keeps every event |
| RollingWindow.SharersAreBounded | src/scheduling_util/_rate_limiter.py:183-252 | with `ping_if_ready` alone every window holds at most `max_events` of the events accepted by any of them, and neither the file nor any of their lists outgrows that |
| RollingWindow.Create | src/scheduling_util/_rate_limiter.py:160-170 | rejects exactly too few events, a negative window or a corrupt file |
| RollingWindow.Limiter.Refresh | src/scheduling_util/_rate_limiter.py:219-248 | takes over the stored times, none for a missing or blank file; fails exactly on a corrupt one and then changes nothing |
| RollingWindow.Limiter.Write | src/scheduling_util/_rate_limiter.py:250-277 | what is stored is what is in memory |
| RollingWindow.Limiter.PruneTimestamps | src/scheduling_util/_rate_limiter.py:213-217 | keeps exactly the events after the cutoff, in order |
| RollingWindow.Limiter.IsReadyAt | src/scheduling_util/_rate_limiter.py:209-211 | prunes, and has room exactly when fewer than `max_events` events lie in the window that ends now |
| RollingWindow.Limiter.DoPing | src/scheduling_util/_rate_limiter.py:172-181 | a step of the specified limiter, in the file and in memory; raises exactly on a corrupt file, which stays |
| RollingWindow.Limiter.DoPingIfReady | src/scheduling_util/_rate_limiter.py:183-199 | a step of the specified limiter: a refusal prunes the memory and not the file |
| RollingWindow.Limiter.DoIsReady | src/scheduling_util/_rate_limiter.py:201-207 | a step of the specified limiter, with nothing recorded |
| Framing.SplitIndependence | src/scheduling_util/_controller_socket.py:204-225 | all deliveries of a stream give the same result exactly when none of them, or each of them, passes the limit |
| Framing.ReadLineOfSplit | src/scheduling_util/_controller_socket.py:212-225 | whatever the chunks, the result is the stripped first line of the stream or "too large", and which of the two it is below the one bound and above the other |
| Framing.BufferIsBounded | src/scheduling_util/_controller_socket.py:212-219 | the buffer never holds more than 65536 + 4096 bytes |
| Framing.BufferedIsPrefix | src/scheduling_util/_controller_socket.py:212-219 | what is read is a prefix of the stream that ends inside the chunk with the newline, at the end, or past the limit |
| Framing.RoundTrip | src/scheduling_util/_controller_socket.py:278-283 | a serialized message reads back as itself over every delivery exactly when its text is shorter than 65536 bytes |
| Framing.TrailingBytesAreIgnored | src/scheduling_util/_controller_socket.py:221-225 | bytes after the newline change nothing while the message and one chunk fit |
| Framing.StripSpec | src/scheduling_util/_controller_socket.py:221-221 | stripping takes off the white space at both ends, all of it and nothing else |
| Framing.FirstLineSpec | src/scheduling_util/_controller_socket.py:221-225 | the request is empty exactly when only white space comes before the first newline, and otherwise the part between the white space at both ends |
| Framing.Receive | src/scheduling_util/_controller_socket.py:261-269 | the reading loop that client and server share, with its limit |
| Framing.ReadRequest | src/scheduling_util/_controller_socket.py:204-225 | the stripped first line of the stream, or the empty or too-large error |
| Redaction.SafeNeverSurvives | src/scheduling_util/_logging_util.py:57-61 | a safe secret is in no result, wherever it stands in the list, and whatever the other redactions and the message are |
| Redaction.SafeIsExact | src/scheduling_util/_logging_util.py:57-61 | redaction of a secret is complete for all lists and messages exactly when it is safe |
| Redaction.StarFreeRedactionIsComplete | src/scheduling_util/_logging_util.py:57-61 | with non-empty redactions without stars none of them is in any result |
| Redaction.UnsafeCanSurvive | src/scheduling_util/_logging_util.py:57-61 | every other secret is in the result of some list and message |
| Redaction.FirstIsReplaced | src/scheduling_util/_logging_util.py:60-60 | the leftmost occurrence becomes a mask, the text before it stays and the text after it is treated in the same way |
| Redaction.ReplaceIsMasking | src/scheduling_util/_logging_util.py:57-61 | the result is exactly the text cut at its leftmost, non-overlapping occurrences and joined by masks, so everything outside the secret stays; for the empty secret, a mask around every character |
| Redaction.RedactionIsMasking | src/scheduling_util/_logging_util.py:57-61 | the same for all redactions in turn, both ways |
| Redaction.ValuesAreMasked | src/scheduling_util/_logging_util.py:28-48 | a redacted string is masked in that sense, and a value that is not a string is kept |
| Redaction.ReplaceCopies | src/scheduling_util/_logging_util.py:60-60 | no replacement re-creates a safe secret: what is found afterwards was there before |
| Redaction.ReplaceRemoves | src/scheduling_util/_logging_util.py:60-60 | a safe secret is gone after its own replacement |
| Redaction.ReplaceAbsent | src/scheduling_util/_logging_util.py:59-60 | replacing what is not there changes nothing, so the containment test is only a shortcut |
| Redaction.LogRedactor.ProcessLogMessage | src/scheduling_util/_logging_util.py:57-61 | the loop masks all redactions in order and keeps everything else, and its result holds no safe one |
| Redaction.LogRedactor.ProcessLogRecord | src/scheduling_util/_logging_util.py:26-55 | every string of the record is redacted and nothing else changes, so no safe secret is left in them; arguments of another type raise exactly when there is a redaction, after the first one was applied to the two messages |
| Redaction.LogRedactor.SubstituteArgs | src/scheduling_util/_logging_util.py:36-48 | redacts the string values of a mapping or tuple, keeping keys, order and other values |

## Left out

- Health checks and Slack: remote calls. A job returns or raises; errors that the policy reports are counted.
- The command line, option parsing, subprocess runners, example commands, `repeat`, log handlers, `JsonLogFormatter` and the signature kept by `wrap`: they hold no state across calls, and pass values on from one library to another.
- The socket's bind, accept and unlink, the server thread and timeouts: a connection is the sequence of chunks that arrive and then the end of the stream.
- JSON and pydantic: entries and messages are written and read by an inverse pair; list items that do not validate are skipped in order; message texts of responses are not modelled.
- Float time stamps, time zones, daylight saving and the granularity of modification times: integer ticks.
- Temporary files, `fsync` and recovery from crashes: a write under the lock is atomic.
- Systems without `flock`, where the lock does nothing between processes; deletion of lock files by others, except as the retry between the two `open` calls; symbolic links and different spellings of one path: a path is the normalised one, for the registry and for the file.
- A keyboard interrupt inside `RLock.acquire`, before its `try`: it would leave one reference to the state behind.
- Negative `max_entries`: the constructor rejects it, the model has natural numbers.
- The lock states are values in a table under identifiers, not shared objects; the registries of all processes stand side by side in one table. The retry loop that opens the file and the blocking calls are steps of the transition system, not methods.
- A mapping of log arguments is replaced in its record; that the original changes it in place, where others may see it, is not captured.
- History.SharedLogIsFaithful: processes that start from a file; a history made with `entries=` would bring entries that nobody appended. The file is never deleted while in use.
- LastRunPolicy.LastRun.Call: one scheduler for each file, since the predicate's answer and the "started" entry are not under one lock, and nobody else writes during the call; `assess_result` always returns, as the one in `schedule` does.
- History.WrittenIsRead: the list of items, not its JSON text.
- ScheduleLoop.Scheduler.MakeAttempt: errors of the file system while the history is locked, read or appended to. The error boundary around the attempt swallows them, and the iteration counts although a forced job may not have executed. An error of the heartbeat file leaves the loop, and is an exception between forcing and consulting.
- LastRunPolicy.StartsAreSpaced: the clock does not go back between the check and the start of the job.
- LastRunPolicy.PredicateReadsOneLog: the lock is a holder that lets its own process in again and keeps others out; that the path lock is one is proved in `PathLock`.
- MinimumPeriod.FreshFileRace: calls of `ping_if_ready`; the clock does not go back and shows at least one period since the epoch.
- RollingWindow.AcceptedEventsAreBounded: the clock, in lock order, does not go back, and all sharers have the same settings; `ping` records without asking, so it is not bounded.
- RollingWindow.AnswersTellTheWindow: the same clock.
- ScheduleLoop.Scheduler.Run: the world between two statements is a list of moments given in advance; when it is used up the model stops, wherever the loop is. Errors of the history file are left out, as for `MakeAttempt`. Requests that arrive while the job executes are handled at its end, which no one can tell apart, as the job does not look at the controller.
