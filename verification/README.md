# A verified model of ExoAnchor's stateful cores

This project models, in Dafny, the parts of ExoAnchor that keep state across failures or must agree with a
second implementation, and proves what they promise:

- **Job managers** (`SshJob*`, `OpsJob*`, `ThreadPool`). `*Spec` is a step system: callers, the workers of the thread pool, done-callbacks,
  the scheduler, failed journal writes, crashes and restarts are steps over one world, and `Execute` runs any list of
  them. `*Proofs` proves what every run keeps, `*Progress` that nothing accepted is stuck, and `*Answers` and `*Requests` what
  each call answers and does, read off the tables before and after it. `*Manager` is the class with its tables. Its `Valid()` says that some run of steps leads to its state, and each method that is a
  critical section is proved to be a step from a valid state to a valid state, so that the results hold of the class.
- **USB video descriptors** (`FrameRate`, `FrameList`). A constant-time frame-rate check refines the scan it replaces, and the
  nested listing loops are compared with counting.
- **Resumable OTA upload** (`OtaUpload`). The client against a device that may keep part of a chunk, lose any answer, report
  another board or lie; and against one that does everything it is asked.
- **Wire formats** (`WebSocket`, `AnnexB`). Printers and readers of RFC 6455 frames over arbitrary chunking, and scanning and
  splitting of H.264 byte streams.
- **HID control** (`Hid`, `HidTransaction`, `HidText`, `PixelScaling`). Leased key transactions for every sequence of device
  answers, typing text, and scaling pixels.
- **Data structures** (`ObservationStore`, `JsonDepth`). A bounded recency store against its history, and a nonrecursive depth
  check against recursive depth.

Loops and updates in place are methods; what they compute is a function, and the results are lemmas about that function.
Exceptions are `Result` or `Option` values. Clocks, random identifiers, journal write results, device answers and the sizes of
received chunks are arbitrary parameters. `dafny verify dfyconfig.toml` checks everything.

Three properties hold only under a condition, which is proved exactly:

- Listing frames agrees with counting them (on streams whose formats declare their frames exactly) if and only if no format
  with frames directly ends the frames of another one; the inner loop consumes the descriptor that ends it
  (`FrameList.ListAgreesWithCount`, counterexample `FrameList.AdjacentFormatsDisagree`).
- The start-code scan finds the written boundaries if and only if no body holds a start code and none that ends in a zero is
  followed by a three-byte code (`AnnexB.ScanFindsBoundaries`).
- Pixel columns have different coordinates if and only if there are at most 32768 of them
  (`PixelScaling.DistinctExactlyUpToRange`).

An operations run may be shown as cancelled although its runner was called, because a runner may itself report
that outcome (`OpsJobProofs.CancelledRunMayHaveRun` gives such a run); `OpsJobProofs.CancelledRanIffStarted` says how the record
tells the two cases apart.

## Model

| member | source | states |
|---|---|---|
| SshJobProofs.AtMostOnce | integrations/exoanchor-mcp/exoanchor_mcp/jobs.py:188-288 | Over every run from an empty journal (starts, workers, cancels, failed writes, crashes, restarts in any order), no two runner invocations share a job or a non-empty idempotency key |
| SshJobProofs.QueueAccounting | integrations/exoanchor-mcp/exoanchor_mcp/jobs.py:208-315 | In every reachable state the futures table is exactly what the pool still queues, runs or has a callback pending for, and never exceeds workers plus pending |
| SshJobProofs.CancelledNeverRuns | integrations/exoanchor-mcp/exoanchor_mcp/jobs.py:257-315 | A job that is cancelled at any moment never had its runner called before and never has it called after, even across restarts |
| SshJobProofs.TerminalIsFinal | integrations/exoanchor-mcp/exoanchor_mcp/jobs.py:257-315 | Within one manager lifetime a terminal state never changes |
| SshJobProofs.StartedNeverCancelled | integrations/exoanchor-mcp/exoanchor_mcp/jobs.py:257-315 | Within one lifetime a job whose runner was called can only end as succeeded or failed, whatever cancels arrive |
| SshJobProofs.StartedEndsWithItsOutcome | integrations/exoanchor-mcp/exoanchor_mcp/jobs.py:257-288 | Within one lifetime a job whose runner has ended can only end with that very end: succeeded exactly when it returned ok, with its result or its error, whatever cancels arrive |
| SshJobProofs.KeyIsPermanent | integrations/exoanchor-mcp/exoanchor_mcp/jobs.py:188-251 | After a start under a key was accepted, every later start under it, in any run and after any restart, changes nothing and is answered with that very job, or refused if the manager is closed or the request differs |
| SshJobProgress.EveryJobCanEnd | integrations/exoanchor-mcp/exoanchor_mcp/jobs.py:208-315 | From every reachable world some finite moves of the pool end every job and free every future, however the runners end and whichever writes fail |
| SshJobProofs.RestartShowsJournal | integrations/exoanchor-mcp/exoanchor_mcp/jobs.py:188-206 | Crash and restart from any reachable state: jobs whose end was journalled are shown as journalled, in the state callers last saw; all others are interrupted; none is lost or invented |
| SshJobProofs.NextKeepsInv | integrations/exoanchor-mcp/exoanchor_mcp/jobs.py:94-315 | Every single step keeps the invariant that ties records, journal, key index, futures and pool items together |
| SshJobProofs.RunKeepsInv | integrations/exoanchor-mcp/exoanchor_mcp/jobs.py:94-315 | So does every run of steps |
| SshJobProofs.ReloadKeepsInv | integrations/exoanchor-mcp/exoanchor_mcp/jobs.py:188-206 | Reloading after a crash rebuilds the key index and marks unfinished jobs so that the invariant holds, whichever rewrites fail |
| SshJobAnswers.CancelIsHonoured | integrations/exoanchor-mcp/exoanchor_mcp/jobs.py:257-315 | A cancel that comes while the job is queued or with a worker before its preflight: the runner is never called, in this lifetime or a later one, and the job can only end as cancelled; a queued job is shown as cancelled at once |
| SshJobAnswers.CancelAnswer | integrations/exoanchor-mcp/exoanchor_mcp/jobs.py:297-315 | From every reachable state: a queued job is cancelled, one with a worker asked to stop, an ended or unknown one left alone; no other job changes, and the journal follows exactly when the write succeeds |
| SshJobAnswers.UndisturbedJobRuns | integrations/exoanchor-mcp/exoanchor_mcp/jobs.py:208-288 | An accepted job that is not cancelled, whose start can be journalled, does not end before its runner was called, in any run without a crash |
| SshJobAnswers.UnsavedStartFails | integrations/exoanchor-mcp/exoanchor_mcp/jobs.py:257-279 | A start that cannot be journalled ends the job as failed with that reason |
| SshJobAnswers.StartRecorded | integrations/exoanchor-mcp/exoanchor_mcp/jobs.py:257-268 | A job that nobody cancelled is shown as running, with its start time, in memory and journal before its runner can be called |
| SshJobAnswers.FailureIsExplained | integrations/exoanchor-mcp/exoanchor_mcp/jobs.py:280-288 | A result that is not ok is shown with its own error text, or as a failed remote command when it has none |
| SshJobAnswers.OutcomeStored | integrations/exoanchor-mcp/exoanchor_mcp/jobs.py:271-288 | The end is stamped with the time of recording and reaches the journal, output only if configured, or the record says that it did not |
| SshJobAnswers.StartAnswer | integrations/exoanchor-mcp/exoanchor_mcp/jobs.py:208-251 | From every reachable state: accepted exactly when the manager is open, no job has the key, the pool has room and the write succeeds; then exactly one queued job is added. A known key is answered with its job exactly for the same request; every other answer changes nothing |
| SshJobAnswers.ClosedForGood | integrations/exoanchor-mcp/exoanchor_mcp/jobs.py:120-124 | After closing, every start in that lifetime is refused and changes nothing |
| SshJobAnswers.RestartInterrupts | integrations/exoanchor-mcp/exoanchor_mcp/jobs.py:188-206 | A restart stamps each unfinished job as interrupted, completion unknown, and writes that down or notes that it could not |
| SshJobManager.JobManager.constructor | integrations/exoanchor-mcp/exoanchor_mcp/jobs.py:102-118 | A new manager over any journal holds its recovered records, with the later file of the walk winning a shared key; over a journal that a manager left it makes the restart step into a reachable state |
| SshJobManager.JobManager.PersistOutcome | integrations/exoanchor-mcp/exoanchor_mcp/jobs.py:86-91 | A failed journal write leaves the file alone and is noted in the record |
| SshJobManager.JobManager.Start | integrations/exoanchor-mcp/exoanchor_mcp/jobs.py:208-251 | The start step from a reachable state to a reachable state, and its reply: closed, key reuse, request conflict, capacity, failed write, journal before submit |
| SshJobManager.JobManager.Cancel | integrations/exoanchor-mcp/exoanchor_mcp/jobs.py:297-315 | Queued work is cancelled, dequeued or running work is only marked; a failed write is reported after the change |
| SshJobManager.JobManager.RunPreflight | integrations/exoanchor-mcp/exoanchor_mcp/jobs.py:257-267 | The preflight step from a reachable state to a reachable state; that it honours a cancel is `SshJobAnswers.CancelIsHonoured` |
| SshJobManager.JobManager.CallRunner | integrations/exoanchor-mcp/exoanchor_mcp/jobs.py:257-288 | The step that calls the runner, once, for an item that is ready |
| SshJobManager.JobManager.RunFailed | integrations/exoanchor-mcp/exoanchor_mcp/jobs.py:257-288 | An exception of the runner becomes the failed record of the step system |
| SshJobManager.JobManager.RunReturned | integrations/exoanchor-mcp/exoanchor_mcp/jobs.py:257-288 | A result of the runner becomes the succeeded or failed record of the step system |
| SshJobManager.JobManager.ForgetFuture | integrations/exoanchor-mcp/exoanchor_mcp/jobs.py:253-255 | The done-callback removes exactly this future |
| SshJobManager.JobManager.Dequeue | integrations/exoanchor-mcp/exoanchor_mcp/jobs.py:257-259 | The step of the pool that hands an item to a worker |
| SshJobManager.JobManager.EndRunner | integrations/exoanchor-mcp/exoanchor_mcp/jobs.py:257-270 | The step in which a runner returns or raises |
| SshJobManager.JobManager.SettleFuture | integrations/exoanchor-mcp/exoanchor_mcp/jobs.py:253-257 | The step in which the future is done and its callback still to come |
| SshJobManager.JobManager.Close | integrations/exoanchor-mcp/exoanchor_mcp/jobs.py:120-124 | The step that closes the manager; nothing accepted is dropped |
| SshJobManager.JobManager.LoadFile | integrations/exoanchor-mcp/exoanchor_mcp/jobs.py:188-206 | One journal file is loaded, with its key, and rewritten if it was unfinished |
| SshJobManager.JobManager.LoadFiles | integrations/exoanchor-mcp/exoanchor_mcp/jobs.py:188-206 | The loading loop recovers every record and builds the key index in the order of the walk |
| SshJobProofs.WalkGivesKeyIndex | integrations/exoanchor-mcp/exoanchor_mcp/jobs.py:188-206 | Where no key is shared, every order of the walk gives the same key index |
| OpsJobProofs.ForbidConcurrency | integrations/exoanchor-mcp/exoanchor_mcp/jobs.py:592-713 | In every reachable state a job has at most one live run, the one its active entry names, and at most one of its runs is with a worker, although cancelled runs linger in the queue |
| OpsJobProofs.IntervalSpacing | integrations/exoanchor-mcp/exoanchor_mcp/jobs.py:572-678 | Any two submitted interval runs of one job start at least its interval (at least 60 s) apart, across missed ticks, pauses, manual runs, failed writes, crashes and restarts |
| OpsJobProofs.ScheduleNeverMovesBack | integrations/exoanchor-mcp/exoanchor_mcp/jobs.py:572-678 | The next due time of a job never decreases over any run of steps, restarts included |
| OpsJobProofs.RecordsCoherent | integrations/exoanchor-mcp/exoanchor_mcp/jobs.py:600-785 | Every run record in memory and in the journal, at every moment: outcome empty exactly when live, otherwise state, outcome and attempt agree and share the finishing time |
| OpsJobProofs.LastRunResolves | integrations/exoanchor-mcp/exoanchor_mcp/jobs.py:600-678 | The last run a job names exists and belongs to that job, in memory and in the journal whenever a crash strikes |
| OpsJobProofs.NoRunReplayed | integrations/exoanchor-mcp/exoanchor_mcp/jobs.py:453-481 | No run has its runner called twice, in one lifetime or over any number of restarts |
| OpsJobProofs.QueueAccounting | integrations/exoanchor-mcp/exoanchor_mcp/jobs.py:600-684 | The futures table is exactly what the pool holds and never exceeds the capacity |
| OpsJobProofs.ClosingEndsWaiting | integrations/exoanchor-mcp/exoanchor_mcp/jobs.py:391-411 | Closing from any reachable world: exactly the live runs still queued are cancelled, in memory whichever writes fail and in the journal where the write succeeds; every other record stays |
| OpsJobProofs.CancelledRunMayHaveRun | integrations/exoanchor-mcp/exoanchor_mcp/jobs.py:686-754 | A concrete run of steps after which a run is shown as cancelled although its runner was called |
| OpsJobProgress.EveryRunCanEnd | integrations/exoanchor-mcp/exoanchor_mcp/jobs.py:600-754 | From every reachable world some finite moves of the pool end every run and free every future, however the runners end and whichever writes fail |
| OpsJobProofs.WalkGivesKeyIndex | integrations/exoanchor-mcp/exoanchor_mcp/jobs.py:442-452 | Where no key is shared, every order of the walk gives the same key index |
| OpsJobProofs.CancelledRanIffStarted | integrations/exoanchor-mcp/exoanchor_mcp/jobs.py:686-785 | A run shown as cancelled had its runner called exactly when its record has a start time (a runner may itself report cancelled) |
| OpsJobProofs.RestartKeepsEverything | integrations/exoanchor-mcp/exoanchor_mcp/jobs.py:442-481 | Crash and restart keep every job, key and run; journalled ends are shown unchanged, unfinished runs as interrupted |
| OpsJobProofs.EffectKeepsInv | integrations/exoanchor-mcp/exoanchor_mcp/jobs.py:348-828 | Every enabled step keeps the invariant of jobs, runs, active entries, keys, schedule and pool |
| OpsJobProofs.RunKeepsInv | integrations/exoanchor-mcp/exoanchor_mcp/jobs.py:348-828 | So does every run of steps |
| OpsJobAnswers.StartedEndsWithItsOutcome | integrations/exoanchor-mcp/exoanchor_mcp/jobs.py:714-754 | Once its runner has ended, a run can only end in this lifetime as the runner said: a reported terminal outcome is its state, outcome and attempt, any other text a failure, none means no change or degraded by ok; completed exactly for succeeded and no change; with the finding and failure of the result; an exception is a transient failure |
| OpsJobAnswers.CancelIsHonoured | integrations/exoanchor-mcp/exoanchor_mcp/jobs.py:686-785 | A cancel that comes while the run is queued or with a worker before its preflight: the runner is never called, in this lifetime or a later one, and the run can only end as cancelled; a queued run is shown as cancelled at once |
| OpsJobAnswers.CancelAnswer | integrations/exoanchor-mcp/exoanchor_mcp/jobs.py:763-785 | From every reachable state: a queued run is cancelled, attempt included, one with a worker asked to stop, an ended or unknown one left alone; nothing else changes, and the journal follows exactly when the write succeeds |
| OpsJobAnswers.ClosingCancelsQueued | integrations/exoanchor-mcp/exoanchor_mcp/jobs.py:391-411 | Closing cancels each live run that waits in the queue, in memory and where the write succeeds in the journal, and leaves every other record as it is |
| OpsJobAnswers.UndisturbedRunRuns | integrations/exoanchor-mcp/exoanchor_mcp/jobs.py:643-754 | A submitted run that is not cancelled, whose start can be journalled, does not end before its runner was called, in any run of steps without a crash |
| OpsJobAnswers.UnsavedStartFails | integrations/exoanchor-mcp/exoanchor_mcp/jobs.py:700-734 | A start that cannot be journalled ends the run as failed for storage |
| OpsJobAnswers.StartRecorded | integrations/exoanchor-mcp/exoanchor_mcp/jobs.py:700-712 | A run that nobody cancelled is shown as running, attempt included, in memory and journal before its runner can be called |
| OpsJobAnswers.OutcomeStored | integrations/exoanchor-mcp/exoanchor_mcp/jobs.py:735-754 | The end is stamped with the time of recording and reaches the journal, or the record says that it did not |
| OpsJobAnswers.RestartInterrupts | integrations/exoanchor-mcp/exoanchor_mcp/jobs.py:453-481 | A restart closes each unfinished run and its attempt as interrupted, needing attention, with an uncertain commit, and writes that down or notes that it could not |
| OpsJobRequests.StartAnswer | integrations/exoanchor-mcp/exoanchor_mcp/jobs.py:600-678 | From every reachable state: a new run is submitted exactly when the manager is open, the job known and active, none of its runs live, the pool not full and both writes succeed; a live run is answered for itself; what each answer leaves in every table is stated |
| OpsJobRequests.OverdueIsStarted | integrations/exoanchor-mcp/exoanchor_mcp/jobs.py:811-824 | The job at the head of the list gets one interval run and a schedule one interval ahead if it may run; a storage error puts it off by 60 s; otherwise nothing but the list changes |
| OpsJobRequests.ScanListsOverdue | integrations/exoanchor-mcp/exoanchor_mcp/jobs.py:787-810 | A scan lists a job exactly when it is active, runs by interval, is due and does not back off, each once |
| OpsJobRequests.PausedIsNotRun | integrations/exoanchor-mcp/exoanchor_mcp/jobs.py:572-678 | A job that is not active gets no run, by hand or by interval, until it is resumed, in any run of steps with crashes and restarts |
| OpsJobRequests.SetPausedAnswer | integrations/exoanchor-mcp/exoanchor_mcp/jobs.py:572-590 | Pausing and resuming succeed exactly for known jobs that are not retired while the manager is open and the write succeeds; resuming schedules one interval from now; nothing else changes |
| OpsJobRequests.CreateAnswer | integrations/exoanchor-mcp/exoanchor_mcp/jobs.py:491-552 | From every reachable state: a job is created exactly when the manager is open, the definition within its bounds, the key new and the write succeeds; a known key is answered with its job exactly for the same definition; every other answer changes nothing |
| OpsJobRequests.KeyIsPermanent | integrations/exoanchor-mcp/exoanchor_mcp/jobs.py:491-552 | Once a job has a key, in any later run and after any restart a creation under it changes nothing and is answered with that job, or refused if the definition differs |
| OpsJobRequests.ClosedForGood | integrations/exoanchor-mcp/exoanchor_mcp/jobs.py:391-411 | After closing, definitions, pauses and starts are refused for the rest of the lifetime, and no scan begins |
| OpsJobRequests.LoadsExactlyTheValid | integrations/exoanchor-mcp/exoanchor_mcp/jobs.py:66-83 | A restart loads a definition exactly when it has a generation, a device and a trigger it can follow |
| OpsJobManager.OpsJobManager.constructor | integrations/exoanchor-mcp/exoanchor_mcp/jobs.py:358-389 | A new manager over any state directory holds its acceptable definitions and recovered runs, with the later file of the walk winning a shared key; over what a manager left it makes the restart step into a reachable state |
| OpsJobManager.OpsJobManager.LoadJournal | integrations/exoanchor-mcp/exoanchor_mcp/jobs.py:442-481 | Loading both directories, in the order of the walk |
| OpsJobManager.OpsJobManager.LoadJobs | integrations/exoanchor-mcp/exoanchor_mcp/jobs.py:442-481 | Exactly the acceptable definitions are loaded, and their keys indexed in the order of the walk |
| OpsJobManager.OpsJobManager.LoadRun | integrations/exoanchor-mcp/exoanchor_mcp/jobs.py:453-481 | A live run file is closed as interrupted, attempt included, and rewritten unless the write fails |
| OpsJobManager.OpsJobManager.LoadRuns | integrations/exoanchor-mcp/exoanchor_mcp/jobs.py:453-481 | All run files are recovered, in any file order |
| OpsJobManager.OpsJobManager.Create | integrations/exoanchor-mcp/exoanchor_mcp/jobs.py:491-552 | The create step from a reachable state to a reachable state, and its reply: closed, key reuse, conflict, journal before memory |
| OpsJobManager.OpsJobManager.SetPaused | integrations/exoanchor-mcp/exoanchor_mcp/jobs.py:572-590 | The pause step and its reply; resuming schedules a full interval ahead; a failed write changes nothing |
| OpsJobManager.OpsJobManager.ActiveRun | integrations/exoanchor-mcp/exoanchor_mcp/jobs.py:592-598 | The active entry counts only while its run is live |
| OpsJobManager.OpsJobManager.Refuse | integrations/exoanchor-mcp/exoanchor_mcp/jobs.py:600-613 | The reasons to refuse a run, in order: closed, unknown, not active, already running (reused), full |
| OpsJobManager.OpsJobManager.StartByHand | integrations/exoanchor-mcp/exoanchor_mcp/jobs.py:600-678 | A caller starts a run: the start step and its reply |
| OpsJobManager.OpsJobManager.StartRun | integrations/exoanchor-mcp/exoanchor_mcp/jobs.py:600-678 | State and reply of a start, by hand or by interval: run written before job, job before submit; a failed job write leaves a run that is recorded as never submitted |
| OpsJobManager.OpsJobManager.BlockRun | integrations/exoanchor-mcp/exoanchor_mcp/jobs.py:651-671 | After a failed job write the run is ended as blocked |
| OpsJobManager.OpsJobManager.SubmitRun | integrations/exoanchor-mcp/exoanchor_mcp/jobs.py:643-678 | After both writes the run is active, in the pool and the due time is one interval ahead |
| OpsJobManager.OpsJobManager.PersistOutcome | integrations/exoanchor-mcp/exoanchor_mcp/jobs.py:86-91 | A failed journal write leaves the file alone and is noted in the record |
| OpsJobManager.OpsJobManager.ForgetRun | integrations/exoanchor-mcp/exoanchor_mcp/jobs.py:680-684 | A late callback removes the active entry only if it still names this run |
| OpsJobManager.OpsJobManager.RunPreflight | integrations/exoanchor-mcp/exoanchor_mcp/jobs.py:686-713 | A worker that takes a cancelled run ends it without calling the runner; otherwise the start is journalled first |
| OpsJobManager.OpsJobManager.CallRunner | integrations/exoanchor-mcp/exoanchor_mcp/jobs.py:686-754 | The runner is called for a run whose start is recorded |
| OpsJobManager.OpsJobManager.RunFailed | integrations/exoanchor-mcp/exoanchor_mcp/jobs.py:686-754 | An exception closes run and attempt together |
| OpsJobManager.OpsJobManager.RunReturned | integrations/exoanchor-mcp/exoanchor_mcp/jobs.py:735-754 | The step that records the result of the runner; which record that is, is `OpsJobAnswers.StartedEndsWithItsOutcome` |
| OpsJobManager.OpsJobManager.CancelRun | integrations/exoanchor-mcp/exoanchor_mcp/jobs.py:763-785 | Queued runs are cancelled, others only marked; a failed write is reported after the change |
| OpsJobManager.OpsJobManager.Close | integrations/exoanchor-mcp/exoanchor_mcp/jobs.py:391-411 | Closing is the run of steps that closes the manager and then cancels each future that is not running, in the order of the table; a failed write is reported only after all |
| OpsJobManager.OpsJobManager.CancelQueued | integrations/exoanchor-mcp/exoanchor_mcp/jobs.py:391-411 | The closing loop makes exactly those cancel steps |
| OpsJobManager.OpsJobManager.ScanDue | integrations/exoanchor-mcp/exoanchor_mcp/jobs.py:787-810 | The scan step: the list is each due active interval job once and no other |
| OpsJobManager.OpsJobManager.FindDue | integrations/exoanchor-mcp/exoanchor_mcp/jobs.py:787-810 | The scanning loop finds exactly those jobs |
| OpsJobManager.OpsJobManager.Dequeue | integrations/exoanchor-mcp/exoanchor_mcp/jobs.py:686-690 | The step of the pool that hands a run to a worker |
| OpsJobManager.OpsJobManager.EndRunner | integrations/exoanchor-mcp/exoanchor_mcp/jobs.py:686-714 | The step in which a runner returns or raises |
| OpsJobManager.OpsJobManager.SettleFuture | integrations/exoanchor-mcp/exoanchor_mcp/jobs.py:680-686 | The step in which the future is done and its callback still to come |
| OpsJobManager.OpsJobManager.StartNextDue | integrations/exoanchor-mcp/exoanchor_mcp/jobs.py:811-824 | One due job is started as by interval; a storage error delays it by 60 s |
| FrameRate.CandidatesFit | device/ESP32P4/firmware/security-patches/usb_host_uvc-2.5.1/uvc_descriptor_parsing.c:248-257 | Neither candidate exceeds the maximum, so both 32-bit conversions are exact |
| FrameRate.FastMatchRefinesScan | device/ESP32P4/firmware/security-patches/usb_host_uvc-2.5.1/uvc_descriptor_parsing.c:237-259 | For all 32-bit minimum, maximum, step and real rates the constant-time check is true exactly when some interval of the range matches |
| FrameRate.MatchesWhatIsOffered | device/ESP32P4/firmware/security-patches/usb_host_uvc-2.5.1/uvc_descriptor_parsing.c:237-259 | The check is true exactly when the range offers an interval, the minimum or whole steps above it up to the maximum, that gives the rate to within a ten-thousandth; stated by products, without the computed rate |
| FrameRate.BestCandidate | device/ESP32P4/firmware/security-patches/usb_host_uvc-2.5.1/uvc_descriptor_parsing.c:248-257 | If any interval of the range matches, one of the two computed candidates does |
| FrameList.DiscreteIntervalCount | device/ESP32P4/firmware/security-patches/usb_host_uvc-2.5.1/uvc_descriptor_parsing.c:48-59 | The largest count not above the declared one whose dwords all end within bLength |
| FrameList.SafeTotalLength | device/ESP32P4/firmware/security-patches/usb_host_uvc-2.5.1/uvc_descriptor_parsing.c:73-89 | The largest length that stays within both the header claim and the configuration descriptor |
| FrameList.FillFrameInfo | device/ESP32P4/firmware/security-patches/usb_host_uvc-2.5.1/uvc_descriptor_parsing.c:552-598 | The entry of a frame, field by field from the descriptor: format, width, height, default interval; the three continuous dwords exactly when bLength holds them; otherwise the largest interval count that fits, with as many of the dwords as there are slots |
| FrameList.ListShowsFrames | device/ESP32P4/firmware/security-patches/usb_host_uvc-2.5.1/uvc_descriptor_parsing.c:501-610 | Every entry of a list shows a frame descriptor of the stream under the nearest known format before it, with only frames in between, in stream order |
| FrameList.CountGrows | device/ESP32P4/firmware/security-patches/usb_host_uvc-2.5.1/uvc_descriptor_parsing.c:527-541 | The count is the sum of the declared numbers of the known formats, wherever they stand |
| FrameList.CapacityGuard | device/ESP32P4/firmware/security-patches/usb_host_uvc-2.5.1/uvc_descriptor_parsing.c:549-551 | The unsigned guard means that the list is full for every index exactly when the list size is not 0 |
| FrameList.ListFormatFrames | device/ESP32P4/firmware/security-patches/usb_host_uvc-2.5.1/uvc_descriptor_parsing.c:543-601 | The inner loop appends the frames of one format and consumes the descriptor that ends them; later entries are untouched |
| FrameList.GetFrameList | device/ESP32P4/firmware/security-patches/usb_host_uvc-2.5.1/uvc_descriptor_parsing.c:501-610 | Counting and listing results of the whole search, each listed entry showing a frame of the stream; entries past the result are untouched |
| FrameList.ListAgreesWithCount | device/ESP32P4/firmware/security-patches/usb_host_uvc-2.5.1/uvc_descriptor_parsing.c:501-610 | When formats declare their frames exactly, both modes agree exactly when no format with frames is consumed as the end of another; then any size lists the first min(size, count) frames in order |
| FrameList.AdjacentFormatsDisagree | device/ESP32P4/firmware/security-patches/usb_host_uvc-2.5.1/uvc_descriptor_parsing.c:543-546 | A stream on which the modes disagree: two formats back to back, two frames counted, one listed |
| FrameList.SmallerListIsPrefix | device/ESP32P4/firmware/security-patches/usb_host_uvc-2.5.1/uvc_descriptor_parsing.c:549-551 | A smaller list holds the first entries of a larger one |
| OtaUpload.ResumeExactly | toolkit/exoanchor_toolkit/http_device.py:463-488 | A status is resumed at an offset exactly when it is ok, active, for this image and session, and the offset lies within the image |
| OtaUpload.ResumeIsTruthful | toolkit/exoanchor_toolkit/http_device.py:463-488 | An honest active device is resumed at its own offset exactly when its session is for this image |
| OtaUpload.SendChunk | toolkit/exoanchor_toolkit/http_device.py:555-584 | One posted chunk, with a lost answer resolved by asking the device: progress within the chunk, in step with an honest device, else an error; a faultless device takes the chunk |
| OtaUpload.UploadChunks | toolkit/exoanchor_toolkit/http_device.py:555-584 | Against any device the posts are slices of the image, as long as allowed, at strictly increasing offsets, at most one per byte left; with an honest device client offset and device buffer agree at every loop head; a faultless one gets every byte |
| OtaUpload.OpenSession | toolkit/exoanchor_toolkit/http_device.py:528-549 | A resumed or new session starts with the device holding exactly the prefix the client assumes; a session for another image is left alone |
| OtaUpload.SendAndFinish | toolkit/exoanchor_toolkit/http_device.py:551-596 | The rest of an open session: an invalid chunk size sends nothing; otherwise slices up to the end, and success only if the device confirmed the digest |
| OtaUpload.Update | toolkit/exoanchor_toolkit/http_device.py:490-607 | Normal return: the device reported the board of the package, refused nothing and named the digest, and an honest one has installed exactly the image. A device that reports another board, and only it, is answered with a board mismatch and left alone. Against any device the posts are slices of the image at increasing offsets, at most |payload|. A faultless honest device of this board that is free or in a session for this image is updated |
| OtaUpload.IncreasingBounded | toolkit/exoanchor_toolkit/http_device.py:555-584 | Strictly increasing offsets in a window are no more than its width |
| WebSocket.ClientLayout | device/ESP32P4/firmware/v0.86.6-dev/tools/h264-accept.py:545-563 | A client frame byte by byte as in sections 5.2 and 5.3 of RFC 6455: first byte, mask bit with the shortest length form, most significant byte first, key, and payload digits flipped exactly where the key has a 1 |
| WebSocket.ServerLayout | device/ESP32P4/firmware/v0.86.6-dev/tools/serve-ui.py:1664-1674 | A server frame byte by byte: one binary frame, shortest length form, payload as it is |
| WebSocket.ParseReadsLayout | device/ESP32P4/firmware/v0.86.6-dev/tools/h264-accept.py:135-150 | On any bytes: the reader takes a frame exactly when it is whole, in any of the three length forms and masked or not, with its low four opcode digits and its payload unmasked digit by digit, and nothing after it |
| Common.XorDigits | device/ESP32P4/firmware/v0.86.6-dev/tools/h264-accept.py:146-149 | Each binary digit of the exclusive or is 1 exactly where the digits of the two bytes differ |
| WebSocket.BigEndianRoundTrip | device/ESP32P4/firmware/v0.86.6-dev/tools/h264-accept.py:139-143 | Reading a number in network byte order undoes writing it |
| WebSocket.MaskTwice | device/ESP32P4/firmware/v0.86.6-dev/tools/h264-accept.py:560-562 | Masking twice with one key gives the payload back |
| WebSocket.LengthRoundTrip | device/ESP32P4/firmware/v0.86.6-dev/tools/h264-accept.py:549-558 | Each of the three length forms is read back, whatever follows (section 5.2 of RFC 6455) |
| WebSocket.ClientRoundTrip | device/ESP32P4/firmware/v0.86.6-dev/tools/h264-accept.py:545-563 | A masked client frame is read back with its opcode and payload and nothing more is consumed (section 5.3 of RFC 6455) |
| WebSocket.ServerRoundTrip | device/ESP32P4/firmware/v0.86.6-dev/tools/serve-ui.py:1664-1674 | The same for an unmasked binary server frame |
| WebSocket.FrameReadExtends | device/ESP32P4/firmware/v0.86.6-dev/tools/h264-accept.py:135-150 | Once a frame is complete, later bytes cannot change it |
| WebSocket.CutFrameIsTruncated | device/ESP32P4/firmware/v0.86.6-dev/tools/h264-accept.py:135-150 | A printed frame cut short anywhere is never taken for a frame |
| WebSocket.BufferedSocket.ReadExact | device/ESP32P4/firmware/v0.86.6-dev/tools/h264-accept.py:125-133 | Under every chunking the next bytes of buffer plus unread; at the end of the stream an error that loses none |
| WebSocket.BufferedSocket.ReadFrame | device/ESP32P4/firmware/v0.86.6-dev/tools/h264-accept.py:135-150 | Under every chunking the frame that parsing the remaining bytes as a whole gives, leaving exactly its remainder |
| WebSocket.BufferedSocket.ReadSent | device/ESP32P4/firmware/v0.86.6-dev/tools/h264-accept.py:135-150 | A printed frame at the front of the stream comes back, leaving exactly what follows |
| WebSocket.BufferedSocket.ReadFrames | device/ESP32P4/firmware/v0.86.6-dev/tools/h264-accept.py:1538 | Any list of frames from either printer comes back in order under every chunking, and nothing after it is consumed |
| AnnexB.FindStarts | device/ESP32P4/firmware/v0.86.6-dev/tools/serve-ui.py:32-43 | The scanning loop computes the start-code list the lemmas below speak of |
| AnnexB.ScanIsExact | device/ESP32P4/firmware/v0.86.6-dev/tools/serve-ui.py:32-43 | On any data the scan finds every start code, nothing else, as four bytes exactly when a zero precedes, in order |
| AnnexB.ScanFindsBoundaries | device/ESP32P4/firmware/v0.86.6-dev/tools/serve-ui.py:32-43 | On a written stream the scan returns the written boundaries if and only if no body holds a start code and none ending in zero is followed by a short one (Annex B of ITU-T H.264) |
| AnnexB.NalTypes | device/ESP32P4/firmware/v0.86.6-dev/tools/h264-accept.py:720-735 | The loop returns the types after all start codes of the data |
| AnnexB.TypesAreExact | device/ESP32P4/firmware/v0.86.6-dev/tools/serve-ui.py:63-78 | On any data a type is found exactly when it is the low five bits of a byte after a start code |
| AnnexB.SplitIsExact | device/ESP32P4/firmware/v0.86.6-dev/tools/serve-ui.py:30-60 | On any data: an error exactly without a start code or without a delimiter; otherwise each unit runs from the start code of one delimiter to that of the next or the end |
| AnnexB.TypesRoundTrip | device/ESP32P4/firmware/v0.86.6-dev/tools/serve-ui.py:63-78 | The types found in a written stream are exactly those of its units |
| AnnexB.AccessUnits | device/ESP32P4/firmware/v0.86.6-dev/tools/serve-ui.py:30-60 | The splitter loop cuts the data at its delimiters, with the two errors exactly for no start code and no delimiter |
| AnnexB.UnitsCoverData | device/ESP32P4/firmware/v0.86.6-dev/tools/serve-ui.py:46-60 | On any data the units are not empty and concatenate to the data from its first delimiter on |
| AnnexB.GroupsPartition | device/ESP32P4/firmware/v0.86.6-dev/tools/serve-ui.py:46-58 | The groups of a unit list partition it from the first delimiter on, each starting with its only delimiter |
| AnnexB.GroupsAreClean | device/ESP32P4/firmware/v0.86.6-dev/tools/serve-ui.py:46-58 | So each access unit is scanned on its own as it was in the stream |
| AnnexB.SplitRoundTrip | device/ESP32P4/firmware/v0.86.6-dev/tools/serve-ui.py:30-60 | A written stream splits into exactly its groups, errors included |
| AnnexB.DelimitedStreamKept | device/ESP32P4/firmware/v0.86.6-dev/tools/serve-ui.py:30-60 | A written stream that begins with a delimiter loses nothing |
| Hid.BatchesAreFull | integrations/exoanchor-mcp/exoanchor_mcp/server.py:394-400 | Every slice but the last has exactly 63 actions |
| Hid.BatchesJoin | integrations/exoanchor-mcp/exoanchor_mcp/server.py:395-402 | The posted slices join to the submitted actions and each holds 1 to 63 |
| Hid.LastBatchReleases | integrations/exoanchor-mcp/exoanchor_mcp/server.py:387-402 | The last slice ends with the release of all keys |
| HidTransaction.Client.PostJson | integrations/exoanchor-mcp/exoanchor_mcp/server.py:357-371 | One post, one answer |
| HidTransaction.Client.PostRetryBusy | integrations/exoanchor-mcp/exoanchor_mcp/server.py:357-371 | The retry loop posts exactly what the retry specification says and reports its last answer |
| HidTransaction.Client.PostBatches | integrations/exoanchor-mcp/exoanchor_mcp/server.py:394-404 | The batch loop stops at the first batch that is not delivered |
| HidTransaction.Client.SafeHidTransaction | integrations/exoanchor-mcp/exoanchor_mcp/server.py:373-429 | For every sequence of answers, the posts and the result of the whole transaction; a refused lease posts nothing else |
| HidTransaction.SubmittedEndsReleased | integrations/exoanchor-mcp/exoanchor_mcp/server.py:387-393 | What is submitted ends with a release of all keys, which is added exactly when it is missing |
| HidTransaction.ReportIsExact | integrations/exoanchor-mcp/exoanchor_mcp/server.py:394-429 | A normal return exactly when all batches and the release of the lease were accepted; otherwise the error names exactly the parts that failed |
| HidTransaction.RetryShape | integrations/exoanchor-mcp/exoanchor_mcp/server.py:357-371 | One request is repeated only after busy answers and given up after the last attempt |
| HidTransaction.LeaseReleasedLast | integrations/exoanchor-mcp/exoanchor_mcp/server.py:373-424 | Once the lease is held only batches of 1 to 63 actions are posted, then exactly one release of the lease, the last post, whatever fails |
| HidTransaction.CleanupReleasesKeys | integrations/exoanchor-mcp/exoanchor_mcp/server.py:405-417 | A batch that is not delivered is followed by separate attempts to release all keys, and only then |
| HidTransaction.BatchesInOrder | integrations/exoanchor-mcp/exoanchor_mcp/server.py:394-402 | The accepted batches are the first ones, each once and in order |
| HidTransaction.StopsAtFirstFailure | integrations/exoanchor-mcp/exoanchor_mcp/server.py:394-404 | The batch after them was tried in vain, and no later one is posted |
| HidTransaction.NothingLeftUnreported | integrations/exoanchor-mcp/exoanchor_mcp/server.py:404-428 | Whatever the device answers, and however much it executes of what it rejects: a key still held or a lease not given back is reported in the error |
| HidTransaction.NormalReturn | integrations/exoanchor-mcp/exoanchor_mcp/server.py:373-429 | When rejected posts have no effect, a normal return means the whole sequence was executed once, no key is held and the lease is free |
| HidText.TableIsTotal | integrations/exoanchor-mcp/exoanchor_mcp/contracts.py:1265-1282 | A character has a key exactly when it is printable ASCII, tab or newline |
| HidText.TableIsInjective | integrations/exoanchor-mcp/exoanchor_mcp/contracts.py:1246-1282 | Two characters never share key and shift |
| HidText.KeyReadsBack | integrations/exoanchor-mcp/exoanchor_mcp/contracts.py:1246-1282 | A host with a US layout reads the key of a character as that character |
| HidText.TextToHidActions | integrations/exoanchor-mcp/exoanchor_mcp/contracts.py:1285-1295 | The loop returns the actions of all characters in order, or the first character without a key |
| HidText.TextRoundTrip | integrations/exoanchor-mcp/exoanchor_mcp/contracts.py:1285-1295 | Text is accepted exactly when all its characters are supported, and is then typed as it is for every delay |
| HidText.KeysAndDelays | integrations/exoanchor-mcp/exoanchor_mcp/contracts.py:1285-1295 | Each character is one key combination, followed by one wait of the delay exactly when there is one |
| HidText.UnsupportedReported | integrations/exoanchor-mcp/exoanchor_mcp/contracts.py:1265-1288 | The error names the first unsupported character |
| HidText.BatchedTextRoundTrip | integrations/exoanchor-mcp/exoanchor_mcp/server.py:386-401 | The joined batches, final release included, still type the text |
| HidText.TransactionTypesText | integrations/exoanchor-mcp/exoanchor_mcp/server.py:373-429 | A transaction that returns normally has typed exactly the text, once |
| PixelScaling.NearestIsRounded | integrations/exoanchor-mcp/exoanchor_mcp/server.py:1303-1304 | Rounding half to even is the nearest integer |
| PixelScaling.ClicksInRange | integrations/exoanchor-mcp/exoanchor_mcp/server.py:1293-1304 | A pixel is refused exactly outside the frame; otherwise its column gives the first coordinate and its row the second, each the nearest of 0 to 32767 with half counts to even, one-pixel edges included |
| PixelScaling.Accurate | integrations/exoanchor-mcp/exoanchor_mcp/server.py:1303-1304 | The coordinate is within half a count of the exact position |
| PixelScaling.EndpointsKept | integrations/exoanchor-mcp/exoanchor_mcp/server.py:1303-1304 | The first and last column map to 0 and 32767 |
| PixelScaling.Monotone | integrations/exoanchor-mcp/exoanchor_mcp/server.py:1303-1304 | The coordinate never decreases with the pixel, for every width |
| PixelScaling.DistinctExactlyUpToRange | integrations/exoanchor-mcp/exoanchor_mcp/server.py:1303-1304 | Different columns have increasing, different coordinates if and only if the width is at most 32768 |
| PixelScaling.PixelRecovered | integrations/exoanchor-mcp/exoanchor_mcp/server.py:1303-1304 | Up to that width scaling back and rounding gives the pixel |
| ObservationStore.Store.Put | integrations/exoanchor-mcp/exoanchor_mcp/observations.py:111-123 | The new content of the dictionary; a missing id is an error that changes nothing |
| ObservationStore.Store.Get | integrations/exoanchor-mcp/exoanchor_mcp/observations.py:125-130 | The stored value, moved to the newest place, or a miss that changes nothing |
| ObservationStore.Store.ListMetadata | integrations/exoanchor-mcp/exoanchor_mcp/observations.py:132-138 | The metadata of all entries, newest first |
| ObservationStore.MoveCommutes | integrations/exoanchor-mcp/exoanchor_mcp/observations.py:118-130 | Moving an id in the bounded list is moving it in the unbounded recency list and forgetting the rest |
| ObservationStore.KeptIsNewest | integrations/exoanchor-mcp/exoanchor_mcp/observations.py:103-130 | Being among the newest `maximum` ids is having had fewer than `maximum` different ids used since |
| ObservationStore.KeysAreMostRecent | integrations/exoanchor-mcp/exoanchor_mcp/observations.py:103-130 | After any history the keys are the `maximum` most recently used ids, in that order |
| ObservationStore.ValuesAreLatest | integrations/exoanchor-mcp/exoanchor_mcp/observations.py:103-130 | After any history each stored value is the one last put |
| ObservationStore.LookUpFollowsHistory | integrations/exoanchor-mcp/exoanchor_mcp/observations.py:103-130 | A look-up after any history gives the last value put exactly while fewer than `maximum` other ids were used since, otherwise a miss |
| JsonDepth.CheckDepth | integrations/exoanchor-mcp/exoanchor_mcp/json_limits.py:20-29 | The iterator walk ends, rejects exactly when the recursive depth exceeds 64, and its stack peaks at exactly 1 + min(depth, 64) frames |
| JsonDepth.DepthIsNesting | integrations/exoanchor-mcp/exoanchor_mcp/json_limits.py:20-29 | The depth that is bounded is the longest nesting of containers |
| JsonDepth.TakeKeeps | integrations/exoanchor-mcp/exoanchor_mcp/json_limits.py:21-28 | Taking one value keeps the balance between places reached and places ahead, shrinks the work left, and rejects only too deep values |

## Left out

- Threads and locks as such: each critical section is one step. A crash inside a section is the section with its later writes failed, followed by a crash, because only the journal survives.
- The number of workers: a worker may take any queued item at any time, so the results hold for every pool size and every queue order; only the capacity bound uses the configured numbers.
- Damaged journal files, reads of files that fail and byte-level file handling: a write replaces a whole record or fails with an `OSError`.
- Job output in `result` (paging, artifact files and their hashes), `list`, `status` and public views beyond the fields above: easy members.
- Random identifiers are fresh by assumption (`id !in jobs`, `run !in runs`), and the clock a manager reads never runs backwards (`clock <= now`); request digests and definition fingerprints are abstract values that are equal exactly for equal requests.
- Exceptions without a text: the source stores the empty text and then shows no error; messages of the model are never empty.
- Runners that raise something other than an `Exception` (such as `SystemExit`): the source then leaves the record live although its future is gone, so an operations run could stay live after its job has moved on. A runner of the model returns or raises an `Exception`.
- `tick` with an explicit time argument: the one scheduler thread reads a clock that never runs backwards.
- Waiting for the pool to drain when a manager closes.
- IEEE rounding in the frame-rate check and in pixel scaling: exact reals and exact integer ratios.
- Byte layout of USB descriptors: they are tagged records with the interval dwords that lie within `bLength`; the interval array offset 26 is that of the USB Video Class frame descriptors. The ESP-IDF headers and helpers are not part of this model.
- FrameList.ListFormatFrames: requires a list of at least one entry, for the reason given for the next member.
- FrameList.GetFrameList: requires a list of at least one entry, because for size 0 the guard never reports a full list (`FrameList.CapacityGuard`); the early returns for missing headers are not modelled.
- TLS, HTTP, package parsing, the list of boards that may be updated over the network, and the letter case of digests in the OTA update; hashes are collision-free.
- OtaUpload.Update: the device is required to hold a prefix of the image when its session is for that image, as an honest device does; what a device that is not honest installs is not constrained. A device announces one chunk size and reports one board during an update, each of which the client reads once.
- WebSocket control frames, fragmentation and the FIN bit, which the reader does not look at; socket timeouts.
- HidTransaction.Client.SafeHidTransaction: does not model exceptions other than the client's own error type, response bodies and error texts; it keeps which parts failed. Sleeping between attempts is left out.
- What the host does with key combinations other than a single key with at most the left shift: it types nothing in this model.
- Deep copies in the observation store: values are immutable here, so aliasing cannot arise. A store with a negative maximum is not modelled.
- Parsing of JSON text: the depth check starts from the decoded value.
- User interfaces, discovery, release downloads, the firmware's C adapters and the second copy of the JSON limit.
