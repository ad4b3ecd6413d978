/**
 What the operations job manager owes the caller of a run: a cancel in time keeps the runner from being called, a run that
 nobody disturbs has its runner called before it ends, and a run whose runner has ended is recorded as the runner said.
 */
module OpsJobAnswers {
  import opened Common
  import opened ThreadPool
  import opened OpsJobSpec
  import opened OpsJobProofs

  predicate CrashFree(steps: seq<Step>) {
    forall i :: 0 <= i < |steps| ==> !steps[i].DoCrash?
  }

  lemma ClockedIsEnabled(w: World, s: Step)
    requires Enabled(w, s)
    ensures Enabled(Clocked(w, s), s)
  {
  }

  /** The world in which the scheduler starts the job it has just taken off its list. */
  function HeadTaken(w: World): World
    requires w.mem.due != []
  {
    w.(mem := w.mem.(due := w.mem.due[1..]))
  }

  /** Starting a due job is starting a run of it by interval, up to the table of backoffs. */
  lemma StartDueStarts(cfg: Config, w: World, run: RunId, now: Time, writes: Writes, monotonic: Time)
    requires w.mem.due != []
    ensures var v := StartRun(cfg, HeadTaken(w), w.mem.due[0], run, ByInterval, now, writes);
            var u := StartDue(cfg, w, run, now, writes, monotonic);
            u == v.(mem := v.mem.(retryAt := u.mem.retryAt))
  {
  }

  // ----- cancels -----

  /** The run waits for a worker or for its preflight. */
  ghost predicate NotStarted(w: World, run: RunId) {
    && w.up && run in w.mem.runs && run in w.mem.work
    && (w.mem.work[run].phase == Pending || w.mem.work[run].phase == Dequeued)
  }

  /** A cancel has reached the run before its runner was called. */
  ghost predicate Marked(w: World, run: RunId) {
    && w.up && run in w.mem.runs && run in w.disk.runs && !WasInvoked(w.history.invoked, run)
    && (w.mem.runs[run].state == Cancelled
        || (NotStarted(w, run) && w.mem.runs[run].cancelRequested && w.mem.runs[run].state == CancelRequested))
  }

  /** The run is known and has no place in the pool, so nobody will call its runner. */
  ghost predicate NeverRuns(w: World, run: RunId) {
    && run in w.disk.runs && !WasInvoked(w.history.invoked, run)
    && (w.up ==> run in w.mem.runs && run !in w.mem.work)
  }

  lemma CancelMarks(w: World, run: RunId, now: Time, saved: bool)
    requires w.up && run in w.mem.futures && run in w.disk.runs && !WasInvoked(w.history.invoked, run)
    requires NotStarted(w, run) && !Terminal(w.mem.runs[run].state)
    ensures Marked(CancelRun(w, run, now, saved), run)
    ensures w.mem.work[run].phase == Pending ==> CancelRun(w, run, now, saved).mem.runs[run].state == Cancelled
  {
  }

  lemma NotStartedFacts(cfg: Config, w: World, run: RunId)
    requires Inv(cfg, w) && NotStarted(w, run)
    ensures run in w.mem.futures && run in w.disk.runs && !WasInvoked(w.history.invoked, run)
  {
    assert RunAt(w, run);
  }

  lemma MarkedWasAsked(cfg: Config, w: World, run: RunId)
    requires Inv(cfg, w) && Marked(w, run)
    ensures InPhase(w.mem, run, Dequeued) ==> w.mem.runs[run].cancelRequested
    ensures !CanRecord(w.mem, run) && !InPhase(w.mem, run, Ready)
  {
    assert RunAt(w, run);
  }

  lemma OwnPreflightKeepsMarked(w: World, run: RunId, now: Time, saved: bool)
    requires InPhase(w.mem, run, Dequeued) && Marked(w, run) && w.mem.runs[run].cancelRequested
    ensures Marked(Preflight(w, run, now, saved), run)
  {
  }

  lemma OtherPreflightKeepsMarked(w: World, x: RunId, now: Time, saved: bool, run: RunId)
    requires InPhase(w.mem, x, Dequeued) && Marked(w, run) && x != run
    ensures Marked(Preflight(w, x, now, saved), run)
  {
  }

  lemma RecordKeepsMarked(w: World, x: RunId, now: Time, saved: bool, run: RunId)
    requires CanRecord(w.mem, x) && Marked(w, run) && x != run
    ensures Marked(RecordEnd(w, x, now, saved), run)
  {
  }

  lemma InvokeKeepsMarked(w: World, x: RunId, run: RunId)
    requires InPhase(w.mem, x, Ready) && Marked(w, run) && x != run
    ensures Marked(Invoke(w, x), run)
  {
  }

  lemma CancelKeepsMarked(w: World, x: RunId, now: Time, saved: bool, run: RunId)
    requires Marked(w, run)
    ensures Marked(CancelRun(w, x, now, saved), run)
  {
  }

  lemma StartKeepsMarked(cfg: Config, w: World, id: JobId, x: RunId, origin: Origin, now: Time, writes: Writes, run: RunId)
    requires Marked(w, run) && x !in w.mem.runs
    ensures Marked(StartRun(cfg, w, id, x, origin, now, writes), run)
  {
  }

  lemma StartDueKeepsMarked(cfg: Config, w: World, x: RunId, now: Time, writes: Writes, monotonic: Time, run: RunId)
    requires Marked(w, run) && x !in w.mem.runs && w.mem.due != []
    ensures Marked(StartDue(cfg, w, x, now, writes, monotonic), run)
  {
    StartDueStarts(cfg, w, x, now, writes, monotonic);
    StartKeepsMarked(cfg, HeadTaken(w), w.mem.due[0], x, ByInterval, now, writes, run);
  }

  lemma MoveKeepsMarked(cfg: Config, w: World, s: Step, run: RunId)
    requires Enabled(w, s) && Marked(w, run)
    requires s.DoCreate? || s.DoSetPaused? || s.DoScan? || s.DoDequeue? || s.DoEnd? || s.DoSettle? || s.DoCallback? || s.DoClose?
    ensures Marked(Effect(cfg, w, s), run)
  {
  }

  lemma EffectKeepsMarked(cfg: Config, w: World, s: Step, run: RunId)
    requires Enabled(w, s) && Marked(w, run) && !s.DoCrash? && !s.DoReload?
    requires InPhase(w.mem, run, Dequeued) ==> w.mem.runs[run].cancelRequested
    requires !CanRecord(w.mem, run) && !InPhase(w.mem, run, Ready)
    ensures Marked(Effect(cfg, w, s), run)
  {
    match s
    case DoPreflight(x, now, saved) =>
      if x == run { OwnPreflightKeepsMarked(w, run, now, saved); } else { OtherPreflightKeepsMarked(w, x, now, saved, run); }
    case DoRecord(x, now, saved) => RecordKeepsMarked(w, x, now, saved, run);
    case DoInvoke(x) => InvokeKeepsMarked(w, x, run);
    case DoCancelRun(x, now, saved) => CancelKeepsMarked(w, x, now, saved, run);
    case DoStartRun(id, x, now, writes) => StartKeepsMarked(cfg, w, id, x, ByHand, now, writes, run);
    case DoStartDue(x, now, writes, monotonic) => StartDueKeepsMarked(cfg, w, x, now, writes, monotonic, run);
    case _ => MoveKeepsMarked(cfg, w, s, run);
  }

  lemma NextKeepsMarked(cfg: Config, w: World, s: Step, run: RunId)
    requires Inv(cfg, w) && Marked(w, run) && !s.DoCrash?
    ensures Marked(Next(cfg, w, s), run)
  {
    MarkedWasAsked(cfg, w, run);
    if Enabled(w, s) {
      ClockedIsEnabled(w, s);
      EffectKeepsMarked(cfg, Clocked(w, s), s, run);
    }
  }

  lemma StartKeepsNeverRuns(cfg: Config, w: World, id: JobId, x: RunId, origin: Origin, now: Time, writes: Writes, run: RunId)
    requires w.up && NeverRuns(w, run) && x !in w.mem.runs
    ensures NeverRuns(StartRun(cfg, w, id, x, origin, now, writes), run)
  {
  }

  lemma WorkerKeepsNeverRuns(cfg: Config, w: World, s: Step, run: RunId)
    requires Enabled(w, s) && NeverRuns(w, run) && (s.DoInvoke? || s.DoRecord? || s.DoCancelRun?)
    ensures NeverRuns(Effect(cfg, w, s), run)
  {
  }

  lemma PreflightKeepsNeverRuns(w: World, x: RunId, now: Time, saved: bool, run: RunId)
    requires w.up && InPhase(w.mem, x, Dequeued) && NeverRuns(w, run)
    ensures NeverRuns(Preflight(w, x, now, saved), run)
  {
  }

  lemma MoveKeepsNeverRuns(cfg: Config, w: World, s: Step, run: RunId)
    requires Enabled(w, s) && NeverRuns(w, run) && !(s.DoPreflight? || s.DoInvoke? || s.DoRecord? || s.DoCancelRun?)
    requires !s.DoStartRun? && !s.DoStartDue?
    ensures NeverRuns(Effect(cfg, w, s), run)
  {
  }

  lemma EffectKeepsNeverRuns(cfg: Config, w: World, s: Step, run: RunId)
    requires Enabled(w, s) && NeverRuns(w, run)
    ensures NeverRuns(Effect(cfg, w, s), run)
  {
    if s.DoStartRun? {
      StartKeepsNeverRuns(cfg, w, s.id, s.run, ByHand, s.now, s.writes, run);
    } else if s.DoStartDue? {
      StartKeepsNeverRuns(cfg, HeadTaken(w), w.mem.due[0], s.run, ByInterval, s.now, s.writes, run);
    } else if s.DoPreflight? {
      PreflightKeepsNeverRuns(w, s.run, s.now, s.saved, run);
    } else if s.DoInvoke? || s.DoRecord? || s.DoCancelRun? {
      WorkerKeepsNeverRuns(cfg, w, s, run);
    } else {
      MoveKeepsNeverRuns(cfg, w, s, run);
    }
  }

  lemma {:induction false} RunKeepsNeverRuns(cfg: Config, w: World, steps: seq<Step>, run: RunId)
    requires NeverRuns(w, run)
    ensures NeverRuns(Execute(cfg, w, steps), run)
    decreases |steps|
  {
    if steps != [] {
      var s := steps[0];
      if Enabled(w, s) {
        ClockedIsEnabled(w, s);
        EffectKeepsNeverRuns(cfg, Clocked(w, s), s, run);
      }
      RunKeepsNeverRuns(cfg, Next(cfg, w, s), steps[1..], run);
    }
  }

  lemma CrashSpares(cfg: Config, w: World, steps: seq<Step>, run: RunId)
    requires Marked(w, run) && steps != [] && steps[0].DoCrash?
    ensures !WasInvoked(Execute(cfg, w, steps).history.invoked, run)
  {
    RunKeepsNeverRuns(cfg, Next(cfg, w, steps[0]), steps[1..], run);
  }

  lemma {:induction false} RunKeepsMarked(cfg: Config, w: World, steps: seq<Step>, run: RunId)
    requires Inv(cfg, w) && Marked(w, run)
    ensures !WasInvoked(Execute(cfg, w, steps).history.invoked, run)
    ensures CrashFree(steps) ==> Marked(Execute(cfg, w, steps), run)
    decreases |steps|
  {
    if steps != [] {
      var s := steps[0];
      if s.DoCrash? {
        CrashSpares(cfg, w, steps, run);
      } else {
        NextKeepsInv(cfg, w, s);
        NextKeepsMarked(cfg, w, s, run);
        RunKeepsMarked(cfg, Next(cfg, w, s), steps[1..], run);
      }
    }
  }

  lemma CancelIsEnabled(cfg: Config, w: World, run: RunId, now: Time, saved: bool)
    requires w.up && w.clock <= now
    ensures Next(cfg, w, DoCancelRun(run, now, saved)) == CancelRun(w.(clock := now), run, now, saved)
  {
  }

  lemma CancelStepMarks(cfg: Config, w: World, run: RunId, now: Time, saved: bool)
    requires Inv(cfg, w) && NotStarted(w, run) && !Terminal(w.mem.runs[run].state) && w.clock <= now
    ensures var u := Next(cfg, w, DoCancelRun(run, now, saved));
            Marked(u, run) && (w.mem.work[run].phase == Pending ==> u.mem.runs[run].state == Cancelled)
  {
    NotStartedFacts(cfg, w, run);
    CancelIsEnabled(cfg, w, run, now, saved);
    CancelMarks(w.(clock := now), run, now, saved);
  }

  /**
   A cancel in time is honoured: when it comes while the run waits in the queue or is with a worker that has not passed its
   preflight, the runner is never called, in this lifetime or a later one, and the run ends as cancelled; a run still
   in the queue is shown as cancelled at once.
   */
  lemma CancelIsHonoured(cfg: Config, before: seq<Step>, after: seq<Step>, run: RunId, now: Time, saved: bool)
    requires var w := Execute(cfg, INITIAL, before);
             NotStarted(w, run) && !Terminal(w.mem.runs[run].state) && w.clock <= now
    ensures var w := Execute(cfg, INITIAL, before);
            var u := Next(cfg, w, DoCancelRun(run, now, saved));
            var v := Execute(cfg, u, after);
            && run !in v.history.invoked
            && run in u.mem.runs && (w.mem.work[run].phase == Pending ==> u.mem.runs[run].state == Cancelled)
            && (CrashFree(after) ==> run in v.mem.runs && (Terminal(v.mem.runs[run].state) ==> v.mem.runs[run].state == Cancelled))
  {
    var w := Execute(cfg, INITIAL, before);
    ReachableInv(cfg, before);
    CancelStepMarks(cfg, w, run, now, saved);
    NextKeepsInv(cfg, w, DoCancelRun(run, now, saved));
    RunKeepsMarked(cfg, Next(cfg, w, DoCancelRun(run, now, saved)), after, run);
  }

  /** A step on one run leaves everything else alone. */
  ghost predicate OnlyRun(w: World, v: World, run: RunId) {
    && v.up == w.up && v.history == w.history && v.disk.jobs == w.disk.jobs
    && v.mem == w.mem.(runs := v.mem.runs)
    && v.mem.runs.Keys == w.mem.runs.Keys && v.disk.runs.Keys == w.disk.runs.Keys
    && (forall r :: r in w.mem.runs && r != run ==> v.mem.runs[r] == w.mem.runs[r])
    && (forall r :: r in w.disk.runs && r != run ==> v.disk.runs[r] == w.disk.runs[r])
  }

  /** The record of a run that was cancelled in the queue, or that was asked to stop. */
  ghost predicate CancelledAs(r: Run, v: Run, queued: bool, now: Time) {
    && v.cancelRequested && v.job == r.job && v.startedAt == r.startedAt && v.createdAt == r.createdAt && v.finding == r.finding
    && (if queued then
          v.state == Cancelled && v.phase == Completed && v.outcome == Some(Cancelled) && v.finishedAt == Some(now)
          && v.attempt.state == Cancelled && v.attempt.finishedAt == Some(now)
        else v.state == CancelRequested && v.phase == r.phase && v.outcome == r.outcome && v.finishedAt == r.finishedAt && v.attempt == r.attempt)
  }

  ghost predicate CancelDone(w: World, v: World, run: RunId, now: Time, saved: bool) {
    && OnlyRun(w, v, run)
    && run in w.mem.work && run in w.mem.runs && run in w.disk.runs && run in v.mem.runs && run in v.disk.runs
    && CancelledAs(w.mem.runs[run], v.mem.runs[run], w.mem.work[run].phase == Pending, now)
    && v.disk.runs[run] == (if saved then v.mem.runs[run] else w.disk.runs[run])
  }

  lemma LiveIsInPool(cfg: Config, w: World, run: RunId)
    requires Inv(cfg, w) && w.up && run in w.mem.runs && !Terminal(w.mem.runs[run].state)
    ensures run in w.disk.runs && run in w.mem.work && run in w.mem.futures && !w.mem.work[run].phase.Settled?
  {
    assert RunAt(w, run);
  }

  lemma CancelDoes(w: World, run: RunId, now: Time, saved: bool)
    requires w.up && run in w.mem.runs && !Terminal(w.mem.runs[run].state)
    requires run in w.disk.runs && run in w.mem.work && run in w.mem.futures && !w.mem.work[run].phase.Settled?
    ensures CancelDone(w, CancelRun(w, run, now, saved), run, now, saved)
  {
    var v := CancelRun(w, run, now, saved);
    assert v.mem.runs.Keys == w.mem.runs.Keys + {run} == w.mem.runs.Keys;
    assert v.disk.runs.Keys == w.disk.runs.Keys + {run} == w.disk.runs.Keys;
  }

  lemma CancelDoesOrNot(cfg: Config, w: World, run: RunId, now: Time, saved: bool)
    requires Inv(cfg, w) && w.up
    ensures var v := CancelRun(w.(clock := now), run, now, saved);
            if run !in w.mem.runs || Terminal(w.mem.runs[run].state) then v == w.(clock := now) else CancelDone(w, v, run, now, saved)
  {
    if run in w.mem.runs && !Terminal(w.mem.runs[run].state) {
      LiveIsInPool(cfg, w, run);
      CancelDoes(w.(clock := now), run, now, saved);
      assert CancelDone(w.(clock := now), CancelRun(w.(clock := now), run, now, saved), run, now, saved);
    }
  }

  /**
   A cancel does what its answer says: a run in the queue is cancelled, one that a worker has is asked to stop, one that has
   ended is left alone, and so is everything else; the journal follows if the write succeeds.
   */
  lemma CancelAnswer(cfg: Config, before: seq<Step>, run: RunId, now: Time, saved: bool)
    requires Execute(cfg, INITIAL, before).up && Execute(cfg, INITIAL, before).clock <= now
    ensures var w := Execute(cfg, INITIAL, before);
            var v := Next(cfg, w, DoCancelRun(run, now, saved));
            if run !in w.mem.runs || Terminal(w.mem.runs[run].state) then v == w.(clock := now) else CancelDone(w, v, run, now, saved)
  {
    var w := Execute(cfg, INITIAL, before);
    ReachableInv(cfg, before);
    CancelIsEnabled(cfg, w, run, now, saved);
    CancelDoesOrNot(cfg, w, run, now, saved);
  }

  /** A run that waits in the queue and has not ended. */
  ghost predicate Queueing(w: World, run: RunId) {
    run in w.mem.work && w.mem.work[run].phase == Pending && run in w.mem.runs && !Terminal(w.mem.runs[run].state)
  }

  lemma QueueingIsEnded(cfg: Config, w: World, run: RunId)
    requires Inv(cfg, w) && w.up && run in w.mem.runs
    ensures run in w.disk.runs && (Queueing(w, run) <==> EndedByClose(w.mem.work, w.mem.runs, run))
    ensures Queueing(w, run) ==> run in w.mem.futures
  {
    assert RunAt(w, run);
  }

  /** Closing cancels each run that waits in the queue, in memory and where the write succeeds in the journal, and leaves all others. */
  lemma ClosingCancelsQueued(cfg: Config, before: seq<Step>, order: seq<RunId>, now: Time, saved: set<RunId>, run: RunId)
    requires var w := Execute(cfg, INITIAL, before);
             && w.up && w.clock <= now && run in w.mem.runs
             && (forall r :: r in order <==> r in w.mem.futures)
             && (forall i, j :: 0 <= i < j < |order| ==> order[i] != order[j])
    ensures var w := Execute(cfg, INITIAL, before);
            var v := Execute(cfg, w, [DoClose] + CloseSteps(order, w.mem.work, now, saved));
            && v.mem.closed && v.history == w.history && run in v.mem.runs && run in v.disk.runs && run in w.disk.runs
            && (if Queueing(w, run) then CancelledAs(w.mem.runs[run], v.mem.runs[run], true, now) else v.mem.runs[run] == w.mem.runs[run])
            && v.disk.runs[run] == (if Queueing(w, run) && run in saved then v.mem.runs[run] else w.disk.runs[run])
  {
    ClosingEndsWaiting(cfg, before, order, now, saved);
    ReachableInv(cfg, before);
    QueueingIsEnded(cfg, Execute(cfg, INITIAL, before), run);
  }

  // ----- recorded outcomes -----

  /** The state a runner asks for, with the states of a run that has not ended and all other texts read as a failure. */
  ghost predicate StateAsked(state: RunState, result: OpsResult) {
    match result.outcome
    case None => state == if result.ok then NoChange else Degraded
    case Some(Other) => state == Failed
    case Some(Named(s)) => state == if s in {Queued, Running, CancelRequested} then Failed else s
  }

  /** A run is closed as its runner said: the same end in all its fields, and the findings the runner gave. */
  ghost predicate RunnerSaid(r: Run, end: RunnerEnd) {
    && r.outcome == Some(r.state) && r.attempt.state == r.state && r.finishedAt.Some? && r.attempt.finishedAt == r.finishedAt
    && r.phase == (if r.state in {Succeeded, NoChange} then Completed else NeedsAttention)
    && match end
       case Returned(result) => StateAsked(r.state, result) && r.finding == result.finding && r.attempt.failure == result.failure
       case Raised => r.state == Failed && r.finding == Some(Transient) && r.attempt.failure == Some(Transient)
       case PreflightFailed => r.state == Failed && r.finding == Some(Storage) && r.attempt.failure == Some(Storage)
  }

  /** The runner of the run ended this way, and a worker holds that end or has recorded it. */
  ghost predicate Concluding(w: World, run: RunId, end: RunnerEnd) {
    && w.up && run in w.mem.runs
    && (if run in w.mem.work && w.mem.work[run].phase.Ended? then w.mem.work[run].phase.end == end
        else RunnerSaid(w.mem.runs[run], end) && (run in w.mem.work ==> w.mem.work[run].phase.Finished? || w.mem.work[run].phase.Settled?))
  }

  lemma EndIsRecorded(r: Run, end: RunnerEnd, now: Time)
    ensures RunnerSaid(EndedRun(r, end, now), end) && RunnerSaid(EndedRun(r, end, now).(journalError := true), end)
  {
  }

  lemma RunnerSaidIsTerminal(r: Run, end: RunnerEnd)
    requires RunnerSaid(r, end)
    ensures Terminal(r.state)
  {
  }

  lemma RecordKeepsConcluding(w: World, x: RunId, now: Time, saved: bool, run: RunId, end: RunnerEnd)
    requires CanRecord(w.mem, x) && Concluding(w, run, end)
    ensures Concluding(RecordEnd(w, x, now, saved), run, end)
  {
    if x == run { EndIsRecorded(w.mem.runs[run], end, now); }
  }

  lemma PreflightKeepsConcluding(w: World, x: RunId, now: Time, saved: bool, run: RunId, end: RunnerEnd)
    requires InPhase(w.mem, x, Dequeued) && Concluding(w, run, end)
    ensures Concluding(Preflight(w, x, now, saved), run, end)
  {
  }

  /** A worker's end is not over before it is recorded, so a cancel that finds the run over leaves it, and one that does not marks it. */
  lemma CancelKeepsConcluding(w: World, x: RunId, now: Time, saved: bool, run: RunId, end: RunnerEnd)
    requires Concluding(w, run, end)
    ensures Concluding(CancelRun(w, x, now, saved), run, end)
  {
    if x == run && !CanRecord(w.mem, run) { RunnerSaidIsTerminal(w.mem.runs[run], end); }
  }

  lemma StartKeepsConcluding(cfg: Config, w: World, id: JobId, x: RunId, origin: Origin, now: Time, writes: Writes, run: RunId, end: RunnerEnd)
    requires Concluding(w, run, end) && x !in w.mem.runs
    ensures Concluding(StartRun(cfg, w, id, x, origin, now, writes), run, end)
  {
  }

  lemma StartDueKeepsConcluding(cfg: Config, w: World, x: RunId, now: Time, writes: Writes, monotonic: Time, run: RunId, end: RunnerEnd)
    requires Concluding(w, run, end) && x !in w.mem.runs && w.mem.due != []
    ensures Concluding(StartDue(cfg, w, x, now, writes, monotonic), run, end)
  {
    StartDueStarts(cfg, w, x, now, writes, monotonic);
    StartKeepsConcluding(cfg, HeadTaken(w), w.mem.due[0], x, ByInterval, now, writes, run, end);
  }

  lemma MoveKeepsConcluding(cfg: Config, w: World, s: Step, run: RunId, end: RunnerEnd)
    requires Enabled(w, s) && Concluding(w, run, end)
    requires s.DoCreate? || s.DoSetPaused? || s.DoScan? || s.DoDequeue? || s.DoInvoke? || s.DoEnd? || s.DoSettle? || s.DoCallback? || s.DoClose?
    ensures Concluding(Effect(cfg, w, s), run, end)
  {
  }

  lemma EffectKeepsConcluding(cfg: Config, w: World, s: Step, run: RunId, end: RunnerEnd)
    requires Enabled(w, s) && Concluding(w, run, end) && !s.DoCrash?
    ensures Concluding(Effect(cfg, w, s), run, end)
  {
    match s
    case DoPreflight(x, now, saved) => PreflightKeepsConcluding(w, x, now, saved, run, end);
    case DoRecord(x, now, saved) => RecordKeepsConcluding(w, x, now, saved, run, end);
    case DoCancelRun(x, now, saved) => CancelKeepsConcluding(w, x, now, saved, run, end);
    case DoStartRun(id, x, now, writes) => StartKeepsConcluding(cfg, w, id, x, ByHand, now, writes, run, end);
    case DoStartDue(x, now, writes, monotonic) => StartDueKeepsConcluding(cfg, w, x, now, writes, monotonic, run, end);
    case DoReload(now, rewritten) =>
    case _ => MoveKeepsConcluding(cfg, w, s, run, end);
  }

  lemma {:induction false} RunKeepsConcluding(cfg: Config, w: World, steps: seq<Step>, run: RunId, end: RunnerEnd)
    requires CrashFree(steps) && Concluding(w, run, end)
    ensures Concluding(Execute(cfg, w, steps), run, end)
    decreases |steps|
  {
    if steps != [] {
      var s := steps[0];
      if Enabled(w, s) {
        ClockedIsEnabled(w, s);
        EffectKeepsConcluding(cfg, Clocked(w, s), s, run, end);
      }
      RunKeepsConcluding(cfg, Next(cfg, w, s), steps[1..], run, end);
    }
  }

  /** While a worker holds the end of its runner, a run is not over. */
  lemma ConcludedIsRecorded(cfg: Config, w: World, run: RunId, end: RunnerEnd)
    requires Inv(cfg, w) && Concluding(w, run, end) && Terminal(w.mem.runs[run].state)
    ensures RunnerSaid(w.mem.runs[run], end)
  {
    if CanRecord(w.mem, run) { ExecutingIsLive(cfg, w, run); }
  }

  lemma ConcludesAsSaid(cfg: Config, w: World, after: seq<Step>, run: RunId, end: RunnerEnd)
    requires Inv(cfg, w) && Concluding(w, run, end) && CrashFree(after)
    ensures var v := Execute(cfg, w, after);
            v.up && run in v.mem.runs && (Terminal(v.mem.runs[run].state) ==> RunnerSaid(v.mem.runs[run], end))
  {
    RunKeepsConcluding(cfg, w, after, run, end);
    RunKeepsInv(cfg, w, after);
    var v := Execute(cfg, w, after);
    if Terminal(v.mem.runs[run].state) { ConcludedIsRecorded(cfg, v, run, end); }
  }

  lemma RunnerEnds(cfg: Config, w: World, run: RunId, end: RunnerEnd)
    requires w.up && InPhase(w.mem, run, Invoking) && !end.PreflightFailed?
    ensures Concluding(Next(cfg, w, DoEnd(run, end)), run, end)
  {
  }

  /**
   Once its runner has ended, a run can only end, in this lifetime, as the runner said: in the state it asked for, with that
   state in every field, with its findings, and needing attention unless it succeeded or changed nothing; an exception is
   a failure that is recorded as transient. Cancels that come too late change nothing of it.
   */
  lemma StartedEndsWithItsOutcome(cfg: Config, before: seq<Step>, after: seq<Step>, run: RunId, end: RunnerEnd)
    requires var w := Execute(cfg, INITIAL, before); w.up && InPhase(w.mem, run, Invoking)
    requires CrashFree(after) && !end.PreflightFailed?
    ensures var v := Execute(cfg, Next(cfg, Execute(cfg, INITIAL, before), DoEnd(run, end)), after);
            v.up && run in v.mem.runs && (Terminal(v.mem.runs[run].state) ==> RunnerSaid(v.mem.runs[run], end))
  {
    var w := Execute(cfg, INITIAL, before);
    ReachableInv(cfg, before);
    NextKeepsInv(cfg, w, DoEnd(run, end));
    RunnerEnds(cfg, w, run, end);
    ConcludesAsSaid(cfg, Next(cfg, w, DoEnd(run, end)), after, run, end);
  }

  lemma UnsavedPreflightEnds(cfg: Config, w: World, run: RunId, now: Time)
    requires w.up && w.clock <= now && InPhase(w.mem, run, Dequeued) && !w.mem.runs[run].cancelRequested
    ensures Concluding(Next(cfg, w, DoPreflight(run, now, false)), run, PreflightFailed)
  {
  }

  /** A start that cannot be journalled ends the run as failed for storage. */
  lemma UnsavedStartFails(cfg: Config, before: seq<Step>, after: seq<Step>, run: RunId, now: Time)
    requires var w := Execute(cfg, INITIAL, before);
             w.up && w.clock <= now && InPhase(w.mem, run, Dequeued) && !w.mem.runs[run].cancelRequested
    requires CrashFree(after)
    ensures var v := Execute(cfg, Next(cfg, Execute(cfg, INITIAL, before), DoPreflight(run, now, false)), after);
            v.up && run in v.mem.runs && (Terminal(v.mem.runs[run].state) ==> RunnerSaid(v.mem.runs[run], PreflightFailed))
  {
    var w := Execute(cfg, INITIAL, before);
    ReachableInv(cfg, before);
    NextKeepsInv(cfg, w, DoPreflight(run, now, false));
    UnsavedPreflightEnds(cfg, w, run, now);
    ConcludesAsSaid(cfg, Next(cfg, w, DoPreflight(run, now, false)), after, run, PreflightFailed);
  }

  /** The end of a run is stamped when it is recorded; it reaches the journal, or the record says that it did not. */
  lemma OutcomeStored(cfg: Config, w: World, run: RunId, now: Time, saved: bool)
    requires w.up && w.clock <= now && CanRecord(w.mem, run)
    ensures var v := Next(cfg, w, DoRecord(run, now, saved));
            && run in v.mem.runs && v.mem.runs[run].finishedAt == Some(now) && v.mem.runs[run].startedAt == w.mem.runs[run].startedAt
            && (if saved then run in v.disk.runs && v.disk.runs[run] == v.mem.runs[run]
                else v.disk == w.disk && v.mem.runs[run].journalError)
  {
  }

  /** The record of a run that a restart found unfinished: its end unknown, stamped with the time of the restart. */
  ghost predicate LeftUnknown(r: Run, now: Time) {
    && r.state == Interrupted && r.phase == NeedsAttention && r.outcome == Some(Interrupted) && r.finishedAt == Some(now)
    && r.finding == Some(UncertainCommit)
    && r.attempt.state == Interrupted && r.attempt.finishedAt == Some(now) && r.attempt.failure == Some(UncertainCommit)
  }

  lemma JournalIsCoherent(cfg: Config, w: World, run: RunId)
    requires Inv(cfg, w) && !w.up && run in w.disk.runs
    ensures RunCoherent(w.disk.runs[run])
  {
  }

  /** A restart says of every run the journal left unfinished that its end is unknown, and writes that down where it can. */
  lemma RestartInterrupts(cfg: Config, before: seq<Step>, now: Time, rewritten: set<RunId>, run: RunId)
    requires var w := Execute(cfg, INITIAL, before);
             !w.up && w.clock <= now && run in w.disk.runs && !Terminal(w.disk.runs[run].state)
    ensures var w := Execute(cfg, INITIAL, before);
            var v := Next(cfg, w, DoReload(now, rewritten));
            && run in v.mem.runs && LeftUnknown(v.mem.runs[run], now) && run in v.disk.runs
            && (if run in rewritten then v.disk.runs[run] == v.mem.runs[run]
                else v.disk.runs[run] == w.disk.runs[run] && v.mem.runs[run].journalError)
  {
    ReachableInv(cfg, before);
    JournalIsCoherent(cfg, Execute(cfg, INITIAL, before), run);
  }

  /** A run that nobody cancelled is shown as running, in memory and journal, before its runner can be called. */
  lemma StartRecorded(cfg: Config, w: World, run: RunId, now: Time)
    requires w.up && w.clock <= now && InPhase(w.mem, run, Dequeued) && !w.mem.runs[run].cancelRequested
    ensures var v := Next(cfg, w, DoPreflight(run, now, true));
            && InPhase(v.mem, run, Ready) && v.mem.runs[run].state == Running && v.mem.runs[run].startedAt == Some(now)
            && v.mem.runs[run].attempt.state == Running && v.mem.runs[run].attempt.startedAt == Some(now)
            && run in v.disk.runs && v.disk.runs[run] == v.mem.runs[run]
  {
  }

  // ----- undisturbed runs -----

  /** No cancel of this run, no failed write of its start, no crash. */
  predicate Undisturbed(s: Step, run: RunId) {
    !s.DoCrash? && !(s.DoCancelRun? && s.run == run) && !(s.DoPreflight? && s.run == run && !s.saved)
  }

  ghost predicate OnItsWay(w: World, run: RunId) {
    && w.up && run in w.mem.runs
    && (WasInvoked(w.history.invoked, run)
        || (run in w.mem.work && !w.mem.runs[run].cancelRequested && !Terminal(w.mem.runs[run].state)
            && (w.mem.work[run].phase == Pending || w.mem.work[run].phase == Dequeued || w.mem.work[run].phase == Ready)))
  }

  lemma StartKeepsWay(cfg: Config, w: World, id: JobId, x: RunId, origin: Origin, now: Time, writes: Writes, run: RunId)
    requires OnItsWay(w, run) && x !in w.mem.runs
    ensures OnItsWay(StartRun(cfg, w, id, x, origin, now, writes), run)
  {
  }

  lemma StartDueKeepsWay(cfg: Config, w: World, x: RunId, now: Time, writes: Writes, monotonic: Time, run: RunId)
    requires OnItsWay(w, run) && x !in w.mem.runs && w.mem.due != []
    ensures OnItsWay(StartDue(cfg, w, x, now, writes, monotonic), run)
  {
    StartDueStarts(cfg, w, x, now, writes, monotonic);
    StartKeepsWay(cfg, HeadTaken(w), w.mem.due[0], x, ByInterval, now, writes, run);
  }

  lemma PreflightKeepsWay(w: World, x: RunId, now: Time, saved: bool, run: RunId)
    requires InPhase(w.mem, x, Dequeued) && OnItsWay(w, run) && (x == run ==> saved)
    ensures OnItsWay(Preflight(w, x, now, saved), run)
  {
  }

  lemma InvokeKeepsWay(w: World, x: RunId, run: RunId)
    requires InPhase(w.mem, x, Ready) && OnItsWay(w, run)
    ensures OnItsWay(Invoke(w, x), run)
  {
  }

  lemma RecordKeepsWay(cfg: Config, w: World, s: Step, run: RunId)
    requires Enabled(w, s) && Undisturbed(s, run) && OnItsWay(w, run) && (s.DoRecord? || s.DoCancelRun?)
    ensures OnItsWay(Effect(cfg, w, s), run)
  {
  }

  lemma MoveKeepsWay(cfg: Config, w: World, s: Step, run: RunId)
    requires Enabled(w, s) && OnItsWay(w, run)
    requires s.DoCreate? || s.DoSetPaused? || s.DoScan? || s.DoDequeue? || s.DoEnd? || s.DoSettle? || s.DoCallback? || s.DoClose?
    ensures OnItsWay(Effect(cfg, w, s), run)
  {
  }

  lemma EffectKeepsWay(cfg: Config, w: World, s: Step, run: RunId)
    requires Enabled(w, s) && Undisturbed(s, run) && OnItsWay(w, run)
    ensures OnItsWay(Effect(cfg, w, s), run)
  {
    if s.DoStartRun? {
      StartKeepsWay(cfg, w, s.id, s.run, ByHand, s.now, s.writes, run);
    } else if s.DoStartDue? {
      StartDueKeepsWay(cfg, w, s.run, s.now, s.writes, s.monotonic, run);
    } else if s.DoPreflight? {
      PreflightKeepsWay(w, s.run, s.now, s.saved, run);
    } else if s.DoInvoke? {
      InvokeKeepsWay(w, s.run, run);
    } else if s.DoRecord? || s.DoCancelRun? {
      RecordKeepsWay(cfg, w, s, run);
    } else if !s.DoReload? {
      MoveKeepsWay(cfg, w, s, run);
    }
  }

  lemma {:induction false} RunKeepsWay(cfg: Config, w: World, steps: seq<Step>, run: RunId)
    requires OnItsWay(w, run) && forall i :: 0 <= i < |steps| ==> Undisturbed(steps[i], run)
    ensures OnItsWay(Execute(cfg, w, steps), run)
    decreases |steps|
  {
    if steps != [] {
      var s := steps[0];
      if Enabled(w, s) {
        ClockedIsEnabled(w, s);
        EffectKeepsWay(cfg, Clocked(w, s), s, run);
      }
      RunKeepsWay(cfg, Next(cfg, w, s), steps[1..], run);
    }
  }

  lemma SubmittedIsOnItsWay(cfg: Config, w: World, id: JobId, run: RunId, origin: Origin, now: Time, writes: Writes)
    requires w.up && StartReply(cfg, w.mem, id, run, writes) == RunReply(run, false)
    ensures OnItsWay(StartRun(cfg, w, id, run, origin, now, writes), run)
  {
  }

  /** A submitted run that is not cancelled, whose start can be journalled, does not end before its runner was called. */
  lemma UndisturbedRunRuns(cfg: Config, before: seq<Step>, after: seq<Step>, id: JobId, run: RunId, now: Time, writes: Writes)
    requires var w := Execute(cfg, INITIAL, before);
             Enabled(w, DoStartRun(id, run, now, writes)) && StartReply(cfg, w.mem, id, run, writes) == RunReply(run, false)
    requires forall i :: 0 <= i < |after| ==> Undisturbed(after[i], run)
    ensures var v := Execute(cfg, Next(cfg, Execute(cfg, INITIAL, before), DoStartRun(id, run, now, writes)), after);
            run in v.mem.runs && (Terminal(v.mem.runs[run].state) ==> run in v.history.invoked)
  {
    var w := Execute(cfg, INITIAL, before);
    SubmittedIsOnItsWay(cfg, w.(clock := now), id, run, ByHand, now, writes);
    RunKeepsWay(cfg, Next(cfg, w, DoStartRun(id, run, now, writes)), after, run);
  }
}
