/**
 The operations job manager as a step system: definitions (jobs), their runs, the
 interval scheduler, the thread pool, and a journal of two directories that survives
 crashes. `Execute` runs any list of steps; a disabled step leaves the world unchanged.
 */
module OpsJobSpec {
  import opened Common
  import opened ThreadPool

  type JobId(!new, ==)
  type RunId(!new, ==)
  type Key(!new, ==)

  /** Milliseconds. */
  type Time = int

  // ----- definitions -----

  datatype JobState = Active | Paused | Retired

  datatype Trigger = Manual | Interval(seconds: int)

  /** What the fingerprint of a definition covers; title and device id are already stripped. */
  datatype Definition = Definition(title: string, device: string, interval: Option<int>)

  datatype Job = Job(
    key: Option<Key>,
    definition: Definition,
    generation: int,
    state: JobState,
    trigger: Trigger,
    createdAt: Time,
    updatedAt: Time,
    lastRun: Option<RunId>,
    nextRunAt: Option<Time>
  )

  predicate AcceptableDefinition(d: Definition) {
    && 1 <= |d.title| <= 120
    && 1 <= |d.device| <= 128
    && (d.interval.Some? ==> 60 <= d.interval.value <= 604800)
  }

  /** `_valid_ops_definition`: what a journalled definition must satisfy to be loaded. */
  predicate Loadable(j: Job) {
    && j.generation >= 1
    && j.definition.device != ""
    && (j.trigger.Interval? ==> 60 <= j.trigger.seconds <= 604800)
  }

  function Later(now: Time, t: Trigger): Option<Time> {
    if t.Interval? then Some(now + 1000 * t.seconds) else None
  }

  function NewJob(key: Option<Key>, d: Definition, now: Time): Job {
    var trigger := if d.interval.Some? then Interval(d.interval.value) else Manual;
    Job(key, d, 1, Active, trigger, now, now, None, Later(now, trigger))
  }

  // ----- runs -----

  datatype RunState =
    | Queued | Running | CancelRequested
    | Succeeded | NoChange | Degraded | Failed | Blocked | Cancelled | Interrupted

  predicate Terminal(s: RunState) {
    !s.Queued? && !s.Running? && !s.CancelRequested?
  }

  datatype RunPhase = InQueue | InPreflight | Completed | NeedsAttention

  datatype Failure = Storage | Transient | UncertainCommit | Reported(text: string)

  datatype Attempt = Attempt(state: RunState, startedAt: Option<Time>, finishedAt: Option<Time>, failure: Option<Failure>)

  datatype Origin = ByHand | ByInterval

  /** `attempt` is the last (and only) entry of the source's list of attempts. */
  datatype Run = Run(
    job: JobId,
    origin: Origin,
    state: RunState,
    phase: RunPhase,
    outcome: Option<RunState>,
    createdAt: Time,
    startedAt: Option<Time>,
    finishedAt: Option<Time>,
    attempt: Attempt,
    finding: Option<Failure>,
    cancelRequested: bool,
    journalError: bool
  )

  function NewRun(job: JobId, origin: Origin, now: Time): Run {
    Run(job, origin, Queued, InQueue, None, now, None, None, Attempt(Queued, None, None, None), None, false, false)
  }

  function Ending(r: Run, outcome: RunState, phase: RunPhase, now: Time): Run {
    r.(state := outcome, phase := phase, outcome := Some(outcome), finishedAt := Some(now),
       attempt := r.attempt.(state := outcome, finishedAt := Some(now)))
  }

  function BlockedRun(r: Run, now: Time): Run {
    var b := Ending(r, Blocked, NeedsAttention, now);
    b.(finding := Some(Storage), attempt := b.attempt.(failure := Some(Storage)))
  }

  function CancelledRun(r: Run, now: Time): Run {
    Ending(r, Cancelled, Completed, now)
  }

  function StartedRun(r: Run, now: Time): Run {
    r.(state := Running, phase := InPreflight, startedAt := Some(now),
       attempt := r.attempt.(state := Running, startedAt := Some(now)))
  }

  /** What a runner may put under "outcome": a state name of the manager's, or any other text. */
  datatype ReportedOutcome = Named(state: RunState) | Other

  datatype OpsResult = OpsResult(ok: bool, outcome: Option<ReportedOutcome>, finding: Option<Failure>, failure: Option<Failure>)

  datatype RunnerEnd = Returned(result: OpsResult) | Raised | PreflightFailed

  function ResolvedOutcome(result: OpsResult): RunState {
    match result.outcome
    case None => if result.ok then NoChange else Degraded
    case Some(Named(s)) => if Terminal(s) then s else Failed
    case Some(Other) => Failed
  }

  function EndedRun(r: Run, end: RunnerEnd, now: Time): Run {
    match end
    case Returned(result) =>
      var outcome := ResolvedOutcome(result);
      var e := Ending(r, outcome, if outcome == Succeeded || outcome == NoChange then Completed else NeedsAttention, now);
      e.(finding := result.finding, attempt := e.attempt.(failure := result.failure))
    case Raised => FailedRun(r, Transient, now)
    case PreflightFailed => FailedRun(r, Storage, now)
  }

  function FailedRun(r: Run, failure: Failure, now: Time): Run {
    var e := Ending(r, Failed, NeedsAttention, now);
    e.(finding := Some(failure), attempt := e.attempt.(failure := Some(failure)))
  }

  function InterruptedRun(r: Run, now: Time): Run {
    var e := r.(state := Interrupted, phase := NeedsAttention, outcome := Some(Interrupted),
                finishedAt := Some(now), finding := Some(UncertainCommit));
    if Terminal(r.attempt.state) then e
    else e.(attempt := r.attempt.(state := Interrupted, finishedAt := Some(now), failure := Some(UncertainCommit)))
  }

  // ----- the world -----

  type Phase = ThreadPool.ItemPhase<RunnerEnd>

  /** `job` is the job id the done-callback was registered with. */
  datatype Item = Item(phase: Phase, job: JobId)

  datatype Submission = Submission(run: RunId, job: JobId, origin: Origin, at: Time)

  /** `due` is what the scheduler thread has still to start of its last scan, taken at time `scanned`. */
  datatype Memory = Memory(
    closed: bool,
    jobs: map<JobId, Job>,
    runs: map<RunId, Run>,
    keys: map<Key, JobId>,
    active: map<JobId, RunId>,
    retryAt: map<JobId, Time>,
    futures: set<RunId>,
    work: map<RunId, Item>,
    due: seq<JobId>,
    scanned: Time
  )

  datatype Disk = Disk(jobs: map<JobId, Job>, runs: map<RunId, Run>)

  datatype History = History(invoked: seq<RunId>, submitted: seq<Submission>)

  datatype World = World(up: bool, mem: Memory, disk: Disk, history: History, clock: Time)

  datatype Config = Config(maxWorkers: nat, maxPending: nat)

  const EMPTY_MEMORY: Memory := Memory(false, map[], map[], map[], map[], map[], {}, map[], [], 0)

  const INITIAL: World := World(true, EMPTY_MEMORY, Disk(map[], map[]), History([], []), 0)

  // ----- create, pause, resume -----

  datatype Reply = Conflict | NotFound | StorageError | JobReply(job: JobId, reused: bool) | RunReply(run: RunId, reused: bool)

  predicate KeyTaken(m: Memory, key: Option<Key>) {
    key.Some? && key.value in m.keys
  }

  function CreateReply(m: Memory, id: JobId, key: Option<Key>, d: Definition, saved: bool): Reply {
    if !AcceptableDefinition(d) || m.closed then Conflict
    else if KeyTaken(m, key) then
      var held := m.keys[key.value];
      if held in m.jobs && m.jobs[held].definition == d then JobReply(held, true) else Conflict
    else if !saved then StorageError
    else JobReply(id, false)
  }

  function PutJob(w: World, id: JobId, j: Job): World {
    w.(mem := w.mem.(jobs := w.mem.jobs[id := j]), disk := w.disk.(jobs := w.disk.jobs[id := j]))
  }

  function Create(w: World, id: JobId, key: Option<Key>, d: Definition, now: Time, saved: bool): World {
    if !AcceptableDefinition(d) || w.mem.closed || KeyTaken(w.mem, key) || !saved then w
    else
      var v := PutJob(w, id, NewJob(key, d, now));
      if key.None? then v else v.(mem := v.mem.(keys := v.mem.keys[key.value := id]))
  }

  function PausedJob(j: Job, paused: bool, now: Time): Job {
    var u := j.(state := if paused then Paused else Active, updatedAt := now);
    if !paused && j.trigger.Interval? then u.(nextRunAt := Later(now, j.trigger)) else u
  }

  function SetPausedReply(m: Memory, id: JobId, saved: bool): Reply {
    if m.closed then Conflict
    else if id !in m.jobs then NotFound
    else if m.jobs[id].state == Retired then Conflict
    else if !saved then StorageError
    else JobReply(id, false)
  }

  function SetPaused(w: World, id: JobId, paused: bool, now: Time, saved: bool): World {
    if SetPausedReply(w.mem, id, saved) != JobReply(id, false) then w
    else
      var v := PutJob(w, id, PausedJob(w.mem.jobs[id], paused, now));
      v.(mem := v.mem.(retryAt := v.mem.retryAt - {id}))
  }

  // ----- start a run -----

  /** Which of the writes of one `start_run` succeed; `later` is when a blocked run is stamped. */
  datatype Writes = Writes(run: bool, job: bool, blocked: bool, later: Time)

  predicate HasActiveRun(m: Memory, id: JobId) {
    id in m.active && m.active[id] in m.runs && !Terminal(m.runs[m.active[id]].state)
  }

  /** What `start_run` answers before it writes anything; None when it goes on. */
  function Refusal(cfg: Config, m: Memory, id: JobId): Option<Reply> {
    if m.closed then Some(Conflict)
    else if id !in m.jobs then Some(NotFound)
    else if m.jobs[id].state != Active then Some(Conflict)
    else if HasActiveRun(m, id) then Some(RunReply(m.active[id], true))
    else if |m.futures| >= cfg.maxWorkers + cfg.maxPending then Some(Conflict)
    else None
  }

  function StartReply(cfg: Config, m: Memory, id: JobId, run: RunId, writes: Writes): Reply {
    match Refusal(cfg, m, id)
    case Some(r) => r
    case None => if writes.run && writes.job then RunReply(run, false) else StorageError
  }

  function RunningJob(j: Job, run: RunId, now: Time): Job {
    var u := j.(lastRun := Some(run), updatedAt := now);
    if j.trigger.Interval? then u.(nextRunAt := Later(now, j.trigger)) else u
  }

  function PutRun(w: World, run: RunId, mem: Run, disk: Run): World {
    w.(mem := w.mem.(runs := w.mem.runs[run := mem]), disk := w.disk.(runs := w.disk.runs[run := disk]))
  }

  /** The run is journalled, the job is not: nothing is submitted, the run is left blocked. */
  function Block(w: World, id: JobId, run: RunId, origin: Origin, now: Time, writes: Writes): World {
    var r := NewRun(id, origin, now);
    var b := BlockedRun(r, writes.later);
    if writes.blocked then PutRun(w, run, b, b) else PutRun(w, run, b.(journalError := true), r)
  }

  function Enqueue(w: World, id: JobId, run: RunId, origin: Origin, now: Time): World {
    w.(mem := w.mem.(retryAt := w.mem.retryAt - {id},
                     active := w.mem.active[id := run],
                     futures := w.mem.futures + {run},
                     work := w.mem.work[run := Item(Pending, id)]),
       history := w.history.(submitted := w.history.submitted + [Submission(run, id, origin, now)]))
  }

  /** Both records are journalled before the runner is submitted. */
  function Submit(w: World, id: JobId, run: RunId, origin: Origin, now: Time): World
    requires id in w.mem.jobs
  {
    var r := NewRun(id, origin, now);
    Enqueue(PutJob(PutRun(w, run, r, r), id, RunningJob(w.mem.jobs[id], run, now)), id, run, origin, now)
  }

  function StartRun(cfg: Config, w: World, id: JobId, run: RunId, origin: Origin, now: Time, writes: Writes): World {
    if Refusal(cfg, w.mem, id).Some? || !writes.run then w
    else if !writes.job then Block(w, id, run, origin, now, writes)
    else Submit(w, id, run, origin, now)
  }

  // ----- the scheduler -----

  predicate IsDue(m: Memory, id: JobId, current: Time, monotonic: Time) {
    && id in m.jobs
    && !(id in m.retryAt && m.retryAt[id] > monotonic)
    && m.jobs[id].state == Active
    && m.jobs[id].trigger.Interval?
    && m.jobs[id].nextRunAt.Some?
    && m.jobs[id].nextRunAt.value <= current
  }

  predicate IsScan(m: Memory, due: seq<JobId>, current: Time, monotonic: Time) {
    && !m.closed
    && (forall i, j :: 0 <= i < j < |due| ==> due[i] != due[j])
    && (forall i :: 0 <= i < |due| ==> IsDue(m, due[i], current, monotonic))
    && (forall id :: id in m.jobs && IsDue(m, id, current, monotonic) ==> id in due)
  }

  function Scan(w: World, due: seq<JobId>, current: Time): World {
    w.(mem := w.mem.(due := due, scanned := current))
  }

  /** The scheduler starts the next due job; a storage error backs it off for 60 seconds. */
  function StartDue(cfg: Config, w: World, run: RunId, now: Time, writes: Writes, monotonic: Time): World
    requires w.mem.due != []
  {
    var id := w.mem.due[0];
    var u := w.(mem := w.mem.(due := w.mem.due[1..]));
    var v := StartRun(cfg, u, id, run, ByInterval, now, writes);
    if StartReply(cfg, u.mem, id, run, writes) == StorageError
    then v.(mem := v.mem.(retryAt := v.mem.retryAt[id := monotonic + 60000]))
    else v
  }

  // ----- worker, cancel, callback -----

  predicate InPhase(m: Memory, run: RunId, p: Phase) {
    run in m.work && run in m.runs && m.work[run].phase == p
  }

  predicate CanRecord(m: Memory, run: RunId) {
    run in m.work && run in m.runs && m.work[run].phase.Ended?
  }

  function SetPhase(w: World, run: RunId, p: Phase): World
    requires run in w.mem.work
  {
    w.(mem := w.mem.(work := w.mem.work[run := w.mem.work[run].(phase := p)]))
  }

  /** `_persist_outcome` */
  function PutOutcome(w: World, run: RunId, r: Run, saved: bool): World {
    if saved then PutRun(w, run, r, r) else w.(mem := w.mem.(runs := w.mem.runs[run := r.(journalError := true)]))
  }

  function Preflight(w: World, run: RunId, now: Time, saved: bool): World
    requires InPhase(w.mem, run, Dequeued)
  {
    if w.mem.runs[run].cancelRequested then
      SetPhase(PutOutcome(w, run, CancelledRun(w.mem.runs[run], now), saved), run, Finished)
    else
      var r := StartedRun(w.mem.runs[run], now);
      if saved then SetPhase(PutRun(w, run, r, r), run, Ready)
      else SetPhase(w.(mem := w.mem.(runs := w.mem.runs[run := r])), run, Ended(PreflightFailed))
  }

  function Invoke(w: World, run: RunId): World
    requires InPhase(w.mem, run, Ready)
  {
    SetPhase(w, run, Invoking).(history := w.history.(invoked := w.history.invoked + [run]))
  }

  function RecordEnd(w: World, run: RunId, now: Time, saved: bool): World
    requires CanRecord(w.mem, run)
  {
    SetPhase(PutOutcome(w, run, EndedRun(w.mem.runs[run], w.mem.work[run].phase.end, now), saved), run, Finished)
  }

  function CancelRecord(m: Memory, run: RunId, now: Time): Run
    requires run in m.runs
  {
    var r := m.runs[run].(cancelRequested := true);
    if run in m.futures && run in m.work && !FutureRunning(m.work[run].phase) then CancelledRun(r, now)
    else r.(state := CancelRequested)
  }

  /** The in-memory change stands even when the journal write raises. */
  function CancelRun(w: World, run: RunId, now: Time, saved: bool): World {
    if run !in w.mem.runs || Terminal(w.mem.runs[run].state) then w
    else
      var r := CancelRecord(w.mem, run, now);
      if saved then PutRun(w, run, r, r) else w.(mem := w.mem.(runs := w.mem.runs[run := r]))
  }

  /** `_forget_run`; a newer run of the job keeps its place in the active table. */
  function Callback(w: World, run: RunId): World
    requires run in w.mem.work
  {
    var job := w.mem.work[run].job;
    w.(mem := w.mem.(futures := w.mem.futures - {run},
                     active := if job in w.mem.active && w.mem.active[job] == run then w.mem.active - {job} else w.mem.active,
                     work := w.mem.work - {run}))
  }

  // ----- crash and restart -----

  function Crash(w: World): World {
    w.(up := false, mem := EMPTY_MEMORY)
  }

  function Recovered(r: Run, now: Time, saved: bool): Run {
    if Terminal(r.state) then r
    else if saved then InterruptedRun(r, now)
    else InterruptedRun(r, now).(journalError := true)
  }

  function RecoveredOnDisk(r: Run, now: Time, saved: bool): Run {
    if Terminal(r.state) || !saved then r else InterruptedRun(r, now)
  }

  ghost predicate KeysUnique(jobs: map<JobId, Job>) {
    forall a, b :: a in jobs && b in jobs && jobs[a].key.Some? && jobs[a].key == jobs[b].key ==> a == b
  }

  ghost function Holder(jobs: map<JobId, Job>, k: Key): JobId
    requires exists id :: id in jobs && jobs[id].key == Some(k)
  {
    var id :| id in jobs && jobs[id].key == Some(k); id
  }

  ghost function KeyIndex(jobs: map<JobId, Job>): map<Key, JobId> {
    map k | k in (set id | id in jobs && jobs[id].key.Some? :: jobs[id].key.value) :: Holder(jobs, k)
  }

  function LoadableJobs(jobs: map<JobId, Job>): map<JobId, Job> {
    map id | id in jobs && Loadable(jobs[id]) :: jobs[id]
  }

  /** The key index that a walk over `files` adds to `keys`; a later file wins a shared key. */
  ghost function IndexFiles(keys: map<Key, JobId>, files: seq<JobId>, jobs: map<JobId, Job>): map<Key, JobId>
    decreases |files|
  {
    if files == [] then keys
    else
      var id := files[0];
      var taken := id in jobs && Loadable(jobs[id]) && jobs[id].key.Some?;
      IndexFiles(if taken then keys[jobs[id].key.value := id] else keys, files[1..], jobs)
  }

  /** `rewritten` holds the interrupted runs whose rewritten record reached the disk. */
  ghost function ReloadWith(w: World, keys: map<Key, JobId>, now: Time, rewritten: set<RunId>): World {
    w.(up := true,
       mem := EMPTY_MEMORY.(jobs := LoadableJobs(w.disk.jobs), keys := keys,
                            runs := map r | r in w.disk.runs :: Recovered(w.disk.runs[r], now, r in rewritten)),
       disk := w.disk.(runs := map r | r in w.disk.runs :: RecoveredOnDisk(w.disk.runs[r], now, r in rewritten)))
  }

  /** The manager's own journal never holds a key twice, so the order of the walk does not matter. */
  ghost function Reload(w: World, now: Time, rewritten: set<RunId>): World {
    ReloadWith(w, KeyIndex(LoadableJobs(w.disk.jobs)), now, rewritten)
  }

  // ----- runs of the system -----

  datatype Step =
    | DoCreate(id: JobId, key: Option<Key>, definition: Definition, now: Time, saved: bool)
    | DoSetPaused(id: JobId, paused: bool, now: Time, saved: bool)
    | DoStartRun(id: JobId, run: RunId, now: Time, writes: Writes)
    | DoScan(due: seq<JobId>, current: Time, monotonic: Time, now: Time)
    | DoStartDue(run: RunId, now: Time, writes: Writes, monotonic: Time)
    | DoDequeue(run: RunId)
    | DoPreflight(run: RunId, now: Time, saved: bool)
    | DoInvoke(run: RunId)
    | DoEnd(run: RunId, end: RunnerEnd)
    | DoRecord(run: RunId, now: Time, saved: bool)
    | DoSettle(run: RunId)
    | DoCallback(run: RunId)
    | DoCancelRun(run: RunId, now: Time, saved: bool)
    | DoClose
    | DoCrash
    | DoReload(now: Time, rewritten: set<RunId>)

  /** The latest clock reading a step takes; None for a step that reads no clock. */
  function Reads(s: Step): Option<Time> {
    match s
    case DoCreate(_, _, _, now, _) => Some(now)
    case DoSetPaused(_, _, now, _) => Some(now)
    case DoStartRun(_, _, now, writes) => Some(now)
    case DoScan(_, _, _, now) => Some(now)
    case DoStartDue(_, now, writes, _) => Some(now)
    case DoPreflight(_, now, _) => Some(now)
    case DoRecord(_, now, _) => Some(now)
    case DoCancelRun(_, now, _) => Some(now)
    case DoReload(now, _) => Some(now)
    case _ => None
  }

  function Clocked(w: World, s: Step): World {
    match Reads(s)
    case Some(now) => w.(clock := now)
    case None => w
  }

  /**
   The clock never runs backwards. Only the one scheduler thread scans, and it scans again only
   after it has gone through its last list; it reads `current` before it takes the lock.
   */
  predicate Enabled(w: World, s: Step) {
    && (Reads(s).Some? ==> w.clock <= Reads(s).value)
    && (if s.DoReload? then !w.up else w.up)
    && match s
       case DoCreate(id, _, _, _, _) => id !in w.mem.jobs
       case DoStartRun(_, run, _, _) => run !in w.mem.runs
       case DoScan(due, current, monotonic, now) => w.mem.due == [] && current <= now && IsScan(w.mem, due, current, monotonic)
       case DoStartDue(run, _, _, _) => w.mem.due != [] && run !in w.mem.runs
       case DoDequeue(run) => InPhase(w.mem, run, Pending)
       case DoPreflight(run, _, _) => InPhase(w.mem, run, Dequeued)
       case DoInvoke(run) => InPhase(w.mem, run, Ready)
       case DoEnd(run, end) => InPhase(w.mem, run, Invoking) && !end.PreflightFailed?
       case DoRecord(run, _, _) => CanRecord(w.mem, run)
       case DoSettle(run) => InPhase(w.mem, run, Finished)
       case DoCallback(run) => InPhase(w.mem, run, Settled)
       case _ => true
  }

  ghost function Effect(cfg: Config, w: World, s: Step): World
    requires Enabled(w, s)
  {
    match s
    case DoCreate(id, key, d, now, saved) => Create(w, id, key, d, now, saved)
    case DoSetPaused(id, paused, now, saved) => SetPaused(w, id, paused, now, saved)
    case DoStartRun(id, run, now, writes) => StartRun(cfg, w, id, run, ByHand, now, writes)
    case DoScan(due, current, _, _) => Scan(w, due, current)
    case DoStartDue(run, now, writes, monotonic) => StartDue(cfg, w, run, now, writes, monotonic)
    case DoDequeue(run) => SetPhase(w, run, Dequeued)
    case DoPreflight(run, now, saved) => Preflight(w, run, now, saved)
    case DoInvoke(run) => Invoke(w, run)
    case DoEnd(run, end) => SetPhase(w, run, Ended(end))
    case DoRecord(run, now, saved) => RecordEnd(w, run, now, saved)
    case DoSettle(run) => SetPhase(w, run, Settled)
    case DoCallback(run) => Callback(w, run)
    case DoCancelRun(run, now, saved) => CancelRun(w, run, now, saved)
    case DoClose => w.(mem := w.mem.(closed := true))
    case DoCrash => Crash(w)
    case DoReload(now, rewritten) => Reload(w, now, rewritten)
  }

  /** One step; a step that is not enabled leaves the world as it is. */
  ghost function Next(cfg: Config, w: World, s: Step): World {
    if Enabled(w, s) then Effect(cfg, Clocked(w, s), s) else w
  }

  ghost function Execute(cfg: Config, w: World, steps: seq<Step>): World
    decreases |steps|
  {
    if steps == [] then w else Execute(cfg, Next(cfg, w, steps[0]), steps[1..])
  }

  // ----- closing -----

  /** Closing ends a run that is still queued in the pool and not over. */
  predicate EndedByClose(work: map<RunId, Item>, runs: map<RunId, Run>, run: RunId) {
    run in work && run in runs && !FutureRunning(work[run].phase) && !Terminal(runs[run].state)
  }

  /** The cancels of `close`: one for each future that is not running, in the order of the table. */
  function CloseSteps(order: seq<RunId>, work: map<RunId, Item>, now: Time, saved: set<RunId>): seq<Step> {
    if order == [] then []
    else
      var run := order[0];
      (if run in work && !FutureRunning(work[run].phase) then [DoCancelRun(run, now, run in saved)] else [])
      + CloseSteps(order[1..], work, now, saved)
  }
}
