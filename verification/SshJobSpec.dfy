/**
 The SSH job manager as a step system. Every step is one critical section of the
 manager's lock, one move of the thread pool, a crash, or a restart; `Execute` runs any
 list of steps, so a statement about `Execute` is a statement about every interleaving.
 */
module SshJobSpec {
  import opened Common
  import opened ThreadPool

  /** Random identifiers, request digests and non-empty idempotency keys; only equality matters. */
  type JobId(!new, ==)
  type Digest(!new, ==)
  type Key(!new, ==)

  type Time = int

  datatype State = Queued | Running | CancelRequested | Succeeded | Failed | Cancelled | Interrupted

  predicate Terminal(s: State) {
    s.Succeeded? || s.Failed? || s.Cancelled? || s.Interrupted?
  }

  datatype Message =
    | Text(text: string)
    | RemoteCommandFailed
    | JournalWriteFailed
    | CompletionUnknown

  /** The object an SSH runner returns. */
  datatype RunResult = RunResult(ok: bool, error: Option<Message>, output: string)

  /** How a call of `_run` leaves its try block. */
  datatype RunnerEnd = Returned(result: RunResult) | Raised(message: Message)

  /** One journal record. `errorDetail` lives in memory only; the journal stores it under `error`. */
  datatype Record = Record(
    key: Option<Key>,
    request: Digest,
    state: State,
    createdAt: Time,
    startedAt: Option<Time>,
    finishedAt: Option<Time>,
    cancelRequested: bool,
    result: Option<RunResult>,
    errorDetail: Option<Message>,
    error: Option<Message>,
    journalError: bool
  )

  type Phase = ThreadPool.ItemPhase<RunnerEnd>

  /** `key` is the idempotency key the runner was submitted under. */
  datatype Item = Item(phase: Phase, key: Option<Key>)

  datatype Invocation = Invocation(id: JobId, key: Option<Key>)

  datatype Config = Config(maxWorkers: nat, maxPending: nat, persistOutput: bool)

  /** `journal` and the history `invoked` survive a crash; everything else is memory. */
  datatype World = World(
    up: bool,
    closed: bool,
    jobs: map<JobId, Record>,
    keys: map<Key, JobId>,
    futures: set<JobId>,
    work: map<JobId, Item>,
    journal: map<JobId, Record>,
    invoked: seq<Invocation>
  )

  function Capacity(cfg: Config): nat {
    cfg.maxWorkers + cfg.maxPending
  }

  /** The record `_persist` writes. */
  function Saved(cfg: Config, r: Record): Record {
    r.(result := if cfg.persistOutput then r.result else None,
       error := if r.errorDetail.Some? then r.errorDetail else r.error,
       errorDetail := None)
  }

  /** What `status` shows of a record, without the captured output. */
  datatype View = View(key: Option<Key>, request: Digest, state: State, createdAt: Time,
                       startedAt: Option<Time>, finishedAt: Option<Time>,
                       cancelRequested: bool, error: Option<Message>, journalError: bool)

  function Public(r: Record): View {
    View(r.key, r.request, r.state, r.createdAt, r.startedAt, r.finishedAt, r.cancelRequested,
         if r.errorDetail.Some? then r.errorDetail else r.error, r.journalError)
  }

  /** `_persist_outcome`: the journal takes the record, or the record notes that it did not. */
  function PutOutcome(cfg: Config, w: World, id: JobId, r: Record, saved: bool): World {
    if saved then w.(jobs := w.jobs[id := r], journal := w.journal[id := Saved(cfg, r)])
    else w.(jobs := w.jobs[id := r.(journalError := true)])
  }

  function SetPhase(w: World, id: JobId, p: Phase): World
    requires id in w.work
  {
    w.(work := w.work[id := w.work[id].(phase := p)])
  }

  // ----- start -----

  datatype StartResult = Conflict | StorageError | Accepted(id: JobId, reused: bool)

  function NewRecord(key: Option<Key>, request: Digest, now: Time): Record {
    Record(key, request, Queued, now, None, None, false, None, None, None, false)
  }

  predicate KeyTaken(w: World, key: Option<Key>) {
    key.Some? && key.value in w.keys
  }

  predicate CanStart(w: World, id: JobId) {
    w.up && id !in w.jobs
  }

  function StartReply(cfg: Config, w: World, id: JobId, key: Option<Key>, request: Digest, saved: bool): StartResult {
    if w.closed then Conflict
    else if KeyTaken(w, key) then
      var held := w.keys[key.value];
      if held in w.jobs && w.jobs[held].request == request then Accepted(held, true) else Conflict
    else if |w.futures| >= Capacity(cfg) then Conflict
    else if !saved then StorageError
    else Accepted(id, false)
  }

  /** The record is journalled first; only then do memory and pool learn of the job. */
  function Admit(cfg: Config, w: World, id: JobId, r: Record): World {
    w.(journal := w.journal[id := Saved(cfg, r)],
       jobs := w.jobs[id := r],
       keys := if r.key.Some? then w.keys[r.key.value := id] else w.keys,
       work := w.work[id := Item(Pending, r.key)],
       futures := w.futures + {id})
  }

  function Start(cfg: Config, w: World, id: JobId, key: Option<Key>, request: Digest, now: Time, saved: bool): World {
    if w.closed || KeyTaken(w, key) || |w.futures| >= Capacity(cfg) || !saved then w
    else Admit(cfg, w, id, NewRecord(key, request, now))
  }

  // ----- cancel -----

  function CancelledRecord(w: World, id: JobId, now: Time): Record
    requires id in w.jobs
  {
    var r := w.jobs[id].(cancelRequested := true);
    if id in w.futures && id in w.work && !FutureRunning(w.work[id].phase)
    then r.(state := Cancelled, finishedAt := Some(now))
    else r.(state := CancelRequested)
  }

  /** The in-memory change stands even when the journal write raises. */
  function Cancel(cfg: Config, w: World, id: JobId, now: Time, saved: bool): World {
    if id !in w.jobs || Terminal(w.jobs[id].state) then w
    else
      var r := CancelledRecord(w, id, now);
      w.(jobs := w.jobs[id := r],
         journal := if saved then w.journal[id := Saved(cfg, r)] else w.journal)
  }

  // ----- the worker -----

  predicate InPhase(w: World, id: JobId, p: Phase) {
    id in w.work && id in w.jobs && w.work[id].phase == p
  }

  function Preflight(cfg: Config, w: World, id: JobId, now: Time, saved: bool): World
    requires InPhase(w, id, Dequeued)
  {
    if w.jobs[id].cancelRequested then
      SetPhase(PutOutcome(cfg, w, id, w.jobs[id].(state := Cancelled, finishedAt := Some(now)), saved), id, Finished)
    else
      var r := w.jobs[id].(state := Running, startedAt := Some(now));
      if saved then SetPhase(w.(jobs := w.jobs[id := r], journal := w.journal[id := Saved(cfg, r)]), id, Ready)
      else SetPhase(w.(jobs := w.jobs[id := r]), id, Ended(Raised(JournalWriteFailed)))
  }

  function Invoke(w: World, id: JobId): World
    requires InPhase(w, id, Ready)
  {
    SetPhase(w, id, Invoking).(invoked := w.invoked + [Invocation(id, w.work[id].key)])
  }

  function OutcomeRecord(r: Record, end: RunnerEnd, now: Time): Record {
    match end
    case Raised(message) => r.(state := Failed, errorDetail := Some(message), finishedAt := Some(now))
    case Returned(result) =>
      if result.ok then r.(result := Some(result), state := Succeeded, finishedAt := Some(now))
      else r.(result := Some(result), state := Failed, finishedAt := Some(now),
              errorDetail := if r.errorDetail.Some? then r.errorDetail
                             else if result.error.Some? then result.error else Some(RemoteCommandFailed))
  }

  predicate CanRecord(w: World, id: JobId) {
    id in w.work && id in w.jobs && w.work[id].phase.Ended?
  }

  function RecordEnd(cfg: Config, w: World, id: JobId, now: Time, saved: bool): World
    requires CanRecord(w, id)
  {
    SetPhase(PutOutcome(cfg, w, id, OutcomeRecord(w.jobs[id], w.work[id].phase.end, now), saved), id, Finished)
  }

  /** The done-callback: `_forget_future`, after which the pool holds nothing of the item. */
  function Callback(w: World, id: JobId): World {
    w.(futures := w.futures - {id}, work := w.work - {id})
  }

  // ----- crash and restart -----

  function Crash(w: World): World {
    World(false, false, map[], map[], {}, map[], w.journal, w.invoked)
  }

  function InterruptedRecord(r: Record, now: Time): Record {
    r.(state := Interrupted, finishedAt := Some(now), errorDetail := Some(CompletionUnknown))
  }

  /** A journalled record as `_load_journal` takes it into memory. */
  function Recovered(r: Record, now: Time, saved: bool): Record {
    if Terminal(r.state) then r
    else if saved then InterruptedRecord(r, now)
    else InterruptedRecord(r, now).(journalError := true)
  }

  function RecoveredOnDisk(cfg: Config, r: Record, now: Time, saved: bool): Record {
    if Terminal(r.state) || !saved then r else Saved(cfg, InterruptedRecord(r, now))
  }

  ghost predicate KeysUnique(records: map<JobId, Record>) {
    forall a, b :: a in records && b in records && records[a].key.Some? && records[a].key == records[b].key ==> a == b
  }

  ghost function KeyIndex(records: map<JobId, Record>): map<Key, JobId> {
    map k | k in (set id | id in records && records[id].key.Some? :: records[id].key.value)
      :: Holder(records, k)
  }

  ghost function Holder(records: map<JobId, Record>, k: Key): JobId
    requires exists id :: id in records && records[id].key == Some(k)
  {
    var id :| id in records && records[id].key == Some(k); id
  }

  /** The key index that a walk over `files` adds to `keys`; a later file wins a shared key. */
  ghost function IndexFiles(keys: map<Key, JobId>, files: seq<JobId>, records: map<JobId, Record>): map<Key, JobId>
    requires forall i :: 0 <= i < |files| ==> files[i] in records
    decreases |files|
  {
    if files == [] then keys
    else
      var key := records[files[0]].key;
      IndexFiles(if key.Some? then keys[key.value := files[0]] else keys, files[1..], records)
  }

  /** `saved` holds the ids whose rewritten record reached the disk. */
  ghost function ReloadWith(cfg: Config, w: World, keys: map<Key, JobId>, now: Time, saved: set<JobId>): World {
    World(true, false,
          map id | id in w.journal :: Recovered(w.journal[id], now, id in saved),
          keys, {}, map[],
          map id | id in w.journal :: RecoveredOnDisk(cfg, w.journal[id], now, id in saved),
          w.invoked)
  }

  /** The manager's own journal never holds a key twice, so the order of the walk does not matter. */
  ghost function Reload(cfg: Config, w: World, now: Time, saved: set<JobId>): World {
    ReloadWith(cfg, w, KeyIndex(w.journal), now, saved)
  }

  // ----- runs -----

  datatype Step =
    | DoStart(id: JobId, key: Option<Key>, request: Digest, now: Time, saved: bool)
    | DoCancel(id: JobId, now: Time, saved: bool)
    | DoDequeue(id: JobId)
    | DoPreflight(id: JobId, now: Time, saved: bool)
    | DoInvoke(id: JobId)
    | DoEnd(id: JobId, end: RunnerEnd)
    | DoRecord(id: JobId, now: Time, saved: bool)
    | DoSettle(id: JobId)
    | DoCallback(id: JobId)
    | DoClose
    | DoCrash
    | DoReload(now: Time, rewritten: set<JobId>)

  predicate Enabled(w: World, s: Step) {
    match s
    case DoStart(id, _, _, _, _) => CanStart(w, id)
    case DoCancel(_, _, _) => w.up
    case DoDequeue(id) => InPhase(w, id, Pending)
    case DoPreflight(id, _, _) => InPhase(w, id, Dequeued)
    case DoInvoke(id) => InPhase(w, id, Ready)
    case DoEnd(id, _) => InPhase(w, id, Invoking)
    case DoRecord(id, _, _) => CanRecord(w, id)
    case DoSettle(id) => InPhase(w, id, Finished)
    case DoCallback(id) => InPhase(w, id, Settled)
    case DoClose => w.up
    case DoCrash => true
    case DoReload(_, _) => !w.up
  }

  /** One step; a step that is not enabled leaves the world as it is. */
  ghost function Next(cfg: Config, w: World, s: Step): World {
    if !Enabled(w, s) then w else
      match s
      case DoStart(id, key, request, now, saved) => Start(cfg, w, id, key, request, now, saved)
      case DoCancel(id, now, saved) => Cancel(cfg, w, id, now, saved)
      case DoDequeue(id) => SetPhase(w, id, Dequeued)
      case DoPreflight(id, now, saved) => Preflight(cfg, w, id, now, saved)
      case DoInvoke(id) => Invoke(w, id)
      case DoEnd(id, end) => SetPhase(w, id, Ended(end))
      case DoRecord(id, now, saved) => RecordEnd(cfg, w, id, now, saved)
      case DoSettle(id) => SetPhase(w, id, Settled)
      case DoCallback(id) => Callback(w, id)
      case DoClose => w.(closed := true)
      case DoCrash => Crash(w)
      case DoReload(now, rewritten) => Reload(cfg, w, now, rewritten)
  }

  const INITIAL: World := World(true, false, map[], map[], {}, map[], map[], [])

  ghost function Execute(cfg: Config, w: World, steps: seq<Step>): World
    decreases |steps|
  {
    if steps == [] then w else Execute(cfg, Next(cfg, w, steps[0]), steps[1..])
  }

  predicate CrashFree(steps: seq<Step>) {
    forall i :: 0 <= i < |steps| ==> !steps[i].DoCrash?
  }
}
