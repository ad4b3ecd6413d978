/**
 What the operations job manager owes the callers of its definitions and its schedule: creating, pausing and starting are
 answered for what they are, a key stays with its job, a paused job gets no run, and an overdue one gets its run.
 */
module OpsJobRequests {
  import opened Common
  import opened ThreadPool
  import opened OpsJobSpec
  import opened OpsJobProofs
  import opened OpsJobAnswers

  // ----- starting a run -----

  /** The job has a run that has not ended. */
  ghost predicate HasLiveRun(m: Memory, id: JobId) {
    exists r :: r in m.runs && m.runs[r].job == id && !Terminal(m.runs[r].state)
  }

  /** The manager is open, and the job is known and active. */
  ghost predicate MayRun(m: Memory, id: JobId) {
    !m.closed && id in m.jobs && m.jobs[id].state == Active
  }

  /** The pool holds fewer items than its workers and its queue can. */
  ghost predicate HasRoom(cfg: Config, m: Memory) {
    |m.work.Keys| < cfg.maxWorkers + cfg.maxPending
  }

  lemma ActiveIsLive(cfg: Config, w: World, id: JobId)
    requires Inv(cfg, w) && w.up
    ensures HasActiveRun(w.mem, id) <==> HasLiveRun(w.mem, id)
    ensures HasActiveRun(w.mem, id) ==> w.mem.runs[w.mem.active[id]].job == id
  {
  }

  lemma LiveIsActive(cfg: Config, w: World, id: JobId, r: RunId)
    requires Inv(cfg, w) && w.up && r in w.mem.runs && w.mem.runs[r].job == id && !Terminal(w.mem.runs[r].state)
    ensures HasActiveRun(w.mem, id) && w.mem.active[id] == r
  {
  }

  lemma FuturesAreWork(cfg: Config, w: World)
    requires Inv(cfg, w) && w.up
    ensures w.mem.futures == w.mem.work.Keys
  {
  }

  /** When a start is answered with a new run, and when with a storage error, by hand or by interval. */
  lemma StartAccepts(cfg: Config, w: World, id: JobId, run: RunId, writes: Writes)
    requires Inv(cfg, w) && w.up && run !in w.mem.runs
    ensures var reply := StartReply(cfg, w.mem, id, run, writes);
            var can := MayRun(w.mem, id) && !HasLiveRun(w.mem, id) && HasRoom(cfg, w.mem);
            && (reply == RunReply(run, false) <==> can && writes.run && writes.job)
            && (reply == StorageError <==> can && !(writes.run && writes.job))
            && (reply == NotFound <==> !w.mem.closed && id !in w.mem.jobs)
  {
    ActiveIsLive(cfg, w, id);
    FuturesAreWork(cfg, w);
  }

  lemma ReplyReuses(cfg: Config, m: Memory, id: JobId, run: RunId, writes: Writes, r: RunId)
    ensures StartReply(cfg, m, id, run, writes) == RunReply(r, true) <==> MayRun(m, id) && HasActiveRun(m, id) && m.active[id] == r
  {
  }

  lemma StartReuses(cfg: Config, w: World, id: JobId, run: RunId, writes: Writes, r: RunId)
    requires Inv(cfg, w) && w.up && run !in w.mem.runs
    ensures StartReply(cfg, w.mem, id, run, writes) == RunReply(r, true)
            <==> MayRun(w.mem, id) && r in w.mem.runs && w.mem.runs[r].job == id && !Terminal(w.mem.runs[r].state)
  {
    ReplyReuses(cfg, w.mem, id, run, writes, r);
    ActiveIsLive(cfg, w, id);
    if r in w.mem.runs && w.mem.runs[r].job == id && !Terminal(w.mem.runs[r].state) { LiveIsActive(cfg, w, id, r); }
  }

  /** A run as it is when it has just been submitted. */
  ghost predicate JustQueued(r: Run, id: JobId, origin: Origin, now: Time) {
    && r.job == id && r.origin == origin && r.state == Queued && r.phase == InQueue && r.outcome == None && r.createdAt == now
    && r.startedAt == None && r.finishedAt == None && r.finding == None && !r.cancelRequested && !r.journalError
    && r.attempt == Attempt(Queued, None, None, None)
  }

  /** The job names its new run, and its schedule, if it has one, starts again from now. */
  ghost predicate Rescheduled(j: Job, v: Job, run: RunId, now: Time) {
    && v == j.(lastRun := Some(run), updatedAt := now, nextRunAt := v.nextRunAt)
    && v.nextRunAt == (match j.trigger case Interval(seconds) => Some(now + 1000 * seconds) case Manual => j.nextRunAt)
  }

  /** One run has been submitted: in memory, journal, pool and history; no other run and no other job has changed. */
  ghost predicate Submitted(w: World, v: World, id: JobId, run: RunId, origin: Origin, now: Time) {
    && v.history == w.history.(submitted := w.history.submitted + [Submission(run, id, origin, now)])
    && run in v.mem.runs && JustQueued(v.mem.runs[run], id, origin, now)
    && v.mem.runs == w.mem.runs[run := v.mem.runs[run]] && v.disk.runs == w.disk.runs[run := v.mem.runs[run]]
    && id in w.mem.jobs && id in v.mem.jobs && Rescheduled(w.mem.jobs[id], v.mem.jobs[id], run, now)
    && v.mem.jobs == w.mem.jobs[id := v.mem.jobs[id]] && v.disk.jobs == w.disk.jobs[id := v.mem.jobs[id]]
    && id in v.mem.active && v.mem.active[id] == run && id !in v.mem.retryAt && v.mem.work == w.mem.work[run := Item(Pending, id)]
  }

  /** Nothing was submitted; a run whose record was journalled before the job's write failed is left as blocked. */
  ghost predicate NotSubmitted(w: World, v: World, run: RunId, journalled: bool, blocked: bool) {
    && v.history == w.history && v.mem == w.mem.(runs := v.mem.runs) && v.disk.jobs == w.disk.jobs
    && (if journalled then
          && run in v.mem.runs && run in v.disk.runs
          && v.mem.runs == w.mem.runs[run := v.mem.runs[run]] && v.disk.runs == w.disk.runs[run := v.disk.runs[run]]
          && v.mem.runs[run].state == Blocked && v.mem.runs[run].finding == Some(Storage) && v.mem.runs[run].phase == NeedsAttention
          && v.mem.runs[run].attempt.failure == Some(Storage)
          && (if blocked then v.disk.runs[run] == v.mem.runs[run] else v.disk.runs[run].state == Queued && v.mem.runs[run].journalError)
        else v.mem.runs == w.mem.runs && v.disk.runs == w.disk.runs)
  }

  lemma StartSubmits(cfg: Config, w: World, id: JobId, run: RunId, origin: Origin, now: Time, writes: Writes)
    requires StartReply(cfg, w.mem, id, run, writes) == RunReply(run, false) && run !in w.mem.runs
    requires !HasActiveRun(w.mem, id)
    ensures Submitted(w, StartRun(cfg, w, id, run, origin, now, writes), id, run, origin, now)
  {
  }

  lemma StartIsBlocked(cfg: Config, w: World, id: JobId, run: RunId, origin: Origin, now: Time, writes: Writes)
    requires StartReply(cfg, w.mem, id, run, writes) == StorageError
    ensures NotSubmitted(w, StartRun(cfg, w, id, run, origin, now, writes), run, writes.run, writes.blocked)
  {
  }

  /** What a start leaves behind, by its answer. */
  ghost predicate StartDone(cfg: Config, w: World, v: World, id: JobId, run: RunId, origin: Origin, now: Time, writes: Writes) {
    if StartReply(cfg, w.mem, id, run, writes) == RunReply(run, false) then Submitted(w, v, id, run, origin, now)
    else if StartReply(cfg, w.mem, id, run, writes) == StorageError then NotSubmitted(w, v, run, writes.run, writes.blocked)
    else v == w
  }

  lemma StartDoes(cfg: Config, w: World, id: JobId, run: RunId, origin: Origin, now: Time, writes: Writes)
    requires Inv(cfg, w) && w.up && run !in w.mem.runs
    ensures StartDone(cfg, w, StartRun(cfg, w, id, run, origin, now, writes), id, run, origin, now, writes)
  {
    var reply := StartReply(cfg, w.mem, id, run, writes);
    if reply == RunReply(run, false) {
      StartSubmits(cfg, w, id, run, origin, now, writes);
    } else if reply == StorageError {
      StartIsBlocked(cfg, w, id, run, origin, now, writes);
    }
  }

  /**
   A start by hand is answered for what it is. A new run is submitted exactly when the manager is open, the job is known and
   active, none of its runs is live, the pool has room and both records were journalled; a live run is answered for itself;
   whatever the answer, everything else stays as it was.
   */
  lemma StartAnswer(cfg: Config, before: seq<Step>, id: JobId, run: RunId, now: Time, writes: Writes, r: RunId)
    requires Enabled(Execute(cfg, INITIAL, before), DoStartRun(id, run, now, writes))
    ensures var w := Execute(cfg, INITIAL, before);
            var reply := StartReply(cfg, w.mem, id, run, writes);
            var can := MayRun(w.mem, id) && !HasLiveRun(w.mem, id) && HasRoom(cfg, w.mem);
            && (reply == RunReply(run, false) <==> can && writes.run && writes.job)
            && (reply == StorageError <==> can && !(writes.run && writes.job))
            && (reply == NotFound <==> !w.mem.closed && id !in w.mem.jobs)
            && (reply == RunReply(r, true) <==>
                  MayRun(w.mem, id) && r in w.mem.runs && w.mem.runs[r].job == id && !Terminal(w.mem.runs[r].state))
    ensures var w := Execute(cfg, INITIAL, before);
            StartDone(cfg, w.(clock := now), Next(cfg, w, DoStartRun(id, run, now, writes)), id, run, ByHand, now, writes)
  {
    var w := Execute(cfg, INITIAL, before);
    ReachableInv(cfg, before);
    StartAccepts(cfg, w, id, run, writes);
    StartReuses(cfg, w, id, run, writes, r);
    TickKeepsInv(cfg, w, now);
    StartDoes(cfg, w.(clock := now), id, run, ByHand, now, writes);
  }

  // ----- closing -----

  lemma NextKeepsClosed(cfg: Config, w: World, s: Step)
    requires w.up && w.mem.closed && !s.DoCrash?
    ensures Next(cfg, w, s).up && Next(cfg, w, s).mem.closed
  {
  }

  lemma {:induction false} RunKeepsClosed(cfg: Config, w: World, steps: seq<Step>)
    requires w.up && w.mem.closed && CrashFree(steps)
    ensures Execute(cfg, w, steps).up && Execute(cfg, w, steps).mem.closed
    decreases |steps|
  {
    if steps != [] {
      NextKeepsClosed(cfg, w, steps[0]);
      RunKeepsClosed(cfg, Next(cfg, w, steps[0]), steps[1..]);
    }
  }

  /** Once closed, the manager refuses definitions, pauses and starts for the rest of its lifetime, and scans no more. */
  lemma ClosedForGood(cfg: Config, w: World, after: seq<Step>, s: Step)
    requires w.up && CrashFree(after)
    ensures var m := Execute(cfg, Next(cfg, w, DoClose), after).mem;
            match s
            case DoCreate(id, key, d, _, saved) => CreateReply(m, id, key, d, saved) == Conflict
            case DoSetPaused(id, _, _, saved) => SetPausedReply(m, id, saved) == Conflict
            case DoStartRun(id, run, _, writes) => StartReply(cfg, m, id, run, writes) == Conflict
            case DoScan(_, _, _, _) => !Enabled(Execute(cfg, Next(cfg, w, DoClose), after), s)
            case _ => m.closed
  {
    RunKeepsClosed(cfg, Next(cfg, w, DoClose), after);
  }

  // ----- loading -----

  /** What a restart loads of the definitions in the journal: those with a generation, a device and a trigger it can follow. */
  lemma LoadsExactlyTheValid(cfg: Config, w: World, now: Time, rewritten: set<RunId>, id: JobId)
    requires !w.up && w.clock <= now
    ensures var v, j := Next(cfg, w, DoReload(now, rewritten)), w.disk.jobs;
            id in v.mem.jobs <==>
              && id in j && j[id].generation >= 1 && |j[id].definition.device| > 0
              && (j[id].trigger == Manual || exists s :: 60 <= s <= 604800 && j[id].trigger == Interval(s))
  {
  }

  // ----- the schedule -----

  /** The job is active, runs by interval, its time has come, and it is not backing off. */
  ghost predicate Overdue(m: Memory, id: JobId, current: Time, monotonic: Time) {
    && id in m.jobs && m.jobs[id].state == Active && m.jobs[id].trigger.Interval?
    && m.jobs[id].nextRunAt.Some? && m.jobs[id].nextRunAt.value <= current
    && (id in m.retryAt ==> m.retryAt[id] <= monotonic)
  }

  /** A scan lists exactly the overdue jobs, each once. */
  lemma ScanListsOverdue(cfg: Config, w: World, due: seq<JobId>, current: Time, monotonic: Time, now: Time, id: JobId)
    requires Enabled(w, DoScan(due, current, monotonic, now))
    ensures var v := Next(cfg, w, DoScan(due, current, monotonic, now));
            && !w.mem.closed && v.mem.due == due && v == w.(clock := now, mem := w.mem.(due := due, scanned := current))
            && (id in due <==> Overdue(w.mem, id, current, monotonic))
            && forall i, j :: 0 <= i < j < |due| ==> due[i] != due[j]
  {
    if id in due { assert exists i :: 0 <= i < |due| && due[i] == id && IsDue(w.mem, due[i], current, monotonic); }
  }

  /**
   The job at the head of the scheduler's list is started by interval: if it may run and the pool has room it gets exactly
   one run and a new schedule; a storage error puts it off for a minute; otherwise nothing but the list changes.
   */
  ghost predicate DueStarted(cfg: Config, w: World, v: World, run: RunId, now: Time, writes: Writes, monotonic: Time)
    requires w.mem.due != []
  {
    var id := w.mem.due[0];
    var u := HeadTaken(w);
    var can := MayRun(w.mem, id) && !HasLiveRun(w.mem, id) && HasRoom(cfg, w.mem);
    if can && writes.run && writes.job then Submitted(u, v, id, run, ByInterval, now)
    else if can then
      v.mem.retryAt == w.mem.retryAt[id := monotonic + 60000]
      && NotSubmitted(u, v.(mem := v.mem.(retryAt := w.mem.retryAt)), run, writes.run, writes.blocked)
    else v == u
  }

  lemma HeadTakenKeepsInv(cfg: Config, w: World, run: RunId)
    requires Inv(cfg, w) && w.up && w.mem.due != []
    ensures Inv(cfg, HeadTaken(w))
  {
    DueHead(w.mem.due, w.mem.scanned, w.mem.jobs, w.history.submitted, w.clock, run);
  }

  lemma BackoffByAnswer(cfg: Config, w: World, run: RunId, now: Time, writes: Writes, monotonic: Time)
    requires w.mem.due != []
    requires var u := HeadTaken(w);
             StartDone(cfg, u, StartRun(cfg, u, w.mem.due[0], run, ByInterval, now, writes), w.mem.due[0], run, ByInterval, now, writes)
    requires var u := HeadTaken(w);
             var reply := StartReply(cfg, u.mem, w.mem.due[0], run, writes);
             var can := MayRun(u.mem, w.mem.due[0]) && !HasLiveRun(u.mem, w.mem.due[0]) && HasRoom(cfg, u.mem);
             && (reply == RunReply(run, false) <==> can && writes.run && writes.job)
             && (reply == StorageError <==> can && !(writes.run && writes.job))
    ensures DueStarted(cfg, w, StartDue(cfg, w, run, now, writes, monotonic), run, now, writes, monotonic)
  {
    assert HasLiveRun(HeadTaken(w).mem, w.mem.due[0]) == HasLiveRun(w.mem, w.mem.due[0]);
  }

  lemma StartDueDoes(cfg: Config, w: World, run: RunId, now: Time, writes: Writes, monotonic: Time)
    requires Inv(cfg, w) && w.up && run !in w.mem.runs && w.mem.due != []
    ensures DueStarted(cfg, w, StartDue(cfg, w, run, now, writes, monotonic), run, now, writes, monotonic)
  {
    var id, u := w.mem.due[0], HeadTaken(w);
    HeadTakenKeepsInv(cfg, w, run);
    StartAccepts(cfg, u, id, run, writes);
    StartDoes(cfg, u, id, run, ByInterval, now, writes);
    BackoffByAnswer(cfg, w, run, now, writes, monotonic);
  }

  lemma OverdueIsStarted(cfg: Config, before: seq<Step>, run: RunId, now: Time, writes: Writes, monotonic: Time)
    requires Enabled(Execute(cfg, INITIAL, before), DoStartDue(run, now, writes, monotonic))
    ensures var w := Execute(cfg, INITIAL, before);
            DueStarted(cfg, w.(clock := now), Next(cfg, w, DoStartDue(run, now, writes, monotonic)), run, now, writes, monotonic)
  {
    var w := Execute(cfg, INITIAL, before);
    ReachableInv(cfg, before);
    TickKeepsInv(cfg, w, now);
    StartDueDoes(cfg, w.(clock := now), run, now, writes, monotonic);
  }

  // ----- creating a job -----

  /** The bounds of a definition. */
  ghost predicate InBounds(d: Definition) {
    1 <= |d.title| <= 120 && 1 <= |d.device| <= 128 && (d.interval.Some? ==> 60 <= d.interval.value <= 604800)
  }

  ghost predicate KeyInUse(m: Memory, key: Option<Key>) {
    key.Some? && exists j :: j in m.jobs && m.jobs[j].key == key
  }

  lemma TakenIsInUse(cfg: Config, w: World, key: Option<Key>)
    requires Inv(cfg, w) && w.up
    ensures KeyTaken(w.mem, key) <==> KeyInUse(w.mem, key)
    ensures KeyTaken(w.mem, key) ==> w.mem.keys[key.value] in w.mem.jobs && w.mem.jobs[w.mem.keys[key.value]].key == key
  {
  }

  lemma KeyHolderUnique(cfg: Config, w: World, key: Option<Key>, j: JobId)
    requires Inv(cfg, w) && w.up && key.Some? && j in w.mem.jobs && w.mem.jobs[j].key == key
    ensures KeyTaken(w.mem, key) && w.mem.keys[key.value] == j
  {
  }

  /** A definition as it is when it has just been created: active, never run, its first run one interval away. */
  ghost predicate JustCreated(j: Job, key: Option<Key>, d: Definition, now: Time) {
    && j.key == key && j.definition == d && j.generation == 1 && j.state == Active && j.createdAt == now == j.updatedAt
    && j.lastRun == None
    && (match d.interval
        case Some(seconds) => j.trigger == Interval(seconds) && j.nextRunAt == Some(now + 1000 * seconds)
        case None => j.trigger == Manual && j.nextRunAt == None)
  }

  /** One job has been added in memory and journal, and nothing else has changed. */
  ghost predicate Created(w: World, v: World, id: JobId, key: Option<Key>, d: Definition, now: Time) {
    && id in v.mem.jobs && JustCreated(v.mem.jobs[id], key, d, now)
    && v == w.(mem := w.mem.(jobs := w.mem.jobs[id := v.mem.jobs[id]], keys := v.mem.keys),
               disk := w.disk.(jobs := w.disk.jobs[id := v.mem.jobs[id]]))
  }

  lemma CreateAccepts(cfg: Config, w: World, id: JobId, key: Option<Key>, d: Definition, saved: bool)
    requires Inv(cfg, w) && w.up
    ensures var reply := CreateReply(w.mem, id, key, d, saved);
            var can := !w.mem.closed && InBounds(d) && !KeyInUse(w.mem, key);
            && (reply == JobReply(id, false) <==> can && saved)
            && (reply == StorageError <==> can && !saved)
  {
    TakenIsInUse(cfg, w, key);
  }

  lemma CreateReuses(cfg: Config, w: World, id: JobId, key: Option<Key>, d: Definition, saved: bool, j: JobId)
    requires Inv(cfg, w) && w.up
    ensures CreateReply(w.mem, id, key, d, saved) == JobReply(j, true)
            <==> !w.mem.closed && InBounds(d) && key.Some? && j in w.mem.jobs && w.mem.jobs[j].key == key && w.mem.jobs[j].definition == d
  {
    TakenIsInUse(cfg, w, key);
    if key.Some? && j in w.mem.jobs && w.mem.jobs[j].key == key { KeyHolderUnique(cfg, w, key, j); }
  }

  lemma CreateDoes(w: World, id: JobId, key: Option<Key>, d: Definition, now: Time, saved: bool)
    ensures var v := Create(w, id, key, d, now, saved);
            if CreateReply(w.mem, id, key, d, saved) == JobReply(id, false) then Created(w, v, id, key, d, now) else v == w
  {
  }

  /**
   Creating a job is answered for what it is: a new job exactly when the manager is open, the definition is within its
   bounds, no job has the key and the record was journalled; a known key is answered with its job if the definition is the
   same. Every other answer, and that one too, leaves everything as it was.
   */
  lemma CreateAnswer(cfg: Config, before: seq<Step>, id: JobId, key: Option<Key>, d: Definition, now: Time, saved: bool, j: JobId)
    requires Enabled(Execute(cfg, INITIAL, before), DoCreate(id, key, d, now, saved))
    ensures var w := Execute(cfg, INITIAL, before);
            var reply := CreateReply(w.mem, id, key, d, saved);
            var can := !w.mem.closed && InBounds(d) && !KeyInUse(w.mem, key);
            && (reply == JobReply(id, false) <==> can && saved)
            && (reply == StorageError <==> can && !saved)
            && (reply == JobReply(j, true) <==>
                  !w.mem.closed && InBounds(d) && key.Some? && j in w.mem.jobs && w.mem.jobs[j].key == key && w.mem.jobs[j].definition == d)
    ensures var w := Execute(cfg, INITIAL, before);
            var v := Next(cfg, w, DoCreate(id, key, d, now, saved));
            if CreateReply(w.mem, id, key, d, saved) == JobReply(id, false) then Created(w.(clock := now), v, id, key, d, now)
            else v == w.(clock := now)
  {
    var w := Execute(cfg, INITIAL, before);
    ReachableInv(cfg, before);
    CreateAccepts(cfg, w, id, key, d, saved);
    CreateReuses(cfg, w, id, key, d, saved, j);
    CreateDoes(w.(clock := now), id, key, d, now, saved);
  }

  // ----- keys are for ever -----

  /** The journal holds this job under this key. */
  ghost predicate Keyed(jobs: map<JobId, Job>, id: JobId, key: Key, d: Definition) {
    id in jobs && jobs[id].key == Some(key) && jobs[id].definition == d
  }

  lemma StartKeepsKeyed(cfg: Config, w: World, x: JobId, run: RunId, origin: Origin, now: Time, writes: Writes, id: JobId, key: Key, d: Definition)
    requires w.mem.jobs == w.disk.jobs && Keyed(w.disk.jobs, id, key, d)
    ensures Keyed(StartRun(cfg, w, x, run, origin, now, writes).disk.jobs, id, key, d)
  {
  }

  lemma EffectKeepsKeyed(cfg: Config, w: World, s: Step, id: JobId, key: Key, d: Definition)
    requires Enabled(w, s) && Keyed(w.disk.jobs, id, key, d) && (w.up ==> w.mem.jobs == w.disk.jobs)
    ensures Keyed(Effect(cfg, w, s).disk.jobs, id, key, d)
  {
    if s.DoStartRun? {
      StartKeepsKeyed(cfg, w, s.id, s.run, ByHand, s.now, s.writes, id, key, d);
    } else if s.DoStartDue? {
      StartDueStarts(cfg, w, s.run, s.now, s.writes, s.monotonic);
      StartKeepsKeyed(cfg, HeadTaken(w), w.mem.due[0], s.run, ByInterval, s.now, s.writes, id, key, d);
    }
  }

  lemma {:induction false} RunKeepsKeyed(cfg: Config, w: World, steps: seq<Step>, id: JobId, key: Key, d: Definition)
    requires Inv(cfg, w) && Keyed(w.disk.jobs, id, key, d)
    ensures Keyed(Execute(cfg, w, steps).disk.jobs, id, key, d)
    decreases |steps|
  {
    if steps != [] {
      var s := steps[0];
      if Enabled(w, s) {
        ClockedIsEnabled(w, s);
        EffectKeepsKeyed(cfg, Clocked(w, s), s, id, key, d);
      }
      NextKeepsInv(cfg, w, s);
      RunKeepsKeyed(cfg, Next(cfg, w, s), steps[1..], id, key, d);
    }
  }

  lemma KeyAnswers(cfg: Config, v: World, id: JobId, key: Key, held: Definition, other: JobId, d: Definition, now: Time, saved: bool)
    requires Inv(cfg, v) && Keyed(v.disk.jobs, id, key, held)
    requires v.up && !v.mem.closed && v.clock <= now && other !in v.mem.jobs && InBounds(d)
    ensures CreateReply(v.mem, other, Some(key), d, saved) == (if d == held then JobReply(id, true) else Conflict)
    ensures Next(cfg, v, DoCreate(other, Some(key), d, now, saved)) == v.(clock := now)
  {
    KeyHolderUnique(cfg, v, Some(key), id);
  }

  /**
   A key is for ever: once a job has it, whatever runs, crashes and restarts come in between, creating a job under it again
   changes nothing, and is answered with that job if the definition is the same and with a conflict if it is not.
   */
  lemma KeyIsPermanent(cfg: Config, before: seq<Step>, after: seq<Step>, id: JobId, key: Key, other: JobId, d: Definition, now: Time, saved: bool)
    requires var w := Execute(cfg, INITIAL, before); w.up && id in w.mem.jobs && w.mem.jobs[id].key == Some(key)
    requires var v := Execute(cfg, Execute(cfg, INITIAL, before), after);
             v.up && !v.mem.closed && v.clock <= now && other !in v.mem.jobs && InBounds(d)
    ensures var w := Execute(cfg, INITIAL, before);
            var v := Execute(cfg, w, after);
            && CreateReply(v.mem, other, Some(key), d, saved) == (if d == w.mem.jobs[id].definition then JobReply(id, true) else Conflict)
            && Next(cfg, v, DoCreate(other, Some(key), d, now, saved)) == v.(clock := now)
  {
    var w := Execute(cfg, INITIAL, before);
    ReachableInv(cfg, before);
    RunKeepsKeyed(cfg, w, after, id, key, w.mem.jobs[id].definition);
    RunKeepsInv(cfg, w, after);
    KeyAnswers(cfg, Execute(cfg, w, after), id, key, w.mem.jobs[id].definition, other, d, now, saved);
  }

  // ----- pausing and resuming -----

  /** The job is paused, or active again with its next run one interval away; its backoff is forgotten. */
  ghost predicate PauseDone(w: World, v: World, id: JobId, paused: bool, now: Time) {
    && id in w.mem.jobs && id in v.mem.jobs
    && v.mem.jobs[id] == w.mem.jobs[id].(state := if paused then Paused else Active, updatedAt := now, nextRunAt := v.mem.jobs[id].nextRunAt)
    && v.mem.jobs[id].nextRunAt == (if !paused && w.mem.jobs[id].trigger.Interval? then Some(now + 1000 * w.mem.jobs[id].trigger.seconds)
                                   else w.mem.jobs[id].nextRunAt)
    && v == w.(mem := w.mem.(jobs := w.mem.jobs[id := v.mem.jobs[id]], retryAt := w.mem.retryAt - {id}),
               disk := w.disk.(jobs := w.disk.jobs[id := v.mem.jobs[id]]))
  }

  /** Pausing and resuming work on every job that is not retired, and change that job alone. */
  lemma SetPausedAnswer(cfg: Config, w: World, id: JobId, paused: bool, now: Time, saved: bool)
    requires w.up && w.clock <= now
    ensures var reply := SetPausedReply(w.mem, id, saved);
            var can := !w.mem.closed && id in w.mem.jobs && w.mem.jobs[id].state != Retired;
            && (reply == JobReply(id, false) <==> can && saved)
            && (reply == StorageError <==> can && !saved)
            && (reply == NotFound <==> !w.mem.closed && id !in w.mem.jobs)
    ensures var v := Next(cfg, w, DoSetPaused(id, paused, now, saved));
            if !w.mem.closed && id in w.mem.jobs && w.mem.jobs[id].state != Retired && saved
            then PauseDone(w.(clock := now), v, id, paused, now)
            else v == w.(clock := now)
  {
  }

  /** Nobody resumes this job. */
  predicate NotResumed(steps: seq<Step>, id: JobId) {
    forall i :: 0 <= i < |steps| ==> !(steps[i].DoSetPaused? && steps[i].id == id && !steps[i].paused)
  }

  /** The job is known and not active, and no run of it was submitted after the first `n`. */
  ghost predicate AtRest(w: World, id: JobId, n: nat) {
    && id in w.disk.jobs && w.disk.jobs[id].state != Active
    && (w.up ==> id in w.mem.jobs && w.mem.jobs[id].state != Active)
    && n <= |w.history.submitted|
    && forall i :: n <= i < |w.history.submitted| ==> w.history.submitted[i].job != id
  }

  lemma StartKeepsAtRest(cfg: Config, w: World, x: JobId, run: RunId, origin: Origin, now: Time, writes: Writes, id: JobId, n: nat)
    requires AtRest(w, id, n) && w.up
    ensures AtRest(StartRun(cfg, w, x, run, origin, now, writes), id, n)
  {
  }

  lemma PauseKeepsAtRest(w: World, x: JobId, paused: bool, now: Time, saved: bool, id: JobId, n: nat)
    requires AtRest(w, id, n) && w.up && !(x == id && !paused)
    ensures AtRest(SetPaused(w, x, paused, now, saved), id, n)
  {
  }

  lemma WorkerKeepsAtRest(cfg: Config, w: World, s: Step, id: JobId, n: nat)
    requires Enabled(w, s) && AtRest(w, id, n) && (s.DoPreflight? || s.DoInvoke? || s.DoRecord? || s.DoCancelRun?)
    ensures AtRest(Effect(cfg, w, s), id, n)
  {
  }

  lemma MoveKeepsAtRest(cfg: Config, w: World, s: Step, id: JobId, n: nat)
    requires Enabled(w, s) && AtRest(w, id, n)
    requires s.DoCreate? || s.DoScan? || s.DoDequeue? || s.DoEnd? || s.DoSettle? || s.DoCallback? || s.DoClose? || s.DoCrash?
    ensures AtRest(Effect(cfg, w, s), id, n)
  {
  }

  lemma ReloadKeepsAtRest(cfg: Config, w: World, now: Time, rewritten: set<RunId>, id: JobId, n: nat)
    requires Inv(cfg, w) && AtRest(w, id, n)
    ensures AtRest(Reload(w, now, rewritten), id, n)
  {
    AllLoadable(w.disk.jobs, w.disk.runs);
  }

  lemma EffectKeepsAtRest(cfg: Config, w: World, s: Step, id: JobId, n: nat)
    requires Inv(cfg, w) && Enabled(w, s) && AtRest(w, id, n) && NotResumed([s], id)
    ensures AtRest(Effect(cfg, w, s), id, n)
  {
    assert [s][0] == s;
    match s
    case DoSetPaused(x, paused, now, saved) => PauseKeepsAtRest(w, x, paused, now, saved, id, n);
    case DoStartRun(x, run, now, writes) => StartKeepsAtRest(cfg, w, x, run, ByHand, now, writes, id, n);
    case DoStartDue(run, now, writes, monotonic) =>
      StartDueStarts(cfg, w, run, now, writes, monotonic);
      StartKeepsAtRest(cfg, HeadTaken(w), w.mem.due[0], run, ByInterval, now, writes, id, n);
    case DoPreflight(_, _, _) => WorkerKeepsAtRest(cfg, w, s, id, n);
    case DoInvoke(_) => WorkerKeepsAtRest(cfg, w, s, id, n);
    case DoRecord(_, _, _) => WorkerKeepsAtRest(cfg, w, s, id, n);
    case DoCancelRun(_, _, _) => WorkerKeepsAtRest(cfg, w, s, id, n);
    case DoReload(now, rewritten) => ReloadKeepsAtRest(cfg, w, now, rewritten, id, n);
    case _ => MoveKeepsAtRest(cfg, w, s, id, n);
  }

  lemma NextKeepsAtRest(cfg: Config, w: World, s: Step, id: JobId, n: nat)
    requires Inv(cfg, w) && AtRest(w, id, n) && NotResumed([s], id)
    ensures AtRest(Next(cfg, w, s), id, n)
  {
    if Enabled(w, s) {
      ClockedIsEnabled(w, s);
      if Reads(s).Some? { TickKeepsInv(cfg, w, Reads(s).value); }
      EffectKeepsAtRest(cfg, Clocked(w, s), s, id, n);
    }
  }

  lemma {:induction false} RunKeepsAtRest(cfg: Config, w: World, steps: seq<Step>, id: JobId, n: nat)
    requires Inv(cfg, w) && AtRest(w, id, n) && NotResumed(steps, id)
    ensures AtRest(Execute(cfg, w, steps), id, n)
    decreases |steps|
  {
    if steps != [] {
      NextKeepsAtRest(cfg, w, steps[0], id, n);
      NextKeepsInv(cfg, w, steps[0]);
      RunKeepsAtRest(cfg, Next(cfg, w, steps[0]), steps[1..], id, n);
    }
  }

  /** A job that is not active gets no run, by hand or by interval, until it is resumed, whatever crashes and restarts come. */
  lemma PausedIsNotRun(cfg: Config, before: seq<Step>, after: seq<Step>, id: JobId, i: nat)
    requires var w := Execute(cfg, INITIAL, before); w.up && id in w.mem.jobs && w.mem.jobs[id].state != Active
    requires NotResumed(after, id)
    requires var v := Execute(cfg, Execute(cfg, INITIAL, before), after);
             |Execute(cfg, INITIAL, before).history.submitted| <= i < |v.history.submitted|
    ensures Execute(cfg, Execute(cfg, INITIAL, before), after).history.submitted[i].job != id
  {
    var w := Execute(cfg, INITIAL, before);
    ReachableInv(cfg, before);
    RunKeepsAtRest(cfg, w, after, id, |w.history.submitted|);
  }
}
