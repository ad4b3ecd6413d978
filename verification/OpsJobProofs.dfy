/**
 What every run of the operations job manager keeps: one live run per job, spaced and
 coalesced interval runs, coherent run records, and journalled references that resolve.
 */
module OpsJobProofs {
  import opened Common
  import opened ThreadPool
  import opened OpsJobSpec

  // ----- the invariant, part by part -----

  ghost predicate WasInvoked(invoked: seq<RunId>, run: RunId) {
    run in invoked
  }

  /** State, outcome and last attempt agree; a terminal run has one finishing time, a live one has none. */
  ghost predicate RunCoherent(r: Run) {
    if Terminal(r.state) then
      r.outcome == Some(r.state) && r.attempt.state == r.state && r.finishedAt.Some? && r.attempt.finishedAt == r.finishedAt
    else
      r.outcome == None && !Terminal(r.attempt.state) && r.finishedAt == None && r.attempt.finishedAt == None
  }

  /** A started run has a start time; a cancelled run with a start time really ran. */
  ghost predicate Honest(r: Run, invoked: bool) {
    && (invoked ==> r.startedAt.Some?)
    && (r.state == Cancelled && r.startedAt.Some? ==> invoked)
  }

  ghost predicate InFlight(s: RunState) {
    s == Running || s == CancelRequested
  }

  ghost predicate ItemCoherent(item: Item, mem: Run, disk: Run, invoked: bool) {
    && item.job == mem.job
    && match item.phase
       case Pending => !invoked && mem.startedAt.None? && ((mem.state == Queued && !mem.cancelRequested) || (mem.state == Cancelled && mem.cancelRequested))
       case Dequeued => !invoked && mem.startedAt.None?
                        && ((mem.state == Queued && !mem.cancelRequested)
                            || ((mem.state == Cancelled || mem.state == CancelRequested) && mem.cancelRequested))
       case Ready => !invoked && InFlight(mem.state) && mem.startedAt.Some? && disk.startedAt.Some? && InFlight(disk.state)
       case Invoking => invoked && InFlight(mem.state) && mem.startedAt.Some?
       case Ended(end) => InFlight(mem.state) && mem.startedAt.Some? && (end.Returned? ==> invoked)
       case Finished => Terminal(mem.state)
       case Settled => Terminal(mem.state)
  }

  ghost predicate RunInv(mem: Run, disk: Run, item: Option<Item>, invoked: bool) {
    && mem.job == disk.job
    && RunCoherent(mem) && RunCoherent(disk)
    && Honest(mem, invoked) && Honest(disk, invoked)
    && (Terminal(disk.state) ==> disk.state == mem.state)
    && (if item.Some? then ItemCoherent(item.value, mem, disk, invoked) else Terminal(mem.state))
  }

  ghost function ItemOf(work: map<RunId, Item>, run: RunId): Option<Item> {
    if run in work then Some(work[run]) else None
  }

  ghost predicate RunsInv(mem: map<RunId, Run>, disk: map<RunId, Run>, work: map<RunId, Item>, invoked: seq<RunId>) {
    && work.Keys <= mem.Keys == disk.Keys
    && forall r :: r in mem ==> RunInv(mem[r], disk[r], ItemOf(work, r), WasInvoked(invoked, r))
  }

  /** A live run is the one its job names active; an active entry names a run of that job. */
  ghost predicate ActiveInv(runs: map<RunId, Run>, active: map<JobId, RunId>) {
    && (forall r :: r in runs && !Terminal(runs[r].state) ==> runs[r].job in active && active[runs[r].job] == r)
    && (forall j :: j in active ==> active[j] in runs && runs[active[j]].job == j)
  }

  ghost predicate JobInv(id: JobId, j: Job, runs: map<RunId, Run>) {
    && Loadable(j)
    && (j.trigger.Interval? <==> j.nextRunAt.Some?)
    && (j.lastRun.Some? ==> j.lastRun.value in runs && runs[j.lastRun.value].job == id)
  }

  ghost predicate JobsInv(jobs: map<JobId, Job>, runs: map<RunId, Run>) {
    && (forall id :: id in jobs ==> JobInv(id, jobs[id], runs))
    && (forall r :: r in runs ==> runs[r].job in jobs)
  }

  ghost predicate KeysInv(keys: map<Key, JobId>, jobs: map<JobId, Job>) {
    && (forall k :: k in keys ==> keys[k] in jobs && jobs[keys[k]].key == Some(k))
    && (forall id :: id in jobs && jobs[id].key.Some? ==> jobs[id].key.value in keys && keys[jobs[id].key.value] == id)
  }

  ghost function Gap(j: Job): int {
    if j.trigger.Interval? then 1000 * j.trigger.seconds else 0
  }

  /** Two submissions keep the interval if both were triggered by it. */
  ghost predicate Spaced(a: Submission, b: Submission, gap: int) {
    a.job == b.job && a.origin == ByInterval && b.origin == ByInterval ==> a.at + gap <= b.at
  }

  /** The schedule of a job lies beyond every interval run it has had. */
  ghost predicate SubmissionInv(s: Submission, jobs: map<JobId, Job>, clock: Time) {
    && s.job in jobs && s.at <= clock
    && (s.origin == ByInterval ==>
          jobs[s.job].trigger.Interval? && jobs[s.job].nextRunAt.Some? && s.at + Gap(jobs[s.job]) <= jobs[s.job].nextRunAt.value)
  }

  ghost predicate ScheduleInv(jobs: map<JobId, Job>, submitted: seq<Submission>, clock: Time) {
    && (forall i :: 0 <= i < |submitted| ==> SubmissionInv(submitted[i], jobs, clock))
    && (forall i, j :: 0 <= i < j < |submitted| ==> Spaced(submitted[i], submitted[j], Gap(jobs[submitted[i].job])))
    && (forall id :: id in jobs && jobs[id].nextRunAt.Some? ==> jobs[id].nextRunAt.value <= clock + Gap(jobs[id]))
  }

  /** What is left of a scan: distinct interval jobs, none with an interval run too close to the scan. */
  ghost predicate DueInv(due: seq<JobId>, scanned: Time, jobs: map<JobId, Job>, submitted: seq<Submission>, clock: Time) {
    && (due != [] ==> scanned <= clock)
    && (forall i, j :: 0 <= i < j < |due| ==> due[i] != due[j])
    && (forall i :: 0 <= i < |due| ==> due[i] in jobs && jobs[due[i]].trigger.Interval?)
    && (forall i, k :: 0 <= i < |submitted| && 0 <= k < |due| && submitted[i].job == due[k] && submitted[i].origin == ByInterval ==>
          submitted[i].at + Gap(jobs[due[k]]) <= scanned)
  }

  ghost predicate InvokedInv(invoked: seq<RunId>, runs: map<RunId, Run>) {
    && (forall i, j :: 0 <= i < j < |invoked| ==> invoked[i] != invoked[j])
    && (forall r :: r in invoked ==> r in runs)
  }

  ghost predicate DiskInv(d: Disk, invoked: seq<RunId>) {
    && JobsInv(d.jobs, d.runs)
    && InvokedInv(invoked, d.runs)
  }

  ghost predicate AccountingInv(cfg: Config, futures: set<RunId>, work: map<RunId, Item>) {
    futures == work.Keys && |futures| <= cfg.maxWorkers + cfg.maxPending
  }

  ghost predicate MemoryInv(cfg: Config, w: World) {
    && w.mem.jobs == w.disk.jobs
    && AccountingInv(cfg, w.mem.futures, w.mem.work)
    && RunsInv(w.mem.runs, w.disk.runs, w.mem.work, w.history.invoked)
    && ActiveInv(w.mem.runs, w.mem.active)
    && KeysInv(w.mem.keys, w.mem.jobs)
    && DueInv(w.mem.due, w.mem.scanned, w.mem.jobs, w.history.submitted, w.clock)
  }

  /** What a crash leaves. */
  ghost predicate DownInv(w: World) {
    && w.mem == EMPTY_MEMORY
    && KeysUnique(w.disk.jobs)
    && forall r :: r in w.disk.runs ==> RunCoherent(w.disk.runs[r]) && Honest(w.disk.runs[r], WasInvoked(w.history.invoked, r))
  }

  ghost predicate Inv(cfg: Config, w: World) {
    && DiskInv(w.disk, w.history.invoked)
    && ScheduleInv(w.disk.jobs, w.history.submitted, w.clock)
    && (if w.up then MemoryInv(cfg, w) else DownInv(w))
  }

  // ----- time passes -----

  lemma TickKeepsInv(cfg: Config, w: World, now: Time)
    requires Inv(cfg, w) && w.clock <= now
    ensures Inv(cfg, w.(clock := now))
  {
    var v := w.(clock := now);
    forall i | 0 <= i < |w.history.submitted| ensures SubmissionInv(w.history.submitted[i], w.disk.jobs, now) {
      assert SubmissionInv(w.history.submitted[i], w.disk.jobs, w.clock);
    }
    assert w.up ==> DueInv(w.mem.due, w.mem.scanned, w.mem.jobs, w.history.submitted, now);
  }

  // ----- one run's records change -----

  /** The memory copy, the journal copy and the phase of one submitted run are replaced. */
  ghost function Rewritten(w: World, run: RunId, mem: Run, disk: Run, p: Phase): World
    requires run in w.mem.work
  {
    SetPhase(PutRun(w, run, mem, disk), run, p)
  }

  lemma RunsSurviveRewrite(mem: map<RunId, Run>, disk: map<RunId, Run>, work: map<RunId, Item>, invoked: seq<RunId>,
                           run: RunId, m: Run, d: Run, item: Item)
    requires RunsInv(mem, disk, work, invoked) && run in work
    requires RunInv(m, d, Some(item), WasInvoked(invoked, run))
    ensures RunsInv(mem[run := m], disk[run := d], work[run := item], invoked)
    ensures work[run := item].Keys == work.Keys
  {
    assert work[run := item].Keys == work.Keys;
    assert mem[run := m].Keys == mem.Keys;
    assert disk[run := d].Keys == disk.Keys;
  }

  lemma JobsSurviveRewrite(jobs: map<JobId, Job>, runs: map<RunId, Run>, run: RunId, r: Run)
    requires JobsInv(jobs, runs) && run in runs && r.job == runs[run].job
    ensures JobsInv(jobs, runs[run := r])
  {
    forall id | id in jobs ensures JobInv(id, jobs[id], runs[run := r]) {
      assert JobInv(id, jobs[id], runs);
    }
  }

  lemma ActiveSurvivesRewrite(runs: map<RunId, Run>, active: map<JobId, RunId>, run: RunId, r: Run)
    requires ActiveInv(runs, active) && run in runs && r.job == runs[run].job
    requires Terminal(runs[run].state) ==> Terminal(r.state)
    ensures ActiveInv(runs[run := r], active)
  {
  }

  lemma RewriteKeepsInv(cfg: Config, w: World, run: RunId, mem: Run, disk: Run, p: Phase)
    requires Inv(cfg, w) && w.up && run in w.mem.work
    requires mem.job == w.mem.work[run].job
    requires RunInv(mem, disk, Some(Item(p, mem.job)), WasInvoked(w.history.invoked, run))
    requires Terminal(w.mem.runs[run].state) ==> Terminal(mem.state)
    ensures Inv(cfg, Rewritten(w, run, mem, disk, p))
  {
    assert RunAt(w, run);
    RunsSurviveRewrite(w.mem.runs, w.disk.runs, w.mem.work, w.history.invoked, run, mem, disk, Item(p, mem.job));
    JobsSurviveRewrite(w.disk.jobs, w.disk.runs, run, disk);
    ActiveSurvivesRewrite(w.mem.runs, w.mem.active, run, mem);
  }

  /** The invariant's clause for one run, as a handle. */
  ghost predicate RunAt(w: World, run: RunId) {
    && run in w.mem.runs && run in w.disk.runs
    && RunInv(w.mem.runs[run], w.disk.runs[run], ItemOf(w.mem.work, run), WasInvoked(w.history.invoked, run))
  }

  lemma MemoryOnly(w: World, run: RunId, mem: Run, p: Phase)
    requires run in w.mem.work && run in w.disk.runs
    ensures SetPhase(w.(mem := w.mem.(runs := w.mem.runs[run := mem])), run, p) == Rewritten(w, run, mem, w.disk.runs[run], p)
  {
    assert w.disk.runs[run := w.disk.runs[run]] == w.disk.runs;
  }

  lemma PhaseKeepsInv(cfg: Config, w: World, run: RunId, p: Phase)
    requires Inv(cfg, w) && w.up && run in w.mem.work && run in w.mem.runs && run in w.disk.runs
    requires ItemCoherent(Item(p, w.mem.work[run].job), w.mem.runs[run], w.disk.runs[run], WasInvoked(w.history.invoked, run))
    ensures Inv(cfg, SetPhase(w, run, p))
  {
    assert RunAt(w, run);
    assert w.mem.runs[run := w.mem.runs[run]] == w.mem.runs;
    MemoryOnly(w, run, w.mem.runs[run], p);
    RewriteKeepsInv(cfg, w, run, w.mem.runs[run], w.disk.runs[run], p);
  }

  /** A terminal record is put in memory and perhaps in the journal, and `_run` returns. */
  lemma OutcomeKeepsInv(cfg: Config, w: World, run: RunId, r: Run, saved: bool)
    requires Inv(cfg, w) && w.up && run in w.mem.work && run in w.disk.runs
    requires r.job == w.mem.work[run].job && RunCoherent(r) && Terminal(r.state) && Honest(r, WasInvoked(w.history.invoked, run))
    requires Terminal(w.disk.runs[run].state) ==> r.state == w.disk.runs[run].state
    ensures Inv(cfg, SetPhase(PutOutcome(w, run, r, saved), run, Finished))
  {
    assert RunAt(w, run);
    if saved {
      RewriteKeepsInv(cfg, w, run, r, r, Finished);
    } else {
      var q := r.(journalError := true);
      MemoryOnly(w, run, q, Finished);
      RewriteKeepsInv(cfg, w, run, q, w.disk.runs[run], Finished);
    }
  }

  lemma PreflightKeepsInv(cfg: Config, w: World, run: RunId, now: Time, saved: bool)
    requires Inv(cfg, w) && w.up && InPhase(w.mem, run, Dequeued)
    ensures Inv(cfg, Preflight(w, run, now, saved))
  {
    assert RunAt(w, run);
    if w.mem.runs[run].cancelRequested {
      CancelledRunCloses(w.mem.runs[run], now, false);
      OutcomeKeepsInv(cfg, w, run, CancelledRun(w.mem.runs[run], now), saved);
    } else {
      var r := StartedRun(w.mem.runs[run], now);
      if saved {
        RewriteKeepsInv(cfg, w, run, r, r, Ready);
      } else {
        MemoryOnly(w, run, r, Ended(PreflightFailed));
        RewriteKeepsInv(cfg, w, run, r, w.disk.runs[run], Ended(PreflightFailed));
      }
    }
  }

  /** Recording an outcome closes the run and its attempt together. */
  lemma EndedRunCloses(r: Run, end: RunnerEnd, now: Time, invoked: bool)
    requires RunCoherent(r) && r.startedAt.Some? && (end.Returned? ==> invoked)
    ensures var e := EndedRun(r, end, now);
            e.job == r.job && RunCoherent(e) && Terminal(e.state) && Honest(e, invoked)
  {
  }

  lemma CancelledRunCloses(r: Run, now: Time, invoked: bool)
    requires !invoked && r.startedAt.None?
    ensures var e := CancelledRun(r, now);
            e.job == r.job && RunCoherent(e) && Terminal(e.state) && Honest(e, invoked)
  {
  }

  lemma RecordKeepsInv(cfg: Config, w: World, run: RunId, now: Time, saved: bool)
    requires Inv(cfg, w) && w.up && CanRecord(w.mem, run)
    ensures Inv(cfg, RecordEnd(w, run, now, saved))
  {
    assert RunAt(w, run);
    EndedRunCloses(w.mem.runs[run], w.mem.work[run].phase.end, now, WasInvoked(w.history.invoked, run));
    OutcomeKeepsInv(cfg, w, run, EndedRun(w.mem.runs[run], w.mem.work[run].phase.end, now), saved);
  }

  /** What cancelling a live run does to it. */
  lemma CancelRecordKeeps(m: Memory, run: RunId, now: Time, disk: Run, invoked: bool)
    requires run in m.runs && run in m.work && m.futures == m.work.Keys && !Terminal(m.runs[run].state)
    requires RunInv(m.runs[run], disk, Some(m.work[run]), invoked)
    ensures var r := CancelRecord(m, run, now);
            r.job == m.runs[run].job && RunInv(r, disk, Some(m.work[run]), invoked) && RunInv(r, r, Some(m.work[run]), invoked)
  {
    if m.work[run].phase == Pending {
      CancelledRunCloses(m.runs[run].(cancelRequested := true), now, invoked);
    }
  }

  /** A submitted run's record is replaced in memory and perhaps in the journal, its item stays where it is. */
  lemma ReplaceKeepsInv(cfg: Config, w: World, run: RunId, r: Run, saved: bool)
    requires Inv(cfg, w) && w.up && run in w.mem.work && run in w.mem.runs && run in w.disk.runs
    requires r.job == w.mem.runs[run].job && (Terminal(w.mem.runs[run].state) ==> Terminal(r.state))
    requires RunInv(r, w.disk.runs[run], Some(w.mem.work[run]), WasInvoked(w.history.invoked, run))
    requires RunInv(r, r, Some(w.mem.work[run]), WasInvoked(w.history.invoked, run))
    ensures Inv(cfg, if saved then PutRun(w, run, r, r) else w.(mem := w.mem.(runs := w.mem.runs[run := r])))
  {
    assert RunAt(w, run);
    var p := w.mem.work[run].phase;
    assert w.mem.work[run := w.mem.work[run]] == w.mem.work;
    if saved {
      RewriteKeepsInv(cfg, w, run, r, r, p);
    } else {
      MemoryOnly(w, run, r, p);
      RewriteKeepsInv(cfg, w, run, r, w.disk.runs[run], p);
    }
  }

  lemma CancelKeepsInv(cfg: Config, w: World, run: RunId, now: Time, saved: bool)
    requires Inv(cfg, w) && w.up
    ensures Inv(cfg, CancelRun(w, run, now, saved))
  {
    if run in w.mem.runs && !Terminal(w.mem.runs[run].state) {
      assert RunAt(w, run);
      CancelRecordKeeps(w.mem, run, now, w.disk.runs[run], WasInvoked(w.history.invoked, run));
      ReplaceKeepsInv(cfg, w, run, CancelRecord(w.mem, run, now), saved);
    }
  }

  lemma InvokedGrows(invoked: seq<RunId>, run: RunId, runs: map<RunId, Run>)
    requires InvokedInv(invoked, runs) && run !in invoked && run in runs
    ensures InvokedInv(invoked + [run], runs)
    ensures forall r :: WasInvoked(invoked + [run], r) <==> r == run || WasInvoked(invoked, r)
  {
  }

  lemma InvokeKeepsInv(cfg: Config, w: World, run: RunId)
    requires Inv(cfg, w) && w.up && InPhase(w.mem, run, Ready)
    ensures Inv(cfg, Invoke(w, run))
  {
    assert RunAt(w, run);
    InvokedGrows(w.history.invoked, run, w.disk.runs);
    RunsSurviveInvoke(w.mem.runs, w.disk.runs, w.mem.work, w.history.invoked, run);
  }

  lemma RunsSurviveInvoke(mem: map<RunId, Run>, disk: map<RunId, Run>, work: map<RunId, Item>, invoked: seq<RunId>, run: RunId)
    requires RunsInv(mem, disk, work, invoked) && run in work && run in mem
    requires work[run].phase == Ready
    ensures var work' := work[run := work[run].(phase := Invoking)];
            RunsInv(mem, disk, work', invoked + [run]) && work'.Keys == work.Keys
  {
    var work' := work[run := work[run].(phase := Invoking)];
    assert work'.Keys == work.Keys;
    assert RunInv(mem[run], disk[run], ItemOf(work, run), WasInvoked(invoked, run));
  }

  lemma CallbackKeepsInv(cfg: Config, w: World, run: RunId)
    requires Inv(cfg, w) && w.up && InPhase(w.mem, run, Settled)
    ensures Inv(cfg, Callback(w, run))
  {
    assert RunAt(w, run);
    var job := w.mem.work[run].job;
    assert (w.mem.work - {run}).Keys == w.mem.work.Keys - {run};
    assert RunsInv(w.mem.runs, w.disk.runs, w.mem.work - {run}, w.history.invoked);
    ActiveSurvivesForget(w.mem.runs, w.mem.active, run, job);
  }

  lemma ActiveSurvivesForget(runs: map<RunId, Run>, active: map<JobId, RunId>, run: RunId, job: JobId)
    requires ActiveInv(runs, active) && run in runs && Terminal(runs[run].state)
    ensures ActiveInv(runs, if job in active && active[job] == run then active - {job} else active)
  {
  }

  // ----- definitions change -----

  /** A job is rewritten with the same key and trigger, and a schedule that does not move back. */
  ghost predicate SameJob(before: Job, after: Job, clock: Time) {
    && after.key == before.key && after.trigger == before.trigger && after.definition == before.definition && after.generation == before.generation
    && (after.nextRunAt.Some? <==> before.nextRunAt.Some?)
    && (after.nextRunAt.Some? ==> before.nextRunAt.value <= after.nextRunAt.value <= clock + Gap(after))
  }

  lemma KeysSurviveJob(keys: map<Key, JobId>, jobs: map<JobId, Job>, id: JobId, j: Job)
    requires KeysInv(keys, jobs) && id in jobs && j.key == jobs[id].key
    ensures KeysInv(keys, jobs[id := j])
  {
  }

  lemma ScheduleSurvivesJob(jobs: map<JobId, Job>, submitted: seq<Submission>, clock: Time, id: JobId, j: Job)
    requires ScheduleInv(jobs, submitted, clock) && id in jobs && SameJob(jobs[id], j, clock)
    ensures ScheduleInv(jobs[id := j], submitted, clock)
  {
    var jobs' := jobs[id := j];
    forall i | 0 <= i < |submitted| ensures SubmissionInv(submitted[i], jobs', clock) {
      assert SubmissionInv(submitted[i], jobs, clock);
    }
    forall i, k | 0 <= i < k < |submitted| ensures Spaced(submitted[i], submitted[k], Gap(jobs'[submitted[i].job])) {
      assert SubmissionInv(submitted[i], jobs, clock);
      assert Spaced(submitted[i], submitted[k], Gap(jobs[submitted[i].job]));
    }
  }

  lemma DueSurvivesJob(due: seq<JobId>, scanned: Time, jobs: map<JobId, Job>, submitted: seq<Submission>, clock: Time, id: JobId, j: Job)
    requires DueInv(due, scanned, jobs, submitted, clock) && id in jobs && j.trigger == jobs[id].trigger
    ensures DueInv(due, scanned, jobs[id := j], submitted, clock)
  {
    var jobs' := jobs[id := j];
    forall i, k | 0 <= i < |submitted| && 0 <= k < |due| && submitted[i].job == due[k] && submitted[i].origin == ByInterval
      ensures submitted[i].at + Gap(jobs'[due[k]]) <= scanned
    {
      assert submitted[i].at + Gap(jobs[due[k]]) <= scanned;
    }
  }

  lemma JobsSurviveJob(jobs: map<JobId, Job>, runs: map<RunId, Run>, id: JobId, j: Job)
    requires JobsInv(jobs, runs) && JobInv(id, j, runs)
    ensures JobsInv(jobs[id := j], runs)
  {
  }

  lemma PutJobKeepsInv(cfg: Config, w: World, id: JobId, j: Job)
    requires Inv(cfg, w) && w.up && id in w.mem.jobs && SameJob(w.mem.jobs[id], j, w.clock)
    requires JobInv(id, j, w.disk.runs)
    ensures Inv(cfg, PutJob(w, id, j))
  {
    KeysSurviveJob(w.mem.keys, w.mem.jobs, id, j);
    ScheduleSurvivesJob(w.disk.jobs, w.history.submitted, w.clock, id, j);
    DueSurvivesJob(w.mem.due, w.mem.scanned, w.mem.jobs, w.history.submitted, w.clock, id, j);
    JobsSurviveJob(w.disk.jobs, w.disk.runs, id, j);
  }

  lemma SetPausedKeepsInv(cfg: Config, w: World, id: JobId, paused: bool, now: Time, saved: bool)
    requires Inv(cfg, w) && w.up && w.clock == now
    ensures Inv(cfg, SetPaused(w, id, paused, now, saved))
  {
    if SetPausedReply(w.mem, id, saved) == JobReply(id, false) {
      var j := PausedJob(w.mem.jobs[id], paused, now);
      assert JobInv(id, w.disk.jobs[id], w.disk.runs);
      PutJobKeepsInv(cfg, w, id, j);
    }
  }

  /** A freshly created definition passes the reload filter and the schedule invariant. */
  lemma NewJobGood(id: JobId, key: Option<Key>, d: Definition, now: Time, runs: map<RunId, Run>)
    requires AcceptableDefinition(d)
    ensures var j := NewJob(key, d, now); JobInv(id, j, runs) && (j.nextRunAt.Some? ==> j.nextRunAt.value <= now + Gap(j))
  {
  }

  lemma ScheduleSurvivesNewJob(jobs: map<JobId, Job>, submitted: seq<Submission>, clock: Time, id: JobId, j: Job)
    requires ScheduleInv(jobs, submitted, clock) && id !in jobs
    requires j.nextRunAt.Some? ==> j.nextRunAt.value <= clock + Gap(j)
    ensures ScheduleInv(jobs[id := j], submitted, clock)
  {
    var jobs' := jobs[id := j];
    forall i | 0 <= i < |submitted| ensures SubmissionInv(submitted[i], jobs', clock) {
      assert SubmissionInv(submitted[i], jobs, clock);
    }
    forall i, k | 0 <= i < k < |submitted| ensures Spaced(submitted[i], submitted[k], Gap(jobs'[submitted[i].job])) {
      assert SubmissionInv(submitted[i], jobs, clock);
      assert Spaced(submitted[i], submitted[k], Gap(jobs[submitted[i].job]));
    }
  }

  lemma KeysSurviveNewJob(keys: map<Key, JobId>, jobs: map<JobId, Job>, id: JobId, j: Job)
    requires KeysInv(keys, jobs) && id !in jobs && (j.key.Some? ==> j.key.value !in keys)
    ensures KeysInv(if j.key.Some? then keys[j.key.value := id] else keys, jobs[id := j])
  {
  }

  lemma CreateKeepsInv(cfg: Config, w: World, id: JobId, key: Option<Key>, d: Definition, now: Time, saved: bool)
    requires Inv(cfg, w) && w.up && w.clock == now && id !in w.mem.jobs
    ensures Inv(cfg, Create(w, id, key, d, now, saved))
  {
    if !(!AcceptableDefinition(d) || w.mem.closed || KeyTaken(w.mem, key) || !saved) {
      var j := NewJob(key, d, now);
      NewJobGood(id, key, d, now, w.disk.runs);
      JobsSurviveJob(w.disk.jobs, w.disk.runs, id, j);
      ScheduleSurvivesNewJob(w.disk.jobs, w.history.submitted, w.clock, id, j);
      KeysSurviveNewJob(w.mem.keys, w.mem.jobs, id, j);
      DueSurvivesNewJob(w.mem.due, w.mem.scanned, w.mem.jobs, w.history.submitted, w.clock, id, j);
      var v := Create(w, id, key, d, now, saved);
      assert v.disk.jobs == w.disk.jobs[id := j] && v.mem.jobs == w.mem.jobs[id := j];
      assert MemoryInv(cfg, v);
    }
  }

  lemma DueSurvivesNewJob(due: seq<JobId>, scanned: Time, jobs: map<JobId, Job>, submitted: seq<Submission>, clock: Time, id: JobId, j: Job)
    requires DueInv(due, scanned, jobs, submitted, clock) && id !in jobs
    ensures DueInv(due, scanned, jobs[id := j], submitted, clock)
  {
    var jobs' := jobs[id := j];
    forall i, k | 0 <= i < |submitted| && 0 <= k < |due| && submitted[i].job == due[k] && submitted[i].origin == ByInterval
      ensures submitted[i].at + Gap(jobs'[due[k]]) <= scanned
    {
      assert submitted[i].at + Gap(jobs[due[k]]) <= scanned;
    }
  }

  // ----- a run is started -----

  lemma RunsSurviveNew(mem: map<RunId, Run>, disk: map<RunId, Run>, work: map<RunId, Item>, invoked: seq<RunId>,
                       run: RunId, m: Run, d: Run)
    requires RunsInv(mem, disk, work, invoked) && run !in mem && RunInv(m, d, None, WasInvoked(invoked, run))
    ensures RunsInv(mem[run := m], disk[run := d], work, invoked)
  {
    assert mem[run := m].Keys == mem.Keys + {run};
    assert disk[run := d].Keys == disk.Keys + {run};
  }

  lemma RunsSurviveSubmit(mem: map<RunId, Run>, disk: map<RunId, Run>, work: map<RunId, Item>, invoked: seq<RunId>,
                          run: RunId, r: Run, item: Item)
    requires RunsInv(mem, disk, work, invoked) && run !in mem && RunInv(r, r, Some(item), WasInvoked(invoked, run))
    ensures RunsInv(mem[run := r], disk[run := r], work[run := item], invoked)
    ensures work[run := item].Keys == work.Keys + {run}
  {
    assert mem[run := r].Keys == mem.Keys + {run};
    assert disk[run := r].Keys == disk.Keys + {run};
    assert work[run := item].Keys == work.Keys + {run};
  }

  lemma JobsSurviveNewRun(jobs: map<JobId, Job>, runs: map<RunId, Run>, run: RunId, r: Run)
    requires JobsInv(jobs, runs) && run !in runs && r.job in jobs
    ensures JobsInv(jobs, runs[run := r])
  {
    forall id | id in jobs ensures JobInv(id, jobs[id], runs[run := r]) {
      assert JobInv(id, jobs[id], runs);
    }
  }

  lemma NewRunNotInvoked(invoked: seq<RunId>, runs: map<RunId, Run>, run: RunId)
    requires InvokedInv(invoked, runs) && run !in runs
    ensures !WasInvoked(invoked, run)
  {
  }

  /** A blocked run is closed, never started, and may lie queued in the journal. */
  lemma BlockedGood(id: JobId, origin: Origin, now: Time, later: Time)
    ensures var r := NewRun(id, origin, now); var b := BlockedRun(r, later);
            && RunInv(b, b, None, false) && RunInv(b.(journalError := true), r, None, false)
            && b.job == id && r.job == id && Terminal(b.state)
  {
  }

  lemma NewTerminalRunKeepsInv(cfg: Config, w: World, run: RunId, mem: Run, disk: Run)
    requires Inv(cfg, w) && w.up && run !in w.mem.runs && mem.job in w.mem.jobs
    requires RunInv(mem, disk, None, false)
    ensures Inv(cfg, PutRun(w, run, mem, disk))
  {
    NewRunNotInvoked(w.history.invoked, w.disk.runs, run);
    RunsSurviveNew(w.mem.runs, w.disk.runs, w.mem.work, w.history.invoked, run, mem, disk);
    JobsSurviveNewRun(w.disk.jobs, w.disk.runs, run, disk);
    ActiveSurvivesNew(w.mem.runs, w.mem.active, run, mem);
  }

  lemma ActiveSurvivesNew(runs: map<RunId, Run>, active: map<JobId, RunId>, run: RunId, r: Run)
    requires ActiveInv(runs, active) && run !in runs && Terminal(r.state)
    ensures ActiveInv(runs[run := r], active)
  {
  }

  lemma BlockKeepsInv(cfg: Config, w: World, id: JobId, run: RunId, origin: Origin, now: Time, writes: Writes)
    requires Inv(cfg, w) && w.up && id in w.mem.jobs && run !in w.mem.runs
    ensures Inv(cfg, Block(w, id, run, origin, now, writes))
  {
    var r := NewRun(id, origin, now);
    var b := BlockedRun(r, writes.later);
    BlockedGood(id, origin, now, writes.later);
    if writes.blocked {
      NewTerminalRunKeepsInv(cfg, w, run, b, b);
    } else {
      NewTerminalRunKeepsInv(cfg, w, run, b.(journalError := true), r);
    }
  }

  lemma ActiveSurvivesSubmit(runs: map<RunId, Run>, active: map<JobId, RunId>, run: RunId, r: Run)
    requires ActiveInv(runs, active) && run !in runs
    requires r.job in active ==> Terminal(runs[active[r.job]].state)
    ensures ActiveInv(runs[run := r], active[r.job := run])
  {
  }

  lemma FuturesGrow(futures: set<RunId>, run: RunId)
    ensures |futures + {run}| <= |futures| + 1
  {
    if run in futures { assert futures + {run} == futures; }
  }

  /** The new submission keeps its distance from every earlier one of the same job. */
  ghost predicate FarEnough(s: Submission, jobs: map<JobId, Job>, submitted: seq<Submission>) {
    && s.job in jobs
    && forall i :: 0 <= i < |submitted| ==> Spaced(submitted[i], s, Gap(jobs[s.job]))
  }

  lemma ScheduleGrows(jobs: map<JobId, Job>, submitted: seq<Submission>, clock: Time, s: Submission)
    requires ScheduleInv(jobs, submitted, clock) && SubmissionInv(s, jobs, clock) && FarEnough(s, jobs, submitted)
    ensures ScheduleInv(jobs, submitted + [s], clock)
  {
    var more := submitted + [s];
    forall i | 0 <= i < |more| ensures SubmissionInv(more[i], jobs, clock) {
      if i < |submitted| { assert SubmissionInv(submitted[i], jobs, clock); }
    }
    forall i, k | 0 <= i < k < |more| ensures Spaced(more[i], more[k], Gap(jobs[more[i].job])) {
      if k < |submitted| {
        assert Spaced(submitted[i], submitted[k], Gap(jobs[submitted[i].job]));
      } else {
        assert Spaced(submitted[i], s, Gap(jobs[s.job]));
      }
    }
  }

  /** The scheduler's list is unaffected by a submission by hand, and by one of a job it no longer lists. */
  lemma DueSurvivesSubmission(due: seq<JobId>, scanned: Time, jobs: map<JobId, Job>, submitted: seq<Submission>, clock: Time, s: Submission)
    requires DueInv(due, scanned, jobs, submitted, clock) && (s.origin == ByHand || s.job !in due)
    ensures DueInv(due, scanned, jobs, submitted + [s], clock)
  {
    var more := submitted + [s];
    forall i, k | 0 <= i < |more| && 0 <= k < |due| && more[i].job == due[k] && more[i].origin == ByInterval
      ensures more[i].at + Gap(jobs[due[k]]) <= scanned
    {
      if i < |submitted| { assert submitted[i].at + Gap(jobs[due[k]]) <= scanned; }
    }
  }

  /** The journalled half of a submission: the run record exists, then the job names it. */
  lemma SubmittedJobGood(w: World, id: JobId, run: RunId, origin: Origin, now: Time)
    requires JobsInv(w.disk.jobs, w.disk.runs) && id in w.disk.jobs && run !in w.disk.runs
    ensures var r, j := NewRun(id, origin, now), RunningJob(w.disk.jobs[id], run, now);
            JobsInv(w.disk.jobs[id := j], w.disk.runs[run := r])
  {
    var r, j := NewRun(id, origin, now), RunningJob(w.disk.jobs[id], run, now);
    JobsSurviveNewRun(w.disk.jobs, w.disk.runs, run, r);
    assert JobInv(id, w.disk.jobs[id], w.disk.runs[run := r]);
    JobsSurviveJob(w.disk.jobs, w.disk.runs[run := r], id, j);
  }

  lemma SubmitScheduleGood(w: World, id: JobId, run: RunId, origin: Origin, now: Time)
    requires ScheduleInv(w.disk.jobs, w.history.submitted, now) && id in w.disk.jobs
    requires w.disk.jobs[id].trigger.Interval? <==> w.disk.jobs[id].nextRunAt.Some?
    requires origin == ByInterval ==> w.disk.jobs[id].trigger.Interval?
    requires FarEnough(Submission(run, id, origin, now), w.disk.jobs, w.history.submitted)
    ensures ScheduleInv(w.disk.jobs[id := RunningJob(w.disk.jobs[id], run, now)],
                        w.history.submitted + [Submission(run, id, origin, now)], now)
  {
    var j, s := RunningJob(w.disk.jobs[id], run, now), Submission(run, id, origin, now);
    ScheduleSurvivesJob(w.disk.jobs, w.history.submitted, now, id, j);
    assert Gap(j) == Gap(w.disk.jobs[id]);
    forall i | 0 <= i < |w.history.submitted| ensures Spaced(w.history.submitted[i], s, Gap(j)) {
      assert Spaced(w.history.submitted[i], s, Gap(w.disk.jobs[id]));
    }
    ScheduleGrows(w.disk.jobs[id := j], w.history.submitted, now, s);
  }

  lemma DueSurvivesSubmit(w: World, id: JobId, j: Job, s: Submission)
    requires DueInv(w.mem.due, w.mem.scanned, w.mem.jobs, w.history.submitted, w.clock)
    requires id in w.mem.jobs && j.trigger == w.mem.jobs[id].trigger && (s.origin == ByHand || s.job !in w.mem.due)
    ensures DueInv(w.mem.due, w.mem.scanned, w.mem.jobs[id := j], w.history.submitted + [s], w.clock)
  {
    DueSurvivesJob(w.mem.due, w.mem.scanned, w.mem.jobs, w.history.submitted, w.clock, id, j);
    DueSurvivesSubmission(w.mem.due, w.mem.scanned, w.mem.jobs[id := j], w.history.submitted, w.clock, s);
  }

  lemma SubmitKeepsInv(cfg: Config, w: World, id: JobId, run: RunId, origin: Origin, now: Time)
    requires Inv(cfg, w) && w.up && w.clock == now && id in w.mem.jobs && run !in w.mem.runs
    requires !HasActiveRun(w.mem, id) && |w.mem.futures| < cfg.maxWorkers + cfg.maxPending
    requires origin == ByInterval ==> w.disk.jobs[id].trigger.Interval? && id !in w.mem.due
    requires FarEnough(Submission(run, id, origin, now), w.disk.jobs, w.history.submitted)
    ensures Inv(cfg, Submit(w, id, run, origin, now))
  {
    var r, j, s := NewRun(id, origin, now), RunningJob(w.mem.jobs[id], run, now), Submission(run, id, origin, now);
    assert JobInv(id, w.disk.jobs[id], w.disk.runs);
    NewRunNotInvoked(w.history.invoked, w.disk.runs, run);
    RunsSurviveSubmit(w.mem.runs, w.disk.runs, w.mem.work, w.history.invoked, run, r, Item(Pending, id));
    SubmittedJobGood(w, id, run, origin, now);
    SubmitScheduleGood(w, id, run, origin, now);
    KeysSurviveJob(w.mem.keys, w.mem.jobs, id, j);
    DueSurvivesSubmit(w, id, j, s);
    ActiveSurvivesSubmit(w.mem.runs, w.mem.active, run, r);
    FuturesGrow(w.mem.futures, run);
  }

  lemma StartRunKeepsInv(cfg: Config, w: World, id: JobId, run: RunId, origin: Origin, now: Time, writes: Writes)
    requires Inv(cfg, w) && w.up && w.clock == now && run !in w.mem.runs
    requires origin == ByInterval ==> id in w.mem.jobs && w.disk.jobs[id].trigger.Interval? && id !in w.mem.due
    requires id in w.mem.jobs ==> FarEnough(Submission(run, id, origin, now), w.disk.jobs, w.history.submitted)
    ensures Inv(cfg, StartRun(cfg, w, id, run, origin, now, writes))
  {
    if Refusal(cfg, w.mem, id).None? && writes.run {
      if writes.job {
        SubmitKeepsInv(cfg, w, id, run, origin, now);
      } else {
        BlockKeepsInv(cfg, w, id, run, origin, now, writes);
      }
    }
  }

  // ----- the scheduler -----

  lemma ScanKeepsInv(cfg: Config, w: World, due: seq<JobId>, current: Time, monotonic: Time)
    requires Inv(cfg, w) && w.up && current <= w.clock && IsScan(w.mem, due, current, monotonic)
    ensures Inv(cfg, Scan(w, due, current))
  {
    forall i, k | 0 <= i < |w.history.submitted| && 0 <= k < |due|
                  && w.history.submitted[i].job == due[k] && w.history.submitted[i].origin == ByInterval
      ensures w.history.submitted[i].at + Gap(w.mem.jobs[due[k]]) <= current
    {
      assert SubmissionInv(w.history.submitted[i], w.disk.jobs, w.clock);
      assert IsDue(w.mem, due[k], current, monotonic);
    }
    assert forall i :: 0 <= i < |due| ==> due[i] in w.mem.jobs && w.mem.jobs[due[i]].trigger.Interval? by {
      assert forall i :: 0 <= i < |due| ==> IsDue(w.mem, due[i], current, monotonic);
    }
  }

  /** Taking the head off the scheduler's list leaves a list without it, all of it far enough from any interval run. */
  lemma DueHead(due: seq<JobId>, scanned: Time, jobs: map<JobId, Job>, submitted: seq<Submission>, clock: Time, run: RunId)
    requires DueInv(due, scanned, jobs, submitted, clock) && due != []
    ensures DueInv(due[1..], scanned, jobs, submitted, clock) && due[0] !in due[1..]
    ensures due[0] in jobs && jobs[due[0]].trigger.Interval?
    ensures FarEnough(Submission(run, due[0], ByInterval, clock), jobs, submitted)
  {
    var rest := due[1..];
    forall i, k | 0 <= i < |submitted| && 0 <= k < |rest| && submitted[i].job == rest[k] && submitted[i].origin == ByInterval
      ensures submitted[i].at + Gap(jobs[rest[k]]) <= scanned
    {
      assert rest[k] == due[k + 1];
    }
    var s := Submission(run, due[0], ByInterval, clock);
    forall i | 0 <= i < |submitted| ensures Spaced(submitted[i], s, Gap(jobs[due[0]])) {
      if submitted[i].job == due[0] && submitted[i].origin == ByInterval {
        assert submitted[i].at + Gap(jobs[due[0]]) <= scanned;
      }
    }
  }

  lemma StartDueKeepsInv(cfg: Config, w: World, run: RunId, now: Time, writes: Writes, monotonic: Time)
    requires Inv(cfg, w) && w.up && w.clock == now && w.mem.due != [] && run !in w.mem.runs
    ensures Inv(cfg, StartDue(cfg, w, run, now, writes, monotonic))
  {
    var id, rest := w.mem.due[0], w.mem.due[1..];
    DueHead(w.mem.due, w.mem.scanned, w.mem.jobs, w.history.submitted, w.clock, run);
    var u := w.(mem := w.mem.(due := rest));
    assert Inv(cfg, u);
    StartRunKeepsInv(cfg, u, id, run, ByInterval, now, writes);
    var v := StartRun(cfg, u, id, run, ByInterval, now, writes);
    assert v.up == w.up;
    RetryIrrelevant(cfg, v, v.mem.retryAt[id := monotonic + 60000]);
  }

  lemma RetryIrrelevant(cfg: Config, w: World, retryAt: map<JobId, Time>)
    requires Inv(cfg, w) && w.up
    ensures Inv(cfg, w.(mem := w.mem.(retryAt := retryAt)))
  {
  }

  // ----- crash and restart -----

  lemma CrashKeepsInv(cfg: Config, w: World)
    requires Inv(cfg, w)
    ensures Inv(cfg, Crash(w))
  {
    if w.up {
      forall a, b | a in w.disk.jobs && b in w.disk.jobs && w.disk.jobs[a].key.Some? && w.disk.jobs[a].key == w.disk.jobs[b].key
        ensures a == b
      {
      }
      forall r | r in w.disk.runs
        ensures RunCoherent(w.disk.runs[r]) && Honest(w.disk.runs[r], WasInvoked(w.history.invoked, r))
      {
        assert RunAt(w, r);
      }
    }
  }

  lemma KeyIndexCorrect(jobs: map<JobId, Job>)
    requires KeysUnique(jobs)
    ensures KeysInv(KeyIndex(jobs), jobs)
  {
    forall id | id in jobs && jobs[id].key.Some?
      ensures jobs[id].key.value in KeyIndex(jobs) && KeyIndex(jobs)[jobs[id].key.value] == id
    {
      var held := Holder(jobs, jobs[id].key.value);
      assert held in jobs && jobs[held].key == jobs[id].key;
    }
  }

  /** Reloading a coherent run gives a coherent terminal run, and the journal is no further than the memory. */
  lemma RecoveredGood(r: Run, now: Time, saved: bool, invoked: bool)
    requires RunCoherent(r) && Honest(r, invoked)
    ensures RunInv(Recovered(r, now, saved), RecoveredOnDisk(r, now, saved), None, invoked)
    ensures Recovered(r, now, saved).job == r.job
  {
  }

  lemma JobsSurviveReload(jobs: map<JobId, Job>, runs: map<RunId, Run>, runs': map<RunId, Run>)
    requires JobsInv(jobs, runs) && runs.Keys == runs'.Keys && forall r :: r in runs ==> runs'[r].job == runs[r].job
    ensures JobsInv(jobs, runs')
  {
    forall id | id in jobs ensures JobInv(id, jobs[id], runs') {
      assert JobInv(id, jobs[id], runs);
    }
  }

  /** No definition the manager wrote is dropped by the reload filter. */
  lemma AllLoadable(jobs: map<JobId, Job>, runs: map<RunId, Run>)
    requires JobsInv(jobs, runs)
    ensures LoadableJobs(jobs) == jobs
  {
    forall id | id in jobs ensures Loadable(jobs[id]) {
      assert JobInv(id, jobs[id], runs);
    }
  }

  lemma ReloadKeepsInv(cfg: Config, w: World, now: Time, rewritten: set<RunId>)
    requires Inv(cfg, w) && !w.up
    ensures Inv(cfg, Reload(w, now, rewritten))
  {
    var v := Reload(w, now, rewritten);
    AllLoadable(w.disk.jobs, w.disk.runs);
    KeyIndexCorrect(w.disk.jobs);
    assert v.mem.runs.Keys == w.disk.runs.Keys == v.disk.runs.Keys;
    forall r | r in w.disk.runs
      ensures RunInv(v.mem.runs[r], v.disk.runs[r], None, WasInvoked(w.history.invoked, r)) && v.disk.runs[r].job == w.disk.runs[r].job
    {
      RecoveredGood(w.disk.runs[r], now, r in rewritten, WasInvoked(w.history.invoked, r));
    }
    JobsSurviveReload(w.disk.jobs, w.disk.runs, v.disk.runs);
    assert ActiveInv(v.mem.runs, v.mem.active) by {
      assert forall r :: r in v.mem.runs ==> Terminal(v.mem.runs[r].state) by {
        assert forall r :: r in v.mem.runs ==> RunInv(v.mem.runs[r], v.disk.runs[r], None, WasInvoked(w.history.invoked, r));
      }
    }
  }

  // ----- the loading loops -----

  ghost predicate IndexedBy(keys: map<Key, JobId>, jobs: map<JobId, Job>) {
    && (forall k :: k in keys ==> keys[k] in jobs && jobs[keys[k]].key == Some(k))
    && (forall id :: id in jobs && jobs[id].key.Some? ==> jobs[id].key.value in keys)
  }

  lemma IndexUnique(keys: map<Key, JobId>, jobs: map<JobId, Job>)
    requires KeysUnique(jobs) && IndexedBy(keys, jobs)
    ensures keys == KeyIndex(jobs)
  {
    KeyIndexCorrect(jobs);
    assert forall k :: k in keys ==> k in KeyIndex(jobs) && keys[k] == KeyIndex(jobs)[k];
    assert forall k :: k in KeyIndex(jobs) ==> k in keys;
  }

  /** The run files in `done` have been loaded; the others are as the crash left them. */
  ghost predicate Loaded(runs: map<RunId, Run>, files: map<RunId, Run>, disk: map<RunId, Run>, done: set<RunId>, now: Time, rewritten: set<RunId>) {
    && runs.Keys == done <= disk.Keys == files.Keys
    && (forall r :: r in done ==> runs[r] == Recovered(disk[r], now, r in rewritten))
    && (forall r :: r in disk ==> files[r] == if r in done then RecoveredOnDisk(disk[r], now, r in rewritten) else disk[r])
  }

  lemma LoadedGrows(runs: map<RunId, Run>, files: map<RunId, Run>, disk: map<RunId, Run>, done: set<RunId>, now: Time,
                    rewritten: set<RunId>, run: RunId)
    requires Loaded(runs, files, disk, done, now, rewritten) && run in disk && run !in done
    ensures Loaded(runs[run := Recovered(disk[run], now, run in rewritten)],
                   files[run := RecoveredOnDisk(disk[run], now, run in rewritten)], disk, done + {run}, now, rewritten)
    ensures files[run] == disk[run]
  {
  }

  /** Where keys are unique, every order of the walk gives the same index. */
  lemma {:induction false} WalkIndexes(keys: map<Key, JobId>, files: seq<JobId>, jobs: map<JobId, Job>, loaded: map<JobId, Job>)
    requires IndexedBy(keys, loaded) && forall id :: id in loaded ==> id in LoadableJobs(jobs) && loaded[id] == jobs[id]
    requires forall id :: id in LoadableJobs(jobs) ==> id in loaded || id in files
    ensures IndexedBy(IndexFiles(keys, files, jobs), LoadableJobs(jobs))
    decreases |files|
  {
    if files == [] {
      assert loaded == LoadableJobs(jobs);
    } else {
      var id := files[0];
      if id in LoadableJobs(jobs) {
        WalkIndexes(if jobs[id].key.Some? then keys[jobs[id].key.value := id] else keys, files[1..], jobs, loaded[id := jobs[id]]);
      } else {
        WalkIndexes(keys, files[1..], jobs, loaded);
      }
    }
  }

  lemma WalkGivesKeyIndex(files: seq<JobId>, jobs: map<JobId, Job>)
    requires KeysUnique(LoadableJobs(jobs)) && forall id :: id in files <==> id in jobs
    ensures IndexFiles(map[], files, jobs) == KeyIndex(LoadableJobs(jobs))
  {
    WalkIndexes(map[], files, jobs, map[]);
    IndexUnique(IndexFiles(map[], files, jobs), LoadableJobs(jobs));
  }

  lemma LoadedAll(w: World, keys: map<Key, JobId>, runs: map<RunId, Run>, files: map<RunId, Run>, now: Time, rewritten: set<RunId>)
    requires Loaded(runs, files, w.disk.runs, w.disk.runs.Keys, now, rewritten)
    ensures ReloadWith(w, keys, now, rewritten)
            == World(true, EMPTY_MEMORY.(jobs := LoadableJobs(w.disk.jobs), keys := keys, runs := runs),
                     Disk(w.disk.jobs, files), w.history, w.clock)
  {
    var v := ReloadWith(w, keys, now, rewritten);
    assert v.mem.runs == runs;
    assert v.disk.runs == files;
  }

  // ----- every run -----

  lemma MoveKeepsInv(cfg: Config, w: World, s: Step)
    requires Inv(cfg, w) && Enabled(w, s) && (s.DoDequeue? || s.DoEnd? || s.DoSettle?)
    ensures Inv(cfg, Effect(cfg, w, s))
  {
    assert RunAt(w, s.run);
    PhaseKeepsInv(cfg, w, s.run, if s.DoDequeue? then Dequeued else if s.DoEnd? then Ended(s.end) else Settled);
  }

  lemma WorkerKeepsInv(cfg: Config, w: World, s: Step)
    requires Inv(cfg, w) && Enabled(w, s)
    requires s.DoDequeue? || s.DoPreflight? || s.DoInvoke? || s.DoEnd? || s.DoRecord? || s.DoSettle? || s.DoCallback?
    ensures Inv(cfg, Effect(cfg, w, s))
  {
    match s
    case DoPreflight(run, now, saved) => PreflightKeepsInv(cfg, w, run, now, saved);
    case DoInvoke(run) => InvokeKeepsInv(cfg, w, run);
    case DoRecord(run, now, saved) => RecordKeepsInv(cfg, w, run, now, saved);
    case DoCallback(run) => CallbackKeepsInv(cfg, w, run);
    case _ => MoveKeepsInv(cfg, w, s);
  }

  lemma NextKeepsInv(cfg: Config, w: World, s: Step)
    requires Inv(cfg, w)
    ensures Inv(cfg, Next(cfg, w, s))
  {
    if Enabled(w, s) {
      if Reads(s).Some? { TickKeepsInv(cfg, w, Reads(s).value); }
      EffectKeepsInv(cfg, Clocked(w, s), s);
    }
  }

  lemma EffectKeepsInv(cfg: Config, w: World, s: Step)
    requires Inv(cfg, w) && Enabled(w, s) && (Reads(s).Some? ==> w.clock == Reads(s).value)
    ensures Inv(cfg, Effect(cfg, w, s))
  {
    match s
    case DoCreate(id, key, d, now, saved) => CreateKeepsInv(cfg, w, id, key, d, now, saved);
    case DoSetPaused(id, paused, now, saved) => SetPausedKeepsInv(cfg, w, id, paused, now, saved);
    case DoStartRun(id, run, now, writes) => StartRunKeepsInv(cfg, w, id, run, ByHand, now, writes);
    case DoScan(due, current, monotonic, now) => ScanKeepsInv(cfg, w, due, current, monotonic);
    case DoStartDue(run, now, writes, monotonic) => StartDueKeepsInv(cfg, w, run, now, writes, monotonic);
    case DoCancelRun(run, now, saved) => CancelKeepsInv(cfg, w, run, now, saved);
    case DoClose =>
    case DoCrash => CrashKeepsInv(cfg, w);
    case DoReload(now, rewritten) => ReloadKeepsInv(cfg, w, now, rewritten);
    case _ => WorkerKeepsInv(cfg, w, s);
  }

  lemma {:induction false} RunKeepsInv(cfg: Config, w: World, steps: seq<Step>)
    requires Inv(cfg, w)
    ensures Inv(cfg, Execute(cfg, w, steps))
    decreases |steps|
  {
    if steps != [] {
      NextKeepsInv(cfg, w, steps[0]);
      RunKeepsInv(cfg, Next(cfg, w, steps[0]), steps[1..]);
    }
  }

  lemma InitiallyInv(cfg: Config)
    ensures Inv(cfg, INITIAL)
  {
  }

  /** Every reachable world satisfies the invariant. */
  lemma ReachableInv(cfg: Config, steps: seq<Step>)
    ensures Inv(cfg, Execute(cfg, INITIAL, steps))
  {
    InitiallyInv(cfg);
    RunKeepsInv(cfg, INITIAL, steps);
  }

  /** Some run from an empty journal leads here. */
  ghost predicate Reachable(cfg: Config, w: World) {
    exists steps: seq<Step> :: Execute(cfg, INITIAL, steps) == w
  }

  lemma {:induction false} ExecuteAppends(cfg: Config, w: World, a: seq<Step>, b: seq<Step>)
    ensures Execute(cfg, w, a + b) == Execute(cfg, Execute(cfg, w, a), b)
    decreases |a|
  {
    if a == [] {
      assert a + b == b;
    } else {
      assert (a + b)[1..] == a[1..] + b;
      ExecuteAppends(cfg, Next(cfg, w, a[0]), a[1..], b);
    }
  }

  lemma NextReachable(cfg: Config, w: World, s: Step)
    requires Reachable(cfg, w)
    ensures Reachable(cfg, Next(cfg, w, s))
  {
    var steps :| Execute(cfg, INITIAL, steps) == w;
    ExecuteAppends(cfg, INITIAL, steps, [s]);
    assert [s][1..] == [];
    assert Execute(cfg, INITIAL, steps + [s]) == Next(cfg, w, s);
  }

  /** A first start, without any files, is the restart of a manager that did nothing. */
  lemma EmptyJournalReachable(cfg: Config)
    ensures Reachable(cfg, World(false, EMPTY_MEMORY, Disk(map[], map[]), History([], []), 0))
  {
    assert Execute(cfg, INITIAL, []) == INITIAL;
    NextReachable(cfg, INITIAL, DoCrash);
  }

  lemma ReachableKeepsInv(cfg: Config, w: World)
    requires Reachable(cfg, w)
    ensures Inv(cfg, w)
  {
    var steps :| Execute(cfg, INITIAL, steps) == w;
    ReachableInv(cfg, steps);
  }

  // ----- closing -----

  lemma CloseStepsUnfold(cfg: Config, w: World, order: seq<RunId>, work: map<RunId, Item>, now: Time, saved: set<RunId>)
    requires order != []
    ensures var run := order[0];
            Execute(cfg, w, CloseSteps(order, work, now, saved))
            == Execute(cfg, if run in work && !FutureRunning(work[run].phase) then Next(cfg, w, DoCancelRun(run, now, run in saved)) else w,
                       CloseSteps(order[1..], work, now, saved))
  {
    var run, rest := order[0], CloseSteps(order[1..], work, now, saved);
    if run in work && !FutureRunning(work[run].phase) {
      assert CloseSteps(order, work, now, saved)[1..] == rest;
    } else {
      assert CloseSteps(order, work, now, saved) == rest;
    }
  }

  /** A queued run that closing the manager ends. */
  function ClosedRun(r: Run, now: Time): Run {
    CancelledRun(r.(cancelRequested := true), now)
  }

  ghost function WithClosed(runs: map<RunId, Run>, ended: set<RunId>, now: Time): map<RunId, Run> {
    map r | r in runs :: if r in ended then ClosedRun(runs[r], now) else runs[r]
  }

  /** The files of the ended runs whose write succeeded hold what the memory holds. */
  ghost function WithFiles(files: map<RunId, Run>, runs: map<RunId, Run>, written: set<RunId>): map<RunId, Run> {
    map r | r in files :: if r in written && r in runs then runs[r] else files[r]
  }

  ghost function Waiting(order: seq<RunId>, work: map<RunId, Item>, runs: map<RunId, Run>): set<RunId> {
    set r | r in order && EndedByClose(work, runs, r)
  }

  /** What closing leaves of the tables and the files. */
  ghost predicate ClosedFrom(w: World, v: World, ended: set<RunId>, now: Time, saved: set<RunId>) {
    && v.up == w.up && v.mem == w.mem.(runs := WithClosed(w.mem.runs, ended, now))
    && v.disk == w.disk.(runs := WithFiles(w.disk.runs, v.mem.runs, ended * saved))
    && v.history == w.history
  }

  ghost predicate CanClose(w: World, order: seq<RunId>) {
    && w.up && w.mem.futures == w.mem.work.Keys <= w.mem.runs.Keys == w.disk.runs.Keys
    && (forall k :: 0 <= k < |order| ==> order[k] in w.mem.futures)
    && (forall i, j :: 0 <= i < j < |order| ==> order[i] != order[j])
  }

  lemma OneClosed(runs: map<RunId, Run>, files: map<RunId, Run>, run: RunId, now: Time, saved: set<RunId>)
    requires run in runs && runs.Keys == files.Keys
    ensures WithClosed(runs, {run}, now) == runs[run := ClosedRun(runs[run], now)]
    ensures WithFiles(files, WithClosed(runs, {run}, now), {run} * saved)
            == if run in saved then files[run := ClosedRun(runs[run], now)] else files
  {
  }

  lemma OneCloseStep(cfg: Config, w: World, run: RunId, now: Time, saved: set<RunId>)
    requires w.up && run in w.mem.futures && run in w.mem.work && run in w.mem.runs && w.mem.runs.Keys == w.disk.runs.Keys
    requires w.clock <= now && !FutureRunning(w.mem.work[run].phase)
    ensures var v := Next(cfg, w, DoCancelRun(run, now, run in saved));
            v.clock == now && ClosedFrom(w, v, if Terminal(w.mem.runs[run].state) then {} else {run}, now, saved)
  {
    if Terminal(w.mem.runs[run].state) {
      NothingClosed(w, now, saved);
    } else {
      OneClosed(w.mem.runs, w.disk.runs, run, now, saved);
    }
  }

  lemma ClosedTwice(w: World, u: World, v: World, a: set<RunId>, b: set<RunId>, now: Time, saved: set<RunId>)
    requires ClosedFrom(w, u, a, now, saved) && ClosedFrom(u, v, b, now, saved) && a !! b
    requires w.mem.runs.Keys == w.disk.runs.Keys
    ensures ClosedFrom(w, v, a + b, now, saved)
  {
    assert v.mem.runs == WithClosed(w.mem.runs, a + b, now);
    assert v.disk.runs == WithFiles(w.disk.runs, v.mem.runs, (a + b) * saved);
  }

  lemma NothingClosed(w: World, now: Time, saved: set<RunId>)
    ensures ClosedFrom(w, w, {}, now, saved)
  {
    assert WithClosed(w.mem.runs, {}, now) == w.mem.runs;
    assert WithFiles(w.disk.runs, w.mem.runs, {} * saved) == w.disk.runs;
  }

  /** The cancels of `close` end exactly the live runs that wait in the queue. */
  lemma {:induction false} CloseStepsEndWaiting(cfg: Config, w: World, order: seq<RunId>, now: Time, saved: set<RunId>)
    requires CanClose(w, order) && w.clock <= now
    ensures ClosedFrom(w, Execute(cfg, w, CloseSteps(order, w.mem.work, now, saved)),
                       Waiting(order, w.mem.work, w.mem.runs), now, saved)
    decreases |order|
  {
    if order == [] {
      NothingClosed(w, now, saved);
      assert Waiting(order, w.mem.work, w.mem.runs) == {};
    } else {
      var run, rest := order[0], order[1..];
      var queued := !FutureRunning(w.mem.work[run].phase);
      var u := if queued then Next(cfg, w, DoCancelRun(run, now, run in saved)) else w;
      var ended := if EndedByClose(w.mem.work, w.mem.runs, run) then {run} else {};
      CloseStepsUnfold(cfg, w, order, w.mem.work, now, saved);
      if queued {
        OneCloseStep(cfg, w, run, now, saved);
      } else {
        NothingClosed(w, now, saved);
      }
      CloseStepsEndWaiting(cfg, u, rest, now, saved);
      WaitingSplits(order, w, u, ended, now, saved);
      ClosedTwice(w, u, Execute(cfg, u, CloseSteps(rest, u.mem.work, now, saved)), ended, Waiting(rest, u.mem.work, u.mem.runs), now, saved);
    }
  }

  lemma WaitingSplits(order: seq<RunId>, w: World, u: World, ended: set<RunId>, now: Time, saved: set<RunId>)
    requires order != [] && CanClose(w, order) && ClosedFrom(w, u, ended, now, saved)
    requires ended == if EndedByClose(w.mem.work, w.mem.runs, order[0]) then {order[0]} else {}
    ensures Waiting(order, w.mem.work, w.mem.runs) == ended + Waiting(order[1..], u.mem.work, u.mem.runs)
    ensures ended !! Waiting(order[1..], u.mem.work, u.mem.runs)
  {
    var rest := order[1..];
    assert order[0] !in rest;
    assert forall r :: r in order <==> r == order[0] || r in rest;
    forall r | r in rest ensures EndedByClose(w.mem.work, w.mem.runs, r) <==> EndedByClose(u.mem.work, u.mem.runs, r) {
      assert r in u.mem.runs ==> u.mem.runs[r] == w.mem.runs[r];
    }
  }

  // ----- main results, over every run from an empty journal -----

  /** A worker is between taking a run's lock for preflight and recording how it ended. */
  ghost predicate Executing(w: World, run: RunId) {
    run in w.mem.work && (w.mem.work[run].phase.Ready? || w.mem.work[run].phase.Invoking? || w.mem.work[run].phase.Ended?)
  }

  lemma ExecutingIsLive(cfg: Config, w: World, run: RunId)
    requires Inv(cfg, w) && w.up && run in w.mem.runs && Executing(w, run)
    ensures !Terminal(w.mem.runs[run].state)
  {
    assert RunAt(w, run);
  }

  lemma OneLiveRun(cfg: Config, w: World, a: RunId, b: RunId)
    requires Inv(cfg, w) && a in w.mem.runs && b in w.mem.runs && w.mem.runs[a].job == w.mem.runs[b].job
    ensures var m := w.mem;
            && (!Terminal(m.runs[a].state) ==> m.runs[a].job in m.active && m.active[m.runs[a].job] == a)
            && (!Terminal(m.runs[a].state) && !Terminal(m.runs[b].state) ==> a == b)
            && (Executing(w, a) && Executing(w, b) ==> a == b)
  {
    if Executing(w, a) { ExecutingIsLive(cfg, w, a); }
    if Executing(w, b) { ExecutingIsLive(cfg, w, b); }
  }

  /**
   Forbid concurrency: a job has at most one live run, the one its active entry names, and at most
   one of its runs is with a worker, even while cancelled runs linger in the queue behind it.
   */
  lemma ForbidConcurrency(cfg: Config, steps: seq<Step>, a: RunId, b: RunId)
    requires var m := Execute(cfg, INITIAL, steps).mem; a in m.runs && b in m.runs && m.runs[a].job == m.runs[b].job
    ensures var m := Execute(cfg, INITIAL, steps).mem;
            && (!Terminal(m.runs[a].state) ==> m.runs[a].job in m.active && m.active[m.runs[a].job] == a)
            && (!Terminal(m.runs[a].state) && !Terminal(m.runs[b].state) ==> a == b)
            && (Executing(Execute(cfg, INITIAL, steps), a) && Executing(Execute(cfg, INITIAL, steps), b) ==> a == b)
  {
    ReachableInv(cfg, steps);
    OneLiveRun(cfg, Execute(cfg, INITIAL, steps), a, b);
  }

  /**
   Interval spacing: two interval-triggered submissions of a job are at least its interval apart,
   across missed ticks, pauses, manual runs, failed writes, crashes and restarts.
   */
  lemma IntervalSpacing(cfg: Config, steps: seq<Step>, i: nat, j: nat)
    requires var h := Execute(cfg, INITIAL, steps).history.submitted;
             i < j < |h| && h[i].job == h[j].job && h[i].origin == ByInterval && h[j].origin == ByInterval
    ensures var w := Execute(cfg, INITIAL, steps); var h := w.history.submitted;
            && h[i].job in w.disk.jobs && w.disk.jobs[h[i].job].trigger.Interval?
            && h[j].at - h[i].at >= 1000 * w.disk.jobs[h[i].job].trigger.seconds >= 60000
  {
    var w := Execute(cfg, INITIAL, steps);
    ReachableInv(cfg, steps);
    var h := w.history.submitted;
    assert SubmissionInv(h[i], w.disk.jobs, w.clock);
    assert Spaced(h[i], h[j], Gap(w.disk.jobs[h[i].job]));
    assert JobInv(h[i].job, w.disk.jobs[h[i].job], w.disk.runs);
  }

  /** Every run record, in memory or in the journal, is coherent at every moment, crashed or not. */
  lemma RecordsCoherent(cfg: Config, steps: seq<Step>, run: RunId)
    ensures var w := Execute(cfg, INITIAL, steps);
            && (run in w.mem.runs ==> RunCoherent(w.mem.runs[run]))
            && (run in w.disk.runs ==> RunCoherent(w.disk.runs[run]))
  {
    var w := Execute(cfg, INITIAL, steps);
    ReachableInv(cfg, steps);
    if w.up && run in w.mem.runs { assert RunAt(w, run); }
  }

  /** A job's last run exists and is a run of that job, in the journal whenever a crash strikes, and in memory. */
  lemma LastRunResolves(cfg: Config, steps: seq<Step>, id: JobId)
    ensures var w := Execute(cfg, INITIAL, steps);
            && (id in w.disk.jobs && w.disk.jobs[id].lastRun.Some? ==>
                  w.disk.jobs[id].lastRun.value in w.disk.runs && w.disk.runs[w.disk.jobs[id].lastRun.value].job == id)
            && (id in w.mem.jobs && w.mem.jobs[id].lastRun.Some? ==>
                  w.mem.jobs[id].lastRun.value in w.mem.runs && w.mem.runs[w.mem.jobs[id].lastRun.value].job == id)
  {
    var w := Execute(cfg, INITIAL, steps);
    ReachableInv(cfg, steps);
    if id in w.disk.jobs {
      assert JobInv(id, w.disk.jobs[id], w.disk.runs);
      if w.up && w.disk.jobs[id].lastRun.Some? { assert RunAt(w, w.disk.jobs[id].lastRun.value); }
    }
  }

  /** No run has its runner called twice, in one lifetime or after any number of restarts. */
  lemma NoRunReplayed(cfg: Config, steps: seq<Step>, i: nat, j: nat)
    requires i < j < |Execute(cfg, INITIAL, steps).history.invoked|
    ensures Execute(cfg, INITIAL, steps).history.invoked[i] != Execute(cfg, INITIAL, steps).history.invoked[j]
  {
    ReachableInv(cfg, steps);
  }

  /** The futures table is exactly what the pool still holds, and never exceeds the capacity. */
  lemma QueueAccounting(cfg: Config, steps: seq<Step>)
    ensures var m := Execute(cfg, INITIAL, steps).mem;
            m.futures == m.work.Keys && |m.futures| <= cfg.maxWorkers + cfg.maxPending
  {
    ReachableInv(cfg, steps);
  }

  /**
   Closing, whatever writes fail: the manager is closed, exactly the live runs still waiting in the queue are
   cancelled in memory, and in the journal where the write succeeds; every other record stays as it was.
   */
  lemma ClosingEndsWaiting(cfg: Config, steps: seq<Step>, order: seq<RunId>, now: Time, saved: set<RunId>)
    requires var w := Execute(cfg, INITIAL, steps);
             && w.up && w.clock <= now
             && (forall r :: r in order <==> r in w.mem.futures)
             && (forall i, j :: 0 <= i < j < |order| ==> order[i] != order[j])
    ensures var w := Execute(cfg, INITIAL, steps);
            var v := Execute(cfg, w, [DoClose] + CloseSteps(order, w.mem.work, now, saved));
            && v.mem.closed
            && ClosedFrom(w.(mem := w.mem.(closed := true)), v, Waiting(order, w.mem.work, w.mem.runs), now, saved)
  {
    var w := Execute(cfg, INITIAL, steps);
    ReachableInv(cfg, steps);
    ClosingFrom(cfg, w, order, now, saved);
  }

  lemma CloseFirst(cfg: Config, w: World, cancels: seq<Step>)
    requires w.up
    ensures Execute(cfg, w, [DoClose] + cancels) == Execute(cfg, w.(mem := w.mem.(closed := true)), cancels)
  {
    assert ([DoClose] + cancels)[1..] == cancels;
  }

  lemma CanCloseNow(cfg: Config, w: World, order: seq<RunId>)
    requires Inv(cfg, w) && w.up && forall r :: r in order <==> r in w.mem.futures
    requires forall i, j :: 0 <= i < j < |order| ==> order[i] != order[j]
    ensures CanClose(w.(mem := w.mem.(closed := true)), order)
  {
  }

  lemma ClosingFrom(cfg: Config, w: World, order: seq<RunId>, now: Time, saved: set<RunId>)
    requires Inv(cfg, w) && w.up && w.clock <= now
    requires forall r :: r in order <==> r in w.mem.futures
    requires forall i, j :: 0 <= i < j < |order| ==> order[i] != order[j]
    ensures var v := Execute(cfg, w, [DoClose] + CloseSteps(order, w.mem.work, now, saved));
            && v.mem.closed
            && ClosedFrom(w.(mem := w.mem.(closed := true)), v, Waiting(order, w.mem.work, w.mem.runs), now, saved)
  {
    var u := w.(mem := w.mem.(closed := true));
    var cancels := CloseSteps(order, w.mem.work, now, saved);
    CloseFirst(cfg, w, cancels);
    CanCloseNow(cfg, w, order);
    CloseStepsEndWaiting(cfg, u, order, now, saved);
  }

  /**
   When a "cancelled" run really ran. A runner may itself report "cancelled", so cancellation alone
   does not mean the runner was not called; the start time of the record tells the two apart.
   */
  lemma CancelledRanIffStarted(cfg: Config, steps: seq<Step>, run: RunId)
    requires var w := Execute(cfg, INITIAL, steps); run in w.mem.runs && w.mem.runs[run].state == Cancelled
    ensures var w := Execute(cfg, INITIAL, steps);
            run in w.history.invoked <==> w.mem.runs[run].startedAt.Some?
  {
    var w := Execute(cfg, INITIAL, steps);
    ReachableInv(cfg, steps);
    assert w.up;
    assert RunAt(w, run);
  }

  /** A run that its own runner reports as cancelled. */
  function ReportsCancelled(job: JobId, run: RunId, d: Definition): seq<Step> {
    [DoCreate(job, None, d, 0, true), DoStartRun(job, run, 0, Writes(true, true, true, 0)), DoDequeue(run), DoPreflight(run, 0, true),
     DoInvoke(run), DoEnd(run, Returned(OpsResult(true, Some(Named(Cancelled)), None, None))), DoRecord(run, 0, true)]
  }

  /** The run is in a worker's hands at this stage, and nobody has cancelled it. */
  ghost predicate Stage(w: World, run: RunId, p: Phase) {
    w.up && w.clock == 0 && InPhase(w.mem, run, p) && !w.mem.runs[run].cancelRequested
  }

  ghost predicate ShownCancelled(w: World, run: RunId) {
    run in w.mem.runs && w.mem.runs[run].state == Cancelled && run in w.history.invoked
  }

  lemma RecordedCancelled(cfg: Config, w: World, run: RunId, end: RunnerEnd, steps: seq<Step>)
    requires Stage(w, run, Ended(end)) && end.Returned? && ResolvedOutcome(end.result) == Cancelled && run in w.history.invoked
    requires |steps| == 1 && steps[0] == DoRecord(run, 0, true)
    ensures ShownCancelled(Execute(cfg, w, steps), run)
  {
    assert Execute(cfg, w, steps) == Next(cfg, w, steps[0]);
  }

  lemma EndedCancelled(cfg: Config, w: World, run: RunId, end: RunnerEnd, steps: seq<Step>)
    requires Stage(w, run, Invoking) && end.Returned? && ResolvedOutcome(end.result) == Cancelled && run in w.history.invoked
    requires |steps| == 2 && steps[0] == DoEnd(run, end) && steps[1] == DoRecord(run, 0, true)
    ensures ShownCancelled(Execute(cfg, w, steps), run)
  {
    RecordedCancelled(cfg, Next(cfg, w, steps[0]), run, end, steps[1..]);
  }

  lemma InvokedCancelled(cfg: Config, w: World, run: RunId, end: RunnerEnd, steps: seq<Step>)
    requires Stage(w, run, Ready) && end.Returned? && ResolvedOutcome(end.result) == Cancelled
    requires |steps| == 3 && steps[0] == DoInvoke(run) && steps[1] == DoEnd(run, end) && steps[2] == DoRecord(run, 0, true)
    ensures ShownCancelled(Execute(cfg, w, steps), run)
  {
    EndedCancelled(cfg, Next(cfg, w, steps[0]), run, end, steps[1..]);
  }

  lemma DequeuedCancelled(cfg: Config, w: World, run: RunId, end: RunnerEnd, steps: seq<Step>)
    requires Stage(w, run, Dequeued) && end.Returned? && ResolvedOutcome(end.result) == Cancelled
    requires |steps| == 4 && steps[0] == DoPreflight(run, 0, true) && steps[1] == DoInvoke(run) && steps[2] == DoEnd(run, end)
             && steps[3] == DoRecord(run, 0, true)
    ensures ShownCancelled(Execute(cfg, w, steps), run)
  {
    InvokedCancelled(cfg, Next(cfg, w, steps[0]), run, end, steps[1..]);
  }

  lemma PendingCancelled(cfg: Config, w: World, run: RunId, end: RunnerEnd, steps: seq<Step>)
    requires Stage(w, run, Pending) && end.Returned? && ResolvedOutcome(end.result) == Cancelled
    requires |steps| == 5 && steps[0] == DoDequeue(run) && steps[1] == DoPreflight(run, 0, true) && steps[2] == DoInvoke(run)
             && steps[3] == DoEnd(run, end) && steps[4] == DoRecord(run, 0, true)
    ensures ShownCancelled(Execute(cfg, w, steps), run)
  {
    DequeuedCancelled(cfg, Next(cfg, w, steps[0]), run, end, steps[1..]);
  }

  ghost predicate Idle(w: World, job: JobId) {
    && w.up && w.clock == 0 && !w.mem.closed && w.mem.futures == {} && w.mem.active == map[] && w.mem.runs == map[]
    && job in w.mem.jobs && w.mem.jobs[job].state == Active
  }

  lemma FirstJob(cfg: Config, job: JobId, d: Definition)
    requires AcceptableDefinition(d)
    ensures Idle(Next(cfg, INITIAL, DoCreate(job, None, d, 0, true)), job)
  {
  }

  lemma FirstRun(cfg: Config, w: World, job: JobId, run: RunId)
    requires Idle(w, job) && cfg.maxWorkers + cfg.maxPending > 0
    ensures Stage(Next(cfg, w, DoStartRun(job, run, 0, Writes(true, true, true, 0))), run, Pending)
  {
  }

  lemma TwoSteps(cfg: Config, w: World, steps: seq<Step>)
    requires 2 <= |steps|
    ensures Execute(cfg, w, steps) == Execute(cfg, Next(cfg, Next(cfg, w, steps[0]), steps[1]), steps[2..])
  {
    assert steps[1..][1..] == steps[2..];
  }

  lemma ScriptCancels(cfg: Config, w: World, job: JobId, run: RunId, end: RunnerEnd, steps: seq<Step>)
    requires |steps| == 7 && Idle(Next(cfg, w, steps[0]), job) && cfg.maxWorkers + cfg.maxPending > 0
    requires end.Returned? && ResolvedOutcome(end.result) == Cancelled
    requires steps[1] == DoStartRun(job, run, 0, Writes(true, true, true, 0)) && steps[2] == DoDequeue(run)
    requires steps[3] == DoPreflight(run, 0, true) && steps[4] == DoInvoke(run) && steps[5] == DoEnd(run, end)
    requires steps[6] == DoRecord(run, 0, true)
    ensures ShownCancelled(Execute(cfg, w, steps), run)
  {
    var u := Next(cfg, w, steps[0]);
    TwoSteps(cfg, w, steps);
    FirstRun(cfg, u, job, run);
    PendingCancelled(cfg, Next(cfg, u, steps[1]), run, end, steps[2..]);
  }

  /** Such a run is shown as cancelled although its runner was called. */
  lemma CancelledRunMayHaveRun(cfg: Config, job: JobId, run: RunId, d: Definition)
    requires AcceptableDefinition(d) && cfg.maxWorkers + cfg.maxPending > 0
    ensures ShownCancelled(Execute(cfg, INITIAL, ReportsCancelled(job, run, d)), run)
  {
    FirstJob(cfg, job, d);
    ScriptCancels(cfg, INITIAL, job, run, Returned(OpsResult(true, Some(Named(Cancelled)), None, None)), ReportsCancelled(job, run, d));
  }

  /** Where the schedule of a job stands: in memory while the manager is up, else in the journal. */
  ghost function NextRunAt(w: World, id: JobId): Option<Time> {
    if w.up then (if id in w.mem.jobs then w.mem.jobs[id].nextRunAt else None)
    else if id in w.disk.jobs then w.disk.jobs[id].nextRunAt else None
  }

  ghost predicate NotEarlier(a: Option<Time>, b: Option<Time>) {
    a.Some? ==> b.Some? && a.value <= b.value
  }

  lemma RunningJobNotEarlier(cfg: Config, w: World, id: JobId, run: RunId, origin: Origin, now: Time, writes: Writes, x: JobId)
    requires w.up && (id in w.mem.jobs && w.mem.jobs[id].nextRunAt.Some? ==>
               w.mem.jobs[id].trigger.Interval? && w.mem.jobs[id].nextRunAt.value <= now + Gap(w.mem.jobs[id]))
    ensures NotEarlier(NextRunAt(w, x), NextRunAt(StartRun(cfg, w, id, run, origin, now, writes), x))
  {
    if Refusal(cfg, w.mem, id).None? && writes.run && writes.job {
      assert StartRun(cfg, w, id, run, origin, now, writes).mem.jobs == w.mem.jobs[id := RunningJob(w.mem.jobs[id], run, now)];
    }
  }

  lemma PausedJobNotEarlier(w: World, id: JobId, paused: bool, now: Time, saved: bool, x: JobId)
    requires w.up && (id in w.mem.jobs && w.mem.jobs[id].nextRunAt.Some? ==> w.mem.jobs[id].nextRunAt.value <= now + Gap(w.mem.jobs[id]))
    ensures NotEarlier(NextRunAt(w, x), NextRunAt(SetPaused(w, id, paused, now, saved), x))
  {
  }

  lemma WorkersKeepSchedule(cfg: Config, w: World, s: Step, id: JobId)
    requires Enabled(w, s) && (s.DoPreflight? || s.DoRecord? || s.DoCancelRun?)
    ensures NotEarlier(NextRunAt(w, id), NextRunAt(Effect(cfg, w, s), id))
  {
  }

  lemma PoolKeepsSchedule(cfg: Config, w: World, s: Step, id: JobId)
    requires Enabled(w, s) && (s.DoDequeue? || s.DoInvoke? || s.DoEnd? || s.DoSettle? || s.DoCallback?)
    ensures NextRunAt(Effect(cfg, w, s), id) == NextRunAt(w, id)
  {
  }

  lemma OtherStepsKeepSchedule(cfg: Config, w: World, s: Step, id: JobId)
    requires Enabled(w, s) && !s.DoSetPaused? && !s.DoStartRun? && !s.DoStartDue? && !s.DoReload? && !s.DoCrash?
    ensures NotEarlier(NextRunAt(w, id), NextRunAt(Effect(cfg, w, s), id))
  {
    if s.DoPreflight? || s.DoRecord? || s.DoCancelRun? {
      WorkersKeepSchedule(cfg, w, s, id);
    } else if s.DoDequeue? || s.DoInvoke? || s.DoEnd? || s.DoSettle? || s.DoCallback? {
      PoolKeepsSchedule(cfg, w, s, id);
    } else {
      TablesKeepSchedule(cfg, w, s, id);
    }
  }

  lemma TablesKeepSchedule(cfg: Config, w: World, s: Step, id: JobId)
    requires Enabled(w, s) && (s.DoCreate? || s.DoScan? || s.DoClose?)
    ensures NotEarlier(NextRunAt(w, id), NextRunAt(Effect(cfg, w, s), id))
  {
  }

  /** What the invariant says of one job's schedule. */
  lemma ScheduleAhead(cfg: Config, w: World, id: JobId)
    requires Inv(cfg, w) && w.up && id in w.mem.jobs && w.mem.jobs[id].nextRunAt.Some?
    ensures w.mem.jobs[id].trigger.Interval? && w.mem.jobs[id].nextRunAt.value <= w.clock + Gap(w.mem.jobs[id])
  {
    assert JobInv(id, w.disk.jobs[id], w.disk.runs);
  }

  lemma JobStepNotEarlier(cfg: Config, w: World, s: Step, id: JobId)
    requires Inv(cfg, w) && Enabled(w, s) && Reads(s) == Some(w.clock) && (s.DoSetPaused? || s.DoStartRun?)
    ensures NotEarlier(NextRunAt(w, id), NextRunAt(Effect(cfg, w, s), id))
  {
    if s.id in w.mem.jobs && w.mem.jobs[s.id].nextRunAt.Some? { ScheduleAhead(cfg, w, s.id); }
    match s
    case DoSetPaused(x, paused, now, saved) => PausedJobNotEarlier(w, x, paused, now, saved, id);
    case DoStartRun(x, run, now, writes) => RunningJobNotEarlier(cfg, w, x, run, ByHand, now, writes, id);
  }

  /** Starting a due job schedules as starting a run of it does. */
  lemma StartDueSchedules(cfg: Config, w: World, run: RunId, now: Time, writes: Writes, monotonic: Time, id: JobId)
    requires w.up && w.mem.due != []
    ensures var u := w.(mem := w.mem.(due := w.mem.due[1..]));
            && NextRunAt(u, id) == NextRunAt(w, id)
            && NextRunAt(StartDue(cfg, w, run, now, writes, monotonic), id)
               == NextRunAt(StartRun(cfg, u, w.mem.due[0], run, ByInterval, now, writes), id)
  {
  }

  lemma DueAhead(cfg: Config, w: World, id: JobId)
    requires Inv(cfg, w) && w.up
    ensures id in w.mem.jobs && w.mem.jobs[id].nextRunAt.Some? ==>
              w.mem.jobs[id].trigger.Interval? && w.mem.jobs[id].nextRunAt.value <= w.clock + Gap(w.mem.jobs[id])
  {
    if id in w.mem.jobs && w.mem.jobs[id].nextRunAt.Some? { ScheduleAhead(cfg, w, id); }
  }

  lemma StartDueNotEarlier(cfg: Config, w: World, run: RunId, now: Time, writes: Writes, monotonic: Time, id: JobId)
    requires Inv(cfg, w) && w.up && w.clock == now && w.mem.due != []
    ensures NotEarlier(NextRunAt(w, id), NextRunAt(StartDue(cfg, w, run, now, writes, monotonic), id))
  {
    DueAhead(cfg, w, w.mem.due[0]);
    StartDueSchedules(cfg, w, run, now, writes, monotonic, id);
    RunningJobNotEarlier(cfg, w.(mem := w.mem.(due := w.mem.due[1..])), w.mem.due[0], run, ByInterval, now, writes, id);
  }

  lemma EffectNotEarlier(cfg: Config, w: World, s: Step, id: JobId)
    requires Inv(cfg, w) && Enabled(w, s) && (Reads(s).Some? ==> w.clock == Reads(s).value)
    ensures NotEarlier(NextRunAt(w, id), NextRunAt(Effect(cfg, w, s), id))
  {
    if s.DoSetPaused? || s.DoStartRun? {
      JobStepNotEarlier(cfg, w, s, id);
    } else if s.DoStartDue? {
      StartDueNotEarlier(cfg, w, s.run, s.now, s.writes, s.monotonic, id);
    } else if s.DoReload? {
      AllLoadable(w.disk.jobs, w.disk.runs);
    } else if !s.DoCrash? {
      OtherStepsKeepSchedule(cfg, w, s, id);
    }
  }

  /** A job's schedule never moves back, whatever happens, crashes and restarts included. */
  lemma {:induction false} ScheduleNeverMovesBack(cfg: Config, w: World, steps: seq<Step>, id: JobId)
    requires Inv(cfg, w)
    ensures NotEarlier(NextRunAt(w, id), NextRunAt(Execute(cfg, w, steps), id))
    decreases |steps|
  {
    if steps != [] {
      var s := steps[0];
      NextKeepsInv(cfg, w, s);
      if Enabled(w, s) {
        if Reads(s).Some? { TickKeepsInv(cfg, w, Reads(s).value); }
        EffectNotEarlier(cfg, Clocked(w, s), s, id);
        assert NextRunAt(Clocked(w, s), id) == NextRunAt(w, id);
      }
      ScheduleNeverMovesBack(cfg, Next(cfg, w, s), steps[1..], id);
    }
  }

  /** No job and no run is ever lost: a restart shows every job the journal holds, and every run, ended. */
  lemma RestartKeepsEverything(cfg: Config, steps: seq<Step>, now: Time, rewritten: set<RunId>)
    requires Execute(cfg, INITIAL, steps).up
    ensures var w := Execute(cfg, INITIAL, steps); var v := Reload(Crash(w), now, rewritten);
            && v.mem.jobs == w.mem.jobs
            && v.mem.keys == w.mem.keys
            && v.mem.runs.Keys == w.mem.runs.Keys
            && (forall r :: r in v.mem.runs ==>
                  if Terminal(w.disk.runs[r].state) then v.mem.runs[r] == w.disk.runs[r] && v.mem.runs[r].state == w.mem.runs[r].state
                  else v.mem.runs[r].state == Interrupted)
  {
    var w := Execute(cfg, INITIAL, steps);
    ReachableInv(cfg, steps);
    CrashKeepsInv(cfg, w);
    AllLoadable(w.disk.jobs, w.disk.runs);
    KeyIndexCorrect(w.disk.jobs);
    KeysAgree(w.mem.keys, KeyIndex(w.disk.jobs), w.mem.jobs);
    forall r | r in w.mem.runs ensures r in w.disk.runs && (Terminal(w.disk.runs[r].state) ==> w.disk.runs[r].state == w.mem.runs[r].state) {
      assert RunAt(w, r);
    }
  }

  lemma KeysAgree(a: map<Key, JobId>, b: map<Key, JobId>, jobs: map<JobId, Job>)
    requires KeysInv(a, jobs) && KeysInv(b, jobs)
    ensures a == b
  {
    assert forall k :: k in a ==> k in b && a[k] == b[k];
    assert forall k :: k in b ==> k in a;
  }
}
