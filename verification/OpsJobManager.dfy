/**
 The operations job manager as an object. Each method that requires `Valid()` is one critical section of the
 source's lock, or one move of its thread pool, and is proved to be a step of OpsJobSpec (`Close`, to be a run of
 steps) from one reachable state to another, so the results of OpsJobProofs and OpsJobProgress hold of every
 sequence of these calls. The other methods are parts of those sections; the statements of a section that are
 run once its time is known are in the method of that name with `Locked`.
 */
module OpsJobManager {
  import opened Common
  import opened ThreadPool
  import opened OpsJobSpec
  import OpsJobProofs

  class OpsJobManager {
    const cfg: Config
    var up: bool
    var closed: bool
    var jobs: map<JobId, Job>
    var runs: map<RunId, Run>
    var keys: map<Key, JobId>
    var activeRuns: map<JobId, RunId>
    var scheduleRetryAt: map<JobId, Time>
    var futures: set<RunId>
    var executor: map<RunId, Item>       // the thread pool's view of the submitted items
    var due: seq<JobId>                  // the local list of the scheduler's `tick`
    var scanned: Time
    var jobFiles: map<JobId, Job>        // operations/jobs
    var runFiles: map<RunId, Run>        // operations/runs
    ghost var invoked: seq<RunId>
    ghost var submitted: seq<Submission>
    ghost var clock: Time

    ghost function Tables(): Memory
      reads this
    {
      Memory(closed, jobs, runs, keys, activeRuns, scheduleRetryAt, futures, executor, due, scanned)
    }

    /** The abstract state the specification speaks of. */
    ghost function View(): World
      reads this
    {
      World(up, Tables(), Disk(jobFiles, runFiles), History(invoked, submitted), clock)
    }

    ghost predicate Valid()
      reads this
    {
      up && OpsJobProofs.Reachable(cfg, View())
    }

    /** The tables refer to each other. */
    ghost predicate Linked()
      reads this
    {
      && (forall k :: k in keys ==> keys[k] in jobs)
      && (forall j :: j in activeRuns ==> activeRuns[j] in runs)
      && futures == executor.Keys <= runs.Keys
    }

    lemma ValidGivesLinked()
      requires Valid()
      ensures Linked()
    {
      OpsJobProofs.ReachableKeepsInv(cfg, View());
    }

    // ----- __init__ and _load_journal -----

    /**
     `__init__` over a state directory, whose files are walked in name order. `rewritten` are the interrupted runs
     whose rewrite reaches the disk. Over the files that a manager left behind it is the restart step.
     */
    constructor (cfg: Config, jobOrder: seq<JobId>, runOrder: seq<RunId>, jobFiles: map<JobId, Job>, runFiles: map<RunId, Run>,
                 ghost history: History, ghost clock: Time, now: Time, rewritten: set<RunId>)
      requires clock <= now
      requires forall id :: id in jobOrder <==> id in jobFiles
      requires forall r :: r in runOrder <==> r in runFiles
      requires forall i, j :: 0 <= i < j < |runOrder| ==> runOrder[i] != runOrder[j]
      ensures this.cfg == cfg
      ensures var down := World(false, EMPTY_MEMORY, Disk(jobFiles, runFiles), history, clock);
              && View() == ReloadWith(down.(clock := now), IndexFiles(map[], jobOrder, jobFiles), now, rewritten)
              && (OpsJobProofs.Reachable(cfg, down) ==> Valid() && View() == Next(cfg, down, DoReload(now, rewritten)))
    {
      this.cfg := cfg;
      this.jobFiles, this.runFiles := jobFiles, runFiles;
      this.invoked, this.submitted, this.clock := history.invoked, history.submitted, now;
      up, closed, jobs, runs, keys, activeRuns, scheduleRetryAt, futures, executor, due, scanned :=
        true, false, map[], map[], map[], map[], map[], {}, map[], [], 0;
      new;
      LoadJournal(jobOrder, runOrder, now, rewritten);
      ghost var down := World(false, EMPTY_MEMORY, Disk(jobFiles, runFiles), history, clock);
      if OpsJobProofs.Reachable(cfg, down) {
        OpsJobProofs.ReachableKeepsInv(cfg, down);
        OpsJobProofs.AllLoadable(down.disk.jobs, down.disk.runs);
        OpsJobProofs.WalkGivesKeyIndex(jobOrder, jobFiles);
        OpsJobProofs.NextReachable(cfg, down, DoReload(now, rewritten));
      }
    }

    method LoadJournal(jobOrder: seq<JobId>, runOrder: seq<RunId>, now: Time, rewritten: set<RunId>)
      requires up && Tables() == EMPTY_MEMORY
      requires forall id :: id in jobOrder <==> id in jobFiles
      requires forall r :: r in runOrder <==> r in runFiles
      requires forall i, j :: 0 <= i < j < |runOrder| ==> runOrder[i] != runOrder[j]
      modifies this`jobs, this`keys, this`runs, this`runFiles
      ensures View() == ReloadWith(old(View()).(up := false), IndexFiles(map[], jobOrder, jobFiles), now, rewritten)
    {
      ghost var before := View().(up := false);
      LoadJobs(jobOrder);
      LoadRuns(runOrder, now, rewritten);
      OpsJobProofs.LoadedAll(before, keys, runs, runFiles, now, rewritten);
    }

    /** The acceptable definitions, and their keys in the order of the walk. */
    method LoadJobs(order: seq<JobId>)
      requires jobs == map[] && keys == map[]
      requires forall id :: id in order <==> id in jobFiles
      modifies this`jobs, this`keys
      ensures jobs == LoadableJobs(jobFiles)
      ensures keys == IndexFiles(map[], order, jobFiles)
    {
      assert order[0..] == order;
      for i := 0 to |order|
        invariant forall id :: id in jobs ==> id in jobFiles && Loadable(jobFiles[id]) && jobs[id] == jobFiles[id]
        invariant forall k :: 0 <= k < i && Loadable(jobFiles[order[k]]) ==> order[k] in jobs
        invariant IndexFiles(keys, order[i..], jobFiles) == IndexFiles(map[], order, jobFiles)
      {
        var id := order[i];
        assert order[i..][1..] == order[i + 1..];
        var job := jobFiles[id];
        if Loadable(job) {
          jobs := jobs[id := job];
          if job.key.Some? {
            keys := keys[job.key.value := id];
          }
        }
      }
      assert order[|order|..] == [];
      forall id | id in LoadableJobs(jobFiles) ensures id in jobs {
        assert id in order;
      }
    }

    method LoadRun(run: RunId, now: Time, saved: bool)
      requires run in runFiles
      modifies this`runs, this`runFiles
      ensures runs == old(runs)[run := Recovered(old(runFiles)[run], now, saved)]
      ensures runFiles == old(runFiles)[run := RecoveredOnDisk(old(runFiles)[run], now, saved)]
    {
      var record := runFiles[run];
      if !Terminal(record.state) {
        var attempt := record.attempt;
        record := record.(state := Interrupted, phase := NeedsAttention, outcome := Some(Interrupted),
                          finishedAt := Some(now), finding := Some(UncertainCommit));
        if !Terminal(attempt.state) {
          record := record.(attempt := attempt.(state := Interrupted, finishedAt := Some(now), failure := Some(UncertainCommit)));
        }
        if saved {
          runFiles := runFiles[run := record];
        } else {
          record := record.(journalError := true);
        }
      }
      runs := runs[run := record];
      assert runFiles[run := runFiles[run]] == runFiles;
    }

    /** One round of the loading loop. */
    method LoadNextRun(run: RunId, now: Time, rewritten: set<RunId>, ghost disk: map<RunId, Run>, ghost done: set<RunId>)
      requires OpsJobProofs.Loaded(runs, runFiles, disk, done, now, rewritten) && run in disk && run !in done
      modifies this`runs, this`runFiles
      ensures OpsJobProofs.Loaded(runs, runFiles, disk, done + {run}, now, rewritten)
    {
      OpsJobProofs.LoadedGrows(runs, runFiles, disk, done, now, rewritten, run);
      LoadRun(run, now, run in rewritten);
    }

    method LoadRuns(order: seq<RunId>, now: Time, rewritten: set<RunId>)
      requires runs == map[]
      requires forall r :: r in order <==> r in runFiles
      requires forall i, j :: 0 <= i < j < |order| ==> order[i] != order[j]
      modifies this`runs, this`runFiles
      ensures OpsJobProofs.Loaded(runs, runFiles, old(runFiles), old(runFiles).Keys, now, rewritten)
    {
      ghost var disk := runFiles;
      ghost var done: set<RunId> := {};
      for i := 0 to |order|
        invariant forall k :: 0 <= k < i ==> order[k] in done
        invariant forall k :: i <= k < |order| ==> order[k] !in done && order[k] in disk
        invariant OpsJobProofs.Loaded(runs, runFiles, disk, done, now, rewritten)
      {
        var run := order[i];
        LoadNextRun(run, now, rewritten, disk, done);
        done := done + {run};
      }
      assert done == disk.Keys;
    }

    // ----- definitions -----

    method Create(id: JobId, key: Option<Key>, definition: Definition, now: Time, saved: bool) returns (reply: Reply)
      requires Valid() && clock <= now && id !in jobs
      modifies this`jobs, this`keys, this`jobFiles, this`clock
      ensures Valid() && View() == Next(cfg, old(View()), DoCreate(id, key, definition, now, saved))
      ensures reply == CreateReply(old(Tables()), id, key, definition, saved)
    {
      OpsJobProofs.NextReachable(cfg, View(), DoCreate(id, key, definition, now, saved));
      ValidGivesLinked();
      clock := now;
      reply := CreateLocked(id, key, definition, now, saved);
    }

    method CreateLocked(id: JobId, key: Option<Key>, definition: Definition, now: Time, saved: bool) returns (reply: Reply)
      requires Linked() && id !in jobs
      modifies this`jobs, this`keys, this`jobFiles
      ensures View() == OpsJobSpec.Create(old(View()), id, key, definition, now, saved)
      ensures reply == CreateReply(old(Tables()), id, key, definition, saved)
    {
      if |definition.title| == 0 || |definition.title| > 120 { return Conflict; }
      if |definition.device| == 0 || |definition.device| > 128 { return Conflict; }
      if definition.interval.Some? && !(60 <= definition.interval.value <= 604800) { return Conflict; }
      if closed { return Conflict; }
      if key.Some? && key.value in keys {
        var existing := keys[key.value];
        if jobs[existing].definition != definition { return Conflict; }
        return JobReply(existing, true);
      }
      var job := NewJob(key, definition, now);
      if !saved { return StorageError; }
      jobFiles := jobFiles[id := job];
      jobs := jobs[id := job];
      if key.Some? {
        keys := keys[key.value := id];
      }
      return JobReply(id, false);
    }

    method SetPaused(id: JobId, paused: bool, now: Time, saved: bool) returns (reply: Reply)
      requires Valid() && clock <= now
      modifies this`jobs, this`jobFiles, this`scheduleRetryAt, this`clock
      ensures Valid() && View() == Next(cfg, old(View()), DoSetPaused(id, paused, now, saved))
      ensures reply == SetPausedReply(old(Tables()), id, saved)
    {
      OpsJobProofs.NextReachable(cfg, View(), DoSetPaused(id, paused, now, saved));
      clock := now;
      reply := SetPausedLocked(id, paused, now, saved);
    }

    method SetPausedLocked(id: JobId, paused: bool, now: Time, saved: bool) returns (reply: Reply)
      requires clock <= now
      modifies this`jobs, this`jobFiles, this`scheduleRetryAt
      ensures View() == OpsJobSpec.SetPaused(old(View()), id, paused, now, saved)
      ensures reply == SetPausedReply(old(Tables()), id, saved)
    {
      if closed { return Conflict; }
      if id !in jobs { return NotFound; }
      if jobs[id].state == Retired { return Conflict; }
      var updated := jobs[id].(state := if paused then Paused else Active, updatedAt := now);
      if !paused && updated.trigger.Interval? {
        updated := updated.(nextRunAt := Some(now + 1000 * updated.trigger.seconds));
      }
      if !saved { return StorageError; }
      jobFiles := jobFiles[id := updated];
      jobs := jobs[id := updated];
      scheduleRetryAt := scheduleRetryAt - {id};
      return JobReply(id, false);
    }

    // ----- runs -----

    /** `_active_run_locked` */
    method ActiveRun(id: JobId) returns (run: Option<RunId>)
      requires Linked()
      ensures run == if HasActiveRun(Tables(), id) then Some(activeRuns[id]) else None
    {
      if id in activeRuns {
        var candidate := activeRuns[id];
        if !Terminal(runs[candidate].state) {
          return Some(candidate);
        }
      }
      return None;
    }

    /** The checks `start_run` makes before it writes anything. */
    method Refuse(id: JobId) returns (reply: Option<Reply>)
      requires Linked()
      ensures reply == Refusal(cfg, Tables(), id)
    {
      if closed { return Some(Conflict); }
      if id !in jobs { return Some(NotFound); }
      if jobs[id].state != Active { return Some(Conflict); }
      var active := ActiveRun(id);
      if active.Some? { return Some(RunReply(active.value, true)); }
      if |futures| >= cfg.maxWorkers + cfg.maxPending { return Some(Conflict); }
      return None;
    }

    /** `start_run`, for callers and for the scheduler. */
    method StartRun(id: JobId, run: RunId, origin: Origin, now: Time, writes: Writes) returns (reply: Reply)
      requires Linked() && run !in runs
      modifies this
      ensures View() == OpsJobSpec.StartRun(cfg, old(View()), id, run, origin, now, writes)
      ensures reply == StartReply(cfg, old(Tables()), id, run, writes)
      ensures reply == RunReply(run, false) <==> submitted != old(submitted)
    {
      var refusal := Refuse(id);
      if refusal.Some? {
        return refusal.value;
      }
      if !writes.run { return StorageError; }
      if !writes.job {
        BlockRun(id, run, origin, now, writes);
        return StorageError;
      }
      SubmitRun(id, run, origin, now);
      return RunReply(run, false);
    }

    /** A caller starts a run. */
    method StartByHand(id: JobId, run: RunId, now: Time, writes: Writes) returns (reply: Reply)
      requires Valid() && clock <= now && run !in runs
      modifies this
      ensures Valid() && View() == Next(cfg, old(View()), DoStartRun(id, run, now, writes))
      ensures reply == StartReply(cfg, old(Tables()), id, run, writes)
    {
      OpsJobProofs.NextReachable(cfg, View(), DoStartRun(id, run, now, writes));
      ValidGivesLinked();
      clock := now;
      reply := StartRun(id, run, ByHand, now, writes);
    }

    /** The job write of `start_run` failed after the run write: the run is recorded as never submitted. */
    method BlockRun(id: JobId, run: RunId, origin: Origin, now: Time, writes: Writes)
      modifies this`runs, this`runFiles
      ensures View() == Block(old(View()), id, run, origin, now, writes)
    {
      var record := NewRun(id, origin, now);
      runFiles := runFiles[run := record];
      runs := runs[run := record];
      var blocked := BlockedRun(record, writes.later);
      PersistOutcome(run, blocked, writes.blocked);
      assert runs == old(runs)[run := if writes.blocked then blocked else blocked.(journalError := true)];
      assert runFiles == old(runFiles)[run := if writes.blocked then blocked else record];
    }

    /** Both writes of `start_run` succeeded: the run is handed to the pool. */
    method SubmitRun(id: JobId, run: RunId, origin: Origin, now: Time)
      requires id in jobs
      modifies this`runs, this`runFiles, this`jobs, this`jobFiles, this`scheduleRetryAt, this`activeRuns, this`executor,
               this`futures, this`submitted
      ensures View() == Submit(old(View()), id, run, origin, now)
    {
      var updated := jobs[id].(lastRun := Some(run), updatedAt := now);
      if updated.trigger.Interval? {
        updated := updated.(nextRunAt := Some(now + 1000 * updated.trigger.seconds));
      }
      JournalSubmission(id, run, NewRun(id, origin, now), updated);
      Enqueue(id, run, origin, now);
    }

    method JournalSubmission(id: JobId, run: RunId, record: Run, updated: Job)
      modifies this`runs, this`runFiles, this`jobs, this`jobFiles
      ensures View() == PutJob(PutRun(old(View()), run, record, record), id, updated)
    {
      runFiles := runFiles[run := record];
      runs := runs[run := record];
      jobFiles := jobFiles[id := updated];
      jobs := jobs[id := updated];
    }

    method Enqueue(id: JobId, run: RunId, origin: Origin, now: Time)
      modifies this`scheduleRetryAt, this`activeRuns, this`executor, this`futures, this`submitted
      ensures View() == OpsJobSpec.Enqueue(old(View()), id, run, origin, now)
    {
      scheduleRetryAt := scheduleRetryAt - {id};
      activeRuns := activeRuns[id := run];
      executor := executor[run := Item(Pending, id)];
      submitted := submitted + [Submission(run, id, origin, now)];
      futures := futures + {run};
    }

    /** `_persist_outcome` */
    method PersistOutcome(run: RunId, record: Run, saved: bool)
      modifies this`runs, this`runFiles
      ensures runs == old(runs)[run := if saved then record else record.(journalError := true)]
      ensures runFiles == if saved then old(runFiles)[run := record] else old(runFiles)
    {
      if saved {
        runFiles := runFiles[run := record];
        runs := runs[run := record];
      } else {
        runs := runs[run := record.(journalError := true)];
      }
    }

    /** `_forget_run` */
    method ForgetRun(run: RunId)
      requires Valid() && InPhase(Tables(), run, Settled)
      modifies this`futures, this`activeRuns, this`executor
      ensures Valid() && View() == Next(cfg, old(View()), DoCallback(run))
    {
      OpsJobProofs.NextReachable(cfg, View(), DoCallback(run));
      ForgetRunLocked(run);
    }

    method ForgetRunLocked(run: RunId)
      requires InPhase(Tables(), run, Settled)
      modifies this`futures, this`activeRuns, this`executor
      ensures View() == Callback(old(View()), run)
    {
      var job := executor[run].job;
      futures := futures - {run};
      if job in activeRuns && activeRuns[job] == run {
        activeRuns := activeRuns - {job};
      }
      executor := executor - {run};
    }

    /** The first critical section of `_run`. */
    method RunPreflight(run: RunId, now: Time, saved: bool)
      requires Valid() && clock <= now && InPhase(Tables(), run, Dequeued)
      modifies this`runs, this`runFiles, this`executor, this`clock
      ensures Valid() && View() == Next(cfg, old(View()), DoPreflight(run, now, saved))
    {
      OpsJobProofs.NextReachable(cfg, View(), DoPreflight(run, now, saved));
      clock := now;
      RunPreflightLocked(run, now, saved);
    }

    method RunPreflightLocked(run: RunId, now: Time, saved: bool)
      requires InPhase(Tables(), run, Dequeued)
      modifies this`runs, this`runFiles, this`executor
      ensures View() == Preflight(old(View()), run, now, saved)
    {
      var record := runs[run];
      if record.cancelRequested {
        record := record.(state := Cancelled, phase := Completed, outcome := Some(Cancelled), finishedAt := Some(now),
                          attempt := record.attempt.(state := Cancelled, finishedAt := Some(now)));
        PersistOutcome(run, record, saved);
        executor := executor[run := executor[run].(phase := Finished)];
        return;
      }
      record := record.(state := Running, phase := InPreflight, startedAt := Some(now),
                        attempt := record.attempt.(state := Running, startedAt := Some(now)));
      runs := runs[run := record];
      if saved {
        runFiles := runFiles[run := record];
        executor := executor[run := executor[run].(phase := Ready)];
      } else {
        executor := executor[run := executor[run].(phase := Ended(PreflightFailed))];
      }
    }

    /** `self.runner(job)` is called outside the lock. */
    method CallRunner(run: RunId)
      requires Valid() && InPhase(Tables(), run, Ready)
      modifies this`executor, this`invoked
      ensures Valid() && View() == Next(cfg, old(View()), DoInvoke(run))
    {
      OpsJobProofs.NextReachable(cfg, View(), DoInvoke(run));
      invoked := invoked + [run];
      executor := executor[run := executor[run].(phase := Invoking)];
    }

    /** The except block of `_run`. */
    method RunFailed(run: RunId, now: Time, saved: bool)
      requires Valid() && clock <= now && CanRecord(Tables(), run) && !executor[run].phase.end.Returned?
      modifies this`runs, this`runFiles, this`executor, this`clock
      ensures Valid() && View() == Next(cfg, old(View()), DoRecord(run, now, saved))
    {
      OpsJobProofs.NextReachable(cfg, View(), DoRecord(run, now, saved));
      clock := now;
      RunFailedLocked(run, now, saved);
    }

    method RunFailedLocked(run: RunId, now: Time, saved: bool)
      requires CanRecord(Tables(), run) && !executor[run].phase.end.Returned?
      modifies this`runs, this`runFiles, this`executor
      ensures View() == RecordEnd(old(View()), run, now, saved)
    {
      var failure := if executor[run].phase.end.PreflightFailed? then Storage else Transient;
      var record := runs[run];
      record := record.(state := Failed, phase := NeedsAttention, outcome := Some(Failed), finishedAt := Some(now), finding := Some(failure),
                        attempt := record.attempt.(state := Failed, finishedAt := Some(now), failure := Some(failure)));
      PersistOutcome(run, record, saved);
      executor := executor[run := executor[run].(phase := Finished)];
    }

    /** The last critical section of `_run`. */
    method RunReturned(run: RunId, now: Time, saved: bool)
      requires Valid() && clock <= now && CanRecord(Tables(), run) && executor[run].phase.end.Returned?
      modifies this`runs, this`runFiles, this`executor, this`clock
      ensures Valid() && View() == Next(cfg, old(View()), DoRecord(run, now, saved))
    {
      OpsJobProofs.NextReachable(cfg, View(), DoRecord(run, now, saved));
      clock := now;
      RunReturnedLocked(run, now, saved);
    }

    method RunReturnedLocked(run: RunId, now: Time, saved: bool)
      requires CanRecord(Tables(), run) && executor[run].phase.end.Returned?
      modifies this`runs, this`runFiles, this`executor
      ensures View() == RecordEnd(old(View()), run, now, saved)
    {
      var result := executor[run].phase.end.result;
      var outcome := if result.ok then NoChange else Degraded;
      if result.outcome.Some? {
        outcome := if result.outcome.value.Named? && Terminal(result.outcome.value.state) then result.outcome.value.state else Failed;
      }
      var record := runs[run];
      record := record.(phase := if outcome == Succeeded || outcome == NoChange then Completed else NeedsAttention,
                        state := outcome, outcome := Some(outcome), finishedAt := Some(now), finding := result.finding,
                        attempt := record.attempt.(state := outcome, finishedAt := Some(now), failure := result.failure));
      assert record == EndedRun(runs[run], executor[run].phase.end, now);
      PersistOutcome(run, record, saved);
      executor := executor[run := executor[run].(phase := Finished)];
    }

    /** `stored` tells whether the journal write, if one was due, succeeded; else the source raises. */
    method CancelRun(run: RunId, now: Time, saved: bool) returns (found: bool, stored: bool)
      requires Valid() && clock <= now
      modifies this`runs, this`runFiles, this`clock
      ensures Valid() && View() == Next(cfg, old(View()), DoCancelRun(run, now, saved))
      ensures found <==> run in runs
      ensures clock <= now && runs.Keys == old(runs).Keys && forall r :: r in runs && r != run ==> runs[r] == old(runs)[r]
      ensures stored <==> (run in old(runs) && !Terminal(old(runs)[run].state) ==> saved)
    {
      OpsJobProofs.NextReachable(cfg, View(), DoCancelRun(run, now, saved));
      ValidGivesLinked();
      clock := now;
      if run !in runs { return false, true; }
      if Terminal(runs[run].state) { return true, true; }
      var record := runs[run].(cancelRequested := true);
      if run in futures && !FutureRunning(executor[run].phase) {
        record := CancelledRun(record, now);
      } else {
        record := record.(state := CancelRequested);
      }
      runs := runs[run := record];
      if saved {
        runFiles := runFiles[run := record];
      }
      return true, saved;
    }

    /**
     The locked part of `close`: the manager is closed, then every run still waiting in the pool's queue is
     cancelled, even if a journal write fails; `stored` is false when one did, and the source raises at the end.
     */
    method Close(order: seq<RunId>, now: Time, saved: set<RunId>) returns (stored: bool)
      requires Valid() && clock <= now
      requires forall r :: r in order <==> r in futures
      requires forall i, j :: 0 <= i < j < |order| ==> order[i] != order[j]
      modifies this`closed, this`runs, this`runFiles, this`clock
      ensures Valid()
      ensures View() == Execute(cfg, old(View()), [DoClose] + CloseSteps(order, executor, now, saved))
      ensures stored <==> forall k :: 0 <= k < |order| && EndedByClose(executor, old(runs), order[k]) ==> order[k] in saved
    {
      OpsJobProofs.NextReachable(cfg, View(), DoClose);
      ValidGivesLinked();
      closed := true;
      stored := CancelQueued(order, now, saved);
      assert ([DoClose] + CloseSteps(order, executor, now, saved))[1..] == CloseSteps(order, executor, now, saved);
    }

    /** One future of the table: `cancel_run`, unless it is running. */
    method CancelIfQueued(run: RunId, now: Time, saved: bool) returns (stored: bool)
      requires Valid() && clock <= now && run in executor && run in runs
      modifies this`runs, this`runFiles, this`clock
      ensures Valid() && clock <= now
      ensures View() == if FutureRunning(executor[run].phase) then old(View()) else Next(cfg, old(View()), DoCancelRun(run, now, saved))
      ensures runs.Keys == old(runs).Keys && forall r :: r in runs && r != run ==> runs[r] == old(runs)[r]
      ensures stored <==> (EndedByClose(executor, old(runs), run) ==> saved)
    {
      stored := true;
      if !FutureRunning(executor[run].phase) {
        var found;
        found, stored := CancelRun(run, now, saved);
      }
    }

    /** The loop of `close`. */
    method CancelQueued(order: seq<RunId>, now: Time, saved: set<RunId>) returns (stored: bool)
      requires Valid() && clock <= now
      requires forall k :: 0 <= k < |order| ==> order[k] in executor && order[k] in runs
      requires forall i, j :: 0 <= i < j < |order| ==> order[i] != order[j]
      modifies this`runs, this`runFiles, this`clock
      ensures Valid()
      ensures View() == Execute(cfg, old(View()), CloseSteps(order, executor, now, saved))
      ensures stored <==> forall k :: 0 <= k < |order| && EndedByClose(executor, old(runs), order[k]) ==> order[k] in saved
    {
      stored := true;
      ghost var first, goal := runs, Execute(cfg, View(), CloseSteps(order, executor, now, saved));
      assert order[0..] == order;
      for i := 0 to |order|
        invariant Valid() && clock <= now
        invariant Execute(cfg, View(), CloseSteps(order[i..], executor, now, saved)) == goal
        invariant runs.Keys == first.Keys && forall k :: i <= k < |order| ==> runs[order[k]] == first[order[k]]
        invariant stored <==> forall k :: 0 <= k < i && EndedByClose(executor, first, order[k]) ==> order[k] in saved
      {
        var run := order[i];
        assert order[i..][1..] == order[i + 1..];
        OpsJobProofs.CloseStepsUnfold(cfg, View(), order[i..], executor, now, saved);
        var written := CancelIfQueued(run, now, run in saved);
        stored := stored && written;
      }
      assert order[|order|..] == [];
    }

    // ----- the scheduler -----

    /** The locked half of `tick`: lists the jobs that are due at `current`, which was read before. */
    method ScanDue(order: seq<JobId>, current: Time, monotonic: Time, now: Time)
      requires Valid() && due == [] && current <= now && clock <= now
      requires forall id :: id in order <==> id in jobs
      requires forall i, j :: 0 <= i < j < |order| ==> order[i] != order[j]
      modifies this`due, this`scanned, this`clock
      ensures Valid() && View() == Next(cfg, old(View()), DoScan(due, current, monotonic, now))
      ensures !closed ==> IsScan(old(Tables()), due, current, monotonic)
    {
      if closed { return; }
      var found := FindDue(order, current, monotonic);
      OpsJobProofs.NextReachable(cfg, View(), DoScan(found, current, monotonic, now));
      due, scanned, clock := found, current, now;
    }

    /** The loop of the scan: it walks the definitions once. */
    method FindDue(order: seq<JobId>, current: Time, monotonic: Time) returns (found: seq<JobId>)
      requires !closed && forall id :: id in order <==> id in jobs
      requires forall i, j :: 0 <= i < j < |order| ==> order[i] != order[j]
      ensures IsScan(Tables(), found, current, monotonic)
    {
      found := [];
      for i := 0 to |order|
        invariant forall k :: 0 <= k < |found| ==> found[k] in order[..i] && IsDue(Tables(), found[k], current, monotonic)
        invariant forall k :: 0 <= k < i && IsDue(Tables(), order[k], current, monotonic) ==> order[k] in found
        invariant forall k, n :: 0 <= k < n < |found| ==> found[k] != found[n]
      {
        var id := order[i];
        assert order[..i + 1] == order[..i] + [id];
        assert id !in order[..i];
        var job := jobs[id];
        if id in scheduleRetryAt && scheduleRetryAt[id] > monotonic {
          continue;
        }
        if job.state == Active && job.trigger.Interval? && job.nextRunAt.Some? {
          if job.nextRunAt.value <= current {
            found := found + [id];
          }
        }
      }
    }

    /** One turn of the second loop of `tick`. */
    method StartNextDue(run: RunId, now: Time, writes: Writes, monotonic: Time) returns (started: bool)
      requires Valid() && clock <= now && due != [] && run !in runs
      modifies this
      ensures Valid() && View() == Next(cfg, old(View()), DoStartDue(run, now, writes, monotonic))
      ensures started <==> submitted != old(submitted)
    {
      OpsJobProofs.NextReachable(cfg, View(), DoStartDue(run, now, writes, monotonic));
      ValidGivesLinked();
      clock := now;
      ghost var before := View();
      var id := due[0];
      due := due[1..];
      assert View() == before.(mem := before.mem.(due := due));
      var reply := StartRun(id, run, ByInterval, now, writes);
      if reply == StorageError {
        scheduleRetryAt := scheduleRetryAt[id := monotonic + 60000];
      }
      return reply == RunReply(run, false);
    }

    // ----- the moves of the thread pool -----

    /** A worker takes the item from the queue. */
    method Dequeue(run: RunId)
      requires Valid() && InPhase(Tables(), run, Pending)
      modifies this`executor
      ensures Valid() && View() == Next(cfg, old(View()), DoDequeue(run))
    {
      OpsJobProofs.NextReachable(cfg, View(), DoDequeue(run));
      executor := executor[run := executor[run].(phase := Dequeued)];
    }

    /** The runner returns or raises. */
    method EndRunner(run: RunId, end: RunnerEnd)
      requires Valid() && InPhase(Tables(), run, Invoking) && !end.PreflightFailed?
      modifies this`executor
      ensures Valid() && View() == Next(cfg, old(View()), DoEnd(run, end))
    {
      OpsJobProofs.NextReachable(cfg, View(), DoEnd(run, end));
      executor := executor[run := executor[run].(phase := Ended(end))];
    }

    /** The future is done, its callback is still to come. */
    method SettleFuture(run: RunId)
      requires Valid() && InPhase(Tables(), run, Finished)
      modifies this`executor
      ensures Valid() && View() == Next(cfg, old(View()), DoSettle(run))
    {
      OpsJobProofs.NextReachable(cfg, View(), DoSettle(run));
      executor := executor[run := executor[run].(phase := Settled)];
    }
  }
}
