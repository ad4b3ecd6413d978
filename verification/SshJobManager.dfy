/**
 The SSH job manager as an object. Each method that requires `Valid()` is one critical section of the source's
 lock, or one move of its thread pool, and is proved to be a step of SshJobSpec from one reachable state to
 another, so the results of SshJobProofs and SshJobProgress hold of every sequence of these calls. The other
 methods are parts of those sections.
 */
module SshJobManager {
  import opened Common
  import opened ThreadPool
  import opened SshJobSpec
  import SshJobProofs

  class JobManager {
    const cfg: Config
    var up: bool
    var closed: bool
    var jobs: map<JobId, Record>
    var keys: map<Key, JobId>
    var futures: set<JobId>
    var executor: map<JobId, Item>      // the thread pool's view of the submitted items
    var journal: map<JobId, Record>     // the files under the state directory
    ghost var invoked: seq<Invocation>

    /** The abstract state the specification speaks of. */
    ghost function View(): World
      reads this
    {
      World(up, closed, jobs, keys, futures, executor, journal, invoked)
    }

    ghost predicate Valid()
      reads this
    {
      up && SshJobProofs.Reachable(cfg, View())
    }

    /** The tables refer to each other. */
    ghost predicate Linked()
      reads this
    {
      && (forall k :: k in keys ==> keys[k] in jobs)
      && futures == executor.Keys
    }

    lemma ValidGivesLinked()
      requires Valid()
      ensures Linked()
    {
      SshJobProofs.ReachableKeepsInv(cfg, View());
    }

    /**
     `__init__` over a state directory, whose files are walked in name order. `rewritten` are the interrupted
     records whose rewrite reaches the disk. Over a journal that a manager left behind it is the restart step.
     */
    constructor (cfg: Config, files: seq<JobId>, journal: map<JobId, Record>, ghost invoked: seq<Invocation>,
                 now: Time, rewritten: set<JobId>)
      requires forall id :: id in files <==> id in journal
      requires forall i, j :: 0 <= i < j < |files| ==> files[i] != files[j]
      ensures this.cfg == cfg
      ensures var down := World(false, false, map[], map[], {}, map[], journal, invoked);
              && View() == ReloadWith(cfg, down, IndexFiles(map[], files, journal), now, rewritten)
              && (SshJobProofs.Reachable(cfg, down) ==> Valid() && View() == Next(cfg, down, DoReload(now, rewritten)))
    {
      this.cfg := cfg;
      this.journal, this.invoked := journal, invoked;
      closed, jobs, keys, futures, executor := false, map[], map[], {}, map[];
      up := true;
      new;
      LoadFiles(files, now, rewritten);
      ghost var down := World(false, false, map[], map[], {}, map[], journal, invoked);
      SshJobProofs.LoadedAll(cfg, down, this.jobs, this.journal, this.keys, now, rewritten);
      if SshJobProofs.Reachable(cfg, down) {
        SshJobProofs.ReachableKeepsInv(cfg, down);
        SshJobProofs.WalkGivesKeyIndex(files, journal);
        SshJobProofs.NextReachable(cfg, down, DoReload(now, rewritten));
      }
    }

    /** `_persist_outcome` */
    method PersistOutcome(id: JobId, record: Record, saved: bool)
      modifies this`jobs, this`journal
      ensures View() == PutOutcome(cfg, old(View()), id, record, saved)
    {
      jobs := jobs[id := record];
      if saved {
        journal := journal[id := Saved(cfg, record)];
      } else {
        jobs := jobs[id := record.(journalError := true)];
      }
    }

    method Start(id: JobId, key: Option<Key>, request: Digest, now: Time, saved: bool) returns (reply: StartResult)
      requires Valid() && id !in jobs
      modifies this
      ensures Valid() && View() == Next(cfg, old(View()), DoStart(id, key, request, now, saved))
      ensures reply == StartReply(cfg, old(View()), id, key, request, saved)
    {
      SshJobProofs.NextReachable(cfg, View(), DoStart(id, key, request, now, saved));
      ValidGivesLinked();
      if closed {
        return Conflict;
      }
      if key.Some? && key.value in keys {
        var existing := keys[key.value];
        if jobs[existing].request != request {
          return Conflict;
        }
        return Accepted(existing, true);
      }
      if |futures| >= cfg.maxWorkers + cfg.maxPending {
        return Conflict;
      }
      var record := NewRecord(key, request, now);
      if !saved {
        return StorageError;
      }
      journal := journal[id := Saved(cfg, record)];
      jobs := jobs[id := record];
      if key.Some? {
        keys := keys[key.value := id];
      }
      executor := executor[id := Item(Pending, key)];
      futures := futures + {id};
      return Accepted(id, false);
    }

    /** None when the job is unknown; the view is returned even if the journal write raised (`stored` false). */
    method Cancel(id: JobId, now: Time, saved: bool) returns (view: Option<SshJobSpec.View>, stored: bool)
      requires Valid()
      modifies this`jobs, this`journal
      ensures Valid() && View() == Next(cfg, old(View()), DoCancel(id, now, saved))
      ensures view == if id in jobs then Some(Public(jobs[id])) else None
      ensures stored <==> (id in old(jobs) && !Terminal(old(jobs)[id].state) ==> saved)
    {
      SshJobProofs.NextReachable(cfg, View(), DoCancel(id, now, saved));
      ValidGivesLinked();
      if id !in jobs {
        return None, true;
      }
      if Terminal(jobs[id].state) {
        return Some(Public(jobs[id])), true;
      }
      var record := jobs[id].(cancelRequested := true);
      if id in futures && !FutureRunning(executor[id].phase) {
        record := record.(state := Cancelled, finishedAt := Some(now));
      } else {
        record := record.(state := CancelRequested);
      }
      jobs := jobs[id := record];
      if saved {
        journal := journal[id := Saved(cfg, record)];
      }
      return Some(Public(record)), saved;
    }

    /** The first critical section of `_run`. */
    method RunPreflight(id: JobId, now: Time, saved: bool)
      requires Valid() && InPhase(View(), id, Dequeued)
      modifies this`jobs, this`journal, this`executor
      ensures Valid() && View() == Next(cfg, old(View()), DoPreflight(id, now, saved))
    {
      SshJobProofs.NextReachable(cfg, View(), DoPreflight(id, now, saved));
      if jobs[id].cancelRequested {
        PersistOutcome(id, jobs[id].(state := Cancelled, finishedAt := Some(now)), saved);
        executor := executor[id := executor[id].(phase := Finished)];
        return;
      }
      var record := jobs[id].(state := Running, startedAt := Some(now));
      jobs := jobs[id := record];
      if saved {
        journal := journal[id := Saved(cfg, record)];
        executor := executor[id := executor[id].(phase := Ready)];
      } else {
        executor := executor[id := executor[id].(phase := Ended(Raised(JournalWriteFailed)))];
      }
    }

    /** `runner()` is called outside the lock. */
    method CallRunner(id: JobId)
      requires Valid() && InPhase(View(), id, Ready)
      modifies this`executor, this`invoked
      ensures Valid() && View() == Next(cfg, old(View()), DoInvoke(id))
    {
      SshJobProofs.NextReachable(cfg, View(), DoInvoke(id));
      invoked := invoked + [Invocation(id, executor[id].key)];
      executor := executor[id := executor[id].(phase := Invoking)];
    }

    /** The except block of `_run`. */
    method RunFailed(id: JobId, now: Time, saved: bool)
      requires Valid() && CanRecord(View(), id) && executor[id].phase.end.Raised?
      modifies this`jobs, this`journal, this`executor
      ensures Valid() && View() == Next(cfg, old(View()), DoRecord(id, now, saved))
    {
      SshJobProofs.NextReachable(cfg, View(), DoRecord(id, now, saved));
      var message := executor[id].phase.end.message;
      PersistOutcome(id, jobs[id].(state := Failed, errorDetail := Some(message), finishedAt := Some(now)), saved);
      executor := executor[id := executor[id].(phase := Finished)];
    }

    /** The last critical section of `_run`. */
    method RunReturned(id: JobId, now: Time, saved: bool)
      requires Valid() && CanRecord(View(), id) && executor[id].phase.end.Returned?
      modifies this`jobs, this`journal, this`executor
      ensures Valid() && View() == Next(cfg, old(View()), DoRecord(id, now, saved))
    {
      SshJobProofs.NextReachable(cfg, View(), DoRecord(id, now, saved));
      var result := executor[id].phase.end.result;
      var record := jobs[id].(result := Some(result), state := if result.ok then Succeeded else Failed);
      if record.state == Failed && record.errorDetail.None? {
        record := record.(errorDetail := if result.error.Some? then result.error else Some(RemoteCommandFailed));
      }
      PersistOutcome(id, record.(finishedAt := Some(now)), saved);
      executor := executor[id := executor[id].(phase := Finished)];
    }

    /** `_forget_future`, run by the future's done-callback. */
    method ForgetFuture(id: JobId)
      requires Valid() && InPhase(View(), id, Settled)
      modifies this`futures, this`executor
      ensures Valid() && View() == Next(cfg, old(View()), DoCallback(id))
    {
      SshJobProofs.NextReachable(cfg, View(), DoCallback(id));
      futures := futures - {id};
      executor := executor - {id};
    }

    // ----- the moves of the thread pool -----

    /** A worker takes the item from the queue. */
    method Dequeue(id: JobId)
      requires Valid() && InPhase(View(), id, Pending)
      modifies this`executor
      ensures Valid() && View() == Next(cfg, old(View()), DoDequeue(id))
    {
      SshJobProofs.NextReachable(cfg, View(), DoDequeue(id));
      executor := executor[id := executor[id].(phase := Dequeued)];
    }

    /** The runner returns or raises. */
    method EndRunner(id: JobId, end: RunnerEnd)
      requires Valid() && InPhase(View(), id, Invoking)
      modifies this`executor
      ensures Valid() && View() == Next(cfg, old(View()), DoEnd(id, end))
    {
      SshJobProofs.NextReachable(cfg, View(), DoEnd(id, end));
      executor := executor[id := executor[id].(phase := Ended(end))];
    }

    /** The future is done, its callback is still to come. */
    method SettleFuture(id: JobId)
      requires Valid() && InPhase(View(), id, Finished)
      modifies this`executor
      ensures Valid() && View() == Next(cfg, old(View()), DoSettle(id))
    {
      SshJobProofs.NextReachable(cfg, View(), DoSettle(id));
      executor := executor[id := executor[id].(phase := Settled)];
    }

    // ----- closing and loading -----

    /** The locked part of `close`. */
    method Close()
      requires Valid()
      modifies this`closed
      ensures Valid() && View() == Next(cfg, old(View()), DoClose)
    {
      SshJobProofs.NextReachable(cfg, View(), DoClose);
      closed := true;
    }

    /** One file of `_load_journal`. */
    method LoadFile(id: JobId, now: Time, saved: bool)
      requires id in journal
      modifies this`jobs, this`journal, this`keys
      ensures jobs == old(jobs)[id := Recovered(old(journal)[id], now, saved)]
      ensures journal == old(journal)[id := RecoveredOnDisk(cfg, old(journal)[id], now, saved)]
      ensures var key := old(journal)[id].key; keys == if key.Some? then old(keys)[key.value := id] else old(keys)
    {
      var record := journal[id];
      if !Terminal(record.state) {
        record := InterruptedRecord(record, now);
        if saved {
          journal := journal[id := Saved(cfg, record)];
        } else {
          record := record.(journalError := true);
        }
      }
      jobs := jobs[id := record];
      if record.key.Some? {
        keys := keys[record.key.value := id];
      }
    }

    /** The loop of `_load_journal`: every file is loaded, in the order of the walk. */
    method LoadFiles(files: seq<JobId>, now: Time, rewritten: set<JobId>)
      requires jobs == map[] && keys == map[]
      requires forall id :: id in files <==> id in journal
      requires forall i, j :: 0 <= i < j < |files| ==> files[i] != files[j]
      modifies this`jobs, this`journal, this`keys
      ensures SshJobProofs.Loaded(cfg, jobs, journal, old(journal), old(journal).Keys, now, rewritten)
      ensures keys == IndexFiles(map[], files, old(journal))
    {
      ghost var disk := journal;
      ghost var done: set<JobId> := {};
      ghost var index := IndexFiles(map[], files, disk);
      assert files[0..] == files;
      for i := 0 to |files|
        invariant forall k :: 0 <= k < i ==> files[k] in done
        invariant forall k :: 0 <= k < |files| ==> files[k] in disk && (i <= k ==> files[k] !in done)
        invariant SshJobProofs.Loaded(cfg, jobs, journal, disk, done, now, rewritten)
        invariant IndexFiles(keys, files[i..], disk) == index
      {
        var id := files[i];
        assert files[i..][0] == id && files[i..][1..] == files[i + 1..];
        SshJobProofs.LoadedGrows(cfg, jobs, journal, disk, done, now, rewritten, id);
        LoadFile(id, now, id in rewritten);
        done := done + {id};
      }
      assert done == disk.Keys;
      assert files[|files|..] == [];
    }
  }
}
