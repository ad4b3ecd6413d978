/**
 What the SSH job manager owes its callers: a start is answered for what it is, a cancel in time keeps the runner from
 being called, and a job that nobody disturbs has its runner called before it ends.
 */
module SshJobAnswers {
  import opened Common
  import opened ThreadPool
  import opened SshJobSpec
  import opened SshJobProofs

  // ----- cancels -----

  /** The job waits for a worker or for its preflight. */
  ghost predicate NotStarted(w: World, id: JobId) {
    w.up && id in w.jobs && id in w.work && (w.work[id].phase == Pending || w.work[id].phase == Dequeued)
  }

  /** A cancel has reached the job before its runner was called. */
  ghost predicate Marked(w: World, id: JobId) {
    && w.up && id in w.jobs && id in w.journal && !WasInvoked(w.invoked, id)
    && (w.jobs[id].state == Cancelled
        || (NotStarted(w, id) && w.jobs[id].cancelRequested && w.jobs[id].state == CancelRequested))
  }

  lemma CancelMarks(cfg: Config, w: World, id: JobId, now: Time, saved: bool)
    requires Inv(cfg, w) && NotStarted(w, id) && !Terminal(w.jobs[id].state)
    ensures Marked(Next(cfg, w, DoCancel(id, now, saved)), id)
    ensures w.work[id].phase == Pending ==> Next(cfg, w, DoCancel(id, now, saved)).jobs[id].state == Cancelled
  {
    assert CoherentAt(w, id);
  }

  lemma MarkedWasAsked(cfg: Config, w: World, id: JobId)
    requires Inv(cfg, w) && Marked(w, id) && InPhase(w, id, Dequeued)
    ensures w.jobs[id].cancelRequested
  {
    assert CoherentAt(w, id);
  }

  lemma OwnPreflightKeepsMarked(cfg: Config, w: World, s: Step, id: JobId)
    requires Enabled(w, s) && s.DoPreflight? && s.id == id && Marked(w, id) && w.jobs[id].cancelRequested
    ensures Marked(Next(cfg, w, s), id)
  {
  }

  lemma OtherPreflightKeepsMarked(cfg: Config, w: World, s: Step, id: JobId)
    requires Enabled(w, s) && s.DoPreflight? && s.id != id && Marked(w, id)
    ensures Marked(Next(cfg, w, s), id)
  {
  }

  lemma MarkedIsNotEnded(cfg: Config, w: World, id: JobId)
    requires Inv(cfg, w) && Marked(w, id)
    ensures !CanRecord(w, id) && !InPhase(w, id, Ready)
  {
    assert CoherentAt(w, id);
  }

  lemma RecordKeepsMarked(cfg: Config, w: World, s: Step, id: JobId)
    requires Enabled(w, s) && s.DoRecord? && s.id != id && Marked(w, id)
    ensures Marked(Next(cfg, w, s), id)
  {
  }

  lemma InvokeKeepsMarked(cfg: Config, w: World, s: Step, id: JobId)
    requires Enabled(w, s) && s.DoInvoke? && s.id != id && Marked(w, id)
    ensures Marked(Next(cfg, w, s), id)
  {
    InvokedGrows(w.invoked, Invocation(s.id, w.work[s.id].key));
  }

  lemma CancelKeepsMarked(cfg: Config, w: World, s: Step, id: JobId)
    requires Enabled(w, s) && s.DoCancel? && Marked(w, id)
    ensures Marked(Next(cfg, w, s), id)
  {
  }

  lemma StartKeepsMarked(cfg: Config, w: World, s: Step, id: JobId)
    requires Enabled(w, s) && s.DoStart? && Marked(w, id)
    ensures Marked(Next(cfg, w, s), id)
  {
  }

  lemma OthersKeepMarked(cfg: Config, w: World, s: Step, id: JobId)
    requires Enabled(w, s) && Marked(w, id)
    requires s.DoDequeue? || s.DoEnd? || s.DoSettle? || s.DoCallback? || s.DoClose? || s.DoReload?
    ensures Marked(Next(cfg, w, s), id)
  {
  }

  lemma NextKeepsMarked(cfg: Config, w: World, s: Step, id: JobId)
    requires Inv(cfg, w) && Marked(w, id) && !s.DoCrash?
    ensures Marked(Next(cfg, w, s), id)
  {
    if !Enabled(w, s) {
    } else if s.DoPreflight? {
      if s.id == id {
        MarkedWasAsked(cfg, w, id);
        OwnPreflightKeepsMarked(cfg, w, s, id);
      } else {
        OtherPreflightKeepsMarked(cfg, w, s, id);
      }
    } else if s.DoRecord? {
      MarkedIsNotEnded(cfg, w, id);
      RecordKeepsMarked(cfg, w, s, id);
    } else if s.DoInvoke? {
      MarkedIsNotEnded(cfg, w, id);
      InvokeKeepsMarked(cfg, w, s, id);
    } else if s.DoStart? {
      StartKeepsMarked(cfg, w, s, id);
    } else if s.DoCancel? {
      CancelKeepsMarked(cfg, w, s, id);
    } else {
      OthersKeepMarked(cfg, w, s, id);
    }
  }

  lemma {:induction false} RunKeepsMarked(cfg: Config, w: World, steps: seq<Step>, id: JobId)
    requires Inv(cfg, w) && Marked(w, id)
    ensures !WasInvoked(Execute(cfg, w, steps).invoked, id)
    ensures CrashFree(steps) ==> Marked(Execute(cfg, w, steps), id)
    decreases |steps|
  {
    if steps != [] {
      var s := steps[0];
      var v := Next(cfg, w, s);
      NextKeepsInv(cfg, w, s);
      if s.DoCrash? {
        assert NeverRuns(v, id);
        RunKeepsNeverRuns(cfg, v, steps[1..], id);
      } else {
        NextKeepsMarked(cfg, w, s, id);
        RunKeepsMarked(cfg, v, steps[1..], id);
      }
    }
  }

  /**
   A cancel in time is honoured: when it comes while the job waits in the queue or is with a worker that has not passed its
   preflight, the runner is never called, in this lifetime or a later one, and the job ends as cancelled; a job still
   in the queue is shown as cancelled at once.
   */
  lemma CancelIsHonoured(cfg: Config, before: seq<Step>, after: seq<Step>, id: JobId, now: Time, saved: bool)
    requires var w := Execute(cfg, INITIAL, before); NotStarted(w, id) && !Terminal(w.jobs[id].state)
    ensures var w := Execute(cfg, INITIAL, before);
            var u := Next(cfg, w, DoCancel(id, now, saved));
            var v := Execute(cfg, u, after);
            && !WasInvoked(v.invoked, id)
            && id in u.jobs && (w.work[id].phase == Pending ==> u.jobs[id].state == Cancelled)
            && (CrashFree(after) ==> id in v.jobs && (Terminal(v.jobs[id].state) ==> v.jobs[id].state == Cancelled))
  {
    ReachableInv(cfg, before);
    CancelHolds(cfg, Execute(cfg, INITIAL, before), after, id, now, saved);
  }

  lemma CancelHolds(cfg: Config, w: World, after: seq<Step>, id: JobId, now: Time, saved: bool)
    requires Inv(cfg, w) && NotStarted(w, id) && !Terminal(w.jobs[id].state)
    ensures var u := Next(cfg, w, DoCancel(id, now, saved));
            var v := Execute(cfg, u, after);
            && !WasInvoked(v.invoked, id)
            && id in u.jobs && (w.work[id].phase == Pending ==> u.jobs[id].state == Cancelled)
            && (CrashFree(after) ==> id in v.jobs && (Terminal(v.jobs[id].state) ==> v.jobs[id].state == Cancelled))
  {
    var u := Next(cfg, w, DoCancel(id, now, saved));
    NextKeepsInv(cfg, w, DoCancel(id, now, saved));
    CancelMarks(cfg, w, id, now, saved);
    RunKeepsMarked(cfg, u, after, id);
  }

  /** A step on one job leaves the records of all others alone. */
  ghost predicate OthersKept(w: World, v: World, id: JobId) {
    && v.jobs.Keys == w.jobs.Keys && v.journal.Keys == w.journal.Keys
    && (forall j :: j in w.jobs && j != id ==> v.jobs[j] == w.jobs[j])
    && (forall j :: j in w.journal && j != id ==> v.journal[j] == w.journal[j])
  }

  ghost predicate CancelDone(w: World, v: World, id: JobId, now: Time, saved: bool) {
    && id in w.work && id in w.jobs && id in w.journal && id in v.jobs && id in v.journal && v.jobs[id].cancelRequested
    && v.jobs[id].state == (if w.work[id].phase == Pending then Cancelled else CancelRequested)
    && v.jobs[id].finishedAt == (if w.work[id].phase == Pending then Some(now) else w.jobs[id].finishedAt)
    && v.journal[id].state == (if saved then v.jobs[id].state else w.journal[id].state)
  }

  lemma LiveIsInPool(cfg: Config, w: World, id: JobId)
    requires Inv(cfg, w) && w.up && id in w.jobs
    ensures id in w.journal
    ensures !Terminal(w.jobs[id].state) ==> id in w.work && id in w.futures && !w.work[id].phase.Settled?
  {
    assert CoherentAt(w, id);
  }

  lemma CancelDoes(cfg: Config, w: World, id: JobId, now: Time, saved: bool)
    requires w.up && id in w.jobs && !Terminal(w.jobs[id].state) && id in w.work && id in w.futures && id in w.journal
    requires !w.work[id].phase.Settled?
    ensures CancelDone(w, Next(cfg, w, DoCancel(id, now, saved)), id, now, saved)
  {
  }

  lemma CancelKeepsOthers(cfg: Config, w: World, id: JobId, now: Time, saved: bool)
    requires w.up && id in w.jobs && id in w.journal
    ensures OthersKept(w, Next(cfg, w, DoCancel(id, now, saved)), id)
  {
    var v := Next(cfg, w, DoCancel(id, now, saved));
    assert v.jobs.Keys == w.jobs.Keys + {id} == w.jobs.Keys;
    assert v.journal.Keys == w.journal.Keys + {id} == w.journal.Keys;
  }

  /**
   A cancel does what its answer says: a job in the queue is cancelled, one that a worker has is asked to stop, one that has
   ended is left alone, and so is every other job; the journal follows if the write succeeds.
   */
  lemma CancelAnswer(cfg: Config, before: seq<Step>, id: JobId, now: Time, saved: bool)
    requires Execute(cfg, INITIAL, before).up
    ensures var w := Execute(cfg, INITIAL, before);
            var v := Next(cfg, w, DoCancel(id, now, saved));
            if id !in w.jobs || Terminal(w.jobs[id].state) then v == w else OthersKept(w, v, id) && CancelDone(w, v, id, now, saved)
  {
    var w := Execute(cfg, INITIAL, before);
    ReachableInv(cfg, before);
    if id in w.jobs && !Terminal(w.jobs[id].state) {
      LiveIsInPool(cfg, w, id);
      CancelDoes(cfg, w, id, now, saved);
      CancelKeepsOthers(cfg, w, id, now, saved);
    }
  }

  /** What the journal shows of a record: its output only if it is to be kept, and the error a caller would see. */
  ghost predicate ShowsAs(cfg: Config, disk: Record, mem: Record) {
    && disk.state == mem.state && disk.finishedAt == mem.finishedAt && disk.startedAt == mem.startedAt
    && disk.result == (if cfg.persistOutput then mem.result else None)
    && disk.error == Public(mem).error && disk.errorDetail == None
  }

  /** The end of a job is stamped when it is recorded; it reaches the journal, or the record says that it did not. */
  lemma OutcomeStored(cfg: Config, w: World, id: JobId, now: Time, saved: bool)
    requires CanRecord(w, id)
    ensures var v := Next(cfg, w, DoRecord(id, now, saved));
            && v.jobs[id].finishedAt == Some(now) && v.jobs[id].startedAt == w.jobs[id].startedAt
            && (if saved then id in v.journal && ShowsAs(cfg, v.journal[id], v.jobs[id])
                else v.journal == w.journal && v.jobs[id].journalError)
  {
  }

  /** A job that has not ended carries no error yet. */
  ghost predicate Blameless(r: Record) {
    !Terminal(r.state) ==> r.errorDetail == None && r.error == None
  }

  ghost predicate NothingBlamed(w: World) {
    w.up ==> forall id :: id in w.jobs ==> Blameless(w.jobs[id])
  }

  lemma RecordBlamesNothing(cfg: Config, w: World, id: JobId, now: Time, saved: bool)
    requires CanRecord(w, id) && NothingBlamed(w)
    ensures NothingBlamed(RecordEnd(cfg, w, id, now, saved))
  {
    var r := OutcomeRecord(w.jobs[id], w.work[id].phase.end, now);
    assert Terminal(r.state);
    assert Blameless(r) && Blameless(r.(journalError := true));
  }

  lemma WritesBlameNothing(cfg: Config, w: World, s: Step)
    requires Enabled(w, s) && NothingBlamed(w) && (s.DoStart? || s.DoCancel? || s.DoPreflight?)
    requires s.DoPreflight? ==> w.jobs[s.id].cancelRequested || !Terminal(w.jobs[s.id].state)
    ensures NothingBlamed(Next(cfg, w, s))
  {
  }

  lemma MovesBlameNothing(cfg: Config, w: World, s: Step)
    requires Enabled(w, s) && NothingBlamed(w) && !(s.DoStart? || s.DoCancel? || s.DoPreflight? || s.DoRecord?)
    ensures NothingBlamed(Next(cfg, w, s))
  {
  }

  lemma DequeuedIsLive(cfg: Config, w: World, id: JobId)
    requires Inv(cfg, w) && w.up && InPhase(w, id, Dequeued)
    ensures w.jobs[id].cancelRequested || !Terminal(w.jobs[id].state)
  {
    assert CoherentAt(w, id);
  }

  lemma {:induction false} RunBlamesNothing(cfg: Config, w: World, steps: seq<Step>)
    requires Inv(cfg, w) && NothingBlamed(w)
    ensures NothingBlamed(Execute(cfg, w, steps))
    decreases |steps|
  {
    if steps != [] {
      var s := steps[0];
      if Enabled(w, s) {
        if s.DoRecord? {
          RecordBlamesNothing(cfg, w, s.id, s.now, s.saved);
        } else if s.DoStart? || s.DoCancel? || s.DoPreflight? {
          if s.DoPreflight? { DequeuedIsLive(cfg, w, s.id); }
          WritesBlameNothing(cfg, w, s);
        } else {
          MovesBlameNothing(cfg, w, s);
        }
      }
      NextKeepsInv(cfg, w, s);
      RunBlamesNothing(cfg, Next(cfg, w, s), steps[1..]);
    }
  }

  lemma EndIsLive(cfg: Config, w: World, id: JobId)
    requires Inv(cfg, w) && w.up && CanRecord(w, id)
    ensures !Terminal(w.jobs[id].state)
  {
    assert CoherentAt(w, id);
  }

  /** A result that is not ok is recorded with its error text, or as a failed remote command if it has none. */
  lemma FailureIsExplained(cfg: Config, before: seq<Step>, id: JobId, now: Time, saved: bool, result: RunResult)
    requires var w := Execute(cfg, INITIAL, before);
             w.up && CanRecord(w, id) && w.work[id].phase == Ended(Returned(result)) && !result.ok
    ensures var v := Next(cfg, Execute(cfg, INITIAL, before), DoRecord(id, now, saved));
            id in v.jobs && Public(v.jobs[id]).error == (if result.error.Some? then result.error else Some(RemoteCommandFailed))
  {
    var w := Execute(cfg, INITIAL, before);
    ReachableInv(cfg, before);
    EndIsLive(cfg, w, id);
    InitiallyInv(cfg);
    RunBlamesNothing(cfg, INITIAL, before);
    assert Blameless(w.jobs[id]);
  }

  /** The record of a job that a restart found unfinished: its end unknown, stamped with the time of the restart. */
  ghost predicate LeftUnknown(r: Record, now: Time) {
    r.state == Interrupted && r.finishedAt == Some(now) && r.errorDetail == Some(CompletionUnknown)
  }

  /** A restart says of every job the journal left unfinished that its end is unknown, and writes that down where it can. */
  lemma RestartInterrupts(cfg: Config, w: World, now: Time, rewritten: set<JobId>, id: JobId)
    requires !w.up && id in w.journal && !Terminal(w.journal[id].state)
    ensures var v := Next(cfg, w, DoReload(now, rewritten));
            && id in v.jobs && LeftUnknown(v.jobs[id], now) && id in v.journal
            && (if id in rewritten then ShowsAs(cfg, v.journal[id], v.jobs[id])
                else v.journal[id] == w.journal[id] && v.jobs[id].journalError)
  {
  }

  /** A job that nobody cancelled is shown as running, in memory and journal, before its runner can be called. */
  lemma StartRecorded(cfg: Config, w: World, id: JobId, now: Time)
    requires w.up && InPhase(w, id, Dequeued) && !w.jobs[id].cancelRequested
    ensures var v := Next(cfg, w, DoPreflight(id, now, true));
            && InPhase(v, id, Ready) && v.jobs[id].state == Running && v.jobs[id].startedAt == Some(now)
            && id in v.journal && v.journal[id].state == Running && v.journal[id].startedAt == Some(now)
  {
  }

  // ----- starts -----

  /** Some job of the manager was started under this key. */
  ghost predicate KeyInUse(w: World, key: Option<Key>) {
    key.Some? && exists j :: j in w.jobs && w.jobs[j].key == key
  }

  lemma TakenIsInUse(cfg: Config, w: World, key: Option<Key>)
    requires Inv(cfg, w) && w.up
    ensures KeyTaken(w, key) <==> KeyInUse(w, key)
    ensures KeyTaken(w, key) ==> w.keys[key.value] in w.jobs && w.jobs[w.keys[key.value]].key == key
  {
  }

  /** A record as it is when its job has just been accepted. */
  ghost predicate JustQueued(r: Record, key: Option<Key>, request: Digest, now: Time) {
    && r.state == Queued && !r.cancelRequested && r.key == key && r.request == request && r.createdAt == now
    && r.startedAt == None && r.finishedAt == None && r.result == None && r.error == None && !r.journalError
  }

  /** The manager is open, the key is new, and the pool holds fewer items than its workers and its queue can. */
  ghost predicate CanAccept(cfg: Config, w: World, key: Option<Key>) {
    !w.closed && !KeyInUse(w, key) && |w.work.Keys| < cfg.maxWorkers + cfg.maxPending
  }

  /** One job has been added, queued in memory, journal and pool, and no other has changed. */
  ghost predicate Added(w: World, v: World, id: JobId, key: Option<Key>, request: Digest, now: Time) {
    && v.jobs.Keys == w.jobs.Keys + {id} && JustQueued(v.jobs[id], key, request, now)
    && id in v.journal && JustQueued(v.journal[id], key, request, now) && InPhase(v, id, Pending)
    && forall j :: j in w.jobs ==> v.jobs[j] == w.jobs[j]
  }

  lemma AdmittedIsAdded(cfg: Config, w: World, id: JobId, key: Option<Key>, request: Digest, now: Time)
    requires CanStart(w, id)
    ensures Added(w, Admit(cfg, w, id, NewRecord(key, request, now)), id, key, request, now)
  {
  }

  lemma KeyHolderUnique(cfg: Config, w: World, key: Option<Key>, j: JobId)
    requires Inv(cfg, w) && w.up && key.Some? && j in w.jobs && w.jobs[j].key == key
    ensures KeyTaken(w, key) && w.keys[key.value] == j
  {
  }

  lemma ReplyReuses(cfg: Config, w: World, id: JobId, key: Option<Key>, request: Digest, saved: bool, j: JobId)
    requires Inv(cfg, w) && CanStart(w, id)
    ensures StartReply(cfg, w, id, key, request, saved) == Accepted(j, true)
            <==> !w.closed && key.Some? && j in w.jobs && w.jobs[j].key == key && w.jobs[j].request == request
  {
    TakenIsInUse(cfg, w, key);
    if key.Some? && j in w.jobs && w.jobs[j].key == key { KeyHolderUnique(cfg, w, key, j); }
  }

  lemma ReplyAccepts(cfg: Config, w: World, id: JobId, key: Option<Key>, request: Digest, saved: bool)
    requires Inv(cfg, w) && CanStart(w, id)
    ensures var reply := StartReply(cfg, w, id, key, request, saved);
            && (reply == Accepted(id, false) <==> CanAccept(cfg, w, key) && saved)
            && (reply == StorageError <==> CanAccept(cfg, w, key) && !saved)
  {
    TakenIsInUse(cfg, w, key);
    FuturesAreWork(cfg, w);
  }

  lemma FuturesAreWork(cfg: Config, w: World)
    requires Inv(cfg, w)
    ensures w.futures == w.work.Keys
  {
  }

  lemma StartAdds(cfg: Config, w: World, id: JobId, key: Option<Key>, request: Digest, now: Time, saved: bool)
    requires CanStart(w, id)
    ensures var v := Next(cfg, w, DoStart(id, key, request, now, saved));
            if StartReply(cfg, w, id, key, request, saved) == Accepted(id, false) then Added(w, v, id, key, request, now) else v == w
  {
    AdmittedIsAdded(cfg, w, id, key, request, now);
  }

  /**
   A start is answered for what it is. A new job is accepted exactly when the manager is open, no job has the key, the pool
   has room and the record was journalled; it is then queued in memory, journal and pool. A known key is answered with its job
   if the request is the same. Every other answer, and that one too, leaves everything as it was.
   */
  lemma StartAnswer(cfg: Config, before: seq<Step>, id: JobId, key: Option<Key>, request: Digest, now: Time, saved: bool, j: JobId)
    requires CanStart(Execute(cfg, INITIAL, before), id)
    ensures var w := Execute(cfg, INITIAL, before);
            var reply := StartReply(cfg, w, id, key, request, saved);
            && (reply == Accepted(id, false) <==> CanAccept(cfg, w, key) && saved)
            && (reply == StorageError <==> CanAccept(cfg, w, key) && !saved)
            && (reply == Accepted(j, true) <==>
                  !w.closed && key.Some? && j in w.jobs && w.jobs[j].key == key && w.jobs[j].request == request)
    ensures var w := Execute(cfg, INITIAL, before);
            var v := Next(cfg, w, DoStart(id, key, request, now, saved));
            if StartReply(cfg, w, id, key, request, saved) == Accepted(id, false) then Added(w, v, id, key, request, now) else v == w
  {
    var w := Execute(cfg, INITIAL, before);
    ReachableInv(cfg, before);
    ReplyAccepts(cfg, w, id, key, request, saved);
    ReplyReuses(cfg, w, id, key, request, saved, j);
    StartAdds(cfg, w, id, key, request, now, saved);
  }

  lemma NextKeepsClosed(cfg: Config, w: World, s: Step)
    requires w.up && w.closed && !s.DoCrash?
    ensures Next(cfg, w, s).up && Next(cfg, w, s).closed
  {
  }

  lemma {:induction false} RunKeepsClosed(cfg: Config, w: World, steps: seq<Step>)
    requires w.up && w.closed && CrashFree(steps)
    ensures Execute(cfg, w, steps).up && Execute(cfg, w, steps).closed
    decreases |steps|
  {
    if steps != [] {
      NextKeepsClosed(cfg, w, steps[0]);
      RunKeepsClosed(cfg, Next(cfg, w, steps[0]), steps[1..]);
    }
  }

  /** Once closed, the manager refuses every start for the rest of its lifetime, known keys included, and nothing changes by it. */
  lemma ClosedForGood(cfg: Config, w: World, after: seq<Step>, id: JobId, key: Option<Key>, request: Digest, now: Time, saved: bool)
    requires w.up && CrashFree(after)
    ensures var v := Execute(cfg, Next(cfg, w, DoClose), after);
            && StartReply(cfg, v, id, key, request, saved) == Conflict
            && Next(cfg, v, DoStart(id, key, request, now, saved)) == v
  {
    RunKeepsClosed(cfg, Next(cfg, w, DoClose), after);
  }

  // ----- undisturbed jobs -----

  /** No cancel of this job, no failed write of its start, no crash. */
  predicate Undisturbed(s: Step, id: JobId) {
    !s.DoCrash? && !(s.DoCancel? && s.id == id) && !(s.DoPreflight? && s.id == id && !s.saved)
  }

  ghost predicate OnItsWay(w: World, id: JobId) {
    && w.up && id in w.jobs
    && (WasInvoked(w.invoked, id)
        || (id in w.work && !w.jobs[id].cancelRequested && !Terminal(w.jobs[id].state)
            && (w.work[id].phase == Pending || w.work[id].phase == Dequeued || w.work[id].phase == Ready)))
  }

  lemma InvokeKeepsWay(cfg: Config, w: World, s: Step, id: JobId)
    requires Enabled(w, s) && s.DoInvoke? && OnItsWay(w, id)
    ensures OnItsWay(Next(cfg, w, s), id)
  {
    InvokedGrows(w.invoked, Invocation(s.id, w.work[s.id].key));
  }

  lemma PreflightKeepsWay(cfg: Config, w: World, s: Step, id: JobId)
    requires Enabled(w, s) && s.DoPreflight? && Undisturbed(s, id) && OnItsWay(w, id)
    ensures OnItsWay(Next(cfg, w, s), id)
  {
  }

  lemma WriteKeepsWay(cfg: Config, w: World, s: Step, id: JobId)
    requires Enabled(w, s) && (s.DoStart? || s.DoCancel? || s.DoRecord?) && Undisturbed(s, id) && OnItsWay(w, id)
    ensures OnItsWay(Next(cfg, w, s), id)
  {
  }

  lemma MoveKeepsWay(cfg: Config, w: World, s: Step, id: JobId)
    requires Enabled(w, s) && OnItsWay(w, id)
    requires s.DoDequeue? || s.DoEnd? || s.DoSettle? || s.DoCallback? || s.DoClose? || s.DoReload?
    ensures OnItsWay(Next(cfg, w, s), id)
  {
  }

  lemma {:induction false} RunKeepsWay(cfg: Config, w: World, steps: seq<Step>, id: JobId)
    requires OnItsWay(w, id) && forall i :: 0 <= i < |steps| ==> Undisturbed(steps[i], id)
    ensures OnItsWay(Execute(cfg, w, steps), id)
    decreases |steps|
  {
    if steps != [] {
      var s := steps[0];
      if !Enabled(w, s) {
      } else if s.DoInvoke? {
        InvokeKeepsWay(cfg, w, s, id);
      } else if s.DoPreflight? {
        PreflightKeepsWay(cfg, w, s, id);
      } else if s.DoStart? || s.DoCancel? || s.DoRecord? {
        WriteKeepsWay(cfg, w, s, id);
      } else {
        MoveKeepsWay(cfg, w, s, id);
      }
      RunKeepsWay(cfg, Next(cfg, w, s), steps[1..], id);
    }
  }

  /** An accepted job that is not cancelled, whose start can be journalled, does not end before its runner was called. */
  lemma UndisturbedJobRuns(cfg: Config, before: seq<Step>, after: seq<Step>, id: JobId, key: Option<Key>, request: Digest, now: Time)
    requires CanStart(Execute(cfg, INITIAL, before), id)
    requires StartReply(cfg, Execute(cfg, INITIAL, before), id, key, request, true) == Accepted(id, false)
    requires forall i :: 0 <= i < |after| ==> Undisturbed(after[i], id)
    ensures var v := Execute(cfg, Next(cfg, Execute(cfg, INITIAL, before), DoStart(id, key, request, now, true)), after);
            id in v.jobs && (Terminal(v.jobs[id].state) ==> WasInvoked(v.invoked, id))
  {
    StartAdds(cfg, Execute(cfg, INITIAL, before), id, key, request, now, true);
    RunKeepsWay(cfg, Next(cfg, Execute(cfg, INITIAL, before), DoStart(id, key, request, now, true)), after, id);
  }

  /** A start that cannot be journalled ends the job as failed, with that reason and without a call of its runner. */
  lemma UnsavedStartFails(cfg: Config, before: seq<Step>, after: seq<Step>, id: JobId, now: Time)
    requires CrashFree(after)
    requires var w := Execute(cfg, INITIAL, before); w.up && InPhase(w, id, Dequeued) && !w.jobs[id].cancelRequested
    ensures var v := Execute(cfg, Next(cfg, Execute(cfg, INITIAL, before), DoPreflight(id, now, false)), after);
            id in v.jobs && (Terminal(v.jobs[id].state) ==> v.jobs[id].state == Failed && v.jobs[id].errorDetail == Some(JournalWriteFailed))
  {
    var w := Execute(cfg, INITIAL, before);
    var u := Next(cfg, w, DoPreflight(id, now, false));
    ReachableInv(cfg, before);
    NextKeepsInv(cfg, w, DoPreflight(id, now, false));
    UnsavedPreflightEnds(cfg, w, id, now);
    RunKeepsConcluding(cfg, u, after, id, Raised(JournalWriteFailed));
    RunKeepsInv(cfg, u, after);
    var v := Execute(cfg, u, after);
    if Terminal(v.jobs[id].state) { ConcludedIsRecorded(cfg, v, id, Raised(JournalWriteFailed)); }
  }

  lemma UnsavedPreflightEnds(cfg: Config, w: World, id: JobId, now: Time)
    requires w.up && InPhase(w, id, Dequeued) && !w.jobs[id].cancelRequested
    ensures Concluding(Next(cfg, w, DoPreflight(id, now, false)), id, Raised(JournalWriteFailed))
  {
  }
}
