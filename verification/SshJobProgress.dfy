/**
 Nothing the SSH job manager accepted is stuck: from every reachable world the pool alone can bring every job to
 an end, however its runners end and whichever journal writes fail.
 */
module SshJobProgress {
  import opened Common
  import opened ThreadPool
  import opened SshJobSpec
  import opened SshJobProofs

  predicate PoolMove(s: Step) {
    s.DoDequeue? || s.DoPreflight? || s.DoInvoke? || s.DoEnd? || s.DoRecord? || s.DoSettle? || s.DoCallback?
  }

  predicate PoolMoves(steps: seq<Step>) {
    forall i :: 0 <= i < |steps| ==> PoolMove(steps[i])
  }

  /** The next move for an item; a runner that is called ends as `end`. */
  function MoveFor(id: JobId, p: Phase, end: RunnerEnd, now: Time, saved: bool): Step {
    match p
    case Pending => DoDequeue(id)
    case Dequeued => DoPreflight(id, now, saved)
    case Ready => DoInvoke(id)
    case Invoking => DoEnd(id, end)
    case Ended(_) => DoRecord(id, now, saved)
    case Finished => DoSettle(id)
    case Settled => DoCallback(id)
  }

  /** It can be made, and brings that item, and no other, closer to leaving the pool. */
  lemma MoveAdvances(cfg: Config, w: World, id: JobId, end: RunnerEnd, now: Time, saved: bool)
    requires w.up && id in w.work && id in w.jobs
    ensures var s := MoveFor(id, w.work[id].phase, end, now, saved);
            var v := Next(cfg, w, s);
            && PoolMove(s) && Enabled(w, s) && v.up && v.jobs.Keys == w.jobs.Keys
            && (if w.work[id].phase.Settled? then v.work == w.work - {id}
                else v.work.Keys == w.work.Keys && MovesLeft(v.work[id].phase) < MovesLeft(w.work[id].phase))
  {
    if w.work[id].phase.Dequeued? {
      PreflightAdvances(cfg, w, id, now, saved);
    } else if w.work[id].phase.Ended? {
      RecordAdvances(cfg, w, id, now, saved);
    } else if !w.work[id].phase.Settled? {
      var s := MoveFor(id, w.work[id].phase, end, now, saved);
      assert Next(cfg, w, s).work.Keys == w.work.Keys + {id} == w.work.Keys;
    }
  }

  lemma ReplacedKeys<K, V>(m: map<K, V>, k: K, v: V)
    requires k in m
    ensures m[k := v].Keys == m.Keys
  {
  }

  lemma PreflightAdvances(cfg: Config, w: World, id: JobId, now: Time, saved: bool)
    requires w.up && id in w.work && id in w.jobs && w.work[id].phase.Dequeued?
    ensures var v := Preflight(cfg, w, id, now, saved);
            v.up && v.jobs.Keys == w.jobs.Keys && v.work.Keys == w.work.Keys && MovesLeft(v.work[id].phase) < MovesLeft(w.work[id].phase)
  {
    var r := w.jobs[id];
    if r.cancelRequested {
      var ended := r.(state := Cancelled, finishedAt := Some(now));
      ReplacedKeys(w.jobs, id, if saved then ended else ended.(journalError := true));
      ReplacedKeys(w.work, id, w.work[id].(phase := Finished));
    } else {
      ReplacedKeys(w.jobs, id, r.(state := Running, startedAt := Some(now)));
      ReplacedKeys(w.work, id, w.work[id].(phase := if saved then Ready else Ended(Raised(JournalWriteFailed))));
    }
  }

  lemma RecordAdvances(cfg: Config, w: World, id: JobId, now: Time, saved: bool)
    requires w.up && id in w.work && id in w.jobs && w.work[id].phase.Ended?
    ensures var v := RecordEnd(cfg, w, id, now, saved);
            v.up && v.jobs.Keys == w.jobs.Keys && v.work.Keys == w.work.Keys && MovesLeft(v.work[id].phase) < MovesLeft(w.work[id].phase)
  {
    var r := OutcomeRecord(w.jobs[id], w.work[id].phase.end, now);
    ReplacedKeys(w.jobs, id, if saved then r else r.(journalError := true));
    ReplacedKeys(w.work, id, w.work[id].(phase := Finished));
  }

  lemma {:induction false} ItemDrains(cfg: Config, w: World, id: JobId, end: RunnerEnd, now: Time, saved: bool)
    returns (steps: seq<Step>)
    requires w.up && id in w.work && id in w.jobs
    ensures PoolMoves(steps)
    ensures var v := Execute(cfg, w, steps); v.up && v.jobs.Keys == w.jobs.Keys && v.work.Keys == w.work.Keys - {id}
    decreases MovesLeft(w.work[id].phase)
  {
    var s := MoveFor(id, w.work[id].phase, end, now, saved);
    MoveAdvances(cfg, w, id, end, now, saved);
    var rest: seq<Step> := [];
    if !w.work[id].phase.Settled? {
      rest := ItemDrains(cfg, Next(cfg, w, s), id, end, now, saved);
    }
    steps := [s] + rest;
    assert steps[1..] == rest;
  }

  lemma {:induction false} PoolDrains(cfg: Config, w: World, end: RunnerEnd, now: Time, saved: bool) returns (steps: seq<Step>)
    requires w.up && w.work.Keys <= w.jobs.Keys
    ensures PoolMoves(steps)
    ensures var v := Execute(cfg, w, steps); v.up && v.jobs.Keys == w.jobs.Keys && v.work.Keys == {}
    decreases w.work.Keys
  {
    steps := [];
    if w.work.Keys != {} {
      var id :| id in w.work.Keys;
      var first := ItemDrains(cfg, w, id, end, now, saved);
      var rest := PoolDrains(cfg, Execute(cfg, w, first), end, now, saved);
      ExecuteAppends(cfg, w, first, rest);
      steps := first + rest;
    }
  }

  lemma DrainedMeansEnded(cfg: Config, w: World)
    requires Inv(cfg, w) && w.up && w.work.Keys == {}
    ensures w.futures == {} && forall id :: id in w.jobs ==> Terminal(w.jobs[id].state)
  {
    forall id | id in w.jobs ensures Terminal(w.jobs[id].state) {
      assert CoherentAt(w, id);
    }
  }

  /** From every reachable world, some moves of the pool end every job and free every future. */
  lemma EveryJobCanEnd(cfg: Config, before: seq<Step>, end: RunnerEnd, now: Time, saved: bool) returns (steps: seq<Step>)
    requires Execute(cfg, INITIAL, before).up
    ensures PoolMoves(steps)
    ensures var w := Execute(cfg, INITIAL, before);
            var v := Execute(cfg, w, steps);
            && v.up && v.work.Keys == {} && v.futures == {}
            && v.jobs.Keys == w.jobs.Keys && forall id :: id in v.jobs ==> Terminal(v.jobs[id].state)
  {
    var w := Execute(cfg, INITIAL, before);
    ReachableInv(cfg, before);
    steps := PoolDrains(cfg, w, end, now, saved);
    RunKeepsInv(cfg, w, steps);
    DrainedMeansEnded(cfg, Execute(cfg, w, steps));
  }
}
