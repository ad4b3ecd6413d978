/**
 No run of the operations job manager is stuck: from every reachable world the pool alone can bring every run to
 an end, however its runners end and whichever journal writes fail.
 */
module OpsJobProgress {
  import opened ThreadPool
  import opened OpsJobSpec
  import opened OpsJobProofs

  predicate PoolMove(s: Step) {
    s.DoDequeue? || s.DoPreflight? || s.DoInvoke? || s.DoEnd? || s.DoRecord? || s.DoSettle? || s.DoCallback?
  }

  predicate PoolMoves(steps: seq<Step>) {
    forall i :: 0 <= i < |steps| ==> PoolMove(steps[i])
  }

  /** The next move for an item; a runner that is called ends as `end`. */
  function MoveFor(run: RunId, p: Phase, end: RunnerEnd, now: Time, saved: bool): Step {
    match p
    case Pending => DoDequeue(run)
    case Dequeued => DoPreflight(run, now, saved)
    case Ready => DoInvoke(run)
    case Invoking => DoEnd(run, end)
    case Ended(_) => DoRecord(run, now, saved)
    case Finished => DoSettle(run)
    case Settled => DoCallback(run)
  }

  /** A run in the pool, at a time not after `now`. */
  ghost predicate InPool(w: World, run: RunId, now: Time) {
    w.up && w.clock <= now && run in w.mem.work && run in w.mem.runs
  }

  /** One item has come closer to leaving the pool, and nothing else has changed there. */
  ghost predicate Advanced(w: World, v: World, run: RunId, now: Time)
    requires run in w.mem.work
  {
    && v.up && v.clock <= now && v.mem.runs.Keys == w.mem.runs.Keys
    && (if w.mem.work[run].phase.Settled? then v.mem.work.Keys == w.mem.work.Keys - {run}
        else run in v.mem.work && v.mem.work.Keys == w.mem.work.Keys && MovesLeft(v.mem.work[run].phase) < MovesLeft(w.mem.work[run].phase))
  }

  lemma ReplacedKeys<K, V>(m: map<K, V>, k: K, v: V)
    requires k in m
    ensures m[k := v].Keys == m.Keys
  {
  }

  lemma PreflightEffect(w: World, run: RunId, now: Time, saved: bool)
    requires InPool(w, run, now) && w.mem.work[run].phase.Dequeued?
    ensures Advanced(w, Preflight(w, run, now, saved), run, now)
  {
    var r := w.mem.runs[run];
    if r.cancelRequested {
      var ended := CancelledRun(r, now);
      ReplacedKeys(w.mem.runs, run, if saved then ended else ended.(journalError := true));
      ReplacedKeys(w.mem.work, run, w.mem.work[run].(phase := Finished));
    } else {
      ReplacedKeys(w.mem.runs, run, StartedRun(r, now));
      ReplacedKeys(w.mem.work, run, w.mem.work[run].(phase := if saved then Ready else Ended(PreflightFailed)));
    }
  }

  lemma PreflightAdvances(cfg: Config, w: World, run: RunId, now: Time, saved: bool)
    requires InPool(w, run, now) && w.mem.work[run].phase.Dequeued?
    ensures Advanced(w, Next(cfg, w, DoPreflight(run, now, saved)), run, now)
  {
    PreflightEffect(w.(clock := now), run, now, saved);
  }

  lemma RecordAdvances(cfg: Config, w: World, run: RunId, now: Time, saved: bool)
    requires InPool(w, run, now) && w.mem.work[run].phase.Ended?
    ensures Advanced(w, Next(cfg, w, DoRecord(run, now, saved)), run, now)
  {
    var v := Next(cfg, w, DoRecord(run, now, saved));
    assert v.mem.work.Keys == w.mem.work.Keys + {run} == w.mem.work.Keys;
    assert v.mem.runs.Keys == w.mem.runs.Keys + {run} == w.mem.runs.Keys;
  }

  lemma CallbackAdvances(cfg: Config, w: World, run: RunId, now: Time)
    requires InPool(w, run, now) && w.mem.work[run].phase.Settled?
    ensures Advanced(w, Next(cfg, w, DoCallback(run)), run, now)
  {
  }

  lemma PhaseAdvances(w: World, run: RunId, p: Phase, now: Time)
    requires InPool(w, run, now) && MovesLeft(p) < MovesLeft(w.mem.work[run].phase)
    ensures Advanced(w, SetPhase(w, run, p), run, now)
  {
    assert SetPhase(w, run, p).mem.work.Keys == w.mem.work.Keys + {run} == w.mem.work.Keys;
  }

  lemma DequeueAdvances(cfg: Config, w: World, run: RunId, now: Time)
    requires InPool(w, run, now) && w.mem.work[run].phase.Pending?
    ensures Advanced(w, Next(cfg, w, DoDequeue(run)), run, now)
  {
    PhaseAdvances(w, run, Dequeued, now);
  }

  lemma InvokeAdvances(cfg: Config, w: World, run: RunId, now: Time)
    requires InPool(w, run, now) && w.mem.work[run].phase.Ready?
    ensures Advanced(w, Next(cfg, w, DoInvoke(run)), run, now)
  {
    PhaseAdvances(w, run, Invoking, now);
  }

  lemma EndAdvances(cfg: Config, w: World, run: RunId, end: RunnerEnd, now: Time)
    requires InPool(w, run, now) && w.mem.work[run].phase.Invoking? && !end.PreflightFailed?
    ensures Advanced(w, Next(cfg, w, DoEnd(run, end)), run, now)
  {
    PhaseAdvances(w, run, Ended(end), now);
  }

  lemma SettleAdvances(cfg: Config, w: World, run: RunId, now: Time)
    requires InPool(w, run, now) && w.mem.work[run].phase.Finished?
    ensures Advanced(w, Next(cfg, w, DoSettle(run)), run, now)
  {
    PhaseAdvances(w, run, Settled, now);
  }

  lemma MoveAdvances(cfg: Config, w: World, run: RunId, end: RunnerEnd, now: Time, saved: bool)
    requires InPool(w, run, now) && !end.PreflightFailed?
    ensures PoolMove(MoveFor(run, w.mem.work[run].phase, end, now, saved))
    ensures Advanced(w, Next(cfg, w, MoveFor(run, w.mem.work[run].phase, end, now, saved)), run, now)
  {
    match w.mem.work[run].phase
    case Pending => DequeueAdvances(cfg, w, run, now);
    case Dequeued => PreflightAdvances(cfg, w, run, now, saved);
    case Ready => InvokeAdvances(cfg, w, run, now);
    case Invoking => EndAdvances(cfg, w, run, end, now);
    case Ended(_) => RecordAdvances(cfg, w, run, now, saved);
    case Finished => SettleAdvances(cfg, w, run, now);
    case Settled => CallbackAdvances(cfg, w, run, now);
  }

  lemma {:induction false} ItemDrains(cfg: Config, w: World, run: RunId, end: RunnerEnd, now: Time, saved: bool)
    returns (steps: seq<Step>)
    requires InPool(w, run, now) && !end.PreflightFailed?
    ensures PoolMoves(steps)
    ensures var v := Execute(cfg, w, steps);
            v.up && v.clock <= now && v.mem.runs.Keys == w.mem.runs.Keys && v.mem.work.Keys == w.mem.work.Keys - {run}
    decreases MovesLeft(w.mem.work[run].phase)
  {
    var s := MoveFor(run, w.mem.work[run].phase, end, now, saved);
    MoveAdvances(cfg, w, run, end, now, saved);
    var rest: seq<Step> := [];
    if !w.mem.work[run].phase.Settled? {
      rest := ItemDrains(cfg, Next(cfg, w, s), run, end, now, saved);
    }
    steps := [s] + rest;
    assert steps[1..] == rest;
  }

  lemma {:induction false} PoolDrains(cfg: Config, w: World, end: RunnerEnd, now: Time, saved: bool) returns (steps: seq<Step>)
    requires w.up && w.clock <= now && w.mem.work.Keys <= w.mem.runs.Keys && !end.PreflightFailed?
    ensures PoolMoves(steps)
    ensures var v := Execute(cfg, w, steps); v.up && v.mem.runs.Keys == w.mem.runs.Keys && v.mem.work.Keys == {}
    decreases w.mem.work.Keys
  {
    steps := [];
    if w.mem.work.Keys != {} {
      var run :| run in w.mem.work.Keys;
      var first := ItemDrains(cfg, w, run, end, now, saved);
      var rest := PoolDrains(cfg, Execute(cfg, w, first), end, now, saved);
      ExecuteAppends(cfg, w, first, rest);
      steps := first + rest;
    }
  }

  lemma DrainedMeansEnded(cfg: Config, w: World)
    requires Inv(cfg, w) && w.up && w.mem.work.Keys == {}
    ensures w.mem.futures == {} && forall r :: r in w.mem.runs ==> Terminal(w.mem.runs[r].state)
  {
    forall r | r in w.mem.runs ensures Terminal(w.mem.runs[r].state) {
      assert RunAt(w, r);
    }
  }

  /** From every reachable world, some moves of the pool end every run and free every future. */
  lemma EveryRunCanEnd(cfg: Config, before: seq<Step>, end: RunnerEnd, now: Time, saved: bool) returns (steps: seq<Step>)
    requires var w := Execute(cfg, INITIAL, before); w.up && w.clock <= now
    requires !end.PreflightFailed?
    ensures PoolMoves(steps)
    ensures var w := Execute(cfg, INITIAL, before);
            var v := Execute(cfg, w, steps);
            && v.up && v.mem.work.Keys == {} && v.mem.futures == {}
            && v.mem.runs.Keys == w.mem.runs.Keys && forall r :: r in v.mem.runs ==> Terminal(v.mem.runs[r].state)
  {
    var w := Execute(cfg, INITIAL, before);
    ReachableInv(cfg, before);
    steps := PoolDrains(cfg, w, end, now, saved);
    RunKeepsInv(cfg, w, steps);
    DrainedMeansEnded(cfg, Execute(cfg, w, steps));
  }
}
