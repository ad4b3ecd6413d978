/**
 A leased run of keyboard actions: the client acquires the control lease, posts the actions in batches, and
 whatever the device answers tries to release the keys and the lease.
 */
module HidTransaction {
  import opened Common
  import opened Hid

  datatype Request = Acquire | Perform(actions: seq<Action>) | Release

  /** Busy is the answer that is worth another attempt. */
  datatype Reply = Accepted | Busy | Refused

  datatype Post = Post(request: Request, reply: Reply)

  /** Everything posted so far, the latest last. */
  type Log = seq<Post>

  /** What the device answers to its n-th post; nothing is known about it. */
  type Oracle = nat -> Reply

  /** How often a post is tried while the device is busy. */
  type Attempts = k: int | 1 <= k witness 4

  // ----- what is posted -----

  function Posted(oracle: Oracle, log: Log, request: Request): Log {
    log + [Post(request, oracle(|log|))]
  }

  function Retried(oracle: Oracle, log: Log, request: Request, attempts: Attempts): Log
    decreases attempts
  {
    var now := Posted(oracle, log, request);
    if oracle(|log|).Busy? && attempts > 1 then Retried(oracle, now, request, attempts - 1) else now
  }

  /** The latest post was accepted. */
  predicate Delivered(log: Log) {
    log != [] && log[|log| - 1].reply.Accepted?
  }

  /** The batches in turn, until one is not accepted. */
  function Batched(oracle: Oracle, log: Log, batches: seq<seq<Action>>, attempts: Attempts): Log
    decreases |batches|
  {
    if batches == [] then log
    else
      var now := Retried(oracle, log, Perform(batches[0]), attempts);
      if Delivered(now) then Batched(oracle, now, batches[1..], attempts) else now
  }

  /** The actions with a final release of all keys. */
  function Submitted(actions: seq<Action>): seq<Action> {
    if EndsReleased(actions) then actions else actions + [ReleaseAll]
  }

  datatype Failure =
    | LeaseRefused
    | Failed(primary: bool, releaseAllFailed: bool, leaseReleaseFailed: bool)

  /** The log after the batches, after the cleanup and after the release of the lease. */
  datatype Run = Run(batched: Log, cleaned: Log, released: Log)

  function Leased(oracle: Oracle, log: Log, actions: seq<Action>, attempts: Attempts): Run {
    var batched := Batched(oracle, log, Batches(Submitted(actions)), attempts);
    var cleaned := if Delivered(batched) then batched else Retried(oracle, batched, Perform([ReleaseAll]), attempts);
    Run(batched, cleaned, Posted(oracle, cleaned, Release))
  }

  function Outcome(run: Run): Result<(), Failure> {
    var primary := !Delivered(run.batched);
    if Delivered(run.batched) && Delivered(run.released) then Ok(())
    else Err(Failed(primary, primary && !Delivered(run.cleaned), !Delivered(run.released)))
  }

  function BatchesFrom(actions: seq<Action>, start: nat): seq<seq<Action>> {
    if start < |actions| then Batches(actions[start..]) else []
  }

  lemma NextBatch(actions: seq<Action>, start: nat)
    requires start < |actions|
    ensures var end := if start + BATCH < |actions| then start + BATCH else |actions|;
            BatchesFrom(actions, start) == [actions[start..end]] + BatchesFrom(actions, start + BATCH)
  {
    var left := actions[start..];
    if |left| > BATCH {
      assert left[..BATCH] == actions[start..start + BATCH] && left[BATCH..] == actions[start + BATCH..];
    } else {
      assert actions[start..|actions|] == left;
    }
  }

  // ----- the shape of what is posted -----

  /** `now` continues `log`, with batches of actions only. */
  ghost predicate OnlyBatches(log: Log, now: Log) {
    && |log| <= |now| && now[..|log|] == log
    && forall i :: |log| <= i < |now| ==> now[i].request.Perform? && 1 <= |now[i].request.actions| <= BATCH
  }

  /** One request is posted again only after a busy answer, and given up after the last attempt. */
  lemma {:induction false} RetryShape(oracle: Oracle, log: Log, request: Request, attempts: Attempts)
    ensures var now := Retried(oracle, log, request, attempts);
            && |log| < |now| <= |log| + attempts && now[..|log|] == log
            && (forall i :: |log| <= i < |now| ==> now[i].request == request)
            && (forall i :: |log| <= i < |now| - 1 ==> now[i].reply.Busy?)
            && (now[|now| - 1].reply.Busy? ==> |now| == |log| + attempts)
    decreases attempts
  {
    if oracle(|log|).Busy? && attempts > 1 {
      var next := Posted(oracle, log, request);
      var now := Retried(oracle, next, request, attempts - 1);
      RetryShape(oracle, next, request, attempts - 1);
      assert now[..|log|] == now[..|next|][..|log|];
      assert now[|log|] == now[..|next|][|log|];
    }
  }

  lemma {:induction false} BatchShape(oracle: Oracle, log: Log, batches: seq<seq<Action>>, attempts: Attempts)
    requires forall b :: b in batches ==> 1 <= |b| <= BATCH
    ensures OnlyBatches(log, Batched(oracle, log, batches, attempts))
    decreases |batches|
  {
    if batches != [] {
      var now := Retried(oracle, log, Perform(batches[0]), attempts);
      RetryShape(oracle, log, Perform(batches[0]), attempts);
      assert batches[0] in batches;
      if Delivered(now) {
        BatchShape(oracle, now, batches[1..], attempts);
        Continues(log, now, Batched(oracle, now, batches[1..], attempts));
      }
    }
  }

  lemma Continues(log: Log, middle: Log, now: Log)
    requires OnlyBatches(log, middle) && OnlyBatches(middle, now)
    ensures OnlyBatches(log, now)
  {
    assert now[..|log|] == now[..|middle|][..|log|];
    forall i | |log| <= i < |middle| ensures now[i] == middle[i] {
      assert now[i] == now[..|middle|][i];
    }
  }

  /** Once the lease is held, batches are all that is posted before one attempt to give it back, the last post. */
  lemma LeaseReleasedLast(oracle: Oracle, leased: Log, actions: seq<Action>, attempts: Attempts)
    ensures var run := Leased(oracle, leased, actions, attempts);
            && OnlyBatches(leased, run.cleaned)
            && |run.released| == |run.cleaned| + 1 && run.released[..|run.cleaned|] == run.cleaned
            && run.released[|run.cleaned|].request == Release
  {
    var run := Leased(oracle, leased, actions, attempts);
    BatchesJoin(Submitted(actions));
    BatchShape(oracle, leased, Batches(Submitted(actions)), attempts);
    if !Delivered(run.batched) {
      RetryShape(oracle, run.batched, Perform([ReleaseAll]), attempts);
      Continues(leased, run.batched, run.cleaned);
    }
  }

  /** A batch that is not delivered is followed by a separate attempt to release all keys, and only then. */
  lemma CleanupReleasesKeys(oracle: Oracle, leased: Log, actions: seq<Action>, attempts: Attempts)
    ensures var run := Leased(oracle, leased, actions, attempts);
            if Delivered(run.batched) then run.cleaned == run.batched
            else
              && |run.batched| < |run.cleaned| && run.cleaned[..|run.batched|] == run.batched
              && forall i :: |run.batched| <= i < |run.cleaned| ==> run.cleaned[i].request == Perform([ReleaseAll])
  {
    RetryShape(oracle, Leased(oracle, leased, actions, attempts).batched, Perform([ReleaseAll]), attempts);
  }

  // ----- which batches are accepted -----

  ghost function AcceptedBatch(post: Post): seq<seq<Action>> {
    if post.request.Perform? && post.reply.Accepted? then [post.request.actions] else []
  }

  ghost function AcceptedBatches(log: Log): seq<seq<Action>> {
    if log == [] then [] else AcceptedBatches(log[..|log| - 1]) + AcceptedBatch(log[|log| - 1])
  }

  lemma AcceptedPosted(oracle: Oracle, log: Log, request: Request)
    ensures AcceptedBatches(Posted(oracle, log, request)) == AcceptedBatches(log) + AcceptedBatch(Post(request, oracle(|log|)))
  {
    assert Posted(oracle, log, request)[..|log|] == log;
  }

  lemma {:induction false} AcceptedRetried(oracle: Oracle, log: Log, actions: seq<Action>, attempts: Attempts)
    ensures var now := Retried(oracle, log, Perform(actions), attempts);
            AcceptedBatches(now) == AcceptedBatches(log) + if Delivered(now) then [actions] else []
    decreases attempts
  {
    AcceptedPosted(oracle, log, Perform(actions));
    if oracle(|log|).Busy? && attempts > 1 {
      AcceptedRetried(oracle, Posted(oracle, log, Perform(actions)), actions, attempts - 1);
    }
  }

  /** How many batches are delivered. */
  ghost function DeliveredCount(oracle: Oracle, log: Log, batches: seq<seq<Action>>, attempts: Attempts): (k: nat)
    ensures k <= |batches|
    decreases |batches|
  {
    if batches == [] then 0
    else
      var now := Retried(oracle, log, Perform(batches[0]), attempts);
      if Delivered(now) then 1 + DeliveredCount(oracle, now, batches[1..], attempts) else 0
  }

  lemma TakeOneMore<T>(a: seq<T>, s: seq<T>, k: nat)
    requires s != [] && k < |s|
    ensures (a + [s[0]]) + s[1..][..k] == a + s[..k + 1]
  {
  }

  lemma Associates<T>(a: seq<T>, b: seq<T>, c: seq<T>)
    ensures (a + b) + c == a + (b + c)
  {
  }

  /** The accepted batches are the first ones, each once and in order. */
  lemma {:induction false} BatchesInOrder(oracle: Oracle, log: Log, batches: seq<seq<Action>>, attempts: Attempts)
    ensures AcceptedBatches(Batched(oracle, log, batches, attempts))
            == AcceptedBatches(log) + batches[..DeliveredCount(oracle, log, batches, attempts)]
    decreases |batches|
  {
    if batches != [] {
      var now := Retried(oracle, log, Perform(batches[0]), attempts);
      AcceptedRetried(oracle, log, batches[0], attempts);
      if Delivered(now) {
        BatchesInOrder(oracle, now, batches[1..], attempts);
        TakeOneMore(AcceptedBatches(log), batches, DeliveredCount(oracle, now, batches[1..], attempts));
      }
    }
  }

  /** The batch after them was tried in vain, and none later. */
  lemma {:induction false} StopsAtFirstFailure(oracle: Oracle, log: Log, batches: seq<seq<Action>>, attempts: Attempts)
    requires batches != []
    ensures var now := Batched(oracle, log, batches, attempts);
            var k := DeliveredCount(oracle, log, batches, attempts);
            if k == |batches| then Delivered(now)
            else now != [] && !Delivered(now) && now[|now| - 1].request == Perform(batches[k])
    decreases |batches|
  {
    var now := Retried(oracle, log, Perform(batches[0]), attempts);
    RetryShape(oracle, log, Perform(batches[0]), attempts);
    if Delivered(now) && |batches| > 1 {
      StopsAtFirstFailure(oracle, now, batches[1..], attempts);
    }
  }

  // ----- what the device is left with -----

  datatype Device = Device(held: set<string>, executed: seq<Action>, leased: bool)

  /** How many of its actions a batch executes although it is not accepted. */
  type Leak = nat -> nat

  ghost function Effect(d: Device, post: Post, leak: nat): Device {
    match post.request
    case Acquire => if post.reply.Accepted? then d.(leased := true) else d
    case Release => if post.reply.Accepted? then d.(leased := false) else d
    case Perform(actions) =>
      var done := if post.reply.Accepted? || |actions| <= leak then actions else actions[..leak];
      d.(held := PressAll(d.held, done), executed := d.executed + done)
  }

  /** The device after all the posts. */
  ghost function After(d: Device, log: Log, leak: Leak): Device {
    if log == [] then d else Effect(After(d, log[..|log| - 1], leak), log[|log| - 1], leak(|log| - 1))
  }

  lemma AfterPosted(d: Device, oracle: Oracle, log: Log, request: Request, leak: Leak)
    ensures After(d, Posted(oracle, log, request), leak) == Effect(After(d, log, leak), Post(request, oracle(|log|)), leak(|log|))
  {
    assert Posted(oracle, log, request)[..|log|] == log;
  }

  lemma {:induction false} RetriedReleases(d: Device, oracle: Oracle, log: Log, actions: seq<Action>, attempts: Attempts, leak: Leak)
    requires EndsReleased(actions)
    ensures var now := Retried(oracle, log, Perform(actions), attempts);
            Delivered(now) ==> After(d, now, leak).held == {}
    decreases attempts
  {
    var next := Posted(oracle, log, Perform(actions));
    AfterPosted(d, oracle, log, Perform(actions), leak);
    if oracle(|log|).Busy? && attempts > 1 {
      RetriedReleases(d, oracle, next, actions, attempts - 1, leak);
    } else if Delivered(next) {
      ReleasedHoldsNothing(After(d, log, leak).held, actions);
    }
  }

  lemma {:induction false} BatchedReleases(d: Device, oracle: Oracle, log: Log, batches: seq<seq<Action>>, attempts: Attempts, leak: Leak)
    requires batches != [] && EndsReleased(batches[|batches| - 1])
    ensures var now := Batched(oracle, log, batches, attempts);
            Delivered(now) ==> After(d, now, leak).held == {}
    decreases |batches|
  {
    var now := Retried(oracle, log, Perform(batches[0]), attempts);
    if Delivered(now) {
      if |batches| == 1 {
        RetriedReleases(d, oracle, log, batches[0], attempts, leak);
      } else {
        BatchedReleases(d, oracle, now, batches[1..], attempts, leak);
      }
    }
  }

  /** Whatever the device answers and executes: a key still held, or a lease not given back, is reported. */
  lemma NothingLeftUnreported(d: Device, oracle: Oracle, leased: Log, actions: seq<Action>, attempts: Attempts, leak: Leak)
    ensures var run := Leased(oracle, leased, actions, attempts);
            var end, r := After(d, run.released, leak), Outcome(run);
            && (end.held != {} ==> r.Err? && r.error.Failed? && r.error.releaseAllFailed)
            && (end.leased ==> r.Err? && r.error.Failed? && r.error.leaseReleaseFailed)
  {
    var run := Leased(oracle, leased, actions, attempts);
    AfterPosted(d, oracle, run.cleaned, Release, leak);
    LastBatchReleases(Submitted(actions));
    BatchedReleases(d, oracle, leased, Batches(Submitted(actions)), attempts, leak);
    RetriedReleases(d, oracle, run.batched, [ReleaseAll], attempts, leak);
  }

  lemma {:induction false} ConcatAppends(a: seq<seq<Action>>, b: seq<seq<Action>>)
    ensures Concat(a + b) == Concat(a) + Concat(b)
    decreases |a|
  {
    if a == [] {
      assert a + b == b;
    } else {
      ConcatAppends(a[1..], b);
      assert (a + b)[1..] == a[1..] + b;
      Associates(a[0], Concat(a[1..]), Concat(b));
    }
  }

  lemma ExecutedByPost(d: Device, post: Post)
    ensures Effect(d, post, 0).executed == d.executed + Concat(AcceptedBatch(post))
  {
    if post.request.Perform? {
      var actions := post.request.actions;
      if post.reply.Accepted? {
        assert AcceptedBatch(post)[1..] == [];
        assert Concat(AcceptedBatch(post)) == actions + [] == actions;
      } else {
        assert actions[..0] == [];
      }
    }
  }

  /** When batches that are not accepted have no effect, the device has executed the accepted ones. */
  lemma {:induction false} ExecutedIsAccepted(d: Device, log: Log, leak: Leak)
    requires forall n :: leak(n) == 0
    ensures After(d, log, leak).executed == d.executed + Concat(AcceptedBatches(log))
    decreases |log|
  {
    if log != [] {
      var before, post := log[..|log| - 1], log[|log| - 1];
      ExecutedIsAccepted(d, before, leak);
      ExecutedByPost(After(d, before, leak), post);
      ConcatAppends(AcceptedBatches(before), AcceptedBatch(post));
      Associates(d.executed, Concat(AcceptedBatches(before)), Concat(AcceptedBatch(post)));
    }
  }

  lemma ExecutedFrom(d: Device, log: Log, now: Log, batches: seq<seq<Action>>, leak: Leak)
    requires forall n :: leak(n) == 0
    requires AcceptedBatches(now) == AcceptedBatches(log) + batches
    ensures After(d, now, leak).executed == After(d, log, leak).executed + Concat(batches)
  {
    ExecutedIsAccepted(d, log, leak);
    ExecutedIsAccepted(d, now, leak);
    ConcatAppends(AcceptedBatches(log), batches);
    Associates(d.executed, Concat(AcceptedBatches(log)), Concat(batches));
  }

  lemma AllAccepted(oracle: Oracle, leased: Log, actions: seq<Action>, attempts: Attempts)
    requires Delivered(Leased(oracle, leased, actions, attempts).batched)
    ensures AcceptedBatches(Leased(oracle, leased, actions, attempts).released)
            == AcceptedBatches(leased) + Batches(Submitted(actions))
  {
    var run, batches := Leased(oracle, leased, actions, attempts), Batches(Submitted(actions));
    LastBatchReleases(Submitted(actions));
    BatchesInOrder(oracle, leased, batches, attempts);
    StopsAtFirstFailure(oracle, leased, batches, attempts);
    AcceptedPosted(oracle, run.cleaned, Release);
    assert batches[..|batches|] == batches;
  }

  /** A normal return: the actions and the release were executed once, in order; no key is held and the lease is free. */
  lemma NormalReturn(d: Device, oracle: Oracle, leased: Log, actions: seq<Action>, attempts: Attempts, leak: Leak)
    requires forall n :: leak(n) == 0
    requires Outcome(Leased(oracle, leased, actions, attempts)).Ok?
    ensures var end := After(d, Leased(oracle, leased, actions, attempts).released, leak);
            && end.executed == After(d, leased, leak).executed + Submitted(actions)
            && end.held == {} && !end.leased
  {
    NothingLeftUnreported(d, oracle, leased, actions, attempts, leak);
    AllAccepted(oracle, leased, actions, attempts);
    ExecutedFrom(d, leased, Leased(oracle, leased, actions, attempts).released, Batches(Submitted(actions)), leak);
    BatchesJoin(Submitted(actions));
  }

  /** What is submitted ends with a release of all keys, and is what was asked for up to a release added at most. */
  lemma SubmittedEndsReleased(actions: seq<Action>)
    ensures var s := Submitted(actions);
            && s != [] && s[|s| - 1] == ReleaseAll && actions <= s
            && |s| == |actions| + (if actions != [] && actions[|actions| - 1] == ReleaseAll then 0 else 1)
  {
  }

  ghost predicate LastAccepted(log: Log) {
    log != [] && log[|log| - 1].reply == Accepted
  }

  /**
   The report is exact: a transaction returns normally exactly when every batch was accepted and so was the release of the
   lease; otherwise each part that failed is named, and no other.
   */
  lemma ReportIsExact(oracle: Oracle, leased: Log, actions: seq<Action>, attempts: Attempts)
    ensures var run := Leased(oracle, leased, actions, attempts);
            var all := AcceptedBatches(run.batched) == AcceptedBatches(leased) + Batches(Submitted(actions));
            Outcome(run) == if all && LastAccepted(run.released) then Ok(())
                            else Err(Failed(!all, !all && !LastAccepted(run.cleaned), !LastAccepted(run.released)))
  {
    var run, batches := Leased(oracle, leased, actions, attempts), Batches(Submitted(actions));
    LastBatchReleases(Submitted(actions));
    BatchesInOrder(oracle, leased, batches, attempts);
    StopsAtFirstFailure(oracle, leased, batches, attempts);
    var k := DeliveredCount(oracle, leased, batches, attempts);
    if k == |batches| {
      assert batches[..k] == batches;
    } else {
      assert |AcceptedBatches(leased) + batches[..k]| < |AcceptedBatches(leased) + batches|;
    }
  }

  // ----- the client -----

  class Client {
    const oracle: Oracle
    const attempts: Attempts
    var log: Log

    constructor (oracle: Oracle)
      ensures this.oracle == oracle && attempts == 4 && log == []
    {
      this.oracle, attempts, log := oracle, 4, [];
    }

    method PostJson(request: Request) returns (reply: Reply)
      modifies this
      ensures log == Posted(oracle, old(log), request) && reply == oracle(|old(log)|)
    {
      reply := oracle(|log|);
      log := log + [Post(request, reply)];
    }

    method PostRetryBusy(request: Request) returns (reply: Reply)
      modifies this
      ensures log == Retried(oracle, old(log), request, attempts) && (reply.Accepted? <==> Delivered(log))
    {
      var attempt := 0;
      reply := Busy;
      while attempt < attempts
        invariant attempt < attempts
        invariant Retried(oracle, log, request, attempts - attempt) == Retried(oracle, old(log), request, attempts)
        decreases attempts - attempt
      {
        reply := PostJson(request);
        if !reply.Busy? || attempt + 1 >= attempts { return; }
        attempt := attempt + 1;
      }
    }

    method PostBatches(submitted: seq<Action>) returns (failed: bool)
      requires submitted != []
      modifies this
      ensures log == Batched(oracle, old(log), Batches(submitted), attempts) && (failed <==> !Delivered(log))
    {
      var start := 0;
      failed := false;
      assert submitted[0..] == submitted;
      while start < |submitted|
        invariant start > 0 ==> Delivered(log)
        invariant Batched(oracle, log, BatchesFrom(submitted, start), attempts)
                  == Batched(oracle, old(log), Batches(submitted), attempts)
      {
        var end := if start + BATCH < |submitted| then start + BATCH else |submitted|;
        NextBatch(submitted, start);
        assert BatchesFrom(submitted, start)[1..] == BatchesFrom(submitted, start + BATCH);
        var reply := PostRetryBusy(Perform(submitted[start..end]));
        if !reply.Accepted? { failed := true; return; }
        start := start + BATCH;
      }
    }

    method SafeHidTransaction(actions: seq<Action>) returns (r: Result<(), Failure>)
      modifies this
      ensures var leased := Posted(oracle, old(log), Acquire);
              var run := Leased(oracle, leased, actions, attempts);
              if Delivered(leased) then log == run.released && r == Outcome(run)
              else log == leased && r == Err(LeaseRefused)
    {
      var lease := PostJson(Acquire);
      if !lease.Accepted? { return Err(LeaseRefused); }
      var submitted := actions;
      if submitted == [] || submitted[|submitted| - 1] != ReleaseAll {
        submitted := submitted + [ReleaseAll];
      }
      var primary := PostBatches(submitted);
      var releaseAllFailed := false;
      if primary {
        var reply := PostRetryBusy(Perform([ReleaseAll]));
        releaseAllFailed := !reply.Accepted?;
      }
      var release := PostJson(Release);
      if primary || !release.Accepted? {
        return Err(Failed(primary, releaseAllFailed, !release.Accepted?));
      }
      r := Ok(());
    }
  }
}
