/**
 What every run of the SSH job manager keeps: queue accounting, honest cancellation,
 and at most one runner invocation per idempotency key over crashes and restarts.
 */
module SshJobProofs {
  import opened Common
  import opened ThreadPool
  import opened SshJobSpec

  // ----- the invariant -----

  ghost predicate WasInvoked(invoked: seq<Invocation>, id: JobId) {
    exists i :: 0 <= i < |invoked| && invoked[i].id == id
  }

  ghost predicate InFlight(s: State) {
    s == Running || s == CancelRequested
  }

  /** What each stage of a work item says about its record, the journal and the history. */
  ghost predicate ItemCoherent(item: Item, mem: Record, disk: Record, invoked: bool) {
    && item.key == mem.key
    && match item.phase
       case Pending => !invoked && ((mem.state == Queued && !mem.cancelRequested) || (mem.state == Cancelled && mem.cancelRequested))
       case Dequeued => !invoked && ((mem.state == Queued && !mem.cancelRequested)
                                     || ((mem.state == Cancelled || mem.state == CancelRequested) && mem.cancelRequested))
       case Ready => !invoked && InFlight(mem.state) && InFlight(disk.state)
       case Invoking => invoked && InFlight(mem.state)
       case Ended(_) => InFlight(mem.state)
       case Finished => Terminal(mem.state) && mem.state != Interrupted
       case Settled => Terminal(mem.state) && mem.state != Interrupted
  }

  /** Neither the memory nor the journal ever calls an invoked job queued or cancelled. */
  ghost predicate HonestRecord(r: Record, invoked: bool) {
    invoked ==> r.state != Queued && r.state != Cancelled
  }

  /** The journal lags behind the memory; a terminal state in it is the one in memory. */
  ghost predicate JournalLags(disk: Record, mem: Record) {
    && disk.key == mem.key
    && disk.request == mem.request
    && (Terminal(disk.state) ==> disk.state == mem.state)
  }

  ghost predicate InvokedOnce(invoked: seq<Invocation>) {
    forall i, j :: 0 <= i < j < |invoked| ==> invoked[i].id != invoked[j].id
  }

  ghost predicate HistoryKeyed(invoked: seq<Invocation>, journal: map<JobId, Record>) {
    forall i :: 0 <= i < |invoked| ==> invoked[i].id in journal && invoked[i].key == journal[invoked[i].id].key
  }

  ghost predicate JournalHonest(invoked: seq<Invocation>, journal: map<JobId, Record>) {
    forall id :: id in journal ==> HonestRecord(journal[id], WasInvoked(invoked, id))
  }

  ghost predicate KeysInv(keys: map<Key, JobId>, jobs: map<JobId, Record>) {
    && (forall k :: k in keys ==> keys[k] in jobs && jobs[keys[k]].key == Some(k))
    && (forall id :: id in jobs && jobs[id].key.Some? ==> jobs[id].key.value in keys && keys[jobs[id].key.value] == id)
  }

  ghost predicate Coherent(mem: Record, disk: Record, item: Option<Item>, invoked: bool) {
    && JournalLags(disk, mem)
    && HonestRecord(mem, invoked)
    && HonestRecord(disk, invoked)
    && (if item.Some? then ItemCoherent(item.value, mem, disk, invoked) else Terminal(mem.state))
  }

  ghost function ItemOf(work: map<JobId, Item>, id: JobId): Option<Item> {
    if id in work then Some(work[id]) else None
  }

  ghost predicate AllCoherent(jobs: map<JobId, Record>, journal: map<JobId, Record>, work: map<JobId, Item>, invoked: seq<Invocation>) {
    && work.Keys <= jobs.Keys == journal.Keys
    && forall id :: id in jobs ==> Coherent(jobs[id], journal[id], ItemOf(work, id), WasInvoked(invoked, id))
  }

  ghost predicate MemoryInv(cfg: Config, w: World) {
    && w.futures == w.work.Keys
    && |w.futures| <= Capacity(cfg)
    && KeysInv(w.keys, w.jobs)
    && AllCoherent(w.jobs, w.journal, w.work, w.invoked)
  }

  ghost predicate DownInv(w: World) {
    w.jobs == map[] && w.work == map[] && w.futures == {} && w.keys == map[] && KeysUnique(w.journal)
  }

  ghost predicate Inv(cfg: Config, w: World) {
    && InvokedOnce(w.invoked)
    && HistoryKeyed(w.invoked, w.journal)
    && JournalHonest(w.invoked, w.journal)
    && (if w.up then MemoryInv(cfg, w) else DownInv(w))
  }

  // ----- every step keeps it -----

  /** The memory record, the journal record and the phase of one work item are replaced. */
  ghost function Rewritten(w: World, id: JobId, mem: Record, disk: Record, p: Phase): World
    requires id in w.work
  {
    w.(jobs := w.jobs[id := mem], journal := w.journal[id := disk], work := w.work[id := Item(p, w.work[id].key)])
  }

  lemma KeysSurviveRewrite(keys: map<Key, JobId>, jobs: map<JobId, Record>, id: JobId, mem: Record)
    requires KeysInv(keys, jobs) && id in jobs && mem.key == jobs[id].key
    ensures KeysInv(keys, jobs[id := mem])
  {
  }

  lemma HistorySurvivesWrite(invoked: seq<Invocation>, journal: map<JobId, Record>, id: JobId, disk: Record)
    requires HistoryKeyed(invoked, journal) && JournalHonest(invoked, journal)
    requires if id in journal then disk.key == journal[id].key else !WasInvoked(invoked, id)
    requires HonestRecord(disk, WasInvoked(invoked, id))
    ensures HistoryKeyed(invoked, journal[id := disk]) && JournalHonest(invoked, journal[id := disk])
  {
  }

  lemma CoherentSurvivesRewrite(w: World, id: JobId, mem: Record, disk: Record, p: Phase)
    requires AllCoherent(w.jobs, w.journal, w.work, w.invoked) && id in w.work
    requires Coherent(mem, disk, Some(Item(p, w.work[id].key)), WasInvoked(w.invoked, id))
    ensures var v := Rewritten(w, id, mem, disk, p); AllCoherent(v.jobs, v.journal, v.work, v.invoked)
    ensures Rewritten(w, id, mem, disk, p).work.Keys == w.work.Keys
  {
    var v := Rewritten(w, id, mem, disk, p);
    assert v.work.Keys == w.work.Keys && v.jobs.Keys == w.jobs.Keys && v.journal.Keys == w.journal.Keys;
  }

  lemma RewriteKeepsInv(cfg: Config, w: World, id: JobId, mem: Record, disk: Record, p: Phase)
    requires Inv(cfg, w) && w.up && id in w.work
    requires mem.key == w.jobs[id].key
    requires Coherent(mem, disk, Some(Item(p, w.work[id].key)), WasInvoked(w.invoked, id))
    ensures Inv(cfg, Rewritten(w, id, mem, disk, p))
  {
    assert CoherentAt(w, id);
    HistorySurvivesWrite(w.invoked, w.journal, id, disk);
    KeysSurviveRewrite(w.keys, w.jobs, id, mem);
    CoherentSurvivesRewrite(w, id, mem, disk, p);
  }

  /** The invariant's clause for one job, as a handle. */
  ghost predicate CoherentAt(w: World, id: JobId) {
    id in w.jobs && id in w.journal && Coherent(w.jobs[id], w.journal[id], ItemOf(w.work, id), WasInvoked(w.invoked, id))
  }

  lemma PhaseKeepsInv(cfg: Config, w: World, id: JobId, p: Phase)
    requires Inv(cfg, w) && w.up && id in w.work
    requires ItemCoherent(Item(p, w.work[id].key), w.jobs[id], w.journal[id], WasInvoked(w.invoked, id))
    ensures Inv(cfg, SetPhase(w, id, p))
  {
    assert CoherentAt(w, id);
    assert w.jobs[id := w.jobs[id]] == w.jobs && w.journal[id := w.journal[id]] == w.journal;
    assert SetPhase(w, id, p) == Rewritten(w, id, w.jobs[id], w.journal[id], p);
    RewriteKeepsInv(cfg, w, id, w.jobs[id], w.journal[id], p);
  }

  /** A terminal record is put in memory and perhaps in the journal, and `_run` returns. */
  lemma OutcomeKeepsInv(cfg: Config, w: World, id: JobId, r: Record, saved: bool)
    requires Inv(cfg, w) && w.up && id in w.work
    requires Terminal(w.journal[id].state) ==> r.state == w.journal[id].state
    requires r.key == w.jobs[id].key && r.request == w.jobs[id].request && Terminal(r.state) && r.state != Interrupted
    requires HonestRecord(r, WasInvoked(w.invoked, id))
    ensures Inv(cfg, SetPhase(PutOutcome(cfg, w, id, r, saved), id, Finished))
  {
    assert CoherentAt(w, id);
    assert w.journal[id := w.journal[id]] == w.journal;
    var mem := if saved then r else r.(journalError := true);
    var disk := if saved then Saved(cfg, r) else w.journal[id];
    assert SetPhase(PutOutcome(cfg, w, id, r, saved), id, Finished) == Rewritten(w, id, mem, disk, Finished);
    RewriteKeepsInv(cfg, w, id, mem, disk, Finished);
  }

  lemma PreflightKeepsInv(cfg: Config, w: World, id: JobId, now: Time, saved: bool)
    requires Inv(cfg, w) && InPhase(w, id, Dequeued)
    ensures Inv(cfg, Preflight(cfg, w, id, now, saved))
  {
    assert CoherentAt(w, id);
    if w.jobs[id].cancelRequested {
      OutcomeKeepsInv(cfg, w, id, w.jobs[id].(state := Cancelled, finishedAt := Some(now)), saved);
    } else {
      var r := w.jobs[id].(state := Running, startedAt := Some(now));
      if saved {
        RewriteKeepsInv(cfg, w, id, r, Saved(cfg, r), Ready);
      } else {
        assert w.journal[id := w.journal[id]] == w.journal;
        RewriteKeepsInv(cfg, w, id, r, w.journal[id], Ended(Raised(JournalWriteFailed)));
      }
    }
  }

  lemma RecordKeepsInv(cfg: Config, w: World, id: JobId, now: Time, saved: bool)
    requires Inv(cfg, w) && CanRecord(w, id)
    ensures Inv(cfg, RecordEnd(cfg, w, id, now, saved))
  {
    assert CoherentAt(w, id);
    var r := OutcomeRecord(w.jobs[id], w.work[id].phase.end, now);
    assert r.key == w.jobs[id].key && r.request == w.jobs[id].request && (r.state == Failed || r.state == Succeeded);
    OutcomeKeepsInv(cfg, w, id, r, saved);
  }

  lemma InvokeKeepsInv(cfg: Config, w: World, id: JobId)
    requires Inv(cfg, w) && InPhase(w, id, Ready)
    ensures Inv(cfg, Invoke(w, id))
  {
    var v := Invoke(w, id);
    assert CoherentAt(w, id);
    InvokedGrows(w.invoked, Invocation(id, w.work[id].key));
    assert v.work.Keys == w.work.Keys;
  }

  lemma InvokedGrows(invoked: seq<Invocation>, i: Invocation)
    ensures forall x :: WasInvoked(invoked + [i], x) <==> x == i.id || WasInvoked(invoked, x)
    ensures InvokedOnce(invoked) && !WasInvoked(invoked, i.id) ==> InvokedOnce(invoked + [i])
  {
    var more := invoked + [i];
    assert more[|invoked|] == i;
    forall x | WasInvoked(invoked, x) ensures WasInvoked(more, x) {
      var n :| 0 <= n < |invoked| && invoked[n].id == x;
      assert more[n].id == x;
    }
  }

  lemma KeysGrow(keys: map<Key, JobId>, jobs: map<JobId, Record>, id: JobId, r: Record)
    requires KeysInv(keys, jobs) && id !in jobs && (r.key.Some? ==> r.key.value !in keys)
    ensures KeysInv(if r.key.Some? then keys[r.key.value := id] else keys, jobs[id := r])
  {
  }

  lemma CoherentGrows(cfg: Config, w: World, id: JobId, r: Record)
    requires AllCoherent(w.jobs, w.journal, w.work, w.invoked) && id !in w.jobs && !WasInvoked(w.invoked, id)
    requires r.state == Queued && !r.cancelRequested
    ensures AllCoherent(w.jobs[id := r], w.journal[id := Saved(cfg, r)], w.work[id := Item(Pending, r.key)], w.invoked)
  {
    assert w.work[id := Item(Pending, r.key)].Keys == w.work.Keys + {id};
    assert w.jobs[id := r].Keys == w.jobs.Keys + {id} == w.journal[id := Saved(cfg, r)].Keys;
  }

  lemma NewJobNotInvoked(invoked: seq<Invocation>, journal: map<JobId, Record>, id: JobId)
    requires HistoryKeyed(invoked, journal) && id !in journal
    ensures !WasInvoked(invoked, id)
  {
  }

  lemma FuturesGrow(futures: set<JobId>, work: map<JobId, Item>, id: JobId, item: Item)
    requires futures == work.Keys
    ensures futures + {id} == work[id := item].Keys && |futures + {id}| <= |futures| + 1
  {
    if id in futures { assert futures + {id} == futures; }
  }

  lemma AdmitKeepsInv(cfg: Config, w: World, id: JobId, r: Record)
    requires Inv(cfg, w) && CanStart(w, id) && !KeyTaken(w, r.key) && |w.futures| < Capacity(cfg)
    requires r.state == Queued && !r.cancelRequested
    ensures Inv(cfg, Admit(cfg, w, id, r))
  {
    NewJobNotInvoked(w.invoked, w.journal, id);
    HistorySurvivesWrite(w.invoked, w.journal, id, Saved(cfg, r));
    KeysGrow(w.keys, w.jobs, id, r);
    CoherentGrows(cfg, w, id, r);
    FuturesGrow(w.futures, w.work, id, Item(Pending, r.key));
  }

  lemma StartKeepsInv(cfg: Config, w: World, id: JobId, key: Option<Key>, request: Digest, now: Time, saved: bool)
    requires Inv(cfg, w) && CanStart(w, id)
    ensures Inv(cfg, Start(cfg, w, id, key, request, now, saved))
  {
    if !(w.closed || KeyTaken(w, key) || |w.futures| >= Capacity(cfg) || !saved) {
      AdmitKeepsInv(cfg, w, id, NewRecord(key, request, now));
    }
  }

  lemma CancelKeepsInv(cfg: Config, w: World, id: JobId, now: Time, saved: bool)
    requires Inv(cfg, w) && w.up
    ensures Inv(cfg, Cancel(cfg, w, id, now, saved))
  {
    if id in w.jobs && !Terminal(w.jobs[id].state) {
      assert CoherentAt(w, id);
      var r := CancelledRecord(w, id, now);
      assert w.journal[id := w.journal[id]] == w.journal;
      assert w.work[id := w.work[id]] == w.work;
      RewriteKeepsInv(cfg, w, id, r, if saved then Saved(cfg, r) else w.journal[id], w.work[id].phase);
    }
  }

  lemma CallbackKeepsInv(cfg: Config, w: World, id: JobId)
    requires Inv(cfg, w) && InPhase(w, id, Settled)
    ensures Inv(cfg, Callback(w, id))
  {
    assert CoherentAt(w, id);
    assert (w.work - {id}).Keys == w.work.Keys - {id};
  }

  lemma CrashKeepsInv(cfg: Config, w: World)
    requires Inv(cfg, w)
    ensures Inv(cfg, Crash(w))
  {
    if w.up {
      forall a, b | a in w.journal && b in w.journal && w.journal[a].key.Some? && w.journal[a].key == w.journal[b].key
        ensures a == b
      {
        assert CoherentAt(w, a) && CoherentAt(w, b);
      }
    }
  }

  lemma KeyIndexCorrect(records: map<JobId, Record>)
    requires KeysUnique(records)
    ensures KeysInv(KeyIndex(records), records)
  {
    forall id | id in records && records[id].key.Some?
      ensures records[id].key.value in KeyIndex(records) && KeyIndex(records)[records[id].key.value] == id
    {
      var k := records[id].key.value;
      var held := Holder(records, k);
      assert held in records && records[held].key == Some(k);
    }
  }

  /** Reloading one record leaves it terminal, and the journal no further than the memory. */
  lemma RecoveredCoherent(cfg: Config, r: Record, now: Time, saved: bool, invoked: bool)
    requires HonestRecord(r, invoked)
    ensures var mem, disk := Recovered(r, now, saved), RecoveredOnDisk(cfg, r, now, saved);
            Coherent(mem, disk, None, invoked) && mem.key == disk.key == r.key
  {
  }

  lemma ReloadKeepsInv(cfg: Config, w: World, now: Time, rewritten: set<JobId>)
    requires Inv(cfg, w) && !w.up
    ensures Inv(cfg, Reload(cfg, w, now, rewritten))
  {
    var v := Reload(cfg, w, now, rewritten);
    KeyIndexCorrect(w.journal);
    assert v.jobs.Keys == w.journal.Keys && v.journal.Keys == w.journal.Keys;
    forall x | x in w.journal
      ensures CoherentAt(v, x)
      ensures v.jobs[x].key == w.journal[x].key == v.journal[x].key
    {
      RecoveredCoherent(cfg, w.journal[x], now, x in rewritten, WasInvoked(w.invoked, x));
    }
    KeysTransfer(v.keys, w.journal, v.jobs);
  }

  /** `keys` maps to holders among the loaded records, and misses none of their keys. */
  ghost predicate IndexedBy(keys: map<Key, JobId>, records: map<JobId, Record>, loaded: set<JobId>)
    requires loaded <= records.Keys
  {
    && (forall k :: k in keys ==> keys[k] in loaded && records[keys[k]].key == Some(k))
    && (forall id :: id in loaded && records[id].key.Some? ==> records[id].key.value in keys)
  }

  lemma IndexUnique(keys: map<Key, JobId>, records: map<JobId, Record>)
    requires KeysUnique(records) && IndexedBy(keys, records, records.Keys)
    ensures keys == KeyIndex(records)
  {
    KeyIndexCorrect(records);
    assert forall k :: k in keys ==> k in KeyIndex(records) && keys[k] == KeyIndex(records)[k];
    assert forall k :: k in KeyIndex(records) ==> k in keys;
  }

  /** Where keys are unique, every order of the walk gives the same index. */
  lemma {:induction false} WalkIndexes(keys: map<Key, JobId>, files: seq<JobId>, records: map<JobId, Record>, loaded: set<JobId>)
    requires forall i :: 0 <= i < |files| ==> files[i] in records
    requires loaded <= records.Keys && IndexedBy(keys, records, loaded)
    requires forall id :: id in records ==> id in loaded || id in files
    ensures IndexedBy(IndexFiles(keys, files, records), records, records.Keys)
    decreases |files|
  {
    if files == [] {
      assert loaded == records.Keys;
    } else {
      var id := files[0];
      var key := records[id].key;
      WalkIndexes(if key.Some? then keys[key.value := id] else keys, files[1..], records, loaded + {id});
    }
  }

  lemma WalkGivesKeyIndex(files: seq<JobId>, records: map<JobId, Record>)
    requires KeysUnique(records) && forall id :: id in files <==> id in records
    ensures IndexFiles(map[], files, records) == KeyIndex(records)
  {
    WalkIndexes(map[], files, records, {});
    IndexUnique(IndexFiles(map[], files, records), records);
  }

  /** The files in `done` have been loaded; the others are as the crash left them. */
  ghost predicate Loaded(cfg: Config, jobs: map<JobId, Record>, journal: map<JobId, Record>, disk: map<JobId, Record>,
                         done: set<JobId>, now: Time, rewritten: set<JobId>)
  {
    && jobs.Keys == done <= disk.Keys == journal.Keys
    && (forall id :: id in done ==> jobs[id] == Recovered(disk[id], now, id in rewritten))
    && (forall id :: id in disk ==> journal[id] == if id in done then RecoveredOnDisk(cfg, disk[id], now, id in rewritten) else disk[id])
  }

  lemma LoadedGrows(cfg: Config, jobs: map<JobId, Record>, journal: map<JobId, Record>, disk: map<JobId, Record>,
                    done: set<JobId>, now: Time, rewritten: set<JobId>, id: JobId)
    requires Loaded(cfg, jobs, journal, disk, done, now, rewritten) && id in disk && id !in done
    ensures Loaded(cfg, jobs[id := Recovered(disk[id], now, id in rewritten)],
                   journal[id := RecoveredOnDisk(cfg, disk[id], now, id in rewritten)],
                   disk, done + {id}, now, rewritten)
    ensures journal[id] == disk[id]
  {
  }

  lemma LoadedAll(cfg: Config, w: World, jobs: map<JobId, Record>, journal: map<JobId, Record>, keys: map<Key, JobId>,
                  now: Time, rewritten: set<JobId>)
    requires Loaded(cfg, jobs, journal, w.journal, w.journal.Keys, now, rewritten)
    ensures ReloadWith(cfg, w, keys, now, rewritten) == World(true, false, jobs, keys, {}, map[], journal, w.invoked)
  {
    var v := ReloadWith(cfg, w, keys, now, rewritten);
    assert v.jobs == jobs;
    assert v.journal == journal;
  }

  lemma KeysTransfer(keys: map<Key, JobId>, a: map<JobId, Record>, b: map<JobId, Record>)
    requires KeysInv(keys, a) && a.Keys == b.Keys && forall id :: id in a ==> a[id].key == b[id].key
    ensures KeysInv(keys, b)
  {
  }

  lemma MoveKeepsInv(cfg: Config, w: World, s: Step)
    requires Inv(cfg, w) && Enabled(w, s) && (s.DoDequeue? || s.DoEnd? || s.DoSettle?)
    ensures Inv(cfg, Next(cfg, w, s))
  {
    assert CoherentAt(w, s.id);
    PhaseKeepsInv(cfg, w, s.id, if s.DoDequeue? then Dequeued else if s.DoEnd? then Ended(s.end) else Settled);
  }

  lemma WorkerKeepsInv(cfg: Config, w: World, s: Step)
    requires Inv(cfg, w) && Enabled(w, s) && (s.DoPreflight? || s.DoInvoke? || s.DoRecord? || s.DoCallback?)
    ensures Inv(cfg, Next(cfg, w, s))
  {
    match s
    case DoPreflight(id, now, saved) => PreflightKeepsInv(cfg, w, id, now, saved);
    case DoInvoke(id) => InvokeKeepsInv(cfg, w, id);
    case DoRecord(id, now, saved) => RecordKeepsInv(cfg, w, id, now, saved);
    case DoCallback(id) => CallbackKeepsInv(cfg, w, id);
  }

  lemma LifetimeKeepsInv(cfg: Config, w: World, s: Step)
    requires Inv(cfg, w) && Enabled(w, s) && (s.DoClose? || s.DoCrash? || s.DoReload?)
    ensures Inv(cfg, Next(cfg, w, s))
  {
    match s
    case DoClose =>
    case DoCrash => CrashKeepsInv(cfg, w);
    case DoReload(now, rewritten) => ReloadKeepsInv(cfg, w, now, rewritten);
  }

  lemma CallerKeepsInv(cfg: Config, w: World, s: Step)
    requires Inv(cfg, w) && Enabled(w, s) && (s.DoStart? || s.DoCancel?)
    ensures Inv(cfg, Next(cfg, w, s))
  {
    match s
    case DoStart(id, key, request, now, saved) => StartKeepsInv(cfg, w, id, key, request, now, saved);
    case DoCancel(id, now, saved) => CancelKeepsInv(cfg, w, id, now, saved);
  }

  lemma NextKeepsInv(cfg: Config, w: World, s: Step)
    requires Inv(cfg, w)
    ensures Inv(cfg, Next(cfg, w, s))
  {
    if !Enabled(w, s) {
    } else if s.DoStart? || s.DoCancel? {
      CallerKeepsInv(cfg, w, s);
    } else if s.DoDequeue? || s.DoEnd? || s.DoSettle? {
      MoveKeepsInv(cfg, w, s);
    } else if s.DoClose? || s.DoCrash? || s.DoReload? {
      LifetimeKeepsInv(cfg, w, s);
    } else {
      WorkerKeepsInv(cfg, w, s);
    }
  }

  lemma {:induction false} RunKeepsInv(cfg: Config, w: World, steps: seq<Step>)
    requires Inv(cfg, w)
    ensures Inv(cfg, Execute(cfg, w, steps))
    decreases |steps|
  {
    if steps != [] {
      NextKeepsInv(cfg, w, steps[0]);
      RunKeepsInv(cfg, Next(cfg, w, steps[0]), steps[1..]);
    }
  }

  lemma InitiallyInv(cfg: Config)
    ensures Inv(cfg, INITIAL)
  {
  }

  /** Every reachable world satisfies the invariant. */
  lemma ReachableInv(cfg: Config, steps: seq<Step>)
    ensures Inv(cfg, Execute(cfg, INITIAL, steps))
  {
    InitiallyInv(cfg);
    RunKeepsInv(cfg, INITIAL, steps);
  }

  /** Some run from an empty journal leads here. */
  ghost predicate Reachable(cfg: Config, w: World) {
    exists steps: seq<Step> :: Execute(cfg, INITIAL, steps) == w
  }

  lemma {:induction false} ExecuteAppends(cfg: Config, w: World, a: seq<Step>, b: seq<Step>)
    ensures Execute(cfg, w, a + b) == Execute(cfg, Execute(cfg, w, a), b)
    decreases |a|
  {
    if a == [] {
      assert a + b == b;
    } else {
      assert (a + b)[1..] == a[1..] + b;
      ExecuteAppends(cfg, Next(cfg, w, a[0]), a[1..], b);
    }
  }

  lemma NextReachable(cfg: Config, w: World, s: Step)
    requires Reachable(cfg, w)
    ensures Reachable(cfg, Next(cfg, w, s))
  {
    var steps :| Execute(cfg, INITIAL, steps) == w;
    ExecuteAppends(cfg, INITIAL, steps, [s]);
    assert [s][1..] == [];
    assert Execute(cfg, INITIAL, steps + [s]) == Next(cfg, w, s);
  }

  /** A first start, without any journal, is the restart of a manager that did nothing. */
  lemma EmptyJournalReachable(cfg: Config)
    ensures Reachable(cfg, World(false, false, map[], map[], {}, map[], map[], []))
  {
    assert Execute(cfg, INITIAL, []) == INITIAL;
    NextReachable(cfg, INITIAL, DoCrash);
  }

  lemma ReachableKeepsInv(cfg: Config, w: World)
    requires Reachable(cfg, w)
    ensures Inv(cfg, w)
  {
    var steps :| Execute(cfg, INITIAL, steps) == w;
    ReachableInv(cfg, steps);
  }

  // ----- main results, over every run from an empty journal -----

  /**
   At most once: however starts, workers, cancels, failed writes, crashes and restarts
   interleave, no two runner invocations ever happen under one idempotency key.
   */
  lemma AtMostOnce(cfg: Config, steps: seq<Step>, i: nat, j: nat)
    requires var w := Execute(cfg, INITIAL, steps); i < j < |w.invoked|
    ensures var w := Execute(cfg, INITIAL, steps);
            && w.invoked[i].id != w.invoked[j].id
            && (w.invoked[i].key.Some? ==> w.invoked[i].key != w.invoked[j].key)
  {
    var w := Execute(cfg, INITIAL, steps);
    ReachableInv(cfg, steps);
    CrashKeepsInv(cfg, w);  // the journal of a live manager has unique keys too
    assert KeysUnique(Crash(w).journal);
  }

  /**
   Queue accounting: the futures table is exactly the set of items the pool still holds,
   from the queue to the end of the callback, and it never exceeds the capacity.
   */
  lemma QueueAccounting(cfg: Config, steps: seq<Step>)
    ensures var w := Execute(cfg, INITIAL, steps);
            w.futures == w.work.Keys && |w.futures| <= cfg.maxWorkers + cfg.maxPending
  {
    ReachableInv(cfg, steps);
  }

  /** A job never runs once it is done, cancelled or forgotten by a crash: no worker will call its runner. */
  ghost predicate NeverRuns(w: World, id: JobId) {
    && id in w.journal
    && !WasInvoked(w.invoked, id)
    && (w.up ==> id in w.jobs && Terminal(w.jobs[id].state))
  }

  /** What a step inside one lifetime may do to a job: keep its state, or move on from a live one. */
  ghost predicate Moves(w: World, v: World, id: JobId)
    requires id in w.jobs
  {
    && v.up && id in v.jobs
    && (v.jobs[id].state == w.jobs[id].state || (!Terminal(w.jobs[id].state) && v.jobs[id].state != Interrupted))
  }

  lemma CallerStepMoves(cfg: Config, w: World, s: Step, id: JobId)
    requires w.up && id in w.jobs && (s.DoStart? || s.DoCancel?)
    ensures Moves(w, Next(cfg, w, s), id)
  {
  }

  lemma PoolStepMoves(cfg: Config, w: World, s: Step, id: JobId)
    requires w.up && id in w.jobs
    requires s.DoDequeue? || s.DoInvoke? || s.DoEnd? || s.DoSettle? || s.DoCallback? || s.DoClose? || s.DoReload?
    ensures Moves(w, Next(cfg, w, s), id)
  {
  }

  lemma PreflightMoves(cfg: Config, w: World, s: Step, id: JobId)
    requires Inv(cfg, w) && w.up && id in w.jobs && s.DoPreflight? && Enabled(w, s)
    ensures Moves(w, Next(cfg, w, s), id)
  {
    assert CoherentAt(w, s.id);
  }

  lemma RecordMoves(cfg: Config, w: World, s: Step, id: JobId)
    requires w.up && id in w.jobs && s.DoRecord? && Enabled(w, s) && InFlight(w.jobs[s.id].state)
    ensures Moves(w, Next(cfg, w, s), id)
  {
    var r := OutcomeRecord(w.jobs[s.id], w.work[s.id].phase.end, s.now);
    assert r.state == Failed || r.state == Succeeded;
  }

  lemma EndedIsInFlight(cfg: Config, w: World, id: JobId)
    requires Inv(cfg, w) && CanRecord(w, id)
    ensures InFlight(w.jobs[id].state)
  {
    assert CoherentAt(w, id);
  }

  lemma NextMoves(cfg: Config, w: World, s: Step, id: JobId)
    requires Inv(cfg, w) && w.up && !s.DoCrash? && id in w.jobs
    ensures Moves(w, Next(cfg, w, s), id)
  {
    if !Enabled(w, s) {
    } else if s.DoStart? || s.DoCancel? {
      CallerStepMoves(cfg, w, s, id);
    } else if s.DoPreflight? {
      PreflightMoves(cfg, w, s, id);
    } else if s.DoRecord? {
      EndedIsInFlight(cfg, w, s.id);
      RecordMoves(cfg, w, s, id);
    } else {
      PoolStepMoves(cfg, w, s, id);
    }
  }

  /** Only the step that calls a runner adds to the history. */
  lemma OnlyInvokeInvokes(cfg: Config, w: World, s: Step)
    ensures !s.DoInvoke? ==> Next(cfg, w, s).invoked == w.invoked
  {
  }

  lemma NextKeepsNotInvoked(cfg: Config, w: World, s: Step, id: JobId)
    requires Inv(cfg, w) && NeverRuns(w, id)
    ensures !WasInvoked(Next(cfg, w, s).invoked, id)
  {
    if s.DoInvoke? {
      InvokeSparesDone(cfg, w, s.id, id);
    } else {
      OnlyInvokeInvokes(cfg, w, s);
    }
  }

  lemma InvokeSparesDone(cfg: Config, w: World, mover: JobId, id: JobId)
    requires Inv(cfg, w) && NeverRuns(w, id)
    ensures !WasInvoked(Next(cfg, w, DoInvoke(mover)).invoked, id)
  {
    if Enabled(w, DoInvoke(mover)) {
      assert CoherentAt(w, mover);
      InvokedGrows(w.invoked, Invocation(mover, w.work[mover].key));
    }
  }

  lemma NextKeepsNeverRuns(cfg: Config, w: World, s: Step, id: JobId)
    requires Inv(cfg, w) && NeverRuns(w, id)
    ensures NeverRuns(Next(cfg, w, s), id)
  {
    NextKeepsNotInvoked(cfg, w, s, id);
    NextKeepsInv(cfg, w, s);
    if w.up && !s.DoCrash? {
      NextMoves(cfg, w, s, id);
      assert CoherentAt(Next(cfg, w, s), id);
    }
  }

  lemma {:induction false} RunKeepsNeverRuns(cfg: Config, w: World, steps: seq<Step>, id: JobId)
    requires Inv(cfg, w) && NeverRuns(w, id)
    ensures NeverRuns(Execute(cfg, w, steps), id)
    decreases |steps|
  {
    if steps != [] {
      NextKeepsInv(cfg, w, steps[0]);
      NextKeepsNeverRuns(cfg, w, steps[0], id);
      RunKeepsNeverRuns(cfg, Next(cfg, w, steps[0]), steps[1..], id);
    }
  }

  /**
   Honest cancellation, first half: a job that a caller could ever see as cancelled has not
   had its runner called before, and never has it called after, in this lifetime or a later one.
   */
  lemma CancelledNeverRuns(cfg: Config, before: seq<Step>, after: seq<Step>, id: JobId)
    requires var w := Execute(cfg, INITIAL, before); id in w.jobs && w.jobs[id].state == Cancelled
    ensures !WasInvoked(Execute(cfg, Execute(cfg, INITIAL, before), after).invoked, id)
  {
    var w := Execute(cfg, INITIAL, before);
    ReachableInv(cfg, before);
    assert CoherentAt(w, id);
    RunKeepsNeverRuns(cfg, w, after, id);
  }

  /** Within one manager lifetime a terminal state is final. */
  lemma {:induction false} TerminalIsFinal(cfg: Config, w: World, steps: seq<Step>, id: JobId)
    requires Inv(cfg, w) && w.up && CrashFree(steps) && id in w.jobs && Terminal(w.jobs[id].state)
    ensures var v := Execute(cfg, w, steps); v.up && id in v.jobs && v.jobs[id].state == w.jobs[id].state
    decreases |steps|
  {
    if steps != [] {
      NextKeepsInv(cfg, w, steps[0]);
      NextMoves(cfg, w, steps[0], id);
      TerminalIsFinal(cfg, Next(cfg, w, steps[0]), steps[1..], id);
    }
  }

  lemma {:induction false} RunKeepsLive(cfg: Config, w: World, steps: seq<Step>, id: JobId)
    requires Inv(cfg, w) && w.up && CrashFree(steps) && id in w.jobs && w.jobs[id].state != Interrupted
    ensures var v := Execute(cfg, w, steps); v.up && id in v.jobs && v.jobs[id].state != Interrupted
    decreases |steps|
  {
    if steps != [] {
      NextKeepsInv(cfg, w, steps[0]);
      NextMoves(cfg, w, steps[0], id);
      RunKeepsLive(cfg, Next(cfg, w, steps[0]), steps[1..], id);
    }
  }

  /**
   Honest cancellation, second half: within one manager lifetime a job whose runner was
   called ends, if it ends, as succeeded or failed, whatever cancels come in between.
   */
  lemma StartedNeverCancelled(cfg: Config, before: seq<Step>, after: seq<Step>, id: JobId)
    requires var w := Execute(cfg, INITIAL, before);
             w.up && CrashFree(after) && id in w.work && WasInvoked(w.invoked, id)
    ensures var v := Execute(cfg, Execute(cfg, INITIAL, before), after);
            id in v.jobs && (Terminal(v.jobs[id].state) ==> v.jobs[id].state == Succeeded || v.jobs[id].state == Failed)
  {
    var w := Execute(cfg, INITIAL, before);
    ReachableInv(cfg, before);
    assert CoherentAt(w, id);
    StartedEnds(cfg, w, after, id);
  }

  lemma StartedEnds(cfg: Config, w: World, after: seq<Step>, id: JobId)
    requires Inv(cfg, w) && w.up && CrashFree(after) && WasInvoked(w.invoked, id)
    requires id in w.jobs && w.jobs[id].state != Interrupted
    ensures var v := Execute(cfg, w, after);
            id in v.jobs && (Terminal(v.jobs[id].state) ==> v.jobs[id].state == Succeeded || v.jobs[id].state == Failed)
  {
    var v := Execute(cfg, w, after);
    RunKeepsInv(cfg, w, after);
    RunKeepsLive(cfg, w, after, id);
    RunKeepsInvoked(cfg, w, after, id);
    assert CoherentAt(v, id);
  }

  lemma {:induction false} RunKeepsInvoked(cfg: Config, w: World, steps: seq<Step>, id: JobId)
    requires WasInvoked(w.invoked, id)
    ensures WasInvoked(Execute(cfg, w, steps).invoked, id)
    decreases |steps|
  {
    if steps != [] {
      if Enabled(w, steps[0]) && steps[0].DoInvoke? {
        InvokedGrows(w.invoked, Invocation(steps[0].id, w.work[steps[0].id].key));
      }
      RunKeepsInvoked(cfg, Next(cfg, w, steps[0]), steps[1..], id);
    }
  }

  // ----- what a started job ends with -----

  /** The record of a job whose runner ended this way. */
  ghost predicate Recorded(r: Record, end: RunnerEnd) {
    && r.state == (if end.Returned? && end.result.ok then Succeeded else Failed)
    && (end.Returned? ==> r.result == Some(end.result))
    && (end.Raised? ==> r.errorDetail == Some(end.message))
  }

  /** The runner of the job ended this way, and a worker holds that end or has recorded it. */
  ghost predicate Concluding(w: World, id: JobId, end: RunnerEnd) {
    && w.up && id in w.jobs
    && (Recorded(w.jobs[id], end) || (id in w.work && w.work[id].phase == Ended(end)))
  }

  lemma OutcomeIsRecorded(r: Record, end: RunnerEnd, now: Time)
    ensures Recorded(OutcomeRecord(r, end, now), end) && Recorded(OutcomeRecord(r, end, now).(journalError := true), end)
  {
  }

  lemma RecordConcludes(cfg: Config, w: World, s: Step, id: JobId, end: RunnerEnd)
    requires Enabled(w, s) && s.DoRecord? && s.id == id && w.up && w.work[id].phase == Ended(end)
    ensures Concluding(Next(cfg, w, s), id, end)
  {
    OutcomeIsRecorded(w.jobs[id], end, s.now);
  }

  lemma RecordSparesOthers(cfg: Config, w: World, s: Step, id: JobId, end: RunnerEnd)
    requires Enabled(w, s) && s.DoRecord? && s.id != id && Concluding(w, id, end)
    ensures Concluding(Next(cfg, w, s), id, end)
  {
  }

  /** A recorded end is not recorded again. */
  lemma RecordableIsEnded(cfg: Config, w: World, id: JobId, end: RunnerEnd)
    requires Inv(cfg, w) && CanRecord(w, id) && Concluding(w, id, end)
    ensures w.work[id].phase == Ended(end)
  {
    assert CoherentAt(w, id);
  }

  /** A job whose runner has ended is not waiting for its preflight. */
  lemma ConcludingIsPastPreflight(cfg: Config, w: World, id: JobId, end: RunnerEnd)
    requires Inv(cfg, w) && Concluding(w, id, end)
    ensures !InPhase(w, id, Dequeued)
  {
    assert CoherentAt(w, id);
  }

  lemma PreflightSparesConcluding(cfg: Config, w: World, s: Step, id: JobId, end: RunnerEnd)
    requires Enabled(w, s) && s.DoPreflight? && s.id != id && Concluding(w, id, end)
    ensures Concluding(Next(cfg, w, s), id, end)
  {
  }

  lemma CallersSpareConcluding(cfg: Config, w: World, s: Step, id: JobId, end: RunnerEnd)
    requires Inv(cfg, w) && Enabled(w, s) && (s.DoStart? || s.DoCancel?) && Concluding(w, id, end)
    ensures Concluding(Next(cfg, w, s), id, end)
  {
    assert CoherentAt(w, id);
  }

  lemma OthersSpareConcluding(cfg: Config, w: World, s: Step, id: JobId, end: RunnerEnd)
    requires Enabled(w, s) && !s.DoStart? && !s.DoCancel? && !s.DoPreflight? && !s.DoRecord? && !s.DoCrash?
    requires Concluding(w, id, end)
    ensures Concluding(Next(cfg, w, s), id, end)
  {
  }

  lemma {:induction false} RunKeepsConcluding(cfg: Config, w: World, steps: seq<Step>, id: JobId, end: RunnerEnd)
    requires Inv(cfg, w) && CrashFree(steps) && Concluding(w, id, end)
    ensures Concluding(Execute(cfg, w, steps), id, end)
    decreases |steps|
  {
    if steps != [] {
      var s := steps[0];
      NextKeepsInv(cfg, w, s);
      if Enabled(w, s) {
        if s.DoRecord? {
          if s.id == id {
            RecordableIsEnded(cfg, w, id, end);
            RecordConcludes(cfg, w, s, id, end);
          } else {
            RecordSparesOthers(cfg, w, s, id, end);
          }
        } else if s.DoPreflight? {
          ConcludingIsPastPreflight(cfg, w, id, end);
          PreflightSparesConcluding(cfg, w, s, id, end);
        } else if s.DoStart? || s.DoCancel? {
          CallersSpareConcluding(cfg, w, s, id, end);
        } else {
          OthersSpareConcluding(cfg, w, s, id, end);
        }
      }
      RunKeepsConcluding(cfg, Next(cfg, w, s), steps[1..], id, end);
    }
  }

  /**
   Honest cancellation, second half: once a runner has ended, its job ends in this lifetime with that
   very end: as succeeded exactly when the runner returned `ok`, with the result or the error it gave,
   whatever cancels come in between.
   */
  lemma StartedEndsWithItsOutcome(cfg: Config, before: seq<Step>, after: seq<Step>, id: JobId, end: RunnerEnd)
    requires CrashFree(after) && InPhase(Execute(cfg, INITIAL, before), id, Invoking) && Execute(cfg, INITIAL, before).up
    ensures var v := Execute(cfg, Next(cfg, Execute(cfg, INITIAL, before), DoEnd(id, end)), after);
            v.up && id in v.jobs && (Terminal(v.jobs[id].state) ==> Recorded(v.jobs[id], end))
  {
    var w := Execute(cfg, INITIAL, before);
    ReachableInv(cfg, before);
    EndedConcludes(cfg, w, after, id, end);
  }

  lemma EndedConcludes(cfg: Config, w: World, after: seq<Step>, id: JobId, end: RunnerEnd)
    requires Inv(cfg, w) && w.up && CrashFree(after) && InPhase(w, id, Invoking)
    ensures var v := Execute(cfg, Next(cfg, w, DoEnd(id, end)), after);
            v.up && id in v.jobs && (Terminal(v.jobs[id].state) ==> Recorded(v.jobs[id], end))
  {
    var u := Next(cfg, w, DoEnd(id, end));
    NextKeepsInv(cfg, w, DoEnd(id, end));
    RunKeepsConcluding(cfg, u, after, id, end);
    RunKeepsInv(cfg, u, after);
    var v := Execute(cfg, u, after);
    if Terminal(v.jobs[id].state) { ConcludedIsRecorded(cfg, v, id, end); }
  }

  lemma ConcludedIsRecorded(cfg: Config, w: World, id: JobId, end: RunnerEnd)
    requires Inv(cfg, w) && Concluding(w, id, end) && Terminal(w.jobs[id].state)
    ensures Recorded(w.jobs[id], end)
  {
    assert CoherentAt(w, id);
  }

  // ----- keys are for ever -----

  ghost predicate Keyed(journal: map<JobId, Record>, id: JobId, key: Key, request: Digest) {
    id in journal && journal[id].key == Some(key) && journal[id].request == request
  }

  lemma CallersKeepKeyed(cfg: Config, w: World, s: Step, id: JobId, key: Key, request: Digest)
    requires Inv(cfg, w) && Enabled(w, s) && (s.DoStart? || s.DoCancel?) && Keyed(w.journal, id, key, request)
    ensures Keyed(Next(cfg, w, s).journal, id, key, request)
  {
    if id in w.jobs { assert CoherentAt(w, id); }
  }

  lemma WorkerIsUp(cfg: Config, w: World, s: Step)
    requires Inv(cfg, w) && Enabled(w, s) && (s.DoPreflight? || s.DoRecord?)
    ensures w.up && s.id in w.jobs
  {
  }

  lemma JournalLagsAt(cfg: Config, w: World, id: JobId)
    requires Inv(cfg, w) && w.up && id in w.jobs
    ensures id in w.journal && JournalLags(w.journal[id], w.jobs[id])
  {
    assert CoherentAt(w, id);
  }

  lemma PreflightKeepsKeyed(cfg: Config, w: World, s: Step, id: JobId, key: Key, request: Digest)
    requires Enabled(w, s) && s.DoPreflight? && Keyed(w.journal, id, key, request)
    requires s.id in w.journal && JournalLags(w.journal[s.id], w.jobs[s.id])
    ensures Keyed(Next(cfg, w, s).journal, id, key, request)
  {
  }

  lemma RecordKeepsKeyed(cfg: Config, w: World, s: Step, id: JobId, key: Key, request: Digest)
    requires Enabled(w, s) && s.DoRecord? && Keyed(w.journal, id, key, request)
    requires s.id in w.journal && JournalLags(w.journal[s.id], w.jobs[s.id])
    ensures Keyed(Next(cfg, w, s).journal, id, key, request)
  {
    var r := OutcomeRecord(w.jobs[s.id], w.work[s.id].phase.end, s.now);
    assert r.key == w.jobs[s.id].key && r.request == w.jobs[s.id].request;
  }

  lemma OthersKeepKeyed(cfg: Config, w: World, s: Step, id: JobId, key: Key, request: Digest)
    requires Enabled(w, s) && !s.DoStart? && !s.DoCancel? && !s.DoPreflight? && !s.DoRecord?
    requires Keyed(w.journal, id, key, request)
    ensures Keyed(Next(cfg, w, s).journal, id, key, request)
  {
  }

  lemma {:induction false} RunKeepsKeyed(cfg: Config, w: World, steps: seq<Step>, id: JobId, key: Key, request: Digest)
    requires Inv(cfg, w) && Keyed(w.journal, id, key, request)
    ensures Keyed(Execute(cfg, w, steps).journal, id, key, request)
    decreases |steps|
  {
    if steps != [] {
      var s := steps[0];
      NextKeepsInv(cfg, w, s);
      if Enabled(w, s) {
        if s.DoStart? || s.DoCancel? {
          CallersKeepKeyed(cfg, w, s, id, key, request);
        } else if s.DoPreflight? || s.DoRecord? {
          WorkerIsUp(cfg, w, s);
          JournalLagsAt(cfg, w, s.id);
          if s.DoPreflight? {
            PreflightKeepsKeyed(cfg, w, s, id, key, request);
          } else {
            RecordKeepsKeyed(cfg, w, s, id, key, request);
          }
        } else {
          OthersKeepKeyed(cfg, w, s, id, key, request);
        }
      }
      RunKeepsKeyed(cfg, Next(cfg, w, s), steps[1..], id, key, request);
    }
  }

  lemma KeyedReply(cfg: Config, w: World, id: JobId, key: Key, request: Digest, other: JobId, again: Digest, now: Time, saved: bool)
    requires Inv(cfg, w) && w.up && Keyed(w.journal, id, key, request) && other !in w.jobs
    ensures StartReply(cfg, w, other, Some(key), again, saved) == if w.closed || again != request then Conflict else Accepted(id, true)
    ensures Next(cfg, w, DoStart(other, Some(key), again, now, saved)) == w
  {
    assert CoherentAt(w, id);
  }

  /**
   A key is taken for ever: after a start under it was accepted, every later start under it, in any run and
   after any restart, changes nothing and is answered with that very job, or refused as another request.
   */
  lemma KeyIsPermanent(cfg: Config, before: seq<Step>, after: seq<Step>, id: JobId, key: Key, request: Digest, now: Time,
                       other: JobId, again: Digest, later: Time, saved: bool)
    requires var w := Execute(cfg, INITIAL, before);
             CanStart(w, id) && !w.closed && !KeyTaken(w, Some(key)) && |w.futures| < Capacity(cfg)
    requires var v := Execute(cfg, Next(cfg, Execute(cfg, INITIAL, before), DoStart(id, Some(key), request, now, true)), after);
             v.up && other !in v.jobs
    ensures var v := Execute(cfg, Next(cfg, Execute(cfg, INITIAL, before), DoStart(id, Some(key), request, now, true)), after);
            && StartReply(cfg, v, other, Some(key), again, saved) == (if v.closed || again != request then Conflict else Accepted(id, true))
            && Next(cfg, v, DoStart(other, Some(key), again, later, saved)) == v
  {
    var w := Execute(cfg, INITIAL, before);
    var start := DoStart(id, Some(key), request, now, true);
    ReachableInv(cfg, before);
    NextKeepsInv(cfg, w, start);
    RunKeepsKeyed(cfg, Next(cfg, w, start), after, id, key, request);
    RunKeepsInv(cfg, Next(cfg, w, start), after);
    KeyedReply(cfg, Execute(cfg, Next(cfg, w, start), after), id, key, request, other, again, later, saved);
  }

  /**
   Restart is faithful: from any reachable world, crashing and reloading shows every job whose
   terminal state had reached the journal exactly as the journal recorded it, in the state callers
   last saw, and every other job as interrupted; no job is lost or invented.
   */
  lemma RestartShowsJournal(cfg: Config, steps: seq<Step>, now: Time, rewritten: set<JobId>, id: JobId)
    requires Execute(cfg, INITIAL, steps).up
    ensures var w := Execute(cfg, INITIAL, steps); var v := Reload(cfg, Crash(w), now, rewritten);
            && (id in v.jobs <==> id in w.jobs)
            && (id in v.jobs && Terminal(w.journal[id].state) ==>
                  v.jobs[id].state == w.jobs[id].state && Public(v.jobs[id]) == Public(w.journal[id]))
            && (id in v.jobs && !Terminal(w.journal[id].state) ==> v.jobs[id].state == Interrupted)
  {
    ReachableInv(cfg, steps);
    var w := Execute(cfg, INITIAL, steps);
    if id in w.jobs { assert CoherentAt(w, id); }
  }
}
