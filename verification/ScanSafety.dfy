/** What holds in every reachable state of the scan protocol. */
module ScanSafety {
  import opened Types
  import opened MemoryStore
  import opened Detection
  import opened SnapshotBuilder
  import opened Orchestrator
  import opened ScanProtocol

  // ---------------------------------------------------------------------------------------------
  // Keys

  /** Within a scan, two types share a resource key only if they are the same type, and one type's
      resource key is another's findings key exactly when the names differ by the suffix. */
  lemma KeysOfTypes(scanID: string, t: string, u: string)
    ensures ResourceKey(scanID, t) == ResourceKey(scanID, u) <==> t == u
    ensures FindingsKey(ResourceKey(scanID, t)) == FindingsKey(ResourceKey(scanID, u)) <==> t == u
    ensures ResourceKey(scanID, t) == FindingsKey(ResourceKey(scanID, u)) <==> t == u + "-findings"
    ensures ResourceKey(scanID, t) != "" && FindingsKey(ResourceKey(scanID, t)) != ""
  {
    var n := |scanID| + 1;
    assert ResourceKey(scanID, t)[n..] == t && ResourceKey(scanID, u)[n..] == u;
    assert FindingsKey(ResourceKey(scanID, t))[n..] == t + "-findings";
    assert FindingsKey(ResourceKey(scanID, u))[n..] == u + "-findings";
    assert (t + "-findings")[..|t + "-findings"| - 9] == t && (u + "-findings")[..|u + "-findings"| - 9] == u;
    assert FindingsKey(ResourceKey(scanID, u)) == ResourceKey(scanID, u + "-findings");
  }

  predicate OwnKey(scanID: string, kind: string, key: string) {
    key == ResourceKey(scanID, kind) || key == FindingsKey(ResourceKey(scanID, kind))
  }

  // ---------------------------------------------------------------------------------------------
  // The invariant

  /** The findings recorded by a worker classify what it fetched in this scan. */
  ghost predicate Classified(world: World, kind: string, w: Worker) {
    && w.lifecycles == Memo(w.fetched, w.provider)
    && w.findings == DriftFindings(world.policy, w.fetched, w.lifecycles, w.clock)
    && BatchTypedBy(w.findings, kind, world.kindOf)
  }

  ghost predicate WorkerOK(world: World, cache: Cache, store: Findings, scanID: string, kind: string, w: Worker) {
    var key := ResourceKey(scanID, kind);
    && (w.pc in {AtEOL, AtDetect} ==>
          && w.batchID == key && key in cache && cache[key] == ResourceBatch(w.fetched)
          && TypedInventory(w.fetched, kind, world.kindOf))
    && (w.pc.AtDetect? ==> w.lifecycles == Memo(w.fetched, w.provider))
    && (w.pc in {AtStore, AtEmit} ==>
          && w.findingsBatchID == FindingsKey(key) && FindingsKey(key) in cache
          && cache[FindingsKey(key)] == FindingBatch(w.findings))
    && (w.pc in {AtStore, AtEmit, Done} ==> Classified(world, kind, w) && key !in cache)
    && (w.pc in {AtEmit, Done} ==> Selected(store, OfKind(kind)) == ByID(w.findings))
    && (w.emitted ==> w.pc.Done? && FindingsKey(key) !in cache)
    && (w.pc.Done? && !w.emitted ==> FindingsKey(key) in cache && cache[FindingsKey(key)] == FindingBatch(w.findings))
  }

  ghost predicate StoreOK(world: World, store: Findings) {
    KeyedByID(store) && TypedBy(store, world.kindOf)
  }

  ghost predicate ScanOK(world: World, cache: Cache, store: Findings, scan: Scan) {
    && Admissible(scan.requested)
    && scan.workers.Keys == TypeSet(scan.requested)
    && scan.scope == NormalizeScanScope(scan.scope)
    && forall t :: t in scan.workers ==> WorkerOK(world, cache, store, scan.scanID, t, scan.workers[t])
  }

  /** Open workflow IDs are unique, and only the singleton ID gets past the guard. */
  ghost predicate GuardOK(open: map<nat, Run>) {
    && (forall r, q :: r in open && q in open && open[r].workflowID == open[q].workflowID ==> r == q)
    && (forall r :: r in open && open[r].Scanning? ==> open[r].workflowID == ACTIVE_SCAN_WORKFLOW_ID)
  }

  /** The findings of each type are exactly the classification of what the scan fetched for it. */
  ghost predicate TypesExact(world: World, scan: Scan, m: FindingsByType) {
    forall t :: t in m ==>
                  && t in scan.workers
                  && Classified(world, t, scan.workers[t])
                  && IsListing(ByID(scan.workers[t].findings), m[t])
  }

  /** The types of a full scan's snapshot are the requested ones, of a targeted scan's those that
      finished; there is at least one. */
  ghost predicate TypesComplete(scan: Scan, types: set<string>) {
    && types != {}
    && (forall t :: t in types <==> t in scan.requested && t in scan.workers && scan.workers[t].pc.Done?)
    && (scan.scope == SCOPE_FULL ==> types == TypeSet(scan.requested))
  }

  ghost predicate SavedOK(world: World, saved: Saved) {
    && saved.snapshot.id == saved.scan.scanID
    && Reports(saved.snapshot.summary, saved.snapshot.findingsByType)
    && TypesComplete(saved.scan, saved.snapshot.findingsByType.Keys)
    && TypesExact(world, saved.scan, saved.snapshot.findingsByType)
  }

  /** The part of the invariant about open workflows and what they share. */
  ghost predicate Live(world: World, s: State) {
    && GuardOK(s.open)
    && StoreOK(world, s.store)
    && (forall r :: r in s.open && s.open[r].Scanning? ==> ScanOK(world, s.cache, s.store, s.open[r].scan))
  }

  ghost predicate Inv(world: World, s: State) {
    Live(world, s) && AllSavedOK(world, s.saved)
  }

  ghost predicate AllSavedOK(world: World, saved: seq<Saved>) {
    saved == [] || (AllSavedOK(world, saved[..|saved| - 1]) && SavedOK(world, saved[|saved| - 1]))
  }

  lemma {:induction false} SavedAt(world: World, saved: seq<Saved>, i: nat)
    requires AllSavedOK(world, saved) && i < |saved|
    ensures SavedOK(world, saved[i])
  {
    var x := saved[i];
    if i < |saved| - 1 {
      assert saved[..|saved| - 1][i] == x;
      SavedAt(world, saved[..|saved| - 1], i);
    }
  }

  // ---------------------------------------------------------------------------------------------
  // Worker steps

  /** The caches differ at most in the keys of one type of the scan. */
  ghost predicate CacheChangesOnlyFor(before: Cache, after: Cache, scanID: string, kind: string) {
    forall key :: !OwnKey(scanID, kind, key) ==>
                     (key in before <==> key in after) && (key in before ==> before[key] == after[key])
  }

  /** What a step of one type's worker leaves alone: the other workers of its scan. */
  lemma OthersUndisturbed(world: World, cache: Cache, cache': Cache, store: Findings, store': Findings, scan: Scan,
                          kind: string, t: string)
    requires ScanOK(world, cache, store, scan) && kind in scan.workers && t in scan.workers && t != kind
    requires CacheChangesOnlyFor(cache, cache', scan.scanID, kind)
    requires Selected(store', OfKind(t)) == Selected(store, OfKind(t))
    ensures WorkerOK(world, cache', store', scan.scanID, t, scan.workers[t])
  {
    assert t in TypeSet(scan.requested) && kind in TypeSet(scan.requested);
    KeysOfTypes(scan.scanID, t, kind);
    KeysOfTypes(scan.scanID, kind, t);
    assert !OwnKey(scan.scanID, kind, ResourceKey(scan.scanID, t));
    assert !OwnKey(scan.scanID, kind, FindingsKey(ResourceKey(scan.scanID, t)));
    assert WorkerOK(world, cache, store, scan.scanID, t, scan.workers[t]);
  }

  /** A worker step keeps the invariant if it keeps to its own keys, its own findings, and leaves its own
      worker in order. */
  lemma WorkerStepKeepsLive(world: World, s: State, s': State, run: nat, kind: string, w: Worker)
    requires Live(world, s) && Working(s, run, kind)
    requires s' == WithWorker(s, run, kind, w).(cache := s'.cache, store := s'.store)
    requires CacheChangesOnlyFor(s.cache, s'.cache, s.open[run].scan.scanID, kind)
    requires StoreOK(world, s'.store)
    requires forall t :: t != kind ==> Selected(s'.store, OfKind(t)) == Selected(s.store, OfKind(t))
    requires WorkerOK(world, s'.cache, s'.store, s.open[run].scan.scanID, kind, w)
    ensures Live(world, s')
  {
    var scan, scan' := s.open[run].scan, s'.open[run].scan;
    forall t | t in scan'.workers ensures WorkerOK(world, s'.cache, s'.store, scan'.scanID, t, scan'.workers[t]) {
      if t != kind {
        OthersUndisturbed(world, s.cache, s'.cache, s.store, s'.store, scan, kind, t);
      }
    }
    assert ScanOK(world, s'.cache, s'.store, scan');
    OnlyOneScanning(s, run);
    forall r | r in s'.open && s'.open[r].Scanning? ensures r == run {
    }
    assert GuardOK(s'.open);
  }

  lemma OnlyOneScanning(s: State, run: nat)
    requires GuardOK(s.open) && run in s.open && s.open[run].Scanning?
    ensures forall r :: r in s.open && s.open[r].Scanning? ==> r == run
  {
  }

  lemma FetchKeepsLive(world: World, s: State, run: nat, kind: string, resources: seq<Resource>)
    requires Live(world, s) && Enabled(world, s, Fetch(run, kind, resources))
    ensures Live(world, ApplyFetch(s, run, kind, resources))
  {
    var key := ResourceKey(s.open[run].scan.scanID, kind);
    var w := WorkerOf(s, run, kind).(pc := AtEOL, batchID := key, fetched := resources);
    WorkerStepKeepsLive(world, s, ApplyFetch(s, run, kind, resources), run, kind, w);
  }

  /** A worker's cached resources and findings are there when it asks for them, and are its own. */
  lemma LoadsSucceed(world: World, s: State, run: nat, kind: string)
    requires Live(world, s) && Working(s, run, kind)
    ensures var w := WorkerOf(s, run, kind);
            && WorkerOK(world, s.cache, s.store, s.open[run].scan.scanID, kind, w)
            && (w.pc in {AtEOL, AtDetect} ==> LoadResources(s.cache, w.batchID, []) == Ok(w.fetched))
            && (w.pc in {AtStore, AtEmit} ==> LoadFindings(s.cache, w.findingsBatchID, []) == Ok(w.findings))
  {
    KeysOfTypes(s.open[run].scan.scanID, kind, kind);
    assert ScanOK(world, s.cache, s.store, s.open[run].scan);
  }

  lemma LookUpKeepsLive(world: World, s: State, run: nat, kind: string, provider: StableProvider)
    requires Live(world, s) && Enabled(world, s, LookUp(run, kind, provider))
    ensures Live(world, ApplyLookUp(s, run, kind, provider))
  {
    LoadsSucceed(world, s, run, kind);
    var w := WorkerOf(s, run, kind);
    var w' := w.(pc := AtDetect, lifecycles := Memo(w.fetched, provider), provider := provider);
    WorkerStepKeepsLive(world, s, ApplyLookUp(s, run, kind, provider), run, kind, w');
  }

  lemma DriftIsTyped(world: World, resources: seq<Resource>, lifecycles: map<string, VersionLifecycle>, clock: Clock,
                     kind: string)
    requires TypedInventory(resources, kind, world.kindOf)
    ensures BatchTypedBy(DriftFindings(world.policy, resources, lifecycles, clock), kind, world.kindOf)
  {
    var findings := DriftFindings(world.policy, resources, lifecycles, clock);
    forall f | f in findings ensures f.kind == kind == world.kindOf(f.resourceID) {
      var i :| 0 <= i < |findings| && findings[i] == f;
      assert f == FindingOf(world.policy, resources[i], LifecycleFor(lifecycles, resources[i]), clock(i));
      assert resources[i] in resources;
    }
  }

  lemma DetectKeepsLive(world: World, s: State, run: nat, kind: string, clock: Clock)
    requires Live(world, s) && Enabled(world, s, Detect(run, kind, clock))
    ensures Live(world, ApplyDetect(world, s, run, kind, clock))
  {
    LoadsSucceed(world, s, run, kind);
    KeysOfTypes(s.open[run].scan.scanID, kind, kind);
    var w := WorkerOf(s, run, kind);
    var findings := DriftFindings(world.policy, w.fetched, w.lifecycles, clock);
    var w' := w.(pc := AtStore, findingsBatchID := FindingsKey(w.batchID), clock := clock, findings := findings);
    DriftIsTyped(world, w.fetched, w.lifecycles, clock, kind);
    WorkerStepKeepsLive(world, s, ApplyDetect(world, s, run, kind, clock), run, kind, w');
  }

  lemma StoreKeepsLive(world: World, s: State, run: nat, kind: string)
    requires Live(world, s) && Enabled(world, s, StoreBatch(run, kind))
    ensures Live(world, ApplyStore(s, run, kind))
  {
    LoadsSucceed(world, s, run, kind);
    var w := WorkerOf(s, run, kind);
    ReplaceIsolatesAllTypes(world, s.store, kind, w.findings);
    WorkerStepKeepsLive(world, s, ApplyStore(s, run, kind), run, kind, w.(pc := AtEmit));
  }

  lemma ReplaceIsolatesAllTypes(world: World, store: Findings, kind: string, batch: seq<Finding>)
    requires StoreOK(world, store) && BatchTypedBy(batch, kind, world.kindOf)
    ensures StoreOK(world, Replaced(store, kind, batch))
    ensures Selected(Replaced(store, kind, batch), OfKind(kind)) == ByID(batch)
    ensures forall t :: t != kind ==> Selected(Replaced(store, kind, batch), OfKind(t)) == Selected(store, OfKind(t))
  {
    ReplaceIsolatesTypes(store, kind, batch, world.kindOf, kind);
    forall t | t != kind ensures Selected(Replaced(store, kind, batch), OfKind(t)) == Selected(store, OfKind(t)) {
      ReplaceIsolatesTypes(store, kind, batch, world.kindOf, t);
    }
  }

  lemma EmitKeepsLive(world: World, s: State, run: nat, kind: string, ok: bool)
    requires Live(world, s) && Enabled(world, s, Emit(run, kind, ok))
    ensures Live(world, ApplyEmit(s, run, kind, ok))
  {
    LoadsSucceed(world, s, run, kind);
    KeysOfTypes(s.open[run].scan.scanID, kind, kind);
    var w := WorkerOf(s, run, kind);
    var w' := if ok then w.(pc := Done, emitted := true) else w.(pc := Done);
    WorkerStepKeepsLive(world, s, ApplyEmit(s, run, kind, ok), run, kind, w');
  }

  // ---------------------------------------------------------------------------------------------
  // Steps of workflows

  lemma IdleWorkerKeepsLive(world: World, s: State, run: nat, kind: string, w: Worker)
    requires Live(world, s) && Working(s, run, kind) && w.pc in {AtFetch, GivenUp} && !w.emitted
    ensures Live(world, WithWorker(s, run, kind, w))
  {
    WorkerStepKeepsLive(world, s, WithWorker(s, run, kind, w), run, kind, w);
  }

  lemma OpenKeepsLive(world: World, s: State, run: nat, r: Run)
    requires Live(world, s) && run !in s.open && !IsOpen(s, r.workflowID) && !r.Scanning?
    ensures Live(world, s.(open := s.open[run := r]))
  {
  }

  lemma PassGuardKeepsLive(world: World, s: State, run: nat)
    requires Live(world, s) && Enabled(world, s, PassGuard(run))
    ensures Live(world, Apply(world, s, PassGuard(run)))
  {
    var s' := Apply(world, s, PassGuard(run));
    var scan := s'.open[run].scan;
    assert ScanOK(world, s'.cache, s'.store, scan);
    assert GuardOK(s'.open);
    OnlyOneScanning(s', run);
  }

  lemma {:induction false} FinishedMembers(requested: seq<string>, workers: map<string, Worker>)
    requires forall t :: t in requested ==> t in workers
    ensures forall t :: t in FinishedTypes(requested, workers) <==> t in requested && workers[t].pc.Done?
  {
    if requested != [] {
      var n := |requested| - 1;
      FinishedMembers(requested[..n], workers);
      assert requested == requested[..n] + [requested[n]];
    }
  }

  lemma GateMakesComplete(scan: Scan)
    requires scan.workers.Keys == TypeSet(scan.requested) && scan.scope == NormalizeScanScope(scan.scope)
    requires forall t :: t in scan.requested ==> t in scan.workers
    requires Passes(scan)
    ensures TypesComplete(scan, TypeSet(FinishedTypes(scan.requested, scan.workers)))
  {
    var finished := FinishedTypes(scan.requested, scan.workers);
    FinishedMembers(scan.requested, scan.workers);
    assert finished[0] in TypeSet(finished);
    if scan.scope == SCOPE_FULL {
      assert forall t :: t in TypeSet(finished) <==> t in TypeSet(scan.requested);
    }
  }

  lemma StoreMakesExact(world: World, cache: Cache, store: Findings, scan: Scan, m: FindingsByType)
    requires ScanOK(world, cache, store, scan)
    requires forall t :: t in m ==> t in scan.workers && scan.workers[t].pc.Done?
    requires forall t :: t in m ==> IsListing(Selected(store, OfKind(t)), m[t])
    ensures TypesExact(world, scan, m)
  {
    forall t | t in m
      ensures Classified(world, t, scan.workers[t])
      ensures IsListing(ByID(scan.workers[t].findings), m[t])
    {
      assert WorkerOK(world, cache, store, scan.scanID, t, scan.workers[t]);
    }
  }

  lemma SnapshotIsSound(world: World, cache: Cache, store: Findings, scan: Scan, snapshot: Snapshot)
    requires ScanOK(world, cache, store, scan)
    requires forall t :: t in scan.requested ==> t in scan.workers
    requires SnapshotOf(snapshot, scan.scanID, TypeSet(FinishedTypes(scan.requested, scan.workers)), store)
    requires Passes(scan)
    ensures SavedOK(world, Saved(snapshot, scan))
  {
    GateMakesComplete(scan);
    StoreMakesExact(world, cache, store, scan, snapshot.findingsByType);
  }

  lemma CloseKeepsLive(world: World, s: State, run: nat)
    requires Live(world, s)
    ensures Live(world, s.(open := s.open - {run}))
  {
  }

  lemma SnapshotKeepsLive(world: World, s: State, run: nat, snapshot: Snapshot, saveOk: bool)
    requires Live(world, s) && SnapshotEnabled(s, run, snapshot)
    ensures Live(world, ApplySnapshot(s, run, snapshot, saveOk))
  {
  }

  lemma SnapshotKeepsSaved(world: World, s: State, run: nat, snapshot: Snapshot, saveOk: bool)
    requires ScanningIsOK(world, s, run) && AllSavedOK(world, s.saved) && SnapshotEnabled(s, run, snapshot)
    ensures AllSavedOK(world, ApplySnapshot(s, run, snapshot, saveOk).saved)
  {
    var scan := s.open[run].scan;
    if Passes(scan) && saveOk {
      SnapshotIsSound(world, s.cache, s.store, scan, snapshot);
      assert (s.saved + [Saved(snapshot, scan)])[..|s.saved|] == s.saved;
    }
  }

  ghost predicate ScanningIsOK(world: World, s: State, run: nat) {
    run in s.open && s.open[run].Scanning? && ScanOK(world, s.cache, s.store, s.open[run].scan)
  }

  /** The steps that open or close workflows. */
  predicate IsWorkflowStep(e: Event) {
    e.StartLauncher? || e.StartOrchestrator? || e.LaunchChild? || e.Close? || e.PassGuard?
  }

  lemma WorkflowStepKeepsLive(world: World, s: State, e: Event)
    requires Live(world, s) && Enabled(world, s, e) && IsWorkflowStep(e)
    ensures Live(world, Apply(world, s, e))
  {
    match e
    case StartLauncher(run, workflowID, input) => OpenKeepsLive(world, s, run, Launcher(workflowID, input));
    case StartOrchestrator(run, workflowID, input) => OpenKeepsLive(world, s, run, Unguarded(workflowID, input));
    case LaunchChild(launcher, run) => OpenKeepsLive(world, s, run, Apply(world, s, e).open[run]);
    case Close(run) => CloseKeepsLive(world, s, run);
    case PassGuard(run) => PassGuardKeepsLive(world, s, run);
  }

  lemma GiveUpKeepsLive(world: World, s: State, run: nat, kind: string)
    requires Live(world, s) && Enabled(world, s, GiveUp(run, kind))
    ensures Live(world, WithWorker(s, run, kind, WorkerOf(s, run, kind).(pc := GivenUp)))
  {
    LoadsSucceed(world, s, run, kind);
    IdleWorkerKeepsLive(world, s, run, kind, WorkerOf(s, run, kind).(pc := GivenUp));
  }

  lemma RestartKeepsLive(world: World, s: State, run: nat, kind: string)
    requires Live(world, s) && Enabled(world, s, Restart(run, kind))
    ensures Live(world, WithWorker(s, run, kind, NewWorker()))
  {
    IdleWorkerKeepsLive(world, s, run, kind, NewWorker());
  }

  lemma WorkerEventKeepsLive(world: World, s: State, e: Event)
    requires Live(world, s) && Enabled(world, s, e) && !IsWorkflowStep(e) && !e.TakeSnapshot?
    ensures Live(world, Apply(world, s, e))
  {
    match e
    case Fetch(run, kind, resources) => FetchKeepsLive(world, s, run, kind, resources);
    case LookUp(run, kind, provider) => LookUpKeepsLive(world, s, run, kind, provider);
    case Detect(run, kind, clock) => DetectKeepsLive(world, s, run, kind, clock);
    case StoreBatch(run, kind) => StoreKeepsLive(world, s, run, kind);
    case Emit(run, kind, ok) => EmitKeepsLive(world, s, run, kind, ok);
    case GiveUp(run, kind) => GiveUpKeepsLive(world, s, run, kind);
    case Restart(run, kind) => RestartKeepsLive(world, s, run, kind);
  }

  lemma SavedIsKept(world: World, s: State, e: Event)
    requires Enabled(world, s, e) && !e.TakeSnapshot?
    ensures Apply(world, s, e).saved == s.saved
  {
  }

  /** Every step but the last of a scan keeps open workflows in order. */
  lemma StepKeepsLive(world: World, s: State, e: Event)
    requires Live(world, s) && Enabled(world, s, e) && !e.TakeSnapshot?
    ensures Live(world, Apply(world, s, e)) && Apply(world, s, e).saved == s.saved
  {
    SavedIsKept(world, s, e);
    if IsWorkflowStep(e) {
      WorkflowStepKeepsLive(world, s, e);
    } else {
      WorkerEventKeepsLive(world, s, e);
    }
  }

  /** Every step keeps the invariant. */
  lemma StepKeepsInv(world: World, s: State, e: Event)
    requires Inv(world, s) && Enabled(world, s, e)
    ensures Inv(world, Apply(world, s, e))
  {
    if e.TakeSnapshot? {
      SnapshotKeepsLive(world, s, e.run, e.snapshot, e.saveOk);
      assert ScanningIsOK(world, s, e.run);
      SnapshotKeepsSaved(world, s, e.run, e.snapshot, e.saveOk);
    } else {
      StepKeepsLive(world, s, e);
    }
  }

  lemma {:induction false} ReachableKeepsInv(world: World, events: seq<Event>, s: State)
    requires Reaches(world, events, s)
    ensures Inv(world, s)
    decreases |events|
  {
    if events != [] {
      var prior :| Follows(world, events, prior, s);
      ReachableKeepsInv(world, events[..|events| - 1], prior);
      StepKeepsInv(world, prior, events[|events| - 1]);
    }
  }

  // ---------------------------------------------------------------------------------------------
  // Main results

  /** Isolation: in every interleaving, restarts included, every load of every detection workflow
      succeeds and returns exactly what that workflow itself put into the shared cache. */
  lemma LoadsReturnOwnData(world: World, s: State, run: nat, kind: string)
    requires Reachable(world, s) && Working(s, run, kind)
    ensures var w := WorkerOf(s, run, kind);
            && (w.pc in {AtEOL, AtDetect} ==> LoadResources(s.cache, w.batchID, []) == Ok(w.fetched))
            && (w.pc in {AtStore, AtEmit} ==> LoadFindings(s.cache, w.findingsBatchID, []) == Ok(w.findings))
  {
    var events :| Reaches(world, events, s);
    ReachableKeepsInv(world, events, s);
    LoadsSucceed(world, s, run, kind);
  }

  /** The last activity ends the workflow whether or not its metrics get out; its findings leave the cache
      exactly if they do. */
  lemma MetricsAreBestEffort(world: World, s: State, run: nat, kind: string, ok: bool)
    requires Reachable(world, s) && Enabled(world, s, Emit(run, kind, ok))
    ensures var s' := Apply(world, s, Emit(run, kind, ok));
            var key := FindingsKey(ResourceKey(s.open[run].scan.scanID, kind));
            && Working(s', run, kind) && WorkerOf(s', run, kind).pc.Done?
            && (WorkerOf(s', run, kind).emitted <==> ok)
            && s'.store == s.store && s'.cache == if ok then s.cache - {key} else s.cache
  {
    var events :| Reaches(world, events, s);
    ReachableKeepsInv(world, events, s);
    LoadsSucceed(world, s, run, kind);
    KeysOfTypes(s.open[run].scan.scanID, kind, kind);
  }

  ghost predicate AllDone(scan: Scan) {
    forall t :: t in scan.workers ==> scan.workers[t].pc.Done?
  }

  /** The cache holds a key of one of the scan's types. */
  ghost predicate HoldsKeyOf(cache: Cache, scan: Scan) {
    exists kind, key :: kind in scan.requested && OwnKey(scan.scanID, kind, key) && key in cache
  }

  /** What a finished workflow leaves in the cache: its findings, if their metrics were not emitted, and
      nothing else. */
  lemma DoneWorkerLeaves(world: World, s: State, run: nat, kind: string)
    requires Reachable(world, s) && Working(s, run, kind) && WorkerOf(s, run, kind).pc.Done?
    ensures var key, w := ResourceKey(s.open[run].scan.scanID, kind), WorkerOf(s, run, kind);
            && key !in s.cache
            && (FindingsKey(key) in s.cache <==> !w.emitted)
            && (!w.emitted ==> s.cache[FindingsKey(key)] == FindingBatch(w.findings))
  {
    var events :| Reaches(world, events, s);
    ReachableKeepsInv(world, events, s);
    var scan := s.open[run].scan;
    assert ScanOK(world, s.cache, s.store, scan);
    assert WorkerOK(world, s.cache, s.store, scan.scanID, kind, scan.workers[kind]);
  }

  /** Eviction: when all detection workflows of a scan have finished, the cache holds no key of the scan
      exactly if all of them emitted their metrics. */
  lemma CacheIsEmptied(world: World, s: State, run: nat)
    requires Reachable(world, s) && run in s.open && s.open[run].Scanning? && AllDone(s.open[run].scan)
    ensures var scan := s.open[run].scan;
            !HoldsKeyOf(s.cache, scan) <==> forall t :: t in scan.workers ==> scan.workers[t].emitted
  {
    var events :| Reaches(world, events, s);
    ReachableKeepsInv(world, events, s);
    var scan := s.open[run].scan;
    assert ScanOK(world, s.cache, s.store, scan);
    forall t | t in scan.workers
      ensures t in scan.requested && ResourceKey(scan.scanID, t) !in s.cache
      ensures FindingsKey(ResourceKey(scan.scanID, t)) in s.cache <==> !scan.workers[t].emitted
    {
      DoneWorkerLeaves(world, s, run, t);
      assert t in TypeSet(scan.requested);
    }
    assert forall t :: t in scan.requested ==> t in TypeSet(scan.requested);
    assert forall t :: OwnKey(scan.scanID, t, FindingsKey(ResourceKey(scan.scanID, t)));
  }

  /** No two scans overlap, however they were started: whatever scan step is taken, it is taken by the
      only scan past the guard, so one scan's stores never mix with another's snapshot. */
  lemma ScansDoNotOverlap(world: World, s: State, run: nat, other: nat)
    requires Reachable(world, s)
    requires run in s.open && s.open[run].Scanning? && other in s.open && s.open[other].Scanning?
    ensures run == other
    ensures s.open[run].workflowID == ACTIVE_SCAN_WORKFLOW_ID
  {
    var events :| Reaches(world, events, s);
    ReachableKeepsInv(world, events, s);
  }

  /** A scan that is aborted, or that has taken its snapshot, is gone, and the singleton ID is free again
      for the next one. */
  lemma ScanEnds(world: World, s: State, run: nat, e: Event)
    requires Reachable(world, s) && run in s.open && s.open[run].Scanning? && Enabled(world, s, e)
    requires e == Close(run) || (e.TakeSnapshot? && e.run == run)
    ensures run !in Apply(world, s, e).open && !IsOpen(Apply(world, s, e), ACTIVE_SCAN_WORKFLOW_ID)
  {
    var events :| Reaches(world, events, s);
    ReachableKeepsInv(world, events, s);
  }

  /** Completeness: over any sequence of scans, a persisted snapshot holds, for each of its types, exactly
      the classification of the inventory fetched for that type in its own scan, each resource once. A
      full scan's snapshot has exactly the requested types; a targeted one exactly those that
      finished. */
  lemma SnapshotsAreExact(world: World, s: State, i: nat)
    requires Reachable(world, s) && i < |s.saved|
    ensures SavedOK(world, s.saved[i])
    ensures var scan, m := s.saved[i].scan, s.saved[i].snapshot.findingsByType;
            forall t :: t in m ==>
                          && ByID(m[t]) == ByID(DriftFindings(world.policy, scan.workers[t].fetched,
                                                              Memo(scan.workers[t].fetched, scan.workers[t].provider),
                                                              scan.workers[t].clock))
                          && forall j, k :: 0 <= j < k < |m[t]| ==> m[t][j].resourceID != m[t][k].resourceID
  {
    var events :| Reaches(world, events, s);
    ReachableKeepsInv(world, events, s);
    SavedAt(world, s.saved, i);
    var scan, m := s.saved[i].scan, s.saved[i].snapshot.findingsByType;
    forall t | t in m
      ensures ByID(m[t]) == ByID(scan.workers[t].findings)
      ensures forall j, k :: 0 <= j < k < |m[t]| ==> m[t][j].resourceID != m[t][k].resourceID
    {
      ListingHasNoDuplicates(ByID(scan.workers[t].findings), m[t]);
    }
  }

  /** The gate: when a scan reaches its snapshot, something is saved exactly if some type finished and,
      for a full scan, every requested type did. */
  lemma GateIsExact(world: World, s: State, run: nat, snapshot: Snapshot)
    requires Reachable(world, s) && Enabled(world, s, TakeSnapshot(run, snapshot, true))
    ensures var scan := s.open[run].scan;
            Apply(world, s, TakeSnapshot(run, snapshot, true)).saved ==
            if && (exists t :: t in scan.requested && scan.workers[t].pc.Done?)
               && (scan.scope == SCOPE_FULL ==> forall t :: t in scan.requested ==> scan.workers[t].pc.Done?)
            then s.saved + [Saved(snapshot, scan)] else s.saved
  {
    var events :| Reaches(world, events, s);
    ReachableKeepsInv(world, events, s);
    var scan := s.open[run].scan;
    assert ScanOK(world, s.cache, s.store, scan);
    GateOfScan(scan);
  }

  lemma GateOfScan(scan: Scan)
    requires scan.scope == NormalizeScanScope(scan.scope) && forall t :: t in scan.requested ==> t in scan.workers
    ensures Passes(scan) <==>
            && (exists t :: t in scan.requested && scan.workers[t].pc.Done?)
            && (scan.scope == SCOPE_FULL ==> forall t :: t in scan.requested ==> scan.workers[t].pc.Done?)
  {
    FinishedMembers(scan.requested, scan.workers);
    var finished := FinishedTypes(scan.requested, scan.workers);
    assert finished != [] ==> finished[0] in finished;
  }
}
