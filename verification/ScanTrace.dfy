/** The protocol can do what it is for: whatever an inventory holds and whatever the catalogue answers,
    there is a run that ends with the type's snapshot saved. */
module ScanTrace {
  import opened Types
  import opened MemoryStore
  import opened Detection
  import opened SnapshotBuilder
  import opened Orchestrator
  import opened ScanProtocol
  import opened ScanSafety

  // ---------------------------------------------------------------------------------------------
  // A snapshot to take

  ghost function ListingOf(m: Findings): (listing: seq<Finding>)
    requires KeyedByID(m)
    ensures IsListing(m, listing)
    decreases |m|
  {
    if m == map[] then []
    else
      var id :| id in m;
      var rest := ListingOf(m - {id});
      assert (rest + [m[id]])[..|rest|] == rest;
      assert m == (m - {id})[id := m[id]];
      rest + [m[id]]
  }

  lemma {:induction false} SomeOrder(m: FindingsByType) returns (order: seq<string>)
    ensures Visits(m, order)
    decreases |m|
  {
    if m == map[] {
      order := [];
    } else {
      var k :| k in m;
      var rest := SomeOrder(m - {k});
      order := rest + [k];
      forall i, j | 0 <= i < j < |order| ensures order[i] != order[j] {
        assert order[i] in rest;
      }
    }
  }

  ghost function TypeBucket(findings: seq<Finding>): StatBucket {
    var b := ObserveAll(EMPTY_SUMMARY, findings).overall;
    b.(compliance := CompliancePercentage(b))
  }

  /** Findings by type always have a summary that reports them. */
  lemma SomeReport(m: FindingsByType) returns (s: Summary)
    ensures Reports(s, m)
  {
    var order := SomeOrder(m);
    var observed := ObserveAll(EMPTY_SUMMARY, Concat(m, order));
    ObserveAllTallies(EMPTY_SUMMARY, Concat(m, order));
    ObserveAllKeeps(EMPTY_SUMMARY, Concat(m, order));
    TypesAreRenewed(m);
    s := ReportFrom(m, order, observed);
  }

  lemma ReportFrom(m: FindingsByType, order: seq<string>, observed: Summary) returns (s: Summary)
    requires Visits(m, order) && Tally(EMPTY_SUMMARY, observed, Concat(m, order)) && observed.overall.compliance == 0.0
    requires TypesRenewed(map[], TypeBuckets(m), m)
    ensures Reports(s, m)
  {
    var counted := observed.(byResourceType := TypeBuckets(m));
    TallyAccumulates(EMPTY_SUMMARY, counted, m, order);
    s := Finished(counted);
    FirstBuildReports(s, m);
  }

  ghost function TypeBuckets(m: FindingsByType): map<string, StatBucket> {
    map k | k in m :: TypeBucket(m[k])
  }

  lemma TypeBucketCounts(findings: seq<Finding>)
    ensures TypeCounted(TypeBucket(findings), findings)
  {
    ObserveAllTallies(EMPTY_SUMMARY, findings);
    var b := ObserveAll(EMPTY_SUMMARY, findings).overall;
    assert Grew(EMPTY_BUCKET, b, findings, Everything);
  }

  lemma TypesAreRenewed(m: FindingsByType)
    ensures TypesRenewed(map[], TypeBuckets(m), m)
  {
    forall k | k in m ensures TypeCounted(TypeBuckets(m)[k], m[k]) {
      TypeBucketCounts(m[k]);
    }
  }

  ghost function Listings(types: set<string>, findings: Findings): (m: FindingsByType)
    requires KeyedByID(findings)
    ensures ListsTypes(m, types, findings)
  {
    map t | t in types :: ListingOf(Selected(findings, OfKind(t)))
  }

  lemma SomeSnapshot(id: string, types: set<string>, findings: Findings) returns (snapshot: Snapshot)
    requires KeyedByID(findings)
    ensures SnapshotOf(snapshot, id, types, findings)
  {
    var m := Listings(types, findings);
    assert ListsTypes(m, types, findings);
    var s := SomeReport(m);
    snapshot := Snapshot(id, m, s);
  }

  // ---------------------------------------------------------------------------------------------
  // A run

  /** A scan of `types` under `scope`, of which one type's detection is to finish. */
  datatype Plan = Plan(run: nat, scanID: string, scope: string, types: seq<string>, kind: string)

  predicate Feasible(plan: Plan) {
    Admissible(plan.types) && plan.kind in plan.types && (plan.scope == "targeted" || plan.types == [plan.kind])
  }

  /** The planned scan is under way, nothing has been saved yet, its type's worker stands at `pc`, and the
      workers of the first `n` types have given up, that one excepted. */
  ghost predicate Stands(s: State, plan: Plan, pc: Pc, n: nat) {
    && Working(s, plan.run, plan.kind) && s.saved == []
    && var scan := s.open[plan.run].scan;
    && scan.scanID == plan.scanID && scan.scope == NormalizeScanScope(plan.scope) && scan.requested == plan.types
    && scan.workers.Keys == TypeSet(plan.types) && scan.workers[plan.kind].pc == pc
    && OthersStand(scan.workers, plan, n)
  }

  ghost predicate OthersStand(workers: map<string, Worker>, plan: Plan, n: nat) {
    forall i :: 0 <= i < |plan.types| && plan.types[i] != plan.kind ==>
                  plan.types[i] in workers && workers[plan.types[i]].pc == if i < n then GivenUp else AtFetch
  }

  lemma OneMoreStands(workers: map<string, Worker>, plan: Plan, n: nat, w: Worker)
    requires Feasible(plan) && n < |plan.types| && OthersStand(workers, plan, n) && w.pc.GivenUp?
    ensures OthersStand(workers[plan.types[n] := w], plan, n + 1)
  {
  }

  lemma OneGivesUp(world: World, s: State, plan: Plan, n: nat)
    requires Feasible(plan) && n < |plan.types| && plan.types[n] != plan.kind && Stands(s, plan, AtFetch, n)
    ensures var t := plan.types[n];
            && Working(s, plan.run, t) && Enabled(world, s, GiveUp(plan.run, t))
            && Stands(WithWorker(s, plan.run, t, WorkerOf(s, plan.run, t).(pc := GivenUp)), plan, AtFetch, n + 1)
  {
    var workers, t := s.open[plan.run].scan.workers, plan.types[n];
    assert t in workers.Keys;
    var w := workers[t].(pc := GivenUp);
    OneMoreStands(workers, plan, n, w);
    assert workers[t := w].Keys == workers.Keys;
  }

  lemma {:induction false} OthersGiveUp(world: World, s0: State, plan: Plan, n: nat) returns (s: State)
    requires Reachable(world, s0) && Feasible(plan) && n <= |plan.types| && Stands(s0, plan, AtFetch, n)
    ensures Reachable(world, s) && Stands(s, plan, AtFetch, |plan.types|)
    decreases |plan.types| - n
  {
    if n == |plan.types| {
      s := s0;
    } else if plan.types[n] == plan.kind {
      s := OthersGiveUp(world, s0, plan, n + 1);
    } else {
      var t := plan.types[n];
      OneGivesUp(world, s0, plan, n);
      OneMore(world, s0, GiveUp(plan.run, t));
      s := OthersGiveUp(world, WithWorker(s0, plan.run, t, WorkerOf(s0, plan.run, t).(pc := GivenUp)), plan, n + 1);
    }
  }

  predicate Waits(s: State, plan: Plan) {
    && plan.run in s.open && s.open[plan.run].Unguarded? && s.open[plan.run].workflowID == ACTIVE_SCAN_WORKFLOW_ID
    && var input := s.open[plan.run].input;
    && plan.scanID == (if input.scanID == "" then ACTIVE_SCAN_WORKFLOW_ID else input.scanID)
    && input.scanScope == plan.scope && input.resourceTypes == plan.types
  }

  /** A scan that waits at the guard under the singleton ID gets past it. */
  lemma ScanStarts(world: World, s0: State, plan: Plan) returns (s: State)
    requires Reachable(world, s0) && Feasible(plan) && s0.saved == []
    requires Waits(s0, plan)
    ensures Reachable(world, s) && Stands(s, plan, AtFetch, |plan.types|)
  {
    OneMore(world, s0, PassGuard(plan.run));
    assert plan.kind in TypeSet(plan.types);
    s := OthersGiveUp(world, Apply(world, s0, PassGuard(plan.run)), plan, 0);
  }

  /** The worker of the plan's type, and nobody else, has moved. */
  lemma WorkerMoved(s0: State, plan: Plan, w: Worker, pc: Pc, pc': Pc)
    requires Stands(s0, plan, pc, |plan.types|) && w.pc == pc'
    ensures Stands(WithWorker(s0, plan.run, plan.kind, w), plan, pc', |plan.types|)
  {
  }

  /** Giving up is not for good: a restarted workflow begins anew. */
  lemma WorkerRestarts(world: World, s0: State, plan: Plan) returns (s: State)
    requires Reachable(world, s0) && Stands(s0, plan, AtFetch, |plan.types|)
    ensures Reachable(world, s) && Stands(s, plan, AtFetch, |plan.types|)
  {
    OneMore(world, s0, GiveUp(plan.run, plan.kind));
    var w := WorkerOf(s0, plan.run, plan.kind).(pc := GivenUp);
    var s1 := WithWorker(s0, plan.run, plan.kind, w);
    WorkerMoved(s0, plan, w, AtFetch, GivenUp);
    OneMore(world, s1, Restart(plan.run, plan.kind));
    s := Apply(world, s1, Restart(plan.run, plan.kind));
    WorkerMoved(s1, plan, NewWorker(), GivenUp, AtFetch);
  }

  lemma WorkerLooksUp(world: World, s0: State, plan: Plan, resources: seq<Resource>, provider: StableProvider)
    returns (s: State)
    requires Reachable(world, s0) && Stands(s0, plan, AtFetch, |plan.types|)
    requires TypedInventory(resources, plan.kind, world.kindOf)
    ensures Reachable(world, s) && Stands(s, plan, AtDetect, |plan.types|)
    ensures WorkerOf(s, plan.run, plan.kind).fetched == resources
    ensures WorkerOf(s, plan.run, plan.kind).provider == provider
  {
    OneMore(world, s0, Fetch(plan.run, plan.kind, resources));
    var s1 := ApplyFetch(s0, plan.run, plan.kind, resources);
    WorkerMoved(s0, plan, WorkerOf(s1, plan.run, plan.kind), AtFetch, AtEOL);
    LoadsReturnOwnData(world, s1, plan.run, plan.kind);
    OneMore(world, s1, LookUp(plan.run, plan.kind, provider));
    s := ApplyLookUp(s1, plan.run, plan.kind, provider);
    WorkerMoved(s1, plan, WorkerOf(s, plan.run, plan.kind), AtEOL, AtDetect);
  }

  lemma WorkerDetects(world: World, s0: State, plan: Plan, clock: Clock) returns (s: State)
    requires Reachable(world, s0) && Stands(s0, plan, AtDetect, |plan.types|)
    ensures Reachable(world, s) && Stands(s, plan, AtStore, |plan.types|)
    ensures WorkerOf(s, plan.run, plan.kind).fetched == WorkerOf(s0, plan.run, plan.kind).fetched
    ensures WorkerOf(s, plan.run, plan.kind).provider == WorkerOf(s0, plan.run, plan.kind).provider
    ensures WorkerOf(s, plan.run, plan.kind).clock == clock
  {
    LoadsReturnOwnData(world, s0, plan.run, plan.kind);
    OneMore(world, s0, Detect(plan.run, plan.kind, clock));
    s := ApplyDetect(world, s0, plan.run, plan.kind, clock);
    WorkerMoved(s0, plan, WorkerOf(s, plan.run, plan.kind), AtDetect, AtStore);
  }

  lemma WorkerEnds(world: World, s0: State, plan: Plan) returns (s: State)
    requires Reachable(world, s0) && Stands(s0, plan, AtStore, |plan.types|)
    ensures Reachable(world, s) && Stands(s, plan, Done, |plan.types|)
    ensures WorkerOf(s, plan.run, plan.kind).fetched == WorkerOf(s0, plan.run, plan.kind).fetched
    ensures WorkerOf(s, plan.run, plan.kind).provider == WorkerOf(s0, plan.run, plan.kind).provider
    ensures WorkerOf(s, plan.run, plan.kind).clock == WorkerOf(s0, plan.run, plan.kind).clock
  {
    LoadsReturnOwnData(world, s0, plan.run, plan.kind);
    OneMore(world, s0, StoreBatch(plan.run, plan.kind));
    var s1 := ApplyStore(s0, plan.run, plan.kind);
    WorkerMoved(s0, plan, WorkerOf(s1, plan.run, plan.kind), AtStore, AtEmit);
    LoadsReturnOwnData(world, s1, plan.run, plan.kind);
    OneMore(world, s1, Emit(plan.run, plan.kind, true));
    s := ApplyEmit(s1, plan.run, plan.kind, true);
    WorkerMoved(s1, plan, WorkerOf(s, plan.run, plan.kind), AtEmit, Done);
  }

  lemma OnlyOneFinished(s: State, plan: Plan)
    requires Feasible(plan) && Stands(s, plan, Done, |plan.types|)
    ensures var scan := s.open[plan.run].scan;
            && (forall t :: t in scan.requested ==> t in scan.workers)
            && (forall t :: t in scan.workers ==> scan.workers[t].pc in {Done, GivenUp})
            && TypeSet(FinishedTypes(scan.requested, scan.workers)) == {plan.kind} && Passes(scan)
  {
    var scan := s.open[plan.run].scan;
    assert forall t :: t in scan.requested ==> t in TypeSet(plan.types);
    FinishedMembers(scan.requested, scan.workers);
    var finished := FinishedTypes(scan.requested, scan.workers);
    forall t | t in scan.workers && t != plan.kind ensures scan.workers[t].pc.GivenUp? {
      assert t in TypeSet(plan.types);
      var i :| 0 <= i < |plan.types| && plan.types[i] == t;
    }
    assert plan.kind in finished;
    assert forall t :: t in TypeSet(finished) <==> t == plan.kind;
  }

  lemma TakenSnapshotIsSaved(world: World, s: State, run: nat, snapshot: Snapshot) returns (t: State)
    requires Reachable(world, s) && SnapshotEnabled(s, run, snapshot) && Passes(s.open[run].scan)
    ensures Reachable(world, t) && t.saved == s.saved + [Saved(snapshot, s.open[run].scan)]
  {
    var e := TakeSnapshot(run, snapshot, true);
    assert Enabled(world, s, e);
    OneMore(world, s, e);
    t := Apply(world, s, e);
  }

  lemma SnapshotIsSaved(world: World, s0: State, plan: Plan) returns (s: State, snapshot: Snapshot)
    requires Reachable(world, s0) && Feasible(plan) && Stands(s0, plan, Done, |plan.types|)
    ensures Reachable(world, s) && s.saved == s0.saved + [Saved(snapshot, s0.open[plan.run].scan)]
    ensures snapshot.id == plan.scanID && snapshot.findingsByType.Keys == {plan.kind}
  {
    var events :| Reaches(world, events, s0);
    ReachableKeepsInv(world, events, s0);
    OnlyOneFinished(s0, plan);
    snapshot := SomeSnapshot(plan.scanID, {plan.kind}, s0.store);
    s := TakenSnapshotIsSaved(world, s0, plan.run, snapshot);
  }

  /** The snapshot saved is that of the plan: its ID, and of its types exactly the one, with exactly the
      classification of the inventory. */
  ghost predicate SavedAsPlanned(world: World, s: State, plan: Plan, resources: seq<Resource>,
                                 provider: StableProvider, clock: Clock)
  {
    && |s.saved| == 1
    && var snapshot := s.saved[0].snapshot;
    && snapshot.id == plan.scanID && snapshot.findingsByType.Keys == {plan.kind}
    && ByID(snapshot.findingsByType[plan.kind]) ==
       ByID(DriftFindings(world.policy, resources, Memo(resources, provider), clock))
  }

  /** From the moment its type's worker is the only one left, the plan can be carried out. */
  lemma PlanIsCarriedOut(world: World, s0: State, plan: Plan, resources: seq<Resource>, provider: StableProvider,
                         clock: Clock)
    returns (s: State)
    requires Reachable(world, s0) && Feasible(plan) && Stands(s0, plan, AtFetch, |plan.types|)
    requires TypedInventory(resources, plan.kind, world.kindOf)
    ensures Reachable(world, s) && SavedAsPlanned(world, s, plan, resources, provider, clock)
    ensures s.saved[0].scan.requested == plan.types
    ensures OthersStand(s.saved[0].scan.workers, plan, |plan.types|)
  {
    s := WorkerLooksUp(world, s0, plan, resources, provider);
    s := WorkerDetects(world, s, plan, clock);
    s := WorkerEnds(world, s, plan);
    var snapshot;
    s, snapshot := SnapshotIsSaved(world, s, plan);
    SnapshotsAreExact(world, s, 0);
  }

  lemma StartIsReachable(world: World)
    ensures Reachable(world, INIT)
  {
    assert Reaches(world, [], INIT);
  }

  /** For every type, inventory of that type, provider and clock there is a run that saves a snapshot of
      exactly that type, holding exactly the classification of that inventory. */
  lemma AScanCanSave(world: World, kind: string, resources: seq<Resource>, provider: StableProvider, clock: Clock)
    returns (s: State)
    requires kind != "" && TypedInventory(resources, kind, world.kindOf)
    ensures Reachable(world, s)
    ensures SavedAsPlanned(world, s, Plan(0, ACTIVE_SCAN_WORKFLOW_ID, "full", [kind], kind), resources, provider, clock)
  {
    var input := WorkflowInput("", "full", [kind]);
    assert |kind| < |kind + "-findings"|;
    StartIsReachable(world);
    OneMore(world, INIT, StartOrchestrator(0, ACTIVE_SCAN_WORKFLOW_ID, input));
    s := Apply(world, INIT, StartOrchestrator(0, ACTIVE_SCAN_WORKFLOW_ID, input));
    var plan := Plan(0, ACTIVE_SCAN_WORKFLOW_ID, "full", [kind], kind);
    s := ScanStarts(world, s, plan);
    s := PlanIsCarriedOut(world, s, plan, resources, provider, clock);
  }

  /** The same for a scheduled scan, which saves its snapshot under its launcher's workflow ID. */
  lemma AScheduledScanCanSave(world: World, launcherID: string, kind: string, resources: seq<Resource>,
                              provider: StableProvider, clock: Clock)
    returns (s: State)
    requires launcherID !in {"", ACTIVE_SCAN_WORKFLOW_ID}
    requires kind != "" && TypedInventory(resources, kind, world.kindOf)
    ensures Reachable(world, s)
    ensures SavedAsPlanned(world, s, Plan(1, launcherID, "full", [kind], kind), resources, provider, clock)
  {
    var input := WorkflowInput("", "full", [kind]);
    assert |kind| < |kind + "-findings"|;
    StartIsReachable(world);
    OneMore(world, INIT, StartLauncher(0, launcherID, input));
    var launching := Apply(world, INIT, StartLauncher(0, launcherID, input));
    OneMore(world, launching, LaunchChild(0, 1));
    s := Apply(world, launching, LaunchChild(0, 1));
    var plan := Plan(1, launcherID, "full", [kind], kind);
    s := ScanStarts(world, s, plan);
    s := PlanIsCarriedOut(world, s, plan, resources, provider, clock);
  }

  /** For every request of a targeted scan and each of its types there is a run in which that type gives up
      once and is restarted, all the other types give up for good, and the snapshot of that one is saved. */
  lemma ATargetedScanCanSave(world: World, input: WorkflowInput, kind: string, resources: seq<Resource>,
                             provider: StableProvider, clock: Clock)
    returns (s: State)
    requires input.scanID != "" && input.scanScope == "targeted"
    requires Admissible(input.resourceTypes) && kind in input.resourceTypes
    requires TypedInventory(resources, kind, world.kindOf)
    ensures var plan := Plan(0, input.scanID, "targeted", input.resourceTypes, kind);
            && Reachable(world, s) && SavedAsPlanned(world, s, plan, resources, provider, clock)
            && s.saved[0].scan.requested == input.resourceTypes
            && forall t :: t in input.resourceTypes && t != kind ==>
                             t in s.saved[0].scan.workers && s.saved[0].scan.workers[t].pc.GivenUp?
  {
    var plan := Plan(0, input.scanID, "targeted", input.resourceTypes, kind);
    StartIsReachable(world);
    OneMore(world, INIT, StartOrchestrator(0, ACTIVE_SCAN_WORKFLOW_ID, input));
    s := Apply(world, INIT, StartOrchestrator(0, ACTIVE_SCAN_WORKFLOW_ID, input));
    s := ScanStarts(world, s, plan);
    s := WorkerRestarts(world, s, plan);
    s := PlanIsCarriedOut(world, s, plan, resources, provider, clock);
    forall t | t in input.resourceTypes && t != kind
      ensures t in s.saved[0].scan.workers && s.saved[0].scan.workers[t].pc.GivenUp?
    {
      var i :| 0 <= i < |plan.types| && plan.types[i] == t;
    }
  }
}
