/** The scan protocol as a state machine: launchers and orchestrators under workflow IDs, the detection
    workflows of a scan with their program counters, and the cache and store they share. Every activity
    is one step; an attempt that fails has no effect, so only the workflow's giving up is a step. */
module ScanProtocol {
  import opened Types
  import opened Policy
  import opened MemoryStore
  import opened Detection
  import opened SnapshotBuilder
  import opened Orchestrator

  datatype Pc = AtFetch | AtEOL | AtDetect | AtStore | AtEmit | Done | GivenUp

  /** One detection workflow. `batchID` and `findingsBatchID` are the handles it was given; `fetched`,
      `provider`, `clock` and `findings` record what its activities saw and made. */
  datatype Worker = Worker(
    pc: Pc,
    batchID: string,
    lifecycles: map<string, VersionLifecycle>,
    findingsBatchID: string,
    emitted: bool,
    fetched: seq<Resource>,
    provider: StableProvider,
    clock: Clock,
    findings: seq<Finding>)

  datatype Scan = Scan(scanID: string, scope: string, requested: seq<string>, workers: map<string, Worker>)

  /** An open workflow execution. */
  datatype Run =
    | Launcher(workflowID: string, input: WorkflowInput)
    | Unguarded(workflowID: string, input: WorkflowInput)
    | Scanning(workflowID: string, scan: Scan)

  datatype Saved = Saved(snapshot: Snapshot, scan: Scan)

  datatype State = State(open: map<nat, Run>, cache: Cache, store: Findings, saved: seq<Saved>)

  /** What stays fixed: the policy, and the type each resource ID belongs to. */
  datatype World = World(policy: DefaultPolicy, kindOf: string -> string)

  datatype Event =
    | StartLauncher(run: nat, workflowID: string, input: WorkflowInput)
    | StartOrchestrator(run: nat, workflowID: string, input: WorkflowInput)
    | LaunchChild(launcher: nat, run: nat)
    | Close(run: nat)
    | PassGuard(run: nat)
    | Fetch(run: nat, kind: string, resources: seq<Resource>)
    | LookUp(run: nat, kind: string, provider: StableProvider)
    | Detect(run: nat, kind: string, clock: Clock)
    | StoreBatch(run: nat, kind: string)
    | Emit(run: nat, kind: string, ok: bool)
    | GiveUp(run: nat, kind: string)
    | Restart(run: nat, kind: string)
    | TakeSnapshot(run: nat, snapshot: Snapshot, saveOk: bool)

  // ---------------------------------------------------------------------------------------------
  // Requests

  /** Requests as the configuration gives them: distinct, named types, none of them another's name with
      the suffix of the findings key. */
  predicate Admissible(types: seq<string>) {
    && (forall i, j :: 0 <= i < j < |types| ==> types[i] != types[j])
    && (forall t, u :: t in types && u in types ==> t != u + "-findings")
    && "" !in types
  }

  predicate TypedInventory(resources: seq<Resource>, kind: string, kindOf: string -> string) {
    forall r :: r in resources ==> r.kind == kind == kindOf(r.id)
  }

  function UnknownProvider(engine: string, version: string): Provider.Lookup {
    Provider.Lookup(None, true)
  }

  function UnsetClock(i: nat): Time {
    ZERO_TIME
  }

  function NewWorker(): Worker {
    Worker(AtFetch, "", map[], "", false, [], UnknownProvider, UnsetClock, [])
  }

  function NewScan(workflowID: string, input: WorkflowInput): Scan {
    Scan(if input.scanID == "" then workflowID else input.scanID,
         NormalizeScanScope(input.scanScope), input.resourceTypes,
         map t | t in input.resourceTypes :: NewWorker())
  }

  function FinishedTypes(requested: seq<string>, workers: map<string, Worker>): seq<string>
    requires forall t :: t in requested ==> t in workers
  {
    if requested == [] then []
    else
      var rest, last := FinishedTypes(requested[..|requested| - 1], workers), requested[|requested| - 1];
      if workers[last].pc.Done? then rest + [last] else rest
  }

  function SnapshotInput(scan: Scan): CreateSnapshotInput
    requires forall t :: t in scan.requested ==> t in scan.workers
  {
    CreateSnapshotInput(scan.scanID, scan.scope, FinishedTypes(scan.requested, scan.workers), scan.requested)
  }

  // ---------------------------------------------------------------------------------------------
  // Steps

  predicate IsOpen(s: State, workflowID: string) {
    exists r :: r in s.open && s.open[r].workflowID == workflowID
  }

  predicate Working(s: State, run: nat, kind: string) {
    run in s.open && s.open[run].Scanning? && kind in s.open[run].scan.workers
  }

  function WorkerOf(s: State, run: nat, kind: string): Worker
    requires Working(s, run, kind)
  {
    s.open[run].scan.workers[kind]
  }

  ghost predicate Enabled(world: World, s: State, e: Event) {
    match e
    case StartLauncher(run, workflowID, input) =>
      run !in s.open && !IsOpen(s, workflowID) && Admissible(input.resourceTypes)
    case StartOrchestrator(run, workflowID, input) =>
      run !in s.open && !IsOpen(s, workflowID) && Admissible(input.resourceTypes)
    case LaunchChild(launcher, run) =>
      && launcher in s.open && s.open[launcher].Launcher? && run !in s.open
      && !IsOpen(s, ACTIVE_SCAN_WORKFLOW_ID) && Admissible(s.open[launcher].input.resourceTypes)
    case Close(run) => run in s.open
    case PassGuard(run) =>
      && run in s.open && s.open[run].Unguarded? && s.open[run].workflowID == ACTIVE_SCAN_WORKFLOW_ID
      && s.open[run].input.resourceTypes != [] && Admissible(s.open[run].input.resourceTypes)
    case Fetch(run, kind, resources) =>
      Working(s, run, kind) && WorkerOf(s, run, kind).pc.AtFetch? && TypedInventory(resources, kind, world.kindOf)
    case LookUp(run, kind, _) => Working(s, run, kind) && WorkerOf(s, run, kind).pc.AtEOL?
    case Detect(run, kind, _) => Working(s, run, kind) && WorkerOf(s, run, kind).pc.AtDetect?
    case StoreBatch(run, kind) => Working(s, run, kind) && WorkerOf(s, run, kind).pc.AtStore?
    case Emit(run, kind, _) => Working(s, run, kind) && WorkerOf(s, run, kind).pc.AtEmit?
    case GiveUp(run, kind) => Working(s, run, kind) && !WorkerOf(s, run, kind).pc.Done?
    case Restart(run, kind) => Working(s, run, kind) && WorkerOf(s, run, kind).pc.GivenUp?
    case TakeSnapshot(run, snapshot, _) => SnapshotEnabled(s, run, snapshot)
  }

  ghost predicate SnapshotEnabled(s: State, run: nat, snapshot: Snapshot) {
    && run in s.open && s.open[run].Scanning?
    && var scan := s.open[run].scan;
    && (forall t :: t in scan.requested ==> t in scan.workers)
    && (forall t :: t in scan.workers ==> scan.workers[t].pc in {Done, GivenUp})
    && SnapshotOf(snapshot, scan.scanID, TypeSet(FinishedTypes(scan.requested, scan.workers)), s.store)
  }

  function WithWorker(s: State, run: nat, kind: string, w: Worker): State
    requires Working(s, run, kind)
  {
    var scan := s.open[run].scan;
    s.(open := s.open[run := s.open[run].(scan := scan.(workers := scan.workers[kind := w]))])
  }

  ghost function Apply(world: World, s: State, e: Event): State
    requires Enabled(world, s, e)
  {
    match e
    case StartLauncher(run, workflowID, input) => s.(open := s.open[run := Launcher(workflowID, input)])
    case StartOrchestrator(run, workflowID, input) => s.(open := s.open[run := Unguarded(workflowID, input)])
    case LaunchChild(launcher, run) =>
      var input, launcherID := s.open[launcher].input, s.open[launcher].workflowID;
      var scanID := if input.scanID == "" then launcherID else input.scanID;
      s.(open := s.open[run := Unguarded(ACTIVE_SCAN_WORKFLOW_ID, input.(scanID := scanID))])
    case Close(run) => s.(open := s.open - {run})
    case PassGuard(run) =>
      var workflowID := s.open[run].workflowID;
      s.(open := s.open[run := Scanning(workflowID, NewScan(workflowID, s.open[run].input))])
    case Fetch(run, kind, resources) => ApplyFetch(s, run, kind, resources)
    case LookUp(run, kind, provider) => ApplyLookUp(s, run, kind, provider)
    case Detect(run, kind, clock) => ApplyDetect(world, s, run, kind, clock)
    case StoreBatch(run, kind) => ApplyStore(s, run, kind)
    case Emit(run, kind, ok) => ApplyEmit(s, run, kind, ok)
    case GiveUp(run, kind) => WithWorker(s, run, kind, WorkerOf(s, run, kind).(pc := GivenUp))
    case Restart(run, kind) => WithWorker(s, run, kind, NewWorker())
    case TakeSnapshot(run, snapshot, saveOk) => ApplySnapshot(s, run, snapshot, saveOk)
  }

  predicate Passes(scan: Scan)
    requires forall t :: t in scan.requested ==> t in scan.workers
  {
    FinishedTypes(scan.requested, scan.workers) != [] && GateOpens(SnapshotInput(scan))
  }

  ghost function ApplySnapshot(s: State, run: nat, snapshot: Snapshot, saveOk: bool): State
    requires SnapshotEnabled(s, run, snapshot)
  {
    var scan := s.open[run].scan;
    s.(open := s.open - {run}, saved := if Passes(scan) && saveOk then s.saved + [Saved(snapshot, scan)] else s.saved)
  }

  function ApplyFetch(s: State, run: nat, kind: string, resources: seq<Resource>): State
    requires Working(s, run, kind)
  {
    var key := ResourceKey(s.open[run].scan.scanID, kind);
    WithWorker(s, run, kind, WorkerOf(s, run, kind).(pc := AtEOL, batchID := key, fetched := resources)).(
    cache := AfterFetch(s.cache, key, resources))
  }

  /** A load that fails ends the workflow. */
  function ApplyLookUp(s: State, run: nat, kind: string, provider: StableProvider): State
    requires Working(s, run, kind)
  {
    var w := WorkerOf(s, run, kind);
    var loaded := LoadResources(s.cache, w.batchID, []);
    if loaded.Err? then WithWorker(s, run, kind, w.(pc := GivenUp))
    else WithWorker(s, run, kind, w.(pc := AtDetect, lifecycles := Memo(loaded.value, provider), provider := provider))
  }

  function ApplyDetect(world: World, s: State, run: nat, kind: string, clock: Clock): State
    requires Working(s, run, kind)
  {
    var w := WorkerOf(s, run, kind);
    var loaded := LoadResources(s.cache, w.batchID, []);
    if loaded.Err? then WithWorker(s, run, kind, w.(pc := GivenUp))
    else
      var findings := DriftFindings(world.policy, loaded.value, w.lifecycles, clock);
      WithWorker(s, run, kind, w.(pc := AtStore, findingsBatchID := FindingsKey(w.batchID), clock := clock,
                                  findings := findings)).(
      cache := AfterDetect(s.cache, w.batchID, findings))
  }

  function ApplyStore(s: State, run: nat, kind: string): State
    requires Working(s, run, kind)
  {
    var w := WorkerOf(s, run, kind);
    var loaded := LoadFindings(s.cache, w.findingsBatchID, []);
    if loaded.Err? then WithWorker(s, run, kind, w.(pc := GivenUp))
    else WithWorker(s, run, kind, w.(pc := AtEmit)).(store := Replaced(s.store, kind, loaded.value))
  }

  /** Metrics are best effort: the workflow completes whether or not they were emitted. */
  function ApplyEmit(s: State, run: nat, kind: string, ok: bool): State
    requires Working(s, run, kind)
  {
    var w := WorkerOf(s, run, kind);
    var loaded := LoadFindings(s.cache, w.findingsBatchID, []);
    if loaded.Err? || !ok then WithWorker(s, run, kind, w.(pc := Done))
    else WithWorker(s, run, kind, w.(pc := Done, emitted := true)).(cache := AfterEmit(s.cache, w.findingsBatchID))
  }

  // ---------------------------------------------------------------------------------------------
  // Executions

  const INIT := State(map[], map[], map[], [])

  /** `s` is reached from the start by the events, in order. */
  ghost predicate Reaches(world: World, events: seq<Event>, s: State)
    decreases |events|, 1
  {
    if events == [] then s == INIT
    else exists prior :: Follows(world, events, prior, s)
  }

  ghost predicate Follows(world: World, events: seq<Event>, prior: State, s: State)
    requires events != []
    decreases |events|, 0
  {
    var n := |events| - 1;
    Reaches(world, events[..n], prior) && Enabled(world, prior, events[n]) && s == Apply(world, prior, events[n])
  }

  ghost predicate Reachable(world: World, s: State) {
    exists events :: Reaches(world, events, s)
  }

  lemma OneMore(world: World, s: State, e: Event)
    requires Reachable(world, s) && Enabled(world, s, e)
    ensures Reachable(world, Apply(world, s, e))
  {
    var events :| Reaches(world, events, s);
    var more := events + [e];
    assert more[..|more| - 1] == events;
    assert Follows(world, more, s, Apply(world, s, e));
    assert Reaches(world, more, Apply(world, s, e));
  }
}
