/** What becomes of a request: under which ID, for which types and with which gate a scan runs, however it
    was started and whatever happens beside it. */
module ScanRequests {
  import opened SnapshotBuilder
  import opened Orchestrator
  import opened ScanProtocol
  import opened ScanSafety

  /** `t` is reached from `s` by the events, in order, and the run stays open all the while. */
  ghost predicate Continues(world: World, s: State, events: seq<Event>, t: State, run: nat)
    decreases |events|, 1
  {
    if events == [] then s == t && run in s.open
    else exists prior :: ContinuesOn(world, s, events, prior, t, run)
  }

  ghost predicate ContinuesOn(world: World, s: State, events: seq<Event>, prior: State, t: State, run: nat)
    requires events != []
    decreases |events|, 0
  {
    var n := |events| - 1;
    && Continues(world, s, events[..n], prior, run)
    && Enabled(world, prior, events[n])
    && t == Apply(world, prior, events[n]) && run in t.open
  }

  /** The scan is the one asked for: its types, its scope, where everything but "targeted" means a full
      scan, and its ID, which without one in the request is the workflow's. */
  predicate Serves(scan: Scan, workflowID: string, input: WorkflowInput) {
    && scan.requested == input.resourceTypes
    && (scan.scope == "targeted" <==> input.scanScope == "targeted")
    && scan.scanID == if input.scanID != "" then input.scanID else workflowID
  }

  /** The open run was started with this request. */
  predicate CarriesOut(r: Run, workflowID: string, input: WorkflowInput) {
    && !r.Launcher? && r.workflowID == workflowID
    && (r.Unguarded? ==> r.input == input)
    && (r.Scanning? ==> Serves(r.scan, workflowID, input))
  }

  lemma WorkerStepKeepsRequest(world: World, s: State, e: Event, run: nat)
    requires Enabled(world, s, e) && !IsWorkflowStep(e) && !e.TakeSnapshot? && run in s.open
    ensures run in Apply(world, s, e).open
    ensures var r, r' := s.open[run], Apply(world, s, e).open[run];
            r == r' || (r.Scanning? && r' == r.(scan := r.scan.(workers := r'.scan.workers)))
  {
  }

  lemma StepKeepsRequest(world: World, s: State, e: Event, run: nat, workflowID: string, input: WorkflowInput)
    requires Enabled(world, s, e) && run in s.open && run in Apply(world, s, e).open
    requires CarriesOut(s.open[run], workflowID, input)
    ensures CarriesOut(Apply(world, s, e).open[run], workflowID, input)
  {
    if !IsWorkflowStep(e) && !e.TakeSnapshot? {
      WorkerStepKeepsRequest(world, s, e, run);
    }
  }

  lemma {:induction false} RunKeepsRequest(world: World, s: State, events: seq<Event>, t: State, run: nat,
                                           workflowID: string, input: WorkflowInput)
    requires Continues(world, s, events, t, run)
    requires run in s.open && CarriesOut(s.open[run], workflowID, input)
    ensures run in t.open && CarriesOut(t.open[run], workflowID, input)
    decreases |events|
  {
    if events != [] {
      var n := |events| - 1;
      var prior :| ContinuesOn(world, s, events, prior, t, run);
      RunKeepsRequest(world, s, events[..n], prior, run, workflowID, input);
      StepKeepsRequest(world, prior, events[n], run, workflowID, input);
    }
  }

  lemma {:induction false} RunStaysReachable(world: World, s: State, events: seq<Event>, t: State, run: nat)
    requires Reachable(world, s) && Continues(world, s, events, t, run)
    ensures Reachable(world, t)
    decreases |events|
  {
    if events != [] {
      var n := |events| - 1;
      var prior :| ContinuesOn(world, s, events, prior, t, run);
      RunStaysReachable(world, s, events[..n], prior, run);
      OneMore(world, prior, events[n]);
    }
  }

  // ---------------------------------------------------------------------------------------------
  // Which ID a launched scan has

  /** The request handed to the child of a launcher: without an ID of its own it is given the launcher's
      workflow ID. */
  predicate IsChildRequest(child: WorkflowInput, launcherID: string, input: WorkflowInput) {
    && (input.scanID != "" ==> child.scanID == input.scanID)
    && (input.scanID == "" ==> child.scanID == launcherID)
    && child.resourceTypes == input.resourceTypes && child.scanScope == input.scanScope
  }

  /** From its launch to its end a launched scan keeps the ID of its launcher's request or else the
      launcher's workflow ID, with the types and the scope asked for; the snapshot it takes has that ID,
      and nothing but that snapshot is saved. */
  lemma LaunchedScanKeepsItsID(world: World, s: State, launcher: nat, run: nat, events: seq<Event>, t: State)
    returns (child: WorkflowInput)
    requires Reachable(world, s) && Enabled(world, s, LaunchChild(launcher, run))
    requires Continues(world, Apply(world, s, LaunchChild(launcher, run)), events, t, run)
    ensures IsChildRequest(child, s.open[launcher].workflowID, s.open[launcher].input)
    ensures run in t.open && CarriesOut(t.open[run], ACTIVE_SCAN_WORKFLOW_ID, child)
    ensures forall snapshot, ok :: Enabled(world, t, TakeSnapshot(run, snapshot, ok)) ==>
                                     && t.open[run].Scanning?
                                     && Serves(t.open[run].scan, ACTIVE_SCAN_WORKFLOW_ID, child)
                                     && snapshot.id == t.open[run].scan.scanID
                                     && Apply(world, t, TakeSnapshot(run, snapshot, ok)).saved in
                                        {t.saved, t.saved + [Saved(snapshot, t.open[run].scan)]}
  {
    var launched := Apply(world, s, LaunchChild(launcher, run));
    child := launched.open[run].input;
    RunKeepsRequest(world, launched, events, t, run, ACTIVE_SCAN_WORKFLOW_ID, child);
  }

  /** A launch and the save it ends with. */
  datatype Launch = Launch(before: State, launcher: nat, run: nat, events: seq<Event>, end: State, snapshot: Snapshot)

  ghost predicate EndsInSave(world: World, a: Launch) {
    && Reachable(world, a.before) && Enabled(world, a.before, LaunchChild(a.launcher, a.run))
    && Continues(world, Apply(world, a.before, LaunchChild(a.launcher, a.run)), a.events, a.end, a.run)
    && Enabled(world, a.end, TakeSnapshot(a.run, a.snapshot, true))
  }

  /** A launcher whose request has no ID. */
  ghost predicate IsAnonymous(a: Launch) {
    && a.launcher in a.before.open && a.before.open[a.launcher].Launcher?
    && a.before.open[a.launcher].workflowID != "" && a.before.open[a.launcher].input.scanID == ""
  }

  /** Scheduled scans keep apart: launchers with different workflow IDs never save under one snapshot ID,
      in whatever runs they occur. */
  lemma LaunchersDoNotShareIDs(world: World, a: Launch, b: Launch)
    requires EndsInSave(world, a) && EndsInSave(world, b) && IsAnonymous(a) && IsAnonymous(b)
    requires a.before.open[a.launcher].workflowID != b.before.open[b.launcher].workflowID
    ensures a.snapshot.id == a.before.open[a.launcher].workflowID
    ensures b.snapshot.id == b.before.open[b.launcher].workflowID
    ensures a.snapshot.id != b.snapshot.id
  {
    var x := LaunchedScanKeepsItsID(world, a.before, a.launcher, a.run, a.events, a.end);
    var y := LaunchedScanKeepsItsID(world, b.before, b.launcher, b.run, b.events, b.end);
  }

  // ---------------------------------------------------------------------------------------------
  // Which gate a scan has

  /** A scan started with a request saves by that request's gate: for scope "targeted" as soon as one
      type finished, for every other scope, unknown and missing ones included, only if all requested
      types did. What it saves has exactly the types that finished. */
  lemma GateFollowsRequest(world: World, s: State, run: nat, workflowID: string, input: WorkflowInput,
                           events: seq<Event>, t: State, snapshot: Snapshot)
    requires Reachable(world, s) && run in s.open && CarriesOut(s.open[run], workflowID, input)
    requires Continues(world, s, events, t, run) && Enabled(world, t, TakeSnapshot(run, snapshot, true))
    ensures var scan := t.open[run].scan;
            && (forall k :: k in input.resourceTypes ==> k in scan.workers)
            && Apply(world, t, TakeSnapshot(run, snapshot, true)).saved ==
               (if && (exists k :: k in input.resourceTypes && scan.workers[k].pc.Done?)
                   && (input.scanScope != "targeted" ==>
                         forall k :: k in input.resourceTypes ==> scan.workers[k].pc.Done?)
                then t.saved + [Saved(snapshot, scan)] else t.saved)
            && (forall k :: k in snapshot.findingsByType <==> k in input.resourceTypes && scan.workers[k].pc.Done?)
  {
    RunKeepsRequest(world, s, events, t, run, workflowID, input);
    RunStaysReachable(world, s, events, t, run);
    GateIsExact(world, t, run, snapshot);
    var scan := t.open[run].scan;
    ScopeIsNormal(world, t, run);
    FinishedMembers(scan.requested, scan.workers);
  }

  lemma ScopeIsNormal(world: World, s: State, run: nat)
    requires Reachable(world, s) && run in s.open && s.open[run].Scanning?
    ensures s.open[run].scan.scope in {SCOPE_FULL, "targeted"}
  {
    var events :| Reaches(world, events, s);
    ReachableKeepsInv(world, events, s);
    assert ScanOK(world, s.cache, s.store, s.open[run].scan);
  }

  /** The request of a scan that was started as it is. */
  lemma StartedScanCarriesOut(world: World, s: State, run: nat, workflowID: string, input: WorkflowInput)
    requires Reachable(world, s) && Enabled(world, s, StartOrchestrator(run, workflowID, input))
    ensures Reachable(world, Apply(world, s, StartOrchestrator(run, workflowID, input)))
    ensures var started := Apply(world, s, StartOrchestrator(run, workflowID, input));
            run in started.open && CarriesOut(started.open[run], workflowID, input)
  {
    OneMore(world, s, StartOrchestrator(run, workflowID, input));
  }
}
