/** The orchestrator workflow: guard, collection of the detection results, snapshot stage, and the gate
    that decides whether the snapshot is persisted. */
module Orchestrator {
  import opened Types
  import opened Sums
  import opened MemoryStore
  import opened SnapshotBuilder

  const ACTIVE_SCAN_WORKFLOW_ID := "version-guard-active-scan"
  const SCOPE_FULL := "full"
  const SCOPE_TARGETED := "targeted"

  function NormalizeScanScope(scope: string): string {
    if scope == SCOPE_TARGETED then SCOPE_TARGETED else SCOPE_FULL
  }

  datatype CreateSnapshotInput = CreateSnapshotInput(
    scanID: string,
    scanScope: string,
    resourceTypes: seq<string>,
    expectedResourceTypes: seq<string>)

  function TypeSet(types: seq<string>): set<string> {
    set t | t in types
  }

  predicate ShouldValidate(input: CreateSnapshotInput) {
    NormalizeScanScope(input.scanScope) == SCOPE_FULL && (input.scanScope != "" || |input.expectedResourceTypes| > 0)
  }

  /** The snapshot of `input` may be persisted: either completeness is not demanded, or something was
      expected and everything expected is among the included types. */
  predicate GateOpens(input: CreateSnapshotInput) {
    ShouldValidate(input) ==>
      && input.expectedResourceTypes != []
      && forall t :: t in input.expectedResourceTypes ==> t in input.resourceTypes
  }

  method MissingResourceTypes(expected: seq<string>, present: set<string>) returns (missing: seq<string>)
    ensures forall t :: t in missing <==> t in expected && t !in present
  {
    missing := [];
    for i := 0 to |expected|
      invariant forall t :: t in missing <==> t in expected[..i] && t !in present
    {
      if expected[i] !in present {
        missing := missing + [expected[i]];
      }
    }
  }

  /** The accumulating check agrees with the consistency it is meant to establish, in whatever order the
      types are visited. */
  method ValidateSnapshotSummary(snapshot: Snapshot) returns (ok: bool)
    ensures ok <==> SummaryConsistent(snapshot)
  {
    var m, buckets := snapshot.findingsByType, snapshot.summary.byResourceType;
    ghost var sizes := map k | k in m :: |m[k]|;
    var total := 0;
    var todo := m;
    while todo != map[]
      invariant forall k :: k in todo ==> k in m && todo[k] == m[k]
      invariant forall k :: k in m && k !in todo ==> k in buckets && buckets[k].total == |m[k]|
      invariant total + Sum(map k | k in todo :: |todo[k]|) == Sum(sizes)
      decreases |todo|
    {
      var kind :| kind in todo;
      if kind !in buckets || buckets[kind].total != |m[kind]| {
        return false;
      }
      SumPick(map k | k in todo :: |todo[k]|, kind);
      assert (map k | k in todo :: |todo[k]|) - {kind} == map k | k in todo - {kind} :: |(todo - {kind})[k]|;
      total := total + buckets[kind].total;
      todo := todo - {kind};
    }
    ok := total == snapshot.summary.overall.total;
  }

  method ValidateSnapshotCompleteness(input: CreateSnapshotInput, snapshot: Snapshot) returns (reason: string)
    ensures reason == "ok" <==>
            || input.scanScope == "targeted"
            || (input.scanScope == "" && input.expectedResourceTypes == [])
            || (&& input.expectedResourceTypes != []
                && SummaryConsistent(snapshot)
                && forall t :: t in input.expectedResourceTypes ==> t in snapshot.findingsByType)
  {
    if !ShouldValidate(input) {
      return "ok";
    }
    if |input.expectedResourceTypes| == 0 {
      return "empty_expected_set";
    }
    assert input.expectedResourceTypes[0] in input.expectedResourceTypes;
    if snapshot.findingsByType == map[] {
      return "empty_snapshot";
    }
    var consistent := ValidateSnapshotSummary(snapshot);
    if !consistent {
      return "invalid_summary";
    }
    var missing := MissingResourceTypes(input.expectedResourceTypes, snapshot.findingsByType.Keys);
    if |missing| > 0 {
      assert missing[0] in missing;
      return "missing_resource_type";
    }
    return "ok";
  }

  /** `listing` holds the findings of one type in some order. */
  ghost predicate ListsKind(findings: Findings, t: string, listing: seq<Finding>) {
    IsListing(Selected(findings, OfKind(t)), listing)
  }

  /** `m` lists, for exactly the given types, the findings of each in some order. */
  ghost predicate ListsTypes(m: FindingsByType, types: set<string>, findings: Findings) {
    m.Keys == types && forall t :: t in types ==> ListsKind(findings, t, m[t])
  }

  /** `snapshot` holds exactly the given types, each with the store's findings of that type in some
      order, and its summary reports them. */
  ghost predicate SnapshotOf(snapshot: Snapshot, id: string, types: set<string>, findings: Findings) {
    && snapshot.id == id
    && ListsTypes(snapshot.findingsByType, types, findings)
    && Reports(snapshot.summary, snapshot.findingsByType)
  }

  lemma ListOneMore(m: FindingsByType, types: set<string>, t: string, listing: seq<Finding>, findings: Findings)
    requires ListsTypes(m, types, findings) && ListsKind(findings, t, listing)
    ensures ListsTypes(m[t := listing], types + {t}, findings)
  {
    var more := m[t := listing];
    forall u | u in types + {t} ensures ListsKind(findings, u, more[u]) {
      SameListing(findings, u, if u == t then listing else m[u], more[u]);
    }
  }

  lemma SameListing(findings: Findings, t: string, listing: seq<Finding>, same: seq<Finding>)
    requires ListsKind(findings, t, listing) && listing == same
    ensures ListsKind(findings, t, same)
  {
  }

  /** The store's findings of each type, added to the builder, unless a read fails. */
  method GatherFindings(builder: Builder, types: seq<string>, store: Store, readOk: string -> bool) returns (ok: bool)
    requires store.Valid() && builder.snapshot.findingsByType == map[]
    modifies builder.snapshot`findingsByType
    ensures ok <==> forall t :: t in types ==> readOk(t)
    ensures ok ==> ListsTypes(builder.snapshot.findingsByType, TypeSet(types), store.findings)
  {
    for i := 0 to |types|
      invariant ListsTypes(builder.snapshot.findingsByType, TypeSet(types[..i]), store.findings)
      invariant forall t :: t in types[..i] ==> readOk(t)
    {
      if !readOk(types[i]) {
        assert types[i] in types;
        return false;
      }
      var findings := store.ListFindings(OfKind(types[i]));
      assert types[..i + 1] == types[..i] + [types[i]];
      assert TypeSet(types[..i + 1]) == TypeSet(types[..i]) + {types[i]};
      ListOneMore(builder.snapshot.findingsByType, TypeSet(types[..i]), types[i], findings, store.findings);
      builder.AddFindings(types[i], findings);
    }
    assert types[..|types|] == types;
    return true;
  }

  /** The first build of a builder, given the scan's ID. */
  method BuildFor(builder: Builder, scanID: string) returns (snapshot: Snapshot)
    requires builder.snapshot.summary == EMPTY_SUMMARY
    modifies builder.snapshot
    ensures builder.snapshot.findingsByType == old(builder.snapshot.findingsByType)
    ensures snapshot == builder.snapshot.Value() && snapshot.id == scanID
    ensures Reports(snapshot.summary, snapshot.findingsByType)
  {
    var built := builder.BuildFirst();
    built.id := scanID;
    snapshot := built.Value();
  }

  /** Reads the store type by type, builds, validates. `attempted` is the snapshot handed to
      SaveSnapshot, if the activity gets that far. */
  method CreateSnapshot(input: CreateSnapshotInput, store: Store, readOk: string -> bool, saveOk: bool)
    returns (r: Result<Snapshot>, attempted: Option<Snapshot>)
    requires store.Valid()
    ensures attempted.Some? <==> (forall t :: t in input.resourceTypes ==> readOk(t)) && GateOpens(input)
    ensures GateOpens(input) <==>
            || input.scanScope == "targeted"
            || (input.scanScope == "" && input.expectedResourceTypes == [])
            || (&& input.expectedResourceTypes != []
                && forall t :: t in input.expectedResourceTypes ==> t in input.resourceTypes)
    ensures attempted.Some? ==>
              SnapshotOf(attempted.value, input.scanID, TypeSet(input.resourceTypes), store.findings)
    ensures r.Ok? <==> attempted.Some? && saveOk
    ensures r.Ok? ==> attempted == Some(r.value)
  {
    var builder := new Builder("");
    var ok := GatherFindings(builder, input.resourceTypes, store, readOk);
    if !ok {
      return Err("retrieve findings"), None;
    }
    var snapshot := BuildFor(builder, input.scanID);
    ReportsAreConsistent(snapshot);
    var reason := ValidateSnapshotCompleteness(input, snapshot);
    if reason != "ok" {
      return Err(reason), None;
    }
    attempted := Some(snapshot);
    if !saveOk {
      return Err("failed to write snapshot"), attempted;
    }
    return Ok(snapshot), attempted;
  }

  // ---------------------------------------------------------------------------------------------
  // The workflow

  datatype WorkflowInput = WorkflowInput(scanID: string, scanScope: string, resourceTypes: seq<string>)

  datatype ChildOutcome = Completed(findingsCount: nat) | ChildFailed(error: string)

  /** The requested types whose detection completed. */
  function Successful(requested: seq<string>, outcome: string -> ChildOutcome): seq<string> {
    if requested == [] then []
    else
      var rest, last := Successful(requested[..|requested| - 1], outcome), requested[|requested| - 1];
      if outcome(last).Completed? then rest + [last] else rest
  }

  function SuccessSet(requested: seq<string>, outcome: string -> ChildOutcome): set<string> {
    set t | t in requested && outcome(t).Completed?
  }

  lemma {:induction false} SuccessfulMembers(requested: seq<string>, outcome: string -> ChildOutcome)
    ensures TypeSet(Successful(requested, outcome)) == SuccessSet(requested, outcome)
  {
    if requested != [] {
      var n := |requested| - 1;
      SuccessfulMembers(requested[..n], outcome);
      assert requested == requested[..n] + [requested[n]];
      assert forall t :: t in Successful(requested[..n], outcome) <==>
          t in TypeSet(Successful(requested[..n], outcome));
      assert forall t :: t in SuccessSet(requested, outcome) <==>
                         t in SuccessSet(requested[..n], outcome) || (t == requested[n] && outcome(t).Completed?);
    }
  }

  /** Waits for the children in the order of the request, not in the order of a map. */
  method CollectResults(types: seq<string>, outcome: string -> ChildOutcome)
    returns (results: map<string, ChildOutcome>, successfulTypes: seq<string>)
    ensures results == map t | t in types :: outcome(t)
    ensures successfulTypes == Successful(types, outcome)
    ensures TypeSet(successfulTypes) == SuccessSet(types, outcome)
  {
    results := map[];
    successfulTypes := [];
    for i := 0 to |types|
      invariant results == map t | t in types[..i] :: outcome(t)
      invariant successfulTypes == Successful(types[..i], outcome)
    {
      assert types[..i + 1][..i] == types[..i];
      assert types[..i + 1] == types[..i] + [types[i]];
      results := results[types[i] := outcome(types[i])];
      if outcome(types[i]).ChildFailed? {
        continue;
      }
      successfulTypes := successfulTypes + [types[i]];
    }
    assert types[..|types|] == types;
    SuccessfulMembers(types, outcome);
  }

  lemma GateOfRun(input: CreateSnapshotInput, outcome: string -> ChildOutcome)
    requires TypeSet(input.resourceTypes) == SuccessSet(input.expectedResourceTypes, outcome) != {}
    requires input.scanScope == NormalizeScanScope(input.scanScope)
    ensures GateOpens(input) <==>
            (input.scanScope == SCOPE_FULL ==> TypeSet(input.resourceTypes) == TypeSet(input.expectedResourceTypes))
  {
    assert forall t :: t in input.resourceTypes <==> t in TypeSet(input.resourceTypes);
    assert forall t :: t in input.expectedResourceTypes <==> t in TypeSet(input.expectedResourceTypes);
    var t :| t in TypeSet(input.resourceTypes);
    assert t in input.expectedResourceTypes;
  }

  method SnapshotStage(scanID: string, scanScope: string, types: seq<string>, successfulTypes: seq<string>,
                       ghost outcome: string -> ChildOutcome, store: Store, readOk: string -> bool, saveOk: bool)
    returns (r: Result<Snapshot>, attempted: Option<Snapshot>)
    requires store.Valid() && scanScope == NormalizeScanScope(scanScope)
    requires TypeSet(successfulTypes) == SuccessSet(types, outcome) != {}
    ensures attempted.Some? <==>
            && (scanScope == SCOPE_FULL ==> SuccessSet(types, outcome) == TypeSet(types))
            && (forall t :: t in SuccessSet(types, outcome) ==> readOk(t))
    ensures attempted.Some? ==> SnapshotOf(attempted.value, scanID, SuccessSet(types, outcome), store.findings)
    ensures r.Ok? <==> attempted.Some? && saveOk
  {
    var input := CreateSnapshotInput(scanID, scanScope, successfulTypes, types);
    GateOfRun(input, outcome);
    r, attempted := CreateSnapshot(input, store, readOk, saveOk);
    assert forall t :: t in successfulTypes <==> t in TypeSet(successfulTypes);
  }

  /** The run as one sequence of stages, given how each child ends and what the store holds when the
      snapshot stage is reached. `attempted` is the snapshot handed to SaveSnapshot, if any. */
  method OrchestratorWorkflow(workflowID: string, input: WorkflowInput, outcome: string -> ChildOutcome,
                              store: Store, readOk: string -> bool, saveOk: bool)
    returns (r: Result<map<string, ChildOutcome>>, attempted: Option<Snapshot>)
    requires store.Valid()
    // the gate
    ensures attempted.Some? <==>
            && workflowID == ACTIVE_SCAN_WORKFLOW_ID
            && SuccessSet(input.resourceTypes, outcome) != {}
            && (input.scanScope != "targeted" ==>
                  SuccessSet(input.resourceTypes, outcome) == TypeSet(input.resourceTypes))
            && (forall t :: t in SuccessSet(input.resourceTypes, outcome) ==> readOk(t))
    // what is saved
    ensures attempted.Some? ==>
              SnapshotOf(attempted.value, if input.scanID == "" then workflowID else input.scanID,
                         SuccessSet(input.resourceTypes, outcome), store.findings)
    ensures attempted.Some? && input.scanScope != "targeted" ==>
              attempted.value.findingsByType.Keys == TypeSet(input.resourceTypes)
    ensures r.Ok? <==> attempted.Some? && saveOk
    ensures r.Ok? ==> r.value == map t | t in input.resourceTypes :: outcome(t)
  {
    if workflowID != ACTIVE_SCAN_WORKFLOW_ID {
      return Err("workflow ID must be the singleton ID"), None;
    }
    var scanID := if input.scanID == "" then workflowID else input.scanID;
    var scanScope := NormalizeScanScope(input.scanScope);
    var types := input.resourceTypes;
    if |types| == 0 {
      return Err("no resource types"), None;
    }
    var results, successfulTypes := CollectResults(types, outcome);
    if |successfulTypes| == 0 {
      return Err("all detection workflows failed"), None;
    }
    assert successfulTypes[0] in TypeSet(successfulTypes);
    var created;
    created, attempted := SnapshotStage(scanID, scanScope, types, successfulTypes, outcome, store, readOk, saveOk);
    if created.Err? {
      return Err(created.message), attempted;
    }
    return Ok(results), attempted;
  }
}
