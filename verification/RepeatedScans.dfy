/** The same resource in two scans. While the catalogue stays the same, a resource once reported RED is
    reported RED by every later scan, whenever either scan's provider filled its cache. */
module RepeatedScans {
  import opened Types
  import opened Text
  import opened Adapters
  import opened Policy
  import opened LifecycleTime
  import opened Provider
  import opened MemoryStore
  import opened Detection
  import opened ScanProtocol
  import opened ScanSafety

  /** The provider's answers from the entry it loaded at `at`. */
  function CatalogueProvider(schema: Schema, upstream: Upstream, at: Time): StableProvider
    requires !upstream.Failed?
  {
    (engine: string, version: string) =>
      var entry := Entry(schema, ToLower(engine), upstream, at);
      Lookup(Some(Answer(entry, ToLower(engine), TrimSpace(version))), false)
  }

  lemma StatusOfBest(p: DefaultPolicy, schema: Schema, engine: string, version: string, upstream: Upstream, at: Time,
                     now: Time, best: nat)
    requires upstream.Cycles? && best < |ValidCycles(upstream.cycles)|
    requires FindVersion(Identifiers(Entry(schema, engine, upstream, at).versions), TrimSpace(version)) == Some(best)
    ensures Classify(p, version, Answer(Entry(schema, engine, upstream, at), engine, TrimSpace(version)), now) ==
            Classify(p, version, Adapted(schema, ValidCycles(upstream.cycles)[best], at), now)
  {
    LabelsDoNotMatter(p, version, Adapted(schema, ValidCycles(upstream.cycles)[best], at),
                      Answer(Entry(schema, engine, upstream, at), engine, TrimSpace(version)), now);
  }

  lemma RedAnswerStaysRed(p: DefaultPolicy, schema: Schema, engine: string, version: string, upstream: Upstream,
                          t0: Time, t1: Time, u0: Time, u1: Time)
    requires ValidSchema(schema) && !upstream.Failed?
    requires t0 <= t1 && t0 <= u0 <= u1 && t1 <= u1
    requires Classify(p, version, Answer(Entry(schema, engine, upstream, t0), engine, TrimSpace(version)), t1) == Red
    ensures Classify(p, version, Answer(Entry(schema, engine, upstream, u0), engine, TrimSpace(version)), u1) == Red
  {
    var early, late := Entry(schema, engine, upstream, t0), Entry(schema, engine, upstream, u0);
    assert Identifiers(early.versions) == Identifiers(late.versions);
    var best := FindVersion(Identifiers(early.versions), TrimSpace(version));
    if best.Some? {
      var cycle := ValidCycles(upstream.cycles)[best.value];
      StatusOfBest(p, schema, engine, version, upstream, t0, t1, best.value);
      StatusOfBest(p, schema, engine, version, upstream, u0, u1, best.value);
      RedIsAbsorbing(p, schema, cycle, version, t0, t1, u0, u1);
    }
  }

  /** What a batch's finding makes of the catalogue. */
  lemma FindingOfCatalogue(p: DefaultPolicy, resources: seq<Resource>, schema: Schema, upstream: Upstream, at: Time,
                           clock: Clock, i: nat)
    requires !upstream.Failed? && KeysAgree(resources) && i < |resources|
    ensures var r, provider := resources[i], CatalogueProvider(schema, upstream, at);
            DriftFindings(p, resources, Memo(resources, provider), clock)[i].status ==
            if TrimSpace(r.currentVersion) == "" then Unknown
            else Classify(p, r.currentVersion, Answer(Entry(schema, ToLower(r.engine), upstream, at), ToLower(r.engine),
                                                      TrimSpace(r.currentVersion)), clock(i))
  {
    var r, provider := resources[i], CatalogueProvider(schema, upstream, at);
    MemoRefinesDirect(p, resources, provider, clock);
    assert DirectFindings(p, resources, provider, clock)[i] ==
        FindingOf(p, r, DirectLifecycle(provider, r), clock(i));
  }

  /** A finding that is RED in one scan is RED in every later one that finds the resource unchanged. */
  lemma RedFindingStaysRed(p: DefaultPolicy, schema: Schema, upstream: Upstream,
                           first: seq<Resource>, t0: Time, clock: Clock, i: nat,
                           second: seq<Resource>, u0: Time, clock': Clock, j: nat)
    requires ValidSchema(schema) && !upstream.Failed? && KeysAgree(first) && KeysAgree(second)
    requires i < |first| && j < |second|
    requires first[i].engine == second[j].engine && first[i].currentVersion == second[j].currentVersion
    requires t0 <= clock(i) && t0 <= u0 <= clock'(j) && clock(i) <= clock'(j)
    requires DriftFindings(p, first, Memo(first, CatalogueProvider(schema, upstream, t0)), clock)[i].status == Red
    ensures DriftFindings(p, second, Memo(second, CatalogueProvider(schema, upstream, u0)), clock')[j].status == Red
  {
    FindingOfCatalogue(p, first, schema, upstream, t0, clock, i);
    FindingOfCatalogue(p, second, schema, upstream, u0, clock', j);
    RedAnswerStaysRed(p, schema, ToLower(first[i].engine), first[i].currentVersion, upstream, t0, clock(i), u0,
                      clock'(j));
  }

  /** Every record of the resource in the inventory has this engine and version. */
  predicate RunsVersion(resources: seq<Resource>, id: string, engine: string, version: string) {
    forall i :: 0 <= i < |resources| && resources[i].id == id ==>
                  resources[i].engine == engine && resources[i].currentVersion == version
  }

  /** The later clock never shows an earlier moment than the other one, nor than the time of loading. */
  ghost predicate InOrder(t0: Time, clock: Clock, u0: Time, clock': Clock) {
    && (forall i :: t0 <= clock(i))
    && (forall j :: t0 <= u0 <= clock'(j))
    && (forall i, j :: clock(i) <= clock'(j))
  }

  lemma PositionOf(p: DefaultPolicy, resources: seq<Resource>, lifecycles: map<string, VersionLifecycle>, clock: Clock,
                   id: string)
    returns (i: nat)
    requires id in ByID(DriftFindings(p, resources, lifecycles, clock))
    ensures i < |resources| && resources[i].id == id
    ensures var findings := DriftFindings(p, resources, lifecycles, clock);
            ByID(findings)[id] == findings[i]
  {
    var findings := DriftFindings(p, resources, lifecycles, clock);
    ByIDMembers(findings);
    assert ByID(findings)[id] in findings;
    i :| 0 <= i < |findings| && findings[i] == ByID(findings)[id];
    assert findings[i] == FindingOf(p, resources[i], LifecycleFor(lifecycles, resources[i]), clock(i));
  }

  /** Of two saved snapshots, in whatever run of the system: a resource that is RED in the one is RED in
      the other, if that was made later from the same catalogue and the resource runs the same version. */
  lemma RedStaysRedInSnapshots(world: World, s: State, i: nat, j: nat, kind: string, id: string,
                               schema: Schema, upstream: Upstream, t0: Time, u0: Time, engine: string, version: string)
    requires Reachable(world, s) && i < |s.saved| && j < |s.saved| && ValidSchema(schema) && !upstream.Failed?
    requires kind in s.saved[i].scan.workers && kind in s.saved[j].scan.workers
    requires kind in s.saved[i].snapshot.findingsByType && kind in s.saved[j].snapshot.findingsByType
    requires var w, w' := s.saved[i].scan.workers[kind], s.saved[j].scan.workers[kind];
             && w.provider == CatalogueProvider(schema, upstream, t0)
             && w'.provider == CatalogueProvider(schema, upstream, u0)
             && InOrder(t0, w.clock, u0, w'.clock)
             && KeysAgree(w.fetched) && KeysAgree(w'.fetched)
             && RunsVersion(w.fetched, id, engine, version) && RunsVersion(w'.fetched, id, engine, version)
    requires var m, m' := s.saved[i].snapshot.findingsByType, s.saved[j].snapshot.findingsByType;
             && id in ByID(m[kind]) && ByID(m[kind])[id].status == Red
             && id in ByID(m'[kind])
    ensures ByID(s.saved[j].snapshot.findingsByType[kind])[id].status == Red
  {
    var w, w' := s.saved[i].scan.workers[kind], s.saved[j].scan.workers[kind];
    SnapshotsAreExact(world, s, i);
    SnapshotsAreExact(world, s, j);
    var k := PositionOf(world.policy, w.fetched, Memo(w.fetched, w.provider), w.clock, id);
    var l := PositionOf(world.policy, w'.fetched, Memo(w'.fetched, w'.provider), w'.clock, id);
    RedFindingStaysRed(world.policy, schema, upstream, w.fetched, t0, w.clock, k, w'.fetched, u0, w'.clock, l);
  }
}
