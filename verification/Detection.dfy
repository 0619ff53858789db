/** The activities of a detection workflow. They hand large data to each other through one cache that
    all workflows of the worker share, under keys made by joining strings. */
module Detection {
  import opened Types
  import opened Text
  import opened Policy
  import opened Judgement
  import opened Provider
  import opened MemoryStore
  import opened Telemetry
  import opened Sums

  datatype Batch = ResourceBatch(resources: seq<Resource>) | FindingBatch(findings: seq<Finding>)

  type Cache = map<string, Batch>

  /** A provider whose answers do not change during a run. */
  type StableProvider = (string, string) -> Lookup

  function ResourceKey(scanID: string, kind: string): string {
    scanID + ":" + kind
  }

  function FindingsKey(resourceKey: string): string {
    resourceKey + "-findings"
  }

  function LoadResources(cache: Cache, batchID: string, fallback: seq<Resource>): Result<seq<Resource>> {
    if batchID == "" then Ok(fallback)
    else if batchID !in cache then Err("resource batch not found")
    else if !cache[batchID].ResourceBatch? then Err("resource batch has invalid type")
    else Ok(cache[batchID].resources)
  }

  function LoadFindings(cache: Cache, batchID: string, fallback: seq<Finding>): Result<seq<Finding>> {
    if batchID == "" then Ok(fallback)
    else if batchID !in cache then Err("findings batch not found")
    else if !cache[batchID].FindingBatch? then Err("findings batch has invalid type")
    else Ok(cache[batchID].findings)
  }

  /** The cache after an activity's whole effect. Without a batch ID the data travels inline and the
      cache is not used. */
  function AfterFetch(cache: Cache, batchID: string, resources: seq<Resource>): Cache {
    if batchID == "" then cache else cache[batchID := ResourceBatch(resources)]
  }

  function AfterDetect(cache: Cache, batchID: string, findings: seq<Finding>): Cache {
    if batchID == "" then cache else (cache - {batchID})[FindingsKey(batchID) := FindingBatch(findings)]
  }

  function AfterEmit(cache: Cache, batchID: string): Cache {
    if batchID == "" then cache else cache - {batchID}
  }

  // ---------------------------------------------------------------------------------------------
  // Lifecycle lookup, direct and memoised

  function VersionKey(r: Resource): string {
    r.engine + ":" + r.currentVersion
  }

  /** The lifecycle of one resource when the provider is asked for that resource alone. */
  function DirectLifecycle(provider: StableProvider, r: Resource): VersionLifecycle {
    if TrimSpace(r.currentVersion) == "" then
      BlankLifecycle("", r.engine, ZERO_TIME, SOURCE_UNKNOWN, EMPTY_INVENTORY_VERSION)
    else
      var answer := provider(r.engine, r.currentVersion);
      if answer.lifecycle.Some? then answer.lifecycle.value
      else BlankLifecycle(r.currentVersion, r.engine, ZERO_TIME, SOURCE_UNKNOWN,
                          if answer.failed then SOURCE_ERROR else UNATTRIBUTED)
  }

  /** The lifecycles by version key, the first resource of a key deciding. */
  function Memo(resources: seq<Resource>, provider: StableProvider): map<string, VersionLifecycle> {
    if resources == [] then map[]
    else
      var last := resources[|resources| - 1];
      var m := Memo(resources[..|resources| - 1], provider);
      if VersionKey(last) in m then m else m[VersionKey(last) := DirectLifecycle(provider, last)]
  }

  function LifecycleFor(lifecycles: map<string, VersionLifecycle>, r: Resource): VersionLifecycle {
    if VersionKey(r) in lifecycles then lifecycles[VersionKey(r)]
    else BlankLifecycle(r.currentVersion, r.engine, ZERO_TIME, SOURCE_UNKNOWN, UNATTRIBUTED)
  }

  /** The moment at which each resource of a batch, by its position, is classified. */
  type Clock = nat -> Time

  function FindingOf(p: DefaultPolicy, r: Resource, l: VersionLifecycle, now: Time): Finding {
    var status := Classify(p, r.currentVersion, l, now);
    Finding(r.id, r.kind, r.service, r.cloudProvider, r.currentVersion, r.engine, status,
            Details(l.(unknownCause := UnknownCause(r.currentVersion, l, status))))
  }

  function DriftFindings(p: DefaultPolicy, resources: seq<Resource>, lifecycles: map<string, VersionLifecycle>,
                         clock: Clock)
    : (findings: seq<Finding>)
    ensures |findings| == |resources|
  {
    seq(|resources|, i requires 0 <= i < |resources| =>
      FindingOf(p, resources[i], LifecycleFor(lifecycles, resources[i]), clock(i)))
  }

  /** The same, asking the provider for every resource. */
  function DirectFindings(p: DefaultPolicy, resources: seq<Resource>, provider: StableProvider, clock: Clock)
    : (findings: seq<Finding>)
    ensures |findings| == |resources|
  {
    seq(|resources|, i requires 0 <= i < |resources| =>
      FindingOf(p, resources[i], DirectLifecycle(provider, resources[i]), clock(i)))
  }

  /** No two resources share a version key without sharing both engine and version. */
  predicate KeysAgree(resources: seq<Resource>) {
    forall r, s :: r in resources && s in resources && VersionKey(r) == VersionKey(s) ==>
                     r.engine == s.engine && r.currentVersion == s.currentVersion
  }

  /** Every resource finds its key in the memo, under the answer for the first resource of that key. */
  lemma {:induction false} MemoHolds(resources: seq<Resource>, provider: StableProvider, i: nat)
    returns (first: Resource)
    requires i < |resources|
    ensures first in resources && VersionKey(first) == VersionKey(resources[i])
    ensures VersionKey(resources[i]) in Memo(resources, provider)
    ensures Memo(resources, provider)[VersionKey(resources[i])] == DirectLifecycle(provider, first)
  {
    var n := |resources| - 1;
    if i < n {
      first := MemoHolds(resources[..n], provider, i);
    } else if VersionKey(resources[n]) in Memo(resources[..n], provider) {
      var j := MemoKeyIsUsed(resources[..n], provider, VersionKey(resources[n]));
      first := MemoHolds(resources[..n], provider, j);
    } else {
      first := resources[n];
    }
  }

  lemma {:induction false} MemoKeyIsUsed(resources: seq<Resource>, provider: StableProvider, key: string)
    returns (i: nat)
    requires key in Memo(resources, provider)
    ensures i < |resources| && VersionKey(resources[i]) == key
  {
    var n := |resources| - 1;
    if key in Memo(resources[..n], provider) {
      i := MemoKeyIsUsed(resources[..n], provider, key);
    } else {
      i := n;
    }
  }

  /** Memoised lookup refines direct lookup, resource by resource and in order, whenever version keys
      do not clash. */
  lemma MemoRefinesDirect(p: DefaultPolicy, resources: seq<Resource>, provider: StableProvider, clock: Clock)
    requires KeysAgree(resources)
    ensures DriftFindings(p, resources, Memo(resources, provider), clock) ==
        DirectFindings(p, resources, provider, clock)
  {
    forall i | 0 <= i < |resources|
      ensures LifecycleFor(Memo(resources, provider), resources[i]) == DirectLifecycle(provider, resources[i])
    {
      var first := MemoHolds(resources, provider, i);
    }
  }

  lemma KeyShape(r: Resource, s: Resource)
    requires VersionKey(r) == VersionKey(s)
    ensures |r.engine| == |s.engine| ==> r.engine == s.engine && r.currentVersion == s.currentVersion
    ensures |r.engine| < |s.engine| ==> ':' in s.engine && ':' in r.currentVersion
  {
    var key := VersionKey(r);
    assert r.engine == key[..|r.engine|] && s.engine == key[..|s.engine|];
    assert r.currentVersion == key[|r.engine| + 1..] && s.currentVersion == key[|s.engine| + 1..];
    assert key[|r.engine|] == ':' && key[|s.engine|] == ':';
    if |r.engine| < |s.engine| {
      assert s.engine[|r.engine|] == ':' && r.currentVersion[|s.engine| - |r.engine| - 1] == ':';
    }
  }

  /** Engines without a colon never clash. */
  lemma ColonFreeEnginesAgree(resources: seq<Resource>)
    requires forall r :: r in resources ==> ':' !in r.engine
    ensures KeysAgree(resources)
  {
    forall r, s | r in resources && s in resources && VersionKey(r) == VersionKey(s)
      ensures r.engine == s.engine && r.currentVersion == s.currentVersion
    {
      KeyShape(r, s);
      KeyShape(s, r);
    }
  }

  /** A provider that tells engines of different lengths apart. */
  function StampProvider(engine: string, version: string): Lookup {
    Lookup(Some(BlankLifecycle("", engine, |engine|, SOURCE_UNKNOWN, "")), false)
  }

  lemma StampsDiffer(r: Resource, s: Resource)
    requires VersionKey(r) == VersionKey(s) && !(r.engine == s.engine && r.currentVersion == s.currentVersion)
    ensures DirectLifecycle(StampProvider, r).fetchedAt != DirectLifecycle(StampProvider, s).fetchedAt
  {
    KeyShape(r, s);
    KeyShape(s, r);
    if ':' in r.currentVersion {
      TrimKeeps(r.currentVersion, ':');
    }
    if ':' in s.currentVersion {
      TrimKeeps(s.currentVersion, ':');
    }
  }

  /** The condition is exact: on any batch with clashing keys some provider makes the memoised findings
      wrong. */
  lemma ClashingKeysShow(p: DefaultPolicy, resources: seq<Resource>, clock: Clock)
    requires !KeysAgree(resources)
    ensures DriftFindings(p, resources, Memo(resources, StampProvider), clock) !=
            DirectFindings(p, resources, StampProvider, clock)
  {
    var r, s :| r in resources && s in resources && VersionKey(r) == VersionKey(s) &&
                !(r.engine == s.engine && r.currentVersion == s.currentVersion);
    var i :| 0 <= i < |resources| && resources[i] == r;
    var j :| 0 <= j < |resources| && resources[j] == s;
    StampsDiffer(r, s);
    var memo := Memo(resources, StampProvider);
    var first := MemoHolds(resources, StampProvider, i);
    var k := if memo[VersionKey(r)].fetchedAt != DirectLifecycle(StampProvider, r).fetchedAt then i else j;
    StampIsKept(p, resources, clock, k);
  }

  lemma FetchedAtIsKept(p: DefaultPolicy, r: Resource, l: VersionLifecycle, now: Time)
    ensures FindingOf(p, r, l, now).eol.fetchedAt == l.fetchedAt
  {
  }

  lemma StampIsKept(p: DefaultPolicy, resources: seq<Resource>, clock: Clock, k: nat)
    requires k < |resources|
    ensures DriftFindings(p, resources, Memo(resources, StampProvider), clock)[k].eol.fetchedAt ==
            LifecycleFor(Memo(resources, StampProvider), resources[k]).fetchedAt
    ensures DirectFindings(p, resources, StampProvider, clock)[k].eol.fetchedAt ==
            DirectLifecycle(StampProvider, resources[k]).fetchedAt
  {
    var r, now, memo := resources[k], clock(k), Memo(resources, StampProvider);
    FetchedAtIsKept(p, r, LifecycleFor(memo, r), now);
    FetchedAtIsKept(p, r, DirectLifecycle(StampProvider, r), now);
    assert DriftFindings(p, resources, memo, clock)[k] == FindingOf(p, r, LifecycleFor(memo, r), now);
    assert DirectFindings(p, resources, StampProvider, clock)[k] ==
        FindingOf(p, r, DirectLifecycle(StampProvider, r), now);
  }

  /** Two resources whose different engines and versions join to the same key. */
  function ClashingBatch(): seq<Resource> {
    [Resource("r1", "t", "", "", "c", "a:b"), Resource("r2", "t", "", "", "b:c", "a")]
  }

  /** A concrete batch that is classified wrongly from the map. */
  lemma ClashingBatchIsWrong(p: DefaultPolicy, clock: Clock)
    ensures DriftFindings(p, ClashingBatch(), Memo(ClashingBatch(), StampProvider), clock) !=
            DirectFindings(p, ClashingBatch(), StampProvider, clock)
  {
    var r, s := ClashingBatch()[0], ClashingBatch()[1];
    assert r in ClashingBatch() && s in ClashingBatch();
    assert VersionKey(r) == "a:b:c" == VersionKey(s);
    assert |r.engine| != |s.engine|;
    ClashingKeysShow(p, ClashingBatch(), clock);
  }

  // ---------------------------------------------------------------------------------------------
  // What findings say

  /** The finding of one resource says what the lifecycle under the resource's version key says. */
  ghost predicate JudgedFrom(p: DefaultPolicy, r: Resource, lifecycles: map<string, VersionLifecycle>, now: Time,
                             f: Finding)
  {
    var key := r.engine + ":" + r.currentVersion;
    if key in lifecycles then Judged(p, r, lifecycles[key], now, f) else Unattributed(r, f)
  }

  /** Position by position, the findings judge the resources, each at its own moment. */
  ghost predicate AllJudged(p: DefaultPolicy, resources: seq<Resource>, lifecycles: map<string, VersionLifecycle>,
                            clock: Clock, findings: seq<Finding>)
  {
    && |findings| == |resources|
    && forall i :: 0 <= i < |resources| ==> JudgedFrom(p, resources[i], lifecycles, clock(i), findings[i])
  }

  lemma FindingIsJudged(p: DefaultPolicy, r: Resource, l: VersionLifecycle, now: Time)
    ensures Judged(p, r, l, now, FindingOf(p, r, l, now))
  {
    var status := Classify(p, r.currentVersion, l, now);
    ClassifyIsRight(p, r, l, now);
    DetailsAreRight(l, UnknownCause(r.currentVersion, l, status));
  }

  lemma FindingIsJudgedFrom(p: DefaultPolicy, r: Resource, lifecycles: map<string, VersionLifecycle>, now: Time)
    ensures JudgedFrom(p, r, lifecycles, now, FindingOf(p, r, LifecycleFor(lifecycles, r), now))
  {
    var l := LifecycleFor(lifecycles, r);
    FindingIsJudged(p, r, l, now);
    if VersionKey(r) !in lifecycles {
      FailedLookupIsUnknown(p, r, r.currentVersion, r.engine, ZERO_TIME, SOURCE_UNKNOWN, UNATTRIBUTED, now);
    }
  }

  /** Every finding of a batch says what its lifecycle says at its moment. */
  lemma FindingsAreJudged(p: DefaultPolicy, resources: seq<Resource>, lifecycles: map<string, VersionLifecycle>,
                          clock: Clock)
    ensures AllJudged(p, resources, lifecycles, clock, DriftFindings(p, resources, lifecycles, clock))
  {
    forall i | 0 <= i < |resources|
      ensures JudgedFrom(p, resources[i], lifecycles, clock(i), DriftFindings(p, resources, lifecycles, clock)[i])
    {
      FindingIsJudgedFrom(p, resources[i], lifecycles, clock(i));
    }
  }

  // ---------------------------------------------------------------------------------------------
  // Diagnostics

  /** A finding carries an unknown cause exactly when its status is UNKNOWN. */
  lemma CauseExactlyWhenUnknown(p: DefaultPolicy, r: Resource, l: VersionLifecycle, now: Time)
    ensures FindingOf(p, r, l, now).eol.unknownCause != "" <==> FindingOf(p, r, l, now).status == Unknown
    ensures FindingOf(p, r, l, now).status in {Red, Yellow, Green, Unknown}
  {
  }

  /** A failed or empty lookup yields UNKNOWN, whatever version text it carries along. */
  lemma FailedLookupIsUnknown(p: DefaultPolicy, r: Resource, version: string, engine: string, fetchedAt: Time,
                              source: string, cause: string, now: Time)
    ensures FindingOf(p, r, BlankLifecycle(version, engine, fetchedAt, source, cause), now).status == Unknown
    ensures cause != "" ==>
              FindingOf(p, r, BlankLifecycle(version, engine, fetchedAt, source, cause), now).eol.unknownCause == cause
  {
    assert FutureDates(BlankLifecycle(version, engine, fetchedAt, source, cause), now) == [None, None, None, None];
  }

  /** What a finding shows for the provider's answer about its resource. */
  ghost predicate ShowsAnswer(p: DefaultPolicy, r: Resource, answer: Lookup, now: Time, f: Finding) {
    if TrimSpace(r.currentVersion) == "" then f.status == Unknown && f.eol.unknownCause == EMPTY_INVENTORY_VERSION
    else if answer.lifecycle.Some? then Judged(p, r, answer.lifecycle.value, now, f)
    else f.status == Unknown && f.eol.unknownCause == if answer.failed then SOURCE_ERROR else UNATTRIBUTED
  }

  lemma DirectFindingShows(p: DefaultPolicy, r: Resource, provider: StableProvider, now: Time)
    ensures ShowsAnswer(p, r, provider(r.engine, r.currentVersion), now,
                        FindingOf(p, r, DirectLifecycle(provider, r), now))
  {
    var answer := provider(r.engine, r.currentVersion);
    if TrimSpace(r.currentVersion) == "" {
      FailedLookupIsUnknown(p, r, "", r.engine, ZERO_TIME, SOURCE_UNKNOWN, EMPTY_INVENTORY_VERSION, now);
    } else if answer.lifecycle.Some? {
      FindingIsJudged(p, r, answer.lifecycle.value, now);
    } else {
      FailedLookupIsUnknown(p, r, r.currentVersion, r.engine, ZERO_TIME, SOURCE_UNKNOWN,
                            if answer.failed then SOURCE_ERROR else UNATTRIBUTED, now);
    }
  }

  /** Every finding of a batch shows what the provider answers about its own resource: the lifecycle, or
      the reason why there is none. */
  lemma AnswersAreShown(p: DefaultPolicy, resources: seq<Resource>, provider: StableProvider, clock: Clock, i: nat)
    requires KeysAgree(resources) && i < |resources|
    ensures ShowsAnswer(p, resources[i], provider(resources[i].engine, resources[i].currentVersion), clock(i),
                        DriftFindings(p, resources, Memo(resources, provider), clock)[i])
  {
    MemoRefinesDirect(p, resources, provider, clock);
    DirectFindingShows(p, resources[i], provider, clock(i));
    assert DirectFindings(p, resources, provider, clock)[i] ==
        FindingOf(p, resources[i], DirectLifecycle(provider, resources[i]), clock(i));
  }

  function CountStatus(findings: seq<Finding>, status: Status): nat {
    if findings == [] then 0
    else CountStatus(findings[..|findings| - 1], status) + if findings[|findings| - 1].status == status then 1 else 0
  }

  /** The causes of the UNKNOWN findings, in order. */
  function CauseLabels(findings: seq<Finding>): seq<string> {
    if findings == [] then []
    else
      var last := findings[|findings| - 1];
      CauseLabels(findings[..|findings| - 1]) + if last.status == Unknown then [last.eol.unknownCause] else []
  }

  function SourceLabels(findings: seq<Finding>): (labels: seq<string>)
    ensures |labels| == |findings|
  {
    if findings == [] then []
    else SourceLabels(findings[..|findings| - 1]) + [findings[|findings| - 1].eol.dataSource]
  }

  lemma StatusStep(findings: seq<Finding>, i: nat)
    requires i < |findings|
    ensures forall status :: CountStatus(findings[..i + 1], status) ==
                             CountStatus(findings[..i], status) + if findings[i].status == status then 1 else 0
  {
    assert findings[..i + 1][..i] == findings[..i];
  }

  lemma LabelStep(findings: seq<Finding>, i: nat)
    requires i < |findings|
    ensures SourceLabels(findings[..i + 1]) == SourceLabels(findings[..i]) + [findings[i].eol.dataSource]
    ensures CauseLabels(findings[..i + 1]) ==
            if findings[i].status == Unknown then CauseLabels(findings[..i]) + [findings[i].eol.unknownCause]
            else CauseLabels(findings[..i])
  {
    assert findings[..i + 1][..i] == findings[..i];
  }

  lemma {:induction false} OneCausePerUnknown(findings: seq<Finding>)
    ensures |CauseLabels(findings)| == CountStatus(findings, Unknown)
  {
    if findings != [] {
      OneCausePerUnknown(findings[..|findings| - 1]);
    }
  }

  ghost predicate Counted(s: ScanSummary, findings: seq<Finding>) {
    && s.totalResources == |findings|
    && s.redCount == CountStatus(findings, Red)
    && s.yellowCount == CountStatus(findings, Yellow)
    && s.greenCount == CountStatus(findings, Green)
    && s.unknownCount == CountStatus(findings, Unknown)
  }

  ghost predicate Summarizes(s: ScanSummary, findings: seq<Finding>) {
    && Counted(s, findings)
    && s.compliancePercentage == if findings == [] then 0.0 else s.greenCount as real / |findings| as real * 100.0
  }

  /** The tallies hold each cause's and source's count, and sum to the UNKNOWN findings and to all
      findings. */
  ghost predicate Breakdown(causes: map<string, int>, sources: map<string, int>, findings: seq<Finding>) {
    Tallies(causes, CauseLabels(findings)) && Tallies(sources, SourceLabels(findings))
  }

  /** A summary with one more finding of the status. */
  function Noted(s: ScanSummary, status: Status): ScanSummary {
    var t := s.(totalResources := s.totalResources + 1);
    match status
    case Red => t.(redCount := s.redCount + 1)
    case Yellow => t.(yellowCount := s.yellowCount + 1)
    case Green => t.(greenCount := s.greenCount + 1)
    case Unknown => t.(unknownCount := s.unknownCount + 1)
    case Other(_) => t
  }

  lemma CountedStep(s: ScanSummary, findings: seq<Finding>, i: nat)
    requires i < |findings| && Counted(s, findings[..i])
    ensures Counted(Noted(s, findings[i].status), findings[..i + 1])
  {
    StatusStep(findings, i);
  }

  lemma CauseStep(causes: map<string, int>, findings: seq<Finding>, i: nat)
    requires i < |findings| && Tallies(causes, CauseLabels(findings[..i]))
    ensures var f := findings[i];
            Tallies(if f.status == Unknown then AddCount(causes, f.eol.unknownCause, 1) else causes,
                    CauseLabels(findings[..i + 1]))
  {
    LabelStep(findings, i);
    if findings[i].status == Unknown {
      TallyOneMore(causes, CauseLabels(findings[..i]), findings[i].eol.unknownCause);
    }
  }

  lemma SourceStep(sources: map<string, int>, findings: seq<Finding>, i: nat)
    requires i < |findings| && Tallies(sources, SourceLabels(findings[..i]))
    ensures Tallies(AddCount(sources, findings[i].eol.dataSource, 1), SourceLabels(findings[..i + 1]))
  {
    LabelStep(findings, i);
    TallyOneMore(sources, SourceLabels(findings[..i]), findings[i].eol.dataSource);
  }

  lemma BreakdownStep(causes: map<string, int>, sources: map<string, int>, findings: seq<Finding>, i: nat)
    requires i < |findings| && Breakdown(causes, sources, findings[..i])
    ensures var f := findings[i].eol;
            Breakdown(if findings[i].status == Unknown then AddCount(causes, f.unknownCause, 1) else causes,
                      AddCount(sources, f.dataSource, 1), findings[..i + 1])
  {
    CauseStep(causes, findings, i);
    SourceStep(sources, findings, i);
  }

  method Summarize(findings: seq<Finding>)
    returns (summary: ScanSummary, unknownCounts: map<string, int>, sourceCounts: map<string, int>)
    ensures Summarizes(summary, findings)
    ensures Breakdown(unknownCounts, sourceCounts, findings)
    ensures Sum(unknownCounts) == summary.unknownCount && Sum(sourceCounts) == summary.totalResources
  {
    summary := ScanSummary(0, 0, 0, 0, 0, 0.0);
    unknownCounts, sourceCounts := map[], map[];
    for i := 0 to |findings|
      invariant Counted(summary, findings[..i]) && summary.compliancePercentage == 0.0
      invariant Breakdown(unknownCounts, sourceCounts, findings[..i])
    {
      var f := findings[i];
      CountedStep(summary, findings, i);
      BreakdownStep(unknownCounts, sourceCounts, findings, i);
      sourceCounts := AddCount(sourceCounts, f.eol.dataSource, 1);
      summary := summary.(totalResources := summary.totalResources + 1);
      match f.status
      case Red => summary := summary.(redCount := summary.redCount + 1);
      case Yellow => summary := summary.(yellowCount := summary.yellowCount + 1);
      case Green => summary := summary.(greenCount := summary.greenCount + 1);
      case Unknown =>
        summary := summary.(unknownCount := summary.unknownCount + 1);
        unknownCounts := AddCount(unknownCounts, f.eol.unknownCause, 1);
      case Other(_) =>
    }
    assert findings[..|findings|] == findings;
    OneCausePerUnknown(findings);
    if summary.totalResources > 0 {
      summary := summary.(compliancePercentage := summary.greenCount as real / summary.totalResources as real * 100.0);
    }
  }

  /** The type's cause and source series show the findings' causes and sources. */
  ghost predicate CausesShown(before: Series, after: Series, typeLabel: string, findings: seq<Finding>) {
    Shows(before, after, typeLabel, CauseLabels(findings), KNOWN_CAUSES, UNATTRIBUTED)
  }

  ghost predicate SourcesShown(before: Series, after: Series, typeLabel: string, findings: seq<Finding>) {
    Shows(before, after, typeLabel, SourceLabels(findings), KNOWN_SOURCES, SOURCE_UNKNOWN)
  }

  /** The type's status counts and its share of GREEN findings. */
  function StatusesOf(findings: seq<Finding>): StatusCounts {
    StatusCounts(|findings|, CountStatus(findings, Red), CountStatus(findings, Yellow), CountStatus(findings, Green),
                 CountStatus(findings, Unknown))
  }

  function GreenShare(findings: seq<Finding>): real {
    if findings == [] then 0.0 else CountStatus(findings, Green) as real / |findings| as real
  }

  method Publish(gauges: Gauges, kind: string, findings: seq<Finding>) returns (summary: ScanSummary)
    requires gauges.Valid()
    modifies gauges
    ensures gauges.Valid()
    ensures Summarizes(summary, findings)
    ensures gauges.detectionResources == old(gauges.detectionResources)[TypeLabel(kind) := StatusesOf(findings)]
    ensures gauges.complianceRatio == old(gauges.complianceRatio)[TypeLabel(kind) := GreenShare(findings)]
    ensures CausesShown(old(gauges.unknownResources), gauges.unknownResources, TypeLabel(kind), findings)
    ensures SourcesShown(old(gauges.lifecycleResources), gauges.lifecycleResources, TypeLabel(kind), findings)
  {
    ghost var causes, sources := gauges.unknownResources, gauges.lifecycleResources;
    var unknownCounts, sourceCounts;
    summary, unknownCounts, sourceCounts := Summarize(findings);
    gauges.RecordDetectionSummary(kind, summary);
    gauges.RecordDetectionBreakdown(kind, unknownCounts, sourceCounts);
    RecordedShows(causes, gauges.unknownResources, TypeLabel(kind), unknownCounts, CauseLabels(findings),
                  KNOWN_CAUSES, UNATTRIBUTED);
    RecordedShows(sources, gauges.lifecycleResources, TypeLabel(kind), sourceCounts, SourceLabels(findings),
                  KNOWN_SOURCES, SOURCE_UNKNOWN);
  }

  // ---------------------------------------------------------------------------------------------
  // The activities

  datatype DetectResult = DetectResult(findingsBatchID: string, findings: seq<Finding>, findingsCount: nat)

  function CallKey(c: (string, string)): string {
    c.0 + ":" + c.1
  }

  /** No two questions have the same version key. */
  ghost predicate AskedOnce(calls: seq<(string, string)>) {
    forall i, j :: 0 <= i < j < |calls| ==> CallKey(calls[i]) != CallKey(calls[j])
  }

  ghost predicate KeysIn(calls: seq<(string, string)>, seen: set<string>) {
    forall i :: 0 <= i < |calls| ==> CallKey(calls[i]) in seen
  }

  ghost predicate NoneBlank(calls: seq<(string, string)>) {
    forall i :: 0 <= i < |calls| ==> TrimSpace(calls[i].1) != ""
  }

  lemma MemoStep(resources: seq<Resource>, i: nat, provider: StableProvider)
    requires i < |resources|
    ensures var m, key := Memo(resources[..i], provider), VersionKey(resources[i]);
            Memo(resources[..i + 1], provider) ==
                if key in m then m else m[key := DirectLifecycle(provider, resources[i])]
  {
    assert resources[..i + 1][..i] == resources[..i];
  }

  lemma DriftStep(p: DefaultPolicy, resources: seq<Resource>, i: nat, lifecycles: map<string, VersionLifecycle>,
                  clock: Clock)
    requires i < |resources|
    ensures DriftFindings(p, resources[..i + 1], lifecycles, clock) ==
            DriftFindings(p, resources[..i], lifecycles, clock) +
            [FindingOf(p, resources[i], LifecycleFor(lifecycles, resources[i]), clock(i))]
  {
  }

  lemma AskOnceMore(calls: seq<(string, string)>, seen: set<string>, r: Resource)
    requires AskedOnce(calls) && KeysIn(calls, seen) && VersionKey(r) !in seen
    ensures KeysIn(calls, seen + {VersionKey(r)})
    ensures AskedOnce(calls + [(r.engine, r.currentVersion)])
    ensures KeysIn(calls + [(r.engine, r.currentVersion)], seen + {VersionKey(r)})
  {
    assert CallKey((r.engine, r.currentVersion)) == VersionKey(r);
  }

  class Activities {
    const policy: DefaultPolicy
    const store: Store
    const gauges: Gauges
    var resourceCache: Cache

    constructor (policy: DefaultPolicy, store: Store, gauges: Gauges)
      ensures this.policy == policy && this.store == store && this.gauges == gauges && resourceCache == map[]
    {
      this.policy := policy;
      this.store := store;
      this.gauges := gauges;
      resourceCache := map[];
    }

    /** Fetches the inventory into the cache, under a key naming both the scan and the type. A scan
        without ID gets its resources back directly. */
    method FetchInventory(scanID: string, kind: string, source: Result<seq<Resource>>)
      returns (r: Result<(string, seq<Resource>)>)
      modifies this
      ensures source.Err? ==> r == Err(source.message) && resourceCache == old(resourceCache)
      ensures source.Ok? ==>
                var batchID := if scanID == "" then "" else ResourceKey(scanID, kind);
                && r == Ok((batchID, if scanID == "" then source.value else []))
                && resourceCache == AfterFetch(old(resourceCache), batchID, source.value)
    {
      if source.Err? {
        return Err(source.message);
      }
      if scanID == "" {
        return Ok(("", source.value));
      }
      var batchID := scanID + ":" + kind;
      resourceCache := resourceCache[batchID := ResourceBatch(source.value)];
      return Ok((batchID, []));
    }

    /** One question to the provider, and what to make of a failed or empty answer. */
    method Ask(resource: Resource, lookup: StableProvider) returns (lifecycle: VersionLifecycle)
      requires TrimSpace(resource.currentVersion) != ""
      ensures lifecycle == DirectLifecycle(lookup, resource)
    {
      var answer := lookup(resource.engine, resource.currentVersion);
      if answer.lifecycle.Some? {
        return answer.lifecycle.value;
      }
      lifecycle := BlankLifecycle(resource.currentVersion, resource.engine, ZERO_TIME, SOURCE_UNKNOWN, UNATTRIBUTED);
      if answer.failed {
        lifecycle := BlankLifecycle(resource.currentVersion, resource.engine, ZERO_TIME, SOURCE_UNKNOWN, SOURCE_ERROR);
      }
    }

    /** Looks up each version key once. `calls` lists the questions put to the provider: never two with
        the same key, and never one with a blank version. */
    method FetchEOLData(batchID: string, fallback: seq<Resource>, provider: Option<StableProvider>)
      returns (r: Result<map<string, VersionLifecycle>>, calls: seq<(string, string)>)
      ensures r.Ok? <==> LoadResources(resourceCache, batchID, fallback).Ok? && provider.Some?
      ensures r.Ok? ==> r.value == Memo(LoadResources(resourceCache, batchID, fallback).value, provider.value)
      ensures AskedOnce(calls) && NoneBlank(calls)
    {
      calls := [];
      var loaded := LoadResources(resourceCache, batchID, fallback);
      if loaded.Err? {
        return Err(loaded.message), calls;
      }
      if provider.None? {
        return Err("no EOL provider configured"), calls;
      }
      var resources, lookup := loaded.value, provider.value;
      var lifecycles: map<string, VersionLifecycle> := map[];
      var seen: set<string> := {};
      for i := 0 to |resources|
        invariant lifecycles == Memo(resources[..i], lookup)
        invariant seen == lifecycles.Keys
        invariant AskedOnce(calls) && KeysIn(calls, seen) && NoneBlank(calls)
      {
        MemoStep(resources, i, lookup);
        var resource := resources[i];
        var key := resource.engine + ":" + resource.currentVersion;
        if key in seen {
          continue;
        }
        AskOnceMore(calls, seen, resource);
        seen := seen + {key};
        if TrimSpace(resource.currentVersion) == "" {
          lifecycles := lifecycles[key := BlankLifecycle("", resource.engine, ZERO_TIME, SOURCE_UNKNOWN,
                                                         EMPTY_INVENTORY_VERSION)];
          continue;
        }
        calls := calls + [(resource.engine, resource.currentVersion)];
        var lifecycle := Ask(resource, lookup);
        lifecycles := lifecycles[key := lifecycle];
      }
      assert resources[..|resources|] == resources;
      return Ok(lifecycles), calls;
    }

    /** The finding of one resource; a key missing from the lifecycles counts as an unattributed one. */
    method Assess(resource: Resource, lifecycles: map<string, VersionLifecycle>, now: Time) returns (finding: Finding)
      ensures finding == FindingOf(policy, resource, LifecycleFor(lifecycles, resource), now)
    {
      var key := resource.engine + ":" + resource.currentVersion;
      var lifecycle: VersionLifecycle;
      if key in lifecycles {
        lifecycle := lifecycles[key];
      } else {
        lifecycle := BlankLifecycle(resource.currentVersion, resource.engine, ZERO_TIME, SOURCE_UNKNOWN, UNATTRIBUTED);
      }
      var status := Classify(policy, resource.currentVersion, lifecycle, now);
      var annotated := lifecycle.(unknownCause := UnknownCause(resource.currentVersion, lifecycle, status));
      finding := Finding(resource.id, resource.kind, resource.service, resource.cloudProvider,
                         resource.currentVersion, resource.engine, status, Details(annotated));
    }

    method AssessAll(resources: seq<Resource>, lifecycles: map<string, VersionLifecycle>, clock: Clock)
      returns (findings: seq<Finding>)
      ensures findings == DriftFindings(policy, resources, lifecycles, clock)
    {
      findings := [];
      for i := 0 to |resources|
        invariant findings == DriftFindings(policy, resources[..i], lifecycles, clock)
      {
        DriftStep(policy, resources, i, lifecycles, clock);
        var finding := Assess(resources[i], lifecycles, clock(i));
        findings := findings + [finding];
      }
      assert resources[..|resources|] == resources;
    }

    /** Classifies the batch in order and moves it in the cache from its resource key to its findings
        key. */
    method DetectDrift(batchID: string, fallback: seq<Resource>, lifecycles: map<string, VersionLifecycle>,
                       clock: Clock)
      returns (r: Result<DetectResult>)
      modifies this
      ensures var loaded := old(LoadResources(resourceCache, batchID, fallback));
              && (loaded.Err? ==> r.Err? && resourceCache == old(resourceCache))
              && (loaded.Ok? ==>
                    var findings := DriftFindings(policy, loaded.value, lifecycles, clock);
                    && AllJudged(policy, loaded.value, lifecycles, clock, findings)
                    && r == Ok(if batchID == "" then DetectResult("", findings, |findings|)
                               else DetectResult(FindingsKey(batchID), [], |findings|))
                    && resourceCache == AfterDetect(old(resourceCache), batchID, findings))
    {
      var loaded := LoadResources(resourceCache, batchID, fallback);
      if loaded.Err? {
        return Err(loaded.message);
      }
      var findings := AssessAll(loaded.value, lifecycles, clock);
      FindingsAreJudged(policy, loaded.value, lifecycles, clock);
      if batchID != "" {
        resourceCache := resourceCache - {batchID};
        var findingsID := batchID + "-findings";
        resourceCache := resourceCache[findingsID := FindingBatch(findings)];
        return Ok(DetectResult(findingsID, [], |findings|));
      }
      return Ok(DetectResult("", findings, |findings|));
    }

    /** Replaces the type's findings by the batch; a request without type only upserts. */
    method StoreFindings(batchID: string, fallback: seq<Finding>, kind: string) returns (r: Result<()>)
      requires store.Valid()
      modifies store
      ensures store.Valid()
      ensures var loaded := LoadFindings(resourceCache, batchID, fallback);
              && (r.Ok? <==> loaded.Ok?)
              && store.findings == if loaded.Err? then old(store.findings)
                                   else if kind == "" then old(store.findings) + ByID(loaded.value)
                                   else Replaced(old(store.findings), kind, loaded.value)
    {
      var loaded := LoadFindings(resourceCache, batchID, fallback);
      if loaded.Err? {
        return Err(loaded.message);
      }
      if kind == "" {
        store.SaveFindings(loaded.value);
      } else {
        store.ReplaceFindings(kind, loaded.value);
      }
      return Ok(());
    }

    method Evict(batchID: string)
      modifies `resourceCache
      ensures resourceCache == AfterEmit(old(resourceCache), batchID)
    {
      if batchID != "" {
        resourceCache := resourceCache - {batchID};
      }
    }

    /** Summarises the batch, publishes its breakdown, and drops the batch from the cache. */
    method EmitMetrics(batchID: string, fallback: seq<Finding>, kind: string) returns (r: Result<ScanSummary>)
      requires gauges.Valid()
      modifies this, gauges
      ensures gauges.Valid()
      ensures var loaded := old(LoadFindings(resourceCache, batchID, fallback));
              && (r.Ok? <==> loaded.Ok?)
              && (r.Err? ==> resourceCache == old(resourceCache) && unchanged(gauges))
              && (r.Ok? ==>
                    && Summarizes(r.value, loaded.value)
                    && resourceCache == AfterEmit(old(resourceCache), batchID)
                    && gauges.detectionResources ==
                       old(gauges.detectionResources)[TypeLabel(kind) := StatusesOf(loaded.value)]
                    && gauges.complianceRatio ==
                       old(gauges.complianceRatio)[TypeLabel(kind) := GreenShare(loaded.value)]
                    && CausesShown(old(gauges.unknownResources), gauges.unknownResources, TypeLabel(kind), loaded.value)
                    && SourcesShown(old(gauges.lifecycleResources), gauges.lifecycleResources, TypeLabel(kind),
                                    loaded.value))
    {
      var loaded := LoadFindings(resourceCache, batchID, fallback);
      if loaded.Err? {
        return Err(loaded.message);
      }
      var summary := Publish(gauges, kind, loaded.value);
      Evict(batchID);
      return Ok(summary);
    }
  }
}
