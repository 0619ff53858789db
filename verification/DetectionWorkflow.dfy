/** One detection workflow from end to end: which failures are fatal, and what a run leaves in the cache
    and in the store. */
module DetectionWorkflow {
  import opened Types
  import opened MemoryStore
  import opened Detection

  /** Which activities give up after their retries, without effect. */
  datatype Faults = Faults(lookUp: bool, detect: bool, save: bool, metrics: bool)

  datatype Output = Output(scanID: string, kind: string, findingsCount: nat, summary: Option<ScanSummary>)

  /** The cache after a run: empty again under the scan's keys, or with what the first failing activity
      found there. */
  function CacheAfterRun(cache: Cache, key: string, resources: seq<Resource>, findings: seq<Finding>, ready: bool,
                         faults: Faults)
    : Cache
  {
    if !ready || faults.lookUp || faults.detect then AfterFetch(cache, key, resources)
    else if faults.save || faults.metrics then AfterDetect(cache, key, findings)
    else if key == "" then cache
    else cache - {key, FindingsKey(key)}
  }

  function ScanKey(scanID: string, kind: string): string {
    if scanID == "" then "" else ResourceKey(scanID, kind)
  }

  /** The pipeline's output when every activity succeeds. */
  function PipelineFindings(a: Activities, resources: seq<Resource>, provider: StableProvider, clock: Clock)
    : seq<Finding>
  {
    DriftFindings(a.policy, resources, Memo(resources, provider), clock)
  }

  /** Lookup and classification: either the findings of the loaded batch are handed on, or nothing has
      changed. */
  method LookUpAndDetect(a: Activities, batchID: string, fallback: seq<Resource>, ghost resources: seq<Resource>,
                         provider: Option<StableProvider>, faults: Faults, clock: Clock)
    returns (r: Result<DetectResult>)
    requires LoadResources(a.resourceCache, batchID, fallback) == Ok(resources)
    modifies a
    ensures r.Ok? <==> provider.Some? && !faults.lookUp && !faults.detect
    ensures r.Err? ==> a.resourceCache == old(a.resourceCache)
    ensures r.Ok? ==>
              var findings := PipelineFindings(a, resources, provider.value, clock);
              && a.resourceCache == AfterDetect(old(a.resourceCache), batchID, findings)
              && r.value.findingsCount == |resources|
              && r.value.findingsBatchID == (if batchID == "" then "" else FindingsKey(batchID))
              && LoadFindings(a.resourceCache, r.value.findingsBatchID, r.value.findings) == Ok(findings)
  {
    if faults.lookUp {
      return Err("failed to fetch EOL data");
    }
    var lifecycles, calls := a.FetchEOLData(batchID, fallback, provider);
    if lifecycles.Err? {
      return Err(lifecycles.message);
    }
    if faults.detect {
      return Err("failed to detect drift");
    }
    r := a.DetectDrift(batchID, fallback, lifecycles.value, clock);
  }

  /** Storing and metrics: only storing can fail the run. */
  method StoreAndReport(a: Activities, detected: DetectResult, kind: string, ghost findings: seq<Finding>,
                        faults: Faults)
    returns (ok: bool, summary: Option<ScanSummary>)
    requires a.store.Valid() && a.gauges.Valid()
    requires LoadFindings(a.resourceCache, detected.findingsBatchID, detected.findings) == Ok(findings)
    modifies a, a.store, a.gauges
    ensures a.store.Valid() && a.gauges.Valid()
    ensures ok <==> !faults.save
    ensures a.store.findings ==
            if !ok then old(a.store.findings)
            else if kind == "" then old(a.store.findings) + ByID(findings)
            else Replaced(old(a.store.findings), kind, findings)
    ensures summary.Some? <==> ok && !faults.metrics
    ensures summary.Some? ==> Summarizes(summary.value, findings)
    ensures a.resourceCache ==
            if summary.Some? then AfterEmit(old(a.resourceCache), detected.findingsBatchID) else old(a.resourceCache)
  {
    summary := None;
    if faults.save {
      return false, None;
    }
    var stored := a.StoreFindings(detected.findingsBatchID, detected.findings, kind);
    if !faults.metrics {
      var emitted := a.EmitMetrics(detected.findingsBatchID, detected.findings, kind);
      summary := Some(emitted.value);
    }
    return stored.Ok?, summary;
  }

  /** The run succeeds exactly when the inventory, the lookups, the classification and the store do;
      failing metrics cost only the summary. The store then holds the type's classification in place of
      all its earlier findings, and a failed run leaves the store as it was. */
  method Run(a: Activities, workflowID: string, requestedID: string, kind: string, source: Result<seq<Resource>>,
             provider: Option<StableProvider>, faults: Faults, clock: Clock)
    returns (r: Result<Output>)
    requires a.store.Valid() && a.gauges.Valid()
    modifies a, a.store, a.gauges
    ensures a.store.Valid() && a.gauges.Valid()
    ensures r.Ok? <==> source.Ok? && provider.Some? && !faults.lookUp && !faults.detect && !faults.save
    ensures r.Err? ==> a.store.findings == old(a.store.findings)
    ensures r.Ok? ==>
              var findings := PipelineFindings(a, source.value, provider.value, clock);
              && a.store.findings == (if kind == "" then old(a.store.findings) + ByID(findings)
                                      else Replaced(old(a.store.findings), kind, findings))
              && r.value.findingsCount == |source.value|
              && (r.value.summary.Some? <==> !faults.metrics)
              && (r.value.summary.Some? ==> Summarizes(r.value.summary.value, findings))
    ensures source.Err? ==> a.resourceCache == old(a.resourceCache)
    ensures source.Ok? ==>
              var scanID := if requestedID == "" then workflowID else requestedID;
              var findings := if provider.Some? then PipelineFindings(a, source.value, provider.value, clock) else [];
              a.resourceCache ==
              CacheAfterRun(old(a.resourceCache), ScanKey(scanID, kind), source.value, findings, provider.Some?, faults)
  {
    var scanID := if requestedID == "" then workflowID else requestedID;
    var inventory := a.FetchInventory(scanID, kind, source);
    if inventory.Err? {
      return Err(inventory.message);
    }
    var (batchID, resources) := inventory.value;
    var detected := LookUpAndDetect(a, batchID, resources, source.value, provider, faults, clock);
    if detected.Err? {
      return Err(detected.message);
    }
    ghost var findings := PipelineFindings(a, source.value, provider.value, clock);
    var ok, summary := StoreAndReport(a, detected.value, kind, findings, faults);
    if !ok {
      return Err("failed to store findings");
    }
    return Ok(Output(scanID, kind, detected.value.findingsCount, summary));
  }
}
