# Version Guard: a verified model of the scan pipeline

Version Guard scans cloud resources, asks an end-of-life catalogue about the version of each, classifies
every resource as RED, YELLOW, GREEN or UNKNOWN, and publishes a snapshot when a scan is complete. This
project models the parts of it where the difficulty lies and proves what they are for.

- **The scan protocol** (`ScanProtocol.dfy`, `ScanSafety.dfy`, `ScanRequests.dfy`, `ScanTrace.dfy`,
  `RepeatedScans.dfy`). Launchers, orchestrators and the detection workflows of each scan are a state machine
  over one shared cache, whose keys are joined strings, and one shared findings store. Every interleaving is
  covered, with workflows that give up or restart and any sequence of scans started in any way and aborted at
  any point. Proved: a workflow only ever reads its own data back, a finished scan leaves nothing behind in
  the cache exactly when all its metrics were emitted, two scans never overlap, a persisted snapshot is
  exactly the classification of what its own scan fetched, and the completeness gate opens exactly when it
  should. A scan keeps the ID, the types and the scope it was asked for, so scheduled scans never share a
  snapshot ID; a resource once RED stays RED in later snapshots made from the same catalogue; and there are
  runs, manual, scheduled and targeted, that end with the snapshot of any given inventory saved.
- **The activities and their workflow** (`Detection.dfy`, `Judgement.dfy`, `DetectionWorkflow.dfy`,
  `MemoryStore.dfy`, `Telemetry.dfy`, `SnapshotBuilder.dfy`, `Orchestrator.dfy`): the classes and loops that
  the protocol's steps abstract, each proved against a specification function, and laws about those functions:
  what every finding says, status, cause and dates, in terms of its resource, its lifecycle and the moment,
  memoised lookup refines direct lookup (and exactly when), counts are conserved from findings to gauges and
  from findings to every bucket of a snapshot, and the snapshot validator accepts what the builder builds
  exactly if its counters stood at zero before.
- **Lifecycles over time** (`Adapters.dfy`, `Policy.dfy`, `LifecycleTime.dfy`, `Provider.dfy`,
  `ProviderProtocol.dfy`): a catalogue cycle becomes boundaries and then flags at one moment, is cached, and
  is classified at a later one. Which date of a cycle becomes which boundary, and which flags follow, is
  stated on the cycle's own fields. Proved for the standard schema and every valid declarative configuration:
  RED is absorbing, stale flags never exaggerate, nothing changes while no boundary is crossed, and the exact
  shape of the warning window. Version search is canonical, and agrees with the policy's own matching under an
  exact condition, for every identifier and version. Concurrent lookups share one fetch at a time.
- **The report client** (`WizClient.dfy`, `WizProtocol.dfy`): the cache with its time to live and freshness
  deadline, and the concurrent callers that share a flight per report.
- **Text and index kernels** (`Text.dfy`, `Tags.dfy`, `TagFields.dfy`, `TagLimits.dfy`, `ColumnIndex.dfy`,
  `SnapshotStore.dfy`, `SnapshotLookup.dfy`): the hand-written tag parser, the column index of report headers,
  the paginated snapshot listing, and lookup by ID.

`Types.dfy` holds the records passed between them and `Sums.dfy` the sum over a map. Classes with mutable
fields are classes here, loops are loops, and each such method is tied by its contract to a function that
the lemmas speak about. Time is an integer of nanoseconds passed to each operation; strings are sequences
of characters. Remote calls, store reads and retries that run out are parameters of the operations, which
may take any value.

## What the proofs brought to light

- The approach warning is documented as "fewer than 90 days". The code rounds to whole days and demands at
  least one, so the window is from one day, inclusive, to 91 days, exclusive (`WarningWindow`), and a
  supported version is GREEN again on its last day (`LastDayIsGreen`). `SeverityFallsOnlyAfterWarning` says
  exactly when severity falls with time: a countdown warning stops and the phase reached by then asks for no
  warning of its own. Besides the last day, this is so in a support window that the configuration calls
  supported, where a version can be GREEN for long after its end of standard support
  (`SupportedWindowIsGreen`), and in extended support when the policy does not warn about it.
- The last moment of a support window counts neither as inside nor as past it, so a version is RED at exactly
  that moment already, not only after it (`RedWhenSupportIsOver`).
- A report whose deadline falls exactly on the zero time is never due: that moment stands for "no deadline".
  The rows the client serves are within their deadline in every other case (`LookUpsServeFreshRows`,
  `ZeroDeadlineIsNeverDue`).
- The tag parser counts braces inside quoted text as structure. For tags with distinct keys and without
  quotes, printing and parsing gives the list back exactly when the braces of each tag balance
  (`TagsSurviveIffBalanced`); a value that is a closing brace is lost (`ClosingBraceIsLost`).
- Looking a snapshot up by ID returns the first listed key that ends with the ID. An ID saved on two days is
  therefore answered with the earlier day's snapshot, for good (`LaterDayIsNotFound`, `SameIDOnTwoDays`).
  `FoundUnderItsOwnKey` gives the exact condition.
- Version keys join engine and version with a colon. Memoised lookup is right exactly when no two resources
  of the batch share a key without sharing both parts; engines without a colon suffice
  (`ColonFreeEnginesAgree`), and on any batch that violates the condition some provider shows the difference
  (`ClashingKeysShow`, and `ClashingBatchIsWrong` for two concrete resources).
- The provider's search trims identifiers and versions and knows no prefixes; the policy's matching trims
  neither and strips Kubernetes prefixes. `MatchAgreesWithPolicy` says exactly when a match of the search
  passes the policy, for every identifier the catalogue may hold and every version, and `MismatchExactly`
  when the lifecycle-mismatch diagnosis occurs. Both failing classes are real: a prefixed version
  (`PrefixedVersionMismatch`) and a padded identifier (`PaddedIdentifierMismatch`).
- Counters accumulate over builds. The validator accepts a built snapshot exactly if the total stood at zero
  before the build (`Builder.Build`). A second build also doubles the counters of the snapshot that the first
  one handed out, and the object passes then only if there are no findings at all (`Builder.BuildTwice`).
- The provider's shared fetch does not look at the cache again once it starts, as the report client's does.
  Two callers that miss together can ask the catalogue twice in a row (`FetchesAreNotSpaced`), where the
  report client's writes are always spaced (`WizProtocol.WritesAreSpaced`). The look that is left out is the
  exact condition: a flight can fetch in vain exactly if the cache had a good entry when the flight was
  started (`FlightIsWastedExactly`), and exactly then can it write less than a time to live after the entry
  before (`WritesAreSpacedExactly`).
- A detection run whose store or metrics fail leaves its findings batch in the cache, and one that fails
  between the inventory and the classification leaves its resources there (`DetectionWorkflow.Run`). Nothing
  else stays: `ScanSafety.DoneWorkerLeaves` and `ScanSafety.CacheIsEmptied` say so for every interleaving.

## Assumptions of the protocol

Requested types are distinct and not empty, and none is another's name followed by "-findings"; the exact
key clash is `KeysOfTypes`. Every resource fetched for a type carries that type, and resource IDs belong to
one type each. Open workflow IDs are unique. An activity takes effect once and as a whole, or not at all. All
workflows of a scan share one worker. An aborted scan takes its workflows with it.

Of the object store's listing it is assumed that a truncated page may be empty, but only finitely often in
one walk (`GivesFrom`); the number of requests is bounded by the number of keys and of such pages.

## Model

| member | source | states |
|---|---|---|
| ScanSafety.KeysOfTypes | pkg/workflow/detection/activities.go:173-173 | within a scan the cache keys of two types coincide only for the same type, and one's resource key is another's findings key exactly when the names differ by the suffix |
| ScanSafety.StepKeepsInv | pkg/workflow/detection/workflow.go:96-158 | every step of every workflow, including giving up, restarting and saving, keeps the protocol invariant: own keys hold own data, stored findings classify what was fetched, saved snapshots are exact |
| ScanSafety.ReachableKeepsInv | pkg/workflow/orchestrator/workflow.go:189-201 | the invariant holds in every state reached by any sequence of events |
| ScanSafety.LoadsReturnOwnData | pkg/workflow/detection/activities.go:116-144 | in every interleaving each load of a detection workflow succeeds and returns exactly what that workflow put into the shared cache |
| ScanSafety.CacheIsEmptied | pkg/workflow/detection/activities.go:309-312 | when all workflows of a scan have finished, the cache holds no key of the scan exactly if every one of them emitted its metrics |
| ScanSafety.DoneWorkerLeaves | pkg/workflow/detection/activities.go:400-405 | a finished workflow leaves its resource key free, and its findings batch in the cache exactly if its metrics were not emitted |
| ScanSafety.MetricsAreBestEffort | pkg/workflow/detection/workflow.go:147-158 | the last activity completes the workflow whether or not its metrics get out, and evicts the findings exactly if they do |
| ScanSafety.ScansDoNotOverlap | pkg/workflow/orchestrator/workflow.go:126-137 | however scans are started, at most one orchestrator is past the ID guard, and it runs under the singleton ID |
| ScanSafety.ScanEnds | pkg/workflow/orchestrator/workflow.go:126-137 | an aborted or completed scan is gone, and the singleton ID is free for the next |
| ScanSafety.SnapshotsAreExact | pkg/workflow/orchestrator/activities.go:92-105 | a persisted snapshot holds, for each of its types, exactly the classification of the inventory its own scan fetched, each resource once, and has exactly the requested types (full) or those that finished (targeted) |
| ScanSafety.GateIsExact | pkg/workflow/orchestrator/workflow.go:214-332 | a scan's snapshot is handed to the store exactly when some type finished and, for a full scan, every requested type did |
| ScanTrace.AScanCanSave | pkg/workflow/detection/workflow.go:96-158 | for every type, inventory, provider and clock there is a run that saves a snapshot of exactly that type, under the singleton ID, holding exactly the classification of that inventory |
| ScanTrace.AScheduledScanCanSave | pkg/workflow/orchestrator/workflow.go:86-97 | the same for a scheduled scan, whose snapshot is saved under its launcher's workflow ID |
| ScanTrace.ATargetedScanCanSave | pkg/workflow/orchestrator/workflow.go:214-332 | for every targeted request and each of its types there is a run in which that type is restarted once, all others give up, and a snapshot of exactly that type is saved |
| ScanRequests.LaunchedScanKeepsItsID | pkg/workflow/orchestrator/workflow.go:86-97 | whatever happens beside it, a launched scan has the ID of its request or else its launcher's workflow ID, with the types and scope asked for, and the one snapshot it can save has that ID |
| ScanRequests.LaunchersDoNotShareIDs | pkg/workflow/orchestrator/workflow.go:78-90 | launchers with different workflow IDs and no scan ID of their own never save under one snapshot ID |
| ScanRequests.RunKeepsRequest | pkg/workflow/orchestrator/workflow.go:139-165 | from its start to its end an orchestrator scans the types asked for, under the scope and the ID asked for, with the workflow ID in place of a missing one |
| ScanRequests.StartedScanCarriesOut | pkg/workflow/orchestrator/workflow.go:126-144 | an orchestrator started directly carries out the request it was started with |
| ScanRequests.GateFollowsRequest | pkg/workflow/orchestrator/workflow.go:408-415 | a scan asked for as "targeted" saves as soon as some type finished, one asked for with any other scope, unknown and empty ones included, only if all types did; the snapshot has exactly the types that finished |
| RepeatedScans.RedFindingStaysRed | pkg/workflow/detection/activities.go:264-312 | a resource found unchanged in a later scan of the same catalogue is RED again if it was RED, whenever either scan's provider filled its cache, when version keys do not clash in either inventory |
| RepeatedScans.RedStaysRedInSnapshots | pkg/workflow/orchestrator/activities.go:92-105 | the same for any two saved snapshots of any run of the system |
| DetectionWorkflow.Run | pkg/workflow/detection/workflow.go:48-179 | which failures are fatal, and the exact findings store and cache a run leaves behind, for every combination of failing activities |
| DetectionWorkflow.LookUpAndDetect | pkg/workflow/detection/workflow.go:106-130 | the two middle activities either move the batch to its classified findings or change nothing |
| DetectionWorkflow.StoreAndReport | pkg/workflow/detection/workflow.go:134-158 | only storing can fail the run; failing metrics cost the summary and the eviction, not the findings |
| Detection.Activities.FetchInventory | pkg/workflow/detection/activities.go:147-176 | the batch is cached under a key of scan and type, or returned inline when the scan has no ID; a source error changes nothing |
| Detection.Activities.FetchEOLData | pkg/workflow/detection/activities.go:187-250 | the result is the memo of the loaded batch, no version key is asked twice, and blank versions are never asked |
| Detection.Activities.DetectDrift | pkg/workflow/detection/activities.go:253-320 | position by position the findings judge the batch, each resource at its own moment: RED exactly for a matching lifecycle that is past end of life, deprecated outside both support windows, or past extended support; YELLOW and GREEN likewise; all fields are the resource's and all dates, flags and provenance the lifecycle's; and the cache exchanges the resource key for the findings key |
| Judgement.ClassifyIsRight | pkg/policy/default.go:40-65 | the status of every resource and lifecycle at every moment, in terms of flags, dates and whole days |
| Judgement.DetailsAreRight | pkg/types/lifecycle_details.go:34-63 | the lifecycle block of a finding carries the lifecycle's dates, flags and provenance, and the least of its four dates |
| Detection.FindingsAreJudged | pkg/workflow/detection/activities.go:264-305 | every finding of a batch says what the lifecycle under its version key says at its moment, or is unattributed without one |
| Detection.AnswersAreShown | pkg/workflow/detection/activities.go:212-243 | every finding shows what the provider answers about its own resource: the lifecycle, or the cause of its absence, one for a blank version, one for a failed and one for an empty answer |
| Detection.Activities.StoreFindings | pkg/workflow/detection/activities.go:328-355 | the type's findings are replaced by the batch, a request without type only upserts, a failed load changes nothing |
| Detection.Activities.EmitMetrics | pkg/workflow/detection/activities.go:358-410 | the summary, percentage included, tallies the batch; the type's totals and ratio show it; every cause and source series of the type shows exactly its own count, where the fallback cause and the fallback source also count every unlisted name, and they sum to the UNKNOWN findings and to all of them; other types' series are untouched, and the batch leaves the cache |
| Detection.Summarize | pkg/workflow/detection/activities.go:366-391 | each status, cause and source count is the number of such findings; causes sum to UNKNOWN and sources to the total |
| Detection.MemoRefinesDirect | pkg/workflow/detection/activities.go:201-243 | classification from the deduplicated map equals asking the provider for every resource, in order, when version keys do not clash |
| Detection.MemoHolds | pkg/workflow/detection/activities.go:264-275 | every resource finds its key in the map, so the missing-key branch is never taken |
| Detection.ColonFreeEnginesAgree | pkg/workflow/detection/activities.go:204-210 | engines without a colon never make version keys clash |
| Detection.ClashingKeysShow | pkg/workflow/detection/activities.go:204-210 | the condition is exact: on a batch with clashing keys some stable provider makes the memoised findings wrong |
| Detection.ClashingBatchIsWrong | pkg/workflow/detection/activities.go:204-210 | two concrete resources whose keys clash and whose memoised findings are wrong |
| Detection.CauseExactlyWhenUnknown | pkg/policy/default.go:67-91 | a finding has an unknown cause exactly when its status is UNKNOWN |
| Detection.FailedLookupIsUnknown | pkg/workflow/detection/activities.go:220-242 | a failed or empty lookup always classifies as UNKNOWN, with the lookup's cause |
| MemoryStore.Store.SaveFindings | pkg/store/memory/store.go:29-46 | the store becomes the old one overridden by the batch, the last finding of a resource winning |
| MemoryStore.LastOneWins | pkg/store/memory/store.go:29-46 | the last finding of a resource is the one that stays |
| MemoryStore.Store.ListFindings | pkg/store/memory/store.go:62-74 | in any iteration order, the listing holds exactly the findings that pass the filters |
| MemoryStore.ListingPasses | pkg/store/memory/store.go:62-74 | a finding is listed exactly if it is stored and agrees with every filter given |
| MemoryStore.Store.ReplaceFindings | pkg/store/memory/store.go:119-139 | every finding of the type is evicted, then the batch stored |
| MemoryStore.ReplaceIsolatesTypes | pkg/store/memory/store.go:119-139 | with resource IDs disjoint across types, replacing one type leaves exactly the batch under it and touches no other type |
| MemoryStore.ListingHasNoDuplicates | pkg/store/memory/store.go:62-74 | no resource occurs twice in a listing |
| Telemetry.Gauges.RecordDetectionBreakdown | pkg/telemetry/metrics.go:191-229 | from any earlier gauge state, the type's series sum to the given counts, carry only known labels, and other type labels are untouched |
| Telemetry.Gauges.RecordDetectionSummary | pkg/telemetry/metrics.go:170-188 | the type's five counts and its ratio are those of the summary, and other types' are untouched |
| Telemetry.SharedLabel | pkg/telemetry/metrics.go:333-339 | two types share their series exactly if their names agree but for case and surrounding white space, blank ones being called "unknown" |
| Telemetry.OwnLabel | pkg/telemetry/metrics.go:333-339 | a type is shown under its own name exactly if that is not blank, not padded and without upper case |
| Telemetry.NormalizeCounts | pkg/telemetry/metrics.go:209-214 | counts move under known labels, unknown ones to the fallback, and their sum is kept |
| Telemetry.RecordedShows | pkg/telemetry/metrics.go:191-229 | recording a tally of labels shows every label under its own name if that is known and under the fallback otherwise, each series at its exact count |
| SnapshotBuilder.Builder.CountTypes | pkg/snapshot/builder.go:59-82 | in any order of the types, each is visited once and counted into its own bucket |
| SnapshotBuilder.Builder.CalculateStatistics | pkg/snapshot/builder.go:55-96 | the statistics tally all findings, in whatever order the types are visited, and percentages are derived from them |
| SnapshotBuilder.Builder.Build | pkg/snapshot/builder.go:48-96 | from any earlier summary, every counter of the overall, service and provider buckets gains exactly the counts of the findings and the by-type buckets are renewed; a first build reports on exactly the findings; the validator accepts the result exactly if the total stood at zero before; the builder's own object is handed out |
| SnapshotBuilder.Builder.BuildTwice | pkg/snapshot/builder.go:48-64 | both builds hand out one object: accepted after the first, it has twice that total after the second and is then accepted exactly if no type has findings |
| SnapshotBuilder.CountConcat | pkg/snapshot/builder.go:59-62 | counting in any order of the types is counting type by type |
| SnapshotBuilder.TallyAccumulates | pkg/snapshot/builder.go:55-96 | a tally on top of a summary adds to every bucket the exact counts of its findings, with bucket membership, by-service and by-provider sums and percentages |
| SnapshotBuilder.FirstBuildReports | pkg/snapshot/builder.go:48-52 | on top of the empty summary that is: every bucket counts exactly its findings, none is missing and none in excess |
| SnapshotBuilder.SummaryIsSound | pkg/snapshot/builder.go:114-151 | when all statuses are known, the four counts sum to the total, and the percentage is the share of GREEN findings, overall and in every bucket by type, by service and by provider |
| SnapshotBuilder.ReportsAreConsistent | pkg/workflow/orchestrator/activities.go:216-237 | what the builder builds once passes the snapshot validation |
| Orchestrator.MissingResourceTypes | pkg/workflow/orchestrator/activities.go:201-214 | exactly the expected types that are not present |
| Orchestrator.ValidateSnapshotSummary | pkg/workflow/orchestrator/activities.go:216-237 | in any map order, accepts exactly the snapshots whose buckets match their findings and whose totals add up |
| Orchestrator.ValidateSnapshotCompleteness | pkg/workflow/orchestrator/activities.go:151-187 | accepts exactly a targeted scan's snapshot, one of a request that predates scopes and expected types, and otherwise a consistent one that has every expected type, of which there is at least one |
| Orchestrator.CreateSnapshot | pkg/workflow/orchestrator/activities.go:74-138 | what is handed to the store reports on exactly the listed findings of the given types, and is handed over exactly when reads succeed and the gate opens |
| Orchestrator.CollectResults | pkg/workflow/orchestrator/workflow.go:214-294 | every type's outcome is recorded and the successful types are kept in order |
| Orchestrator.SnapshotStage | pkg/workflow/orchestrator/workflow.go:310-332 | given the successful types, a snapshot reaches the store exactly when the scope's demand is met and all reads succeed |
| Orchestrator.OrchestratorWorkflow | pkg/workflow/orchestrator/workflow.go:126-406 | a snapshot is attempted exactly under the singleton ID, with some success, all types succeeding unless the scope asked for is "targeted", and store reads succeeding; its types are exactly the successful ones |
| LifecycleTime.MatchedIsClassified | pkg/policy/default.go:40-65 | under a valid configuration a known, matching lifecycle is never UNKNOWN, however old its flags |
| LifecycleTime.RedIsAbsorbing | pkg/policy/default.go:94-111 | once RED, adapting and classifying again later gives RED, for every cycle and every valid configuration |
| LifecycleTime.RedWhenSupportIsOver | pkg/eol/endoflife/adapters.go:92-171 | under the standard schema a matched version is RED exactly when support is over by the cycle's own fields, for each of the four field shapes |
| LifecycleTime.RefreshNeverLowersSeverity | pkg/eol/endoflife/provider.go:233-241 | severity from cached flags is never above severity from flags adapted later |
| LifecycleTime.SupportWindowsDoNotReopen | pkg/eol/endoflife/adapters.go:421-442 | from a support window the flags only stay or move to end of support |
| LifecycleTime.NoBoundaryNoChange | pkg/eol/endoflife/adapters.go:140-171 | when no boundary lies between caching and classifying, cached and fresh flags give the same status |
| LifecycleTime.ActionableDateIsMinimum | pkg/types/lifecycle_details.go:34-43 | the actionable date is the least of the policy's four dates |
| LifecycleTime.ActionableDateIsWarningDate | pkg/policy/default.go:249-266 | while none of the dates has passed, the actionable date is the date the warning counts down to |
| LifecycleTime.WarningWindow | pkg/policy/default.go:128-133 | a supported version is YELLOW exactly from one day to (warning days + 1) days before its first date |
| LifecycleTime.SeverityFallsOnlyAfterWarning | pkg/policy/default.go:114-136 | severity falls with time exactly when, for a matched version, a countdown warning stops and the phase reached is supported, or extended support under a policy that does not warn about it, with extended support not over |
| LifecycleTime.SupportedWindowIsGreen | pkg/eol/endoflife/adapters.go:427-436 | a valid configuration and a cycle that is YELLOW before its end of standard support and GREEN long after it |
| LifecycleTime.LastDayIsGreen | pkg/policy/default.go:128-133 | a concrete cycle that is YELLOW, then GREEN on its last day, then RED |
| Adapters.DeriveBoundaries | pkg/eol/endoflife/adapters.go:92-138 | which of the catalogue dates is each boundary, for each of the four field shapes |
| Adapters.ApplyLifecycleAction | pkg/eol/endoflife/adapters.go:451-476 | the five flags that each lifecycle action sets |
| Adapters.ClassifyStandard | pkg/eol/endoflife/adapters.go:140-171 | the flags are those of the phase the moment falls into |
| Adapters.ClassifyDeclarative | pkg/eol/endoflife/adapters.go:421-442 | the flags are those of the action configured, or defaulted, for the phase |
| Adapters.AdaptCycle | pkg/eol/endoflife/adapters.go:92-201 | in terms of the cycle's own fields: the dates and flags of the standard schema for each field shape, and under a declarative one each boundary as the date of the configured field, or of the fallback field where that is true, with the configured actions |
| Adapters.AdaptedFollowsConfig | pkg/eol/endoflife/adapters.go:342-442 | every lifecycle adapted under a configuration has the dates and flags that configuration names |
| Adapters.AdaptedFollowsSchedule | pkg/eol/endoflife/adapters.go:92-171 | every lifecycle adapted under the standard schema has the dates and flags of its cycle's schedule |
| Policy.FirstFutureLifecycleDate | pkg/policy/default.go:249-266 | the least of the four dates that lie in the future |
| Policy.FirstLifecycleDate | pkg/types/lifecycle_details.go:66-77 | the least of the dates present |
| Policy.MatchVersion | pkg/policy/default.go:271-284 | the loop over prefixes decides exactly the stated matching relation |
| Provider.FindVersionIsBest | pkg/eol/endoflife/provider.go:144-158 | the search finds the exact identifier if there is one, else a longest dotted prefix, and nothing only if neither exists |
| Provider.BestMatchIsCanonical | pkg/eol/endoflife/provider.go:144-158 | the best match of distinct identifiers is unique, whatever their order |
| Provider.SearchVersions | pkg/eol/endoflife/provider.go:144-158 | the loop returns the best match |
| Provider.MatchAgreesWithPolicy | pkg/policy/default.go:271-284 | for every identifier and version that the search matches, the policy matches too exactly if they are equal, or the version has no Kubernetes prefix and begins with the identifier, untrimmed, and a dot |
| Provider.PrefixedVersionMismatch | pkg/policy/default.go:271-284 | a prefixed version for which the two disagree |
| Provider.PaddedIdentifierMismatch | pkg/eol/endoflife/provider.go:322-326 | a padded identifier, valid for the catalogue, for which the two disagree on a clean version |
| Provider.MismatchExactly | pkg/policy/default.go:67-91 | the lifecycle-mismatch diagnosis occurs exactly when the search finds a cycle with which the policy does not agree |
| Provider.MismatchIsUnreachable | pkg/policy/default.go:44-46 | for clean identifiers and clean, unprefixed versions the lifecycle-mismatch diagnosis cannot occur |
| Provider.Provider.LoadVersions | pkg/eol/endoflife/provider.go:227-319 | an entry younger than the time to live is served as it is; errors are passed on and never cached; missing products are cached; everything else replaces the entry |
| Provider.Provider.GetVersionLifecycle | pkg/eol/endoflife/provider.go:129-187 | the answer of the loaded entry, with its metadata or its cause, and a blank lifecycle together with the error when loading fails |
| Provider.AnswerIsExact | pkg/eol/endoflife/provider.go:144-187 | from the catalogue's cycles: the answer is the best match of the sound cycles as adapted then, or else blank, with the cause that a malformed cycle matches or that none does |
| Provider.UnknownProductIsShown | pkg/eol/endoflife/provider.go:247-273 | a product the catalogue does not know gives a blank answer with its own cause |
| Provider.CachedAnswerErrsLow | pkg/eol/endoflife/provider.go:233-241 | against the same catalogue, a cached entry never gives a greater severity than one loaded now, and UNKNOWN for the same versions |
| ProviderProtocol.OneFetchAtATime | pkg/eol/endoflife/provider.go:243-246 | in every interleaving of callers the catalogue is asked once at a time |
| ProviderProtocol.LoadsAreGenuine | pkg/eol/endoflife/provider.go:243-310 | whatever the cache holds or a caller is given was made from an answer of the catalogue that was not a failure |
| ProviderProtocol.LookUpsServeYoungAnswers | pkg/eol/endoflife/provider.go:233-241 | in every interleaving a look at the cache serves exactly what was made of an answer less than a time to live old |
| ProviderProtocol.AnswerReachesItsCaller | pkg/eol/endoflife/provider.go:243-319 | from every state in which a caller can start a flight, a run ends with the catalogue's answer in the cache and in the caller's hands |
| ProviderProtocol.FetchesAreNotSpaced | pkg/eol/endoflife/provider.go:233-246 | two callers that miss together can make two fetches in a row, the second while the first entry is still good |
| ProviderProtocol.FlightIsWastedExactly | pkg/eol/endoflife/provider.go:233-246 | however a run goes on, a flight never fetches while the cache has a good entry, exactly if there was none when the flight was started |
| ProviderProtocol.WritesAreSpacedExactly | pkg/eol/endoflife/provider.go:233-246 | whatever the catalogue answers and however the run goes on, what a flight writes comes a time to live after the entry before it, exactly under the same condition |
| WizClient.Client.Lookup | pkg/inventory/wiz/client.go:123-137 | an entry is served exactly while it is younger than the time to live and, if it has a deadline, before that |
| WizClient.Client.FetchAndCache | pkg/inventory/wiz/client.go:143-196 | succeeds exactly for downloads with a header and the announced number of rows, and caches them, due a run interval and six hours after the report's last run, exactly if they have the initiator's columns |
| WizClient.Client.GetReportData | pkg/inventory/wiz/client.go:88-120 | for one caller alone: a cached entry within its time to live and deadline is served and nothing changes; otherwise the outcome and the cache are those of one fetch; rows returned have the caller's columns |
| WizProtocol.ReachableKeepsInv | pkg/inventory/wiz/client.go:88-196 | the invariant of flights, waiters, writes and rows holds in every interleaving of callers |
| WizProtocol.OneFetchPerReport | pkg/inventory/wiz/client.go:101-108 | no report is fetched twice at a time, nor while the cache could serve it |
| WizProtocol.WritesAreSpaced | pkg/inventory/wiz/client.go:187-193 | two consecutive writes of a report are a time to live apart, or the later is not before the earlier's deadline |
| WizProtocol.LookUpsServeFreshRows | pkg/inventory/wiz/client.go:90-96 | in every interleaving a look-up hands out exactly the rows of a download less than a time to live old whose report is not overdue, to a caller whose columns they have |
| WizProtocol.RechecksServeFreshRows | pkg/inventory/wiz/client.go:102-107 | the second look inside a flight serves exactly the same, and otherwise the report is fetched |
| WizProtocol.ZeroDeadlineIsNeverDue | pkg/inventory/wiz/client.go:133-135 | a concrete overdue report that is served, because it was due at the zero time |
| WizProtocol.JoinedFlightsAreUnderway | pkg/inventory/wiz/client.go:98-108 | a flight that a caller joins is for its own report and has not landed |
| WizProtocol.DownloadReachesItsCaller | pkg/inventory/wiz/client.go:88-196 | from every state in which a caller can start a flight for an uncached report, a run ends with the whole download in its hands and in the cache |
| WizProtocol.EntriesAreWhole | pkg/inventory/wiz/client.go:166-178 | every entry is a download of its own report with exactly the announced number of data rows |
| WizProtocol.AnswersSuitTheirCallers | pkg/inventory/wiz/client.go:116-119 | rows returned to a caller are a whole download of the report it asked for, with the columns it requires itself |
| WizProtocol.ProgressIsKept | pkg/inventory/wiz/client.go:101-108 | no step of anybody takes a caller further from its answer |
| WizProtocol.NobodyIsStuck | pkg/inventory/wiz/client.go:101-108 | while a caller has no answer, some step can be taken that brings it nearer |
| Tags.SplitTags | pkg/inventory/wiz/client.go:244-264 | the loop returns the objects of the splitter's specification |
| Tags.ParseTags | pkg/inventory/wiz/client.go:210-241 | the map of the parser's specification, for every input |
| Tags.PrintedTagParses | pkg/inventory/wiz/client.go:268-298 | a printed object without quotes in key and value gives both back, even when they spell "key", "value" or ":" |
| Tags.TagRoundTrip | pkg/inventory/wiz/client.go:208-298 | printing a list of tags as the documented array and parsing it gives its last-wins map, empty keys dropped, when nothing holds a quote and braces balance |
| TagLimits.TagsSurviveIffBalanced | pkg/inventory/wiz/client.go:208-298 | a list of tags with distinct, non-empty keys and without quotes survives printing and parsing exactly when the braces of each tag balance |
| TagLimits.TagSurvivesIffBalanced | pkg/inventory/wiz/client.go:244-264 | a single tag survives printing and parsing exactly when its braces balance |
| TagLimits.ClosingBraceIsLost | pkg/inventory/wiz/client.go:244-264 | a concrete tag whose value is a closing brace is lost |
| ColumnIndex.BuildColumnIndex | pkg/inventory/wiz/helpers.go:33-46 | a name maps to the last column literally so named, otherwise to the first column whose text after its last dot it is, and no other name is in the index |
| ColumnIndex.ValidateRequiredColumns | pkg/inventory/wiz/client.go:198-206 | accepts exactly when every required name, or the one that stands in for it, is the name of a column, literally or after its last dot |
| ColumnIndex.RequiredColumnsResolve | pkg/inventory/wiz/helpers.go:51-92 | after validation, requiring a required column gives the cell under its own column, or under its alias if it has none, fails exactly for an empty or missing cell, and never blames the header |
| SnapshotStore.S3Store.SaveSnapshot | pkg/snapshot/store.go:94-138 | what each failing write leaves stored, and under which keys |
| SnapshotStore.S3Store.ListSnapshots | pkg/snapshot/store.go:222-270 | whatever pages the server chooses, empty ones included, the result is the first entries of the whole listing without the latest pointer and unreadable objects; it succeeds exactly if every request made is answered, stops at the first that is not, and makes at most one more request than there are keys and requests in which the server may still give empty pages |
| SnapshotStore.HeadsAreExact | pkg/snapshot/store.go:277-322 | the whole listing holds, in the order of keys and each once, exactly the readable objects other than the latest pointer, with their own snapshot's ID and total |
| SnapshotStore.S3Store.GetSnapshot | pkg/snapshot/store.go:162-219 | whatever pages the server chooses, empty ones included, the object returned is the first match of the whole listing; it succeeds exactly if every request made is answered, there is a match, and the object can be read |
| SnapshotLookup.KeyMatchesSuffix | pkg/snapshot/store.go:324-340 | a snapshot's key matches a slash-free ID exactly when the ID ends the snapshot's ID |
| SnapshotLookup.FoundUnderItsOwnKey | pkg/snapshot/store.go:162-219 | a stored ID is answered with its own object exactly when no smaller key's name ends with the ID |
| SnapshotLookup.SavedIsFound | pkg/snapshot/store.go:94-219 | a snapshot just saved is found by its ID when the ID ends no other stored snapshot's ID |
| SnapshotLookup.LaterDayIsNotFound | pkg/snapshot/store.go:162-219 | of two snapshots with one ID, the later day's is never found by it |
| SnapshotLookup.SameIDOnTwoDays | pkg/snapshot/store.go:162-219 | a concrete bucket in which the earlier day's snapshot is returned |

## Left out

- WarningWindow: the documented "fewer than 90 days" is not what the code does; the lemma states the code's window.
- TagRoundTrip: escapes of section 7 of RFC 8259 are not produced, because the parser does not read them; tags with a quote are outside the law.
- ListSnapshots: for a limit below one the server is taken to return no keys; an object listed without a key, and an entry's version, time and rounded percentage, are not modelled.
- GetSnapshot: the listing is taken not to change between the pages of one call.
- GetReportData: the contract is for one caller alone; concurrent callers are the subject of WizProtocol.
- LoadVersions: the clock is read once per load, and the contract is for one caller alone; concurrent callers are the subject of ProviderProtocol.
- Reading the clock: one moment for each resource classified, cycle list adapted, load and cache lookup, where the program may read it more than once.
- The saturation of very long durations and the overflow of very large run intervals.
- Floating point: percentages are real numbers.
- Unicode case folding (lower-casing covers ASCII) and the difference between bytes and characters.
- Parsing of dates, JSON, YAML and CSV: cycles, configurations and rows are taken as already parsed.
- Metadata that no decision depends on: tags, extra fields, messages, detection times, release and long-term-support dates.
- The Temporal service: replay, sessions, timeouts, retry counts, and activities that outlive a workflow that gave up or was aborted.
- A type with an empty name, for which storing only upserts, is covered by the activities but excluded from the protocol.
- Gauges, counters and histograms other than the four that a detection run sets, and logging.
- HTTP, S3, the webhook and the notifier, as far as they are more than an arbitrary result or error.
- The fallback of SaveFindings for stores without replacement, summaries by filter, and lookup of one finding.
- Inventory mapping, service names taken from resource names, transforms, override manifests and the schedule.
- The in-memory snapshot store, the latest-snapshot read, the command line, the server and its configuration.
