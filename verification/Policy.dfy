/** The default compliance policy, and the lifecycle block it puts on findings. */
module Policy {
  import opened Types
  import opened Text

  datatype DefaultPolicy = DefaultPolicy(eolWarningDays: int, warnExtendedSupport: bool)

  const NEW_DEFAULT_POLICY := DefaultPolicy(90, true)

  // ---------------------------------------------------------------------------------------------
  // Dates

  /** `r` is the least of the dates present, and absent only when none is. */
  predicate IsEarliest(dates: seq<Option<Time>>, r: Option<Time>) {
    && (r.None? ==> forall i :: 0 <= i < |dates| ==> dates[i].None?)
    && (r.Some? ==> r in dates)
    && (r.Some? ==> forall i :: 0 <= i < |dates| && dates[i].Some? ==> r.value <= dates[i].value)
  }

  function Earliest(dates: seq<Option<Time>>): (r: Option<Time>)
    ensures IsEarliest(dates, r)
  {
    if dates == [] then None
    else
      var last, rest := dates[|dates| - 1], Earliest(dates[..|dates| - 1]);
      if last.Some? && (rest.None? || last.value < rest.value) then last else rest
  }

  function IfFuture(date: Option<Time>, now: Time): Option<Time> {
    if date.Some? && date.value > now then date else None
  }

  function PolicyDates(l: VersionLifecycle): seq<Option<Time>> {
    [l.deprecationDate, l.deprecatedSupportEnd, l.extendedSupportEnd, l.eolDate]
  }

  function FutureDates(l: VersionLifecycle, now: Time): seq<Option<Time>> {
    [IfFuture(l.deprecationDate, now), IfFuture(l.deprecatedSupportEnd, now),
     IfFuture(l.extendedSupportEnd, now), IfFuture(l.eolDate, now)]
  }

  function FirstFutureDate(l: VersionLifecycle, now: Time): Option<Time> {
    Earliest(FutureDates(l, now))
  }

  method FirstFutureLifecycleDate(l: VersionLifecycle, now: Time) returns (first: Option<Time>)
    ensures first == FirstFutureDate(l, now)
  {
    var dates := PolicyDates(l);
    first := None;
    for i := 0 to |dates|
      invariant first == Earliest(FutureDates(l, now)[..i])
    {
      assert FutureDates(l, now)[..i + 1][..i] == FutureDates(l, now)[..i];
      if dates[i].None? || dates[i].value <= now {
        continue;
      }
      if first.None? || dates[i].value < first.value {
        first := dates[i];
      }
    }
    assert FutureDates(l, now)[..4] == FutureDates(l, now);
  }

  method FirstLifecycleDate(dates: seq<Option<Time>>) returns (first: Option<Time>)
    ensures first == Earliest(dates)
  {
    first := None;
    for i := 0 to |dates|
      invariant first == Earliest(dates[..i])
    {
      assert dates[..i + 1][..i] == dates[..i];
      if dates[i].None? {
        continue;
      }
      if first.None? || dates[i].value < first.value {
        first := dates[i];
      }
    }
    assert dates[..|dates|] == dates;
  }

  function StandardSupportEnd(l: VersionLifecycle): Option<Time> {
    if l.deprecationDate.None? && l.extendedSupportEnd.Some? then l.eolDate else l.deprecationDate
  }

  function Details(l: VersionLifecycle): LifecycleDetails {
    LifecycleDetails(
      StandardSupportEnd(l), l.deprecatedSupportEnd, l.eolDate, l.extendedSupportEnd,
      Earliest([StandardSupportEnd(l), l.deprecatedSupportEnd, l.extendedSupportEnd, l.eolDate]),
      l.fetchedAt, l.version, l.engine, l.dataSource, l.unknownCause,
      l.isSupported, l.isDeprecated, l.isExtendedSupport, l.isEOL)
  }

  // ---------------------------------------------------------------------------------------------
  // Version matching

  const RESOURCE_PREFIXES: seq<string> := ["k8s-", "kubernetes-"]

  function Normalized(resourceVersion: string): string {
    TrimPrefix(TrimPrefix(resourceVersion, "k8s-"), "kubernetes-")
  }

  predicate VersionMatches(lifecycleVersion: string, resourceVersion: string) {
    || lifecycleVersion == resourceVersion
    || lifecycleVersion == Normalized(resourceVersion)
    || HasPrefix(Normalized(resourceVersion), lifecycleVersion + ".")
  }

  method MatchVersion(lifecycleVersion: string, resourceVersion: string) returns (r: bool)
    ensures r <==> VersionMatches(lifecycleVersion, resourceVersion)
  {
    if lifecycleVersion == resourceVersion {
      return true;
    }
    var normalized := resourceVersion;
    for i := 0 to |RESOURCE_PREFIXES|
      invariant i == 0 ==> normalized == resourceVersion
      invariant i == 1 ==> normalized == TrimPrefix(resourceVersion, "k8s-")
      invariant i == 2 ==> normalized == Normalized(resourceVersion)
    {
      normalized := TrimPrefix(normalized, RESOURCE_PREFIXES[i]);
    }
    if lifecycleVersion == normalized {
      return true;
    }
    return HasPrefix(normalized, lifecycleVersion + ".");
  }

  // ---------------------------------------------------------------------------------------------
  // Classification

  /** Whole days in a duration, rounded toward zero. */
  function WholeDays(duration: int): int {
    if duration >= 0 then duration / DAY else -(-duration / DAY)
  }

  predicate IsRedStatus(l: VersionLifecycle, now: Time) {
    || l.isEOL
    || (l.isDeprecated && !l.isExtendedSupport && !l.isDeprecatedSupport)
    || (l.extendedSupportEnd.Some? && now > l.extendedSupportEnd.value)
  }

  predicate Approaching(p: DefaultPolicy, l: VersionLifecycle, now: Time) {
    var first := FirstFutureDate(l, now);
    first.Some? && 0 < WholeDays(first.value - now) <= p.eolWarningDays
  }

  predicate IsYellowStatus(p: DefaultPolicy, l: VersionLifecycle, now: Time) {
    || l.isDeprecatedSupport
    || (p.warnExtendedSupport && l.isExtendedSupport)
    || Approaching(p, l, now)
  }

  function Classify(p: DefaultPolicy, resourceVersion: string, l: VersionLifecycle, now: Time): Status {
    if l.version == "" || !VersionMatches(l.version, resourceVersion) then Unknown
    else if IsRedStatus(l, now) then Red
    else if IsYellowStatus(p, l, now) then Yellow
    else if l.isSupported then Green
    else Unknown
  }

  function UnknownCause(resourceVersion: string, l: VersionLifecycle, status: Status): string {
    if status != Unknown then ""
    else if l.unknownCause != "" then l.unknownCause
    else if TrimSpace(resourceVersion) == "" then EMPTY_INVENTORY_VERSION
    else if TrimSpace(l.version) == "" then CYCLE_NOT_FOUND
    else if !VersionMatches(l.version, resourceVersion) then LIFECYCLE_MISMATCH
    else INDETERMINATE
  }
}
