/** What a finding says: when it is RED, YELLOW or GREEN, told from the lifecycle's flags and dates, and
    what its lifecycle block carries. */
module Judgement {
  import opened Types
  import opened Text
  import opened Policy

  /** The lifecycle is named and is about the resource's version. */
  predicate Applies(r: Resource, l: VersionLifecycle) {
    l.version != "" && VersionMatches(l.version, r.currentVersion)
  }

  /** Past end of life, deprecated outside both support windows, or past the end of extended support. */
  predicate SupportEnded(l: VersionLifecycle, now: Time) {
    || l.isEOL
    || (l.isDeprecated && !(l.isExtendedSupport || l.isDeprecatedSupport))
    || (l.extendedSupportEnd.Some? && l.extendedSupportEnd.value < now)
  }

  predicate IsDateOf(l: VersionLifecycle, d: Time) {
    || l.deprecationDate == Some(d)
    || l.deprecatedSupportEnd == Some(d)
    || l.extendedSupportEnd == Some(d)
    || l.eolDate == Some(d)
  }

  predicate IsNextDate(l: VersionLifecycle, now: Time, d: Time) {
    now < d && IsDateOf(l, d)
  }

  /** The next of the four dates is at least a day away, and less than a day more than the policy's
      warning days. */
  ghost predicate CountsDown(p: DefaultPolicy, l: VersionLifecycle, now: Time) {
    exists d ::
      && IsNextDate(l, now, d)
      && (forall e :: IsNextDate(l, now, e) ==> d <= e)
      && DAY <= d - now < (p.eolWarningDays + 1) * DAY
  }

  /** In deprecated support, in extended support if the policy warns about it, or counting down. */
  ghost predicate WarningDue(p: DefaultPolicy, l: VersionLifecycle, now: Time) {
    || l.isDeprecatedSupport
    || (p.warnExtendedSupport && l.isExtendedSupport)
    || CountsDown(p, l, now)
  }

  ghost predicate StatusIsRight(p: DefaultPolicy, r: Resource, l: VersionLifecycle, now: Time, status: Status) {
    && (status == Red <==> Applies(r, l) && SupportEnded(l, now))
    && (status == Yellow <==> Applies(r, l) && !SupportEnded(l, now) && WarningDue(p, l, now))
    && (status == Green <==>
        Applies(r, l) && !SupportEnded(l, now) && !WarningDue(p, l, now) && l.isSupported)
    && status in {Red, Yellow, Green, Unknown}
  }

  /** An UNKNOWN finding carries the lifecycle's own cause, else the reason why nothing matched. */
  predicate CauseIsRight(r: Resource, l: VersionLifecycle, status: Status, cause: string) {
    if status != Unknown then cause == ""
    else if l.unknownCause != "" then cause == l.unknownCause
    else
      && (cause == EMPTY_INVENTORY_VERSION <==> TrimSpace(r.currentVersion) == "")
      && (cause == CYCLE_NOT_FOUND <==> TrimSpace(r.currentVersion) != "" && TrimSpace(l.version) == "")
      && (cause == LIFECYCLE_MISMATCH <==>
          && TrimSpace(r.currentVersion) != "" && TrimSpace(l.version) != ""
          && !VersionMatches(l.version, r.currentVersion))
      && cause in {EMPTY_INVENTORY_VERSION, CYCLE_NOT_FOUND, LIFECYCLE_MISMATCH, INDETERMINATE}
  }

  /** The finding is about the resource, field by field. */
  predicate Describes(f: Finding, r: Resource) {
    && f.resourceID == r.id && f.kind == r.kind && f.service == r.service && f.cloudProvider == r.cloudProvider
    && f.currentVersion == r.currentVersion && f.engine == r.engine
  }

  /** The block carries the lifecycle's dates, flags and provenance. Where only extended support has an
      end of its own, standard support is shown to end with the end of life. */
  predicate BlockIsRight(block: LifecycleDetails, l: VersionLifecycle) {
    && block.standardSupportEnd ==
       (if l.deprecationDate.None? && l.extendedSupportEnd.Some? then l.eolDate else l.deprecationDate)
    && block.deprecatedSupportEnd == l.deprecatedSupportEnd
    && block.extendedSupportEnd == l.extendedSupportEnd
    && block.eolDate == l.eolDate
    && IsEarliest([l.deprecationDate, l.deprecatedSupportEnd, l.extendedSupportEnd, l.eolDate], block.actionableDate)
    && block.version == l.version && block.engine == l.engine
    && block.fetchedAt == l.fetchedAt && block.dataSource == l.dataSource
    && block.isSupported == l.isSupported && block.isDeprecated == l.isDeprecated
    && block.isExtendedSupport == l.isExtendedSupport && block.isEOL == l.isEOL
  }

  /** A finding made of a resource and its lifecycle at `now`. */
  ghost predicate Judged(p: DefaultPolicy, r: Resource, l: VersionLifecycle, now: Time, f: Finding) {
    && Describes(f, r)
    && StatusIsRight(p, r, l, now, f.status)
    && CauseIsRight(r, l, f.status, f.eol.unknownCause)
    && BlockIsRight(f.eol, l)
  }

  /** A finding made of a resource for which the lifecycles have no entry. */
  predicate Unattributed(r: Resource, f: Finding) {
    && Describes(f, r)
    && f.status == Unknown && f.eol.unknownCause == UNATTRIBUTED
    && f.eol.version == r.currentVersion && f.eol.engine == r.engine && f.eol.dataSource == SOURCE_UNKNOWN
  }

  // ---------------------------------------------------------------------------------------------
  // The policy judges so

  lemma NextDateIsFirst(l: VersionLifecycle, now: Time)
    ensures FirstFutureDate(l, now).None? ==> forall e :: !IsNextDate(l, now, e)
    ensures FirstFutureDate(l, now).Some? ==>
              && IsNextDate(l, now, FirstFutureDate(l, now).value)
              && forall e :: IsNextDate(l, now, e) ==> FirstFutureDate(l, now).value <= e
  {
    var ds := FutureDates(l, now);
    assert ds[0] == IfFuture(l.deprecationDate, now) && ds[1] == IfFuture(l.deprecatedSupportEnd, now);
    assert ds[2] == IfFuture(l.extendedSupportEnd, now) && ds[3] == IfFuture(l.eolDate, now);
  }

  lemma WholeDaysAhead(ahead: int, days: int)
    requires ahead > 0
    ensures 0 < WholeDays(ahead) <= days <==> DAY <= ahead < (days + 1) * DAY
  {
  }

  lemma ApproachingCountsDown(p: DefaultPolicy, l: VersionLifecycle, now: Time)
    ensures Approaching(p, l, now) <==> CountsDown(p, l, now)
  {
    NextDateIsFirst(l, now);
    var first := FirstFutureDate(l, now);
    if first.Some? {
      WholeDaysAhead(first.value - now, p.eolWarningDays);
    }
  }

  lemma ClassifyIsRight(p: DefaultPolicy, r: Resource, l: VersionLifecycle, now: Time)
    ensures StatusIsRight(p, r, l, now, Classify(p, r.currentVersion, l, now))
  {
    ApproachingCountsDown(p, l, now);
  }

  lemma DetailsAreRight(l: VersionLifecycle, cause: string)
    ensures BlockIsRight(Details(l.(unknownCause := cause)), l)
    ensures Details(l.(unknownCause := cause)).unknownCause == cause
  {
    var ds := [StandardSupportEnd(l), l.deprecatedSupportEnd, l.extendedSupportEnd, l.eolDate];
    var dates := [l.deprecationDate, l.deprecatedSupportEnd, l.extendedSupportEnd, l.eolDate];
    assert ds[0] == StandardSupportEnd(l) && ds[1] == dates[1] && ds[2] == dates[2] && ds[3] == dates[3];
    assert dates[0] == l.deprecationDate;
  }
}
