/** How a status moves with time, when a lifecycle is adapted at one moment, cached, and classified
    at a later one. */
module LifecycleTime {
  import opened Types
  import opened Adapters
  import opened Policy

  /** The status given at `t1` to a cycle adapted at `t0`. */
  function StatusAt(p: DefaultPolicy, schema: Schema, cycle: ProductCycle, version: string, t0: Time, t1: Time)
    : Status
  {
    Classify(p, version, Adapted(schema, cycle, t0), t1)
  }

  /** A known lifecycle whose version matches never comes out UNKNOWN, however old its flags are. */
  lemma MatchedIsClassified(p: DefaultPolicy, schema: Schema, cycle: ProductCycle, version: string, t0: Time, t1: Time)
    requires ValidSchema(schema)
    ensures StatusAt(p, schema, cycle, version, t0, t1) in {Red, Yellow, Green, Unknown}
    ensures StatusAt(p, schema, cycle, version, t0, t1) == Unknown <==>
            cycle.cycle == "" || !VersionMatches(cycle.cycle, version)
  {
    assert IsAction(ActionAt(schema, CycleBoundaries(schema, cycle), t0));
  }

  /** Once RED, always RED: adapting again and classifying again later, in any order of boundaries and
      under any valid configuration, cannot undo it. */
  lemma RedIsAbsorbing(p: DefaultPolicy, schema: Schema, cycle: ProductCycle, version: string,
                       t0: Time, t1: Time, u0: Time, u1: Time)
    requires ValidSchema(schema)
    requires t0 <= t1 && t0 <= u0 <= u1 && t1 <= u1
    requires StatusAt(p, schema, cycle, version, t0, t1) == Red
    ensures StatusAt(p, schema, cycle, version, u0, u1) == Red
  {
    var b := CycleBoundaries(schema, cycle);
    if !After(u1, b.extendedEnd) {
      assert ActionAt(schema, b, t0) in {EOL, UNSUPPORTED};
      assert ActionAt(schema, b, u0) in {EOL, UNSUPPORTED};
    }
  }

  /** Stale flags err one way only: refreshing them at any later moment never lowers the severity seen
      at `t1`, whatever the policy's settings. */
  lemma RefreshNeverLowersSeverity(p: DefaultPolicy, schema: Schema, cycle: ProductCycle, version: string,
                                   t0: Time, u0: Time, t1: Time)
    requires ValidSchema(schema)
    requires t0 <= u0 <= t1
    ensures StatusAt(p, schema, cycle, version, t0, t1).Severity() <=
            StatusAt(p, schema, cycle, version, u0, t1).Severity()
  {
    MatchedIsClassified(p, schema, cycle, version, t0, t1);
    MatchedIsClassified(p, schema, cycle, version, u0, t1);
    var b := CycleBoundaries(schema, cycle);
    if StatusAt(p, schema, cycle, version, t0, t1) == Red {
      RedIsAbsorbing(p, schema, cycle, version, t0, t1, u0, t1);
    } else if !After(t1, b.extendedEnd) && ActionAt(schema, b, t0) in {EXTENDED_SUPPORT, DEPRECATED_SUPPORT} {
      SupportWindowsDoNotReopen(schema, cycle, t0, u0);
    }
  }

  /** From a support window the only ways on are the same window or the end of support. */
  lemma SupportWindowsDoNotReopen(schema: Schema, cycle: ProductCycle, t: Time, u: Time)
    requires ValidSchema(schema)
    requires t <= u && !After(u, CycleBoundaries(schema, cycle).extendedEnd)
    requires ActionAt(schema, CycleBoundaries(schema, cycle), t) in {EXTENDED_SUPPORT, DEPRECATED_SUPPORT}
    ensures ActionAt(schema, CycleBoundaries(schema, cycle), u) in
            {ActionAt(schema, CycleBoundaries(schema, cycle), t), UNSUPPORTED, EOL}
  {
    var b := CycleBoundaries(schema, cycle);
    assert After(t, b.standardEnd) && After(u, b.standardEnd);
  }

  /** The cycle's support is over, from its own fields under the standard schema: past the end, or on the
      very last moment of a window, which counts neither as inside nor as past it. */
  predicate SupportIsOver(cycle: ProductCycle, now: Time) {
    var support, eol, extended := cycle.support, cycle.eol, cycle.extendedSupport;
    var standardEnd := if extended.On? && !support.On? then eol else support;
    if extended.On? || (extended == Flag(true) && eol.On?) || (support.On? && eol.On? && support.date < eol.date) then
      var end := if extended.On? then extended.date else eol.date;
      end < now || (end == now && standardEnd.On? && standardEnd.date < end)
    else (eol.On? && eol.date < now) || (support.On? && support.date < now)
  }

  /** A matched version is RED under the standard schema exactly when support is over. */
  lemma RedWhenSupportIsOver(p: DefaultPolicy, cycle: ProductCycle, version: string, now: Time)
    requires cycle.cycle != "" && VersionMatches(cycle.cycle, version)
    ensures StatusAt(p, Standard, cycle, version, now, now) == Red <==> SupportIsOver(cycle, now)
  {
    AdaptedFollowsSchedule(cycle, now);
  }

  predicate Outside(boundary: Option<Time>, t0: Time, t1: Time) {
    boundary.None? || boundary.value < t0 || t1 < boundary.value
  }

  predicate NoBoundaryIn(b: Boundaries, t0: Time, t1: Time) {
    && Outside(b.standardEnd, t0, t1)
    && Outside(b.deprecatedSupportEnd, t0, t1)
    && Outside(b.extendedEnd, t0, t1)
    && Outside(b.trueEOL, t0, t1)
  }

  /** When no boundary lies between the two moments, cached flags and fresh flags agree. */
  lemma NoBoundaryNoChange(p: DefaultPolicy, schema: Schema, cycle: ProductCycle, version: string, t0: Time, t1: Time)
    requires t0 <= t1 && NoBoundaryIn(CycleBoundaries(schema, cycle), t0, t1)
    ensures StatusAt(p, schema, cycle, version, t0, t1) == StatusAt(p, schema, cycle, version, t1, t1)
  {
    assert ActionAt(schema, CycleBoundaries(schema, cycle), t0) == ActionAt(schema, CycleBoundaries(schema, cycle), t1);
    SameFlagsSameStatus(p, version, Adapted(schema, cycle, t0), Adapted(schema, cycle, t1), t1);
  }

  lemma SameFlagsSameStatus(p: DefaultPolicy, version: string, l: VersionLifecycle, m: VersionLifecycle, now: Time)
    requires l.(fetchedAt := m.fetchedAt) == m
    ensures Classify(p, version, l, now) == Classify(p, version, m, now)
  {
    assert FutureDates(l, now) == FutureDates(m, now);
  }

  // ---------------------------------------------------------------------------------------------
  // The warning window

  /** The block's actionable date is the least of the policy's four dates. */
  lemma ActionableDateIsMinimum(l: VersionLifecycle)
    ensures Details(l).actionableDate == Earliest(PolicyDates(l))
    ensures IsEarliest(PolicyDates(l), Details(l).actionableDate)
  {
    var ds := [StandardSupportEnd(l), l.deprecatedSupportEnd, l.extendedSupportEnd, l.eolDate];
    var r := Details(l).actionableDate;
    EarliestOfFour(StandardSupportEnd(l), l.deprecatedSupportEnd, l.extendedSupportEnd, l.eolDate);
    EarliestOfFour(l.deprecationDate, l.deprecatedSupportEnd, l.extendedSupportEnd, l.eolDate);
  }

  lemma EarliestOfFour(a: Option<Time>, b: Option<Time>, c: Option<Time>, d: Option<Time>)
    ensures var r := Earliest([a, b, c, d]);
            && (r.None? <==> a.None? && b.None? && c.None? && d.None?)
            && (r.Some? ==> r in {a, b, c, d})
            && (r.Some? && a.Some? ==> r.value <= a.value)
            && (r.Some? && b.Some? ==> r.value <= b.value)
            && (r.Some? && c.Some? ==> r.value <= c.value)
            && (r.Some? && d.Some? ==> r.value <= d.value)
  {
    var ds := [a, b, c, d];
    assert ds[0] == a && ds[1] == b && ds[2] == c && ds[3] == d;
  }

  /** While none of the four dates has passed, the actionable date of the finding is the date the
      warning counts down to. */
  lemma ActionableDateIsWarningDate(l: VersionLifecycle, now: Time)
    requires forall d :: d in PolicyDates(l) && d.Some? ==> d.value > now
    ensures Details(l).actionableDate == FirstFutureDate(l, now)
  {
    ActionableDateIsMinimum(l);
    assert l.deprecationDate == PolicyDates(l)[0];
    assert l.deprecatedSupportEnd == PolicyDates(l)[1];
    assert l.extendedSupportEnd == PolicyDates(l)[2];
    assert l.eolDate == PolicyDates(l)[3];
  }

  /** A version in standard support is YELLOW exactly from (warning days + 1) days before its first
      boundary, exclusive, down to one whole day before it, inclusive; otherwise it is GREEN. */
  lemma {:induction false} WarningWindow(p: DefaultPolicy, resourceVersion: string, l: VersionLifecycle, now: Time)
    requires l.version != "" && VersionMatches(l.version, resourceVersion)
    requires HasFlagsOf(l, SUPPORTED)
    requires forall d :: d in PolicyDates(l) && d.Some? ==> d.value > now
    ensures Classify(p, resourceVersion, l, now) in {Yellow, Green}
    ensures Classify(p, resourceVersion, l, now) == Yellow <==>
            && Details(l).actionableDate.Some?
            && DAY <= Details(l).actionableDate.value - now < (p.eolWarningDays + 1) * DAY
  {
    ActionableDateIsWarningDate(l, now);
    assert l.extendedSupportEnd == PolicyDates(l)[2];
  }

  /** The phase of a matched version asks for no warning of its own. */
  predicate InQuietPhase(p: DefaultPolicy, schema: Schema, b: Boundaries, now: Time) {
    && !After(now, b.extendedEnd)
    && (|| ActionAt(schema, b, now) == SUPPORTED
        || (ActionAt(schema, b, now) == EXTENDED_SUPPORT && !p.warnExtendedSupport))
  }

  /** Severity falls with time exactly when a countdown warning stops and the phase reached by then is a
      quiet one: standard support, or a support window that the configuration or the policy treats as
      such. */
  lemma SeverityFallsOnlyAfterWarning(p: DefaultPolicy, schema: Schema, cycle: ProductCycle, version: string,
                                      t: Time, u: Time)
    requires ValidSchema(schema) && t <= u
    ensures StatusAt(p, schema, cycle, version, u, u).Severity() <
            StatusAt(p, schema, cycle, version, t, t).Severity() <==>
            && cycle.cycle != "" && VersionMatches(cycle.cycle, version)
            && InQuietPhase(p, schema, CycleBoundaries(schema, cycle), u)
            && Approaching(p, Adapted(schema, cycle, t), t)
            && !Approaching(p, Adapted(schema, cycle, u), u)
  {
    MatchedIsClassified(p, schema, cycle, version, t, t);
    MatchedIsClassified(p, schema, cycle, version, u, u);
    if StatusAt(p, schema, cycle, version, t, t) == Red {
      RedIsAbsorbing(p, schema, cycle, version, t, t, u, u);
    }
    var b := CycleBoundaries(schema, cycle);
    if !After(u, b.extendedEnd) && ActionAt(schema, b, t) in {EXTENDED_SUPPORT, DEPRECATED_SUPPORT} {
      SupportWindowsDoNotReopen(schema, cycle, t, u);
    }
  }

  /** The dip is real: a cycle with one end date is YELLOW two days before it, GREEN twelve hours
      before it and RED after it. */
  lemma LastDayIsGreen()
    ensures var cycle := ProductCycle("8.0", NoDate, On(100 * DAY), NoDate, true);
            && StatusAt(NEW_DEFAULT_POLICY, Standard, cycle, "8.0", 98 * DAY, 98 * DAY) == Yellow
            && StatusAt(NEW_DEFAULT_POLICY, Standard, cycle, "8.0", 100 * DAY - DAY / 2, 100 * DAY - DAY / 2) == Green
            && StatusAt(NEW_DEFAULT_POLICY, Standard, cycle, "8.0", 100 * DAY + 1, 100 * DAY + 1) == Red
  {
    var cycle := ProductCycle("8.0", NoDate, On(100 * DAY), NoDate, true);
    forall t | t < 100 * DAY
      ensures FirstFutureDate(Adapted(Standard, cycle, t), t) == Some(100 * DAY)
    {
      EarliestOfFour(None, None, None, Some(100 * DAY));
    }
  }

  const NO_SOURCE := DateSource("", "")

  /** A valid configuration that calls the window after standard support "supported". */
  const SUPPORTED_WINDOW := LifecycleConfig(
                              DateSource("support", ""), NO_SOURCE, DateSource("extendedSupport", ""), NO_SOURCE,
                              SUPPORTED, "")

  const WINDOWED := ProductCycle("8.0", On(100 * DAY), NoDate, On(1000 * DAY), true)

  lemma SupportedWindowBefore()
    ensures StatusAt(NEW_DEFAULT_POLICY, Declarative(SUPPORTED_WINDOW), WINDOWED, "8.0", 98 * DAY, 98 * DAY) == Yellow
  {
    EarliestOfFour(Some(100 * DAY), None, Some(1000 * DAY), None);
    assert CycleBoundaries(Declarative(SUPPORTED_WINDOW), WINDOWED) ==
        Boundaries(Some(100 * DAY), None, Some(1000 * DAY), None);
  }

  lemma SupportedWindowAfter()
    ensures StatusAt(NEW_DEFAULT_POLICY, Declarative(SUPPORTED_WINDOW), WINDOWED, "8.0", 300 * DAY, 300 * DAY) == Green
  {
    EarliestOfFour(None, None, Some(1000 * DAY), None);
    assert CycleBoundaries(Declarative(SUPPORTED_WINDOW), WINDOWED) ==
        Boundaries(Some(100 * DAY), None, Some(1000 * DAY), None);
  }

  /** The warning can also stop for long: with a window that counts as supported, a version that was
      YELLOW two days before the end of standard support is GREEN two hundred days after it. */
  lemma SupportedWindowIsGreen()
    ensures ValidConfig(SUPPORTED_WINDOW)
    ensures var schema := Declarative(SUPPORTED_WINDOW);
            && StatusAt(NEW_DEFAULT_POLICY, schema, WINDOWED, "8.0", 98 * DAY, 98 * DAY) == Yellow
            && StatusAt(NEW_DEFAULT_POLICY, schema, WINDOWED, "8.0", 300 * DAY, 300 * DAY) == Green
  {
    SupportedWindowBefore();
    SupportedWindowAfter();
  }
}
