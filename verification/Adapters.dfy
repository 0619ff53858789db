/** Schema adapters: how a cycle of the end-of-life catalogue becomes a lifecycle with support
    boundaries, and which flags those boundaries give at the moment of adapting. */
module Adapters {
  import opened Types

  /** A date-or-boolean field after decoding. `NoDate` stands for a missing field and for the texts
      that carry no date; `Malformed` for anything the cycle validator rejects. */
  datatype FieldValue = NoDate | Flag(on: bool) | On(date: Time) | Malformed

  datatype ProductCycle = ProductCycle(
    cycle: string,
    support: FieldValue,
    eol: FieldValue,
    extendedSupport: FieldValue,
    metadataValid: bool)

  datatype Boundaries = Boundaries(
    standardEnd: Option<Time>,
    deprecatedSupportEnd: Option<Time>,
    extendedEnd: Option<Time>,
    trueEOL: Option<Time>)

  function DateOf(value: FieldValue): Option<Time> {
    if value.On? then Some(value.date) else None
  }

  predicate After(now: Time, boundary: Option<Time>) {
    boundary.Some? && now > boundary.value
  }

  predicate Before(now: Time, boundary: Option<Time>) {
    boundary.Some? && now < boundary.value
  }

  /** Three dates are present, the middle one strictly between the others. */
  predicate Between(a: Option<Time>, b: Option<Time>, c: Option<Time>) {
    a.Some? && b.Some? && c.Some? && a.value < b.value < c.value
  }

  // ---------------------------------------------------------------------------------------------
  // The standard schema

  datatype CycleDates = CycleDates(
    eol: Option<Time>,
    support: Option<Time>,
    extendedSupport: Option<Time>,
    extendedTrue: bool)

  function ParseCycleDates(cycle: ProductCycle): CycleDates {
    CycleDates(DateOf(cycle.eol), DateOf(cycle.support), DateOf(cycle.extendedSupport),
               cycle.extendedSupport == Flag(true))
  }

  /** What each boundary of the standard schema means, boundary by boundary. */
  function StandardBoundaries(dates: CycleDates): Boundaries {
    Boundaries(
      if dates.support.Some? then dates.support
      else if dates.extendedSupport.Some? then dates.eol
      else None,
      if dates.support.Some? && Before(dates.support.value, dates.eol) &&
         (if dates.extendedSupport.Some? then dates.eol.value < dates.extendedSupport.value else !dates.extendedTrue)
      then dates.eol
      else None,
      if dates.extendedSupport.Some? then dates.extendedSupport
      else if dates.extendedTrue then dates.eol
      else None,
      if dates.extendedSupport.Some? then dates.extendedSupport else dates.eol)
  }

  /** The four field shapes, told apart in the order the adapter tries them. */
  method DeriveBoundaries(dates: CycleDates) returns (b: Boundaries)
    ensures b == StandardBoundaries(dates)
    // an end of extended support
    ensures dates.extendedSupport.Some? ==>
              && b.extendedEnd == b.trueEOL == dates.extendedSupport
              && b.standardEnd == (if dates.support.Some? then dates.support else dates.eol)
              && b.deprecatedSupportEnd == if Between(dates.support, dates.eol, dates.extendedSupport) then dates.eol
                                           else None
    // extended support of unknown end
    ensures dates.extendedSupport.None? && dates.extendedTrue && dates.eol.Some? ==>
              b == Boundaries(dates.support, None, dates.eol, dates.eol)
    // a window after standard support, or one end only
    ensures dates.extendedSupport.None? && !(dates.extendedTrue && dates.eol.Some?) ==>
              && b.standardEnd == dates.support && b.extendedEnd == None && b.trueEOL == dates.eol
              && b.deprecatedSupportEnd ==
                 if dates.support.Some? && dates.eol.Some? && dates.support.value < dates.eol.value then dates.eol
                 else None
  {
    b := Boundaries(None, None, None, None);
    if dates.extendedSupport.Some? {
      b := b.(extendedEnd := dates.extendedSupport, trueEOL := dates.extendedSupport);
      if dates.support.Some? {
        b := b.(standardEnd := dates.support);
        if dates.eol.Some? && dates.eol.value > dates.support.value && dates.eol.value < dates.extendedSupport.value {
          b := b.(deprecatedSupportEnd := dates.eol);
        }
      } else if dates.eol.Some? {
        b := b.(standardEnd := dates.eol);
      }
    } else if dates.extendedTrue && dates.eol.Some? {
      b := b.(extendedEnd := dates.eol, trueEOL := dates.eol);
      if dates.support.Some? {
        b := b.(standardEnd := dates.support);
      }
    } else if dates.support.Some? && dates.eol.Some? && dates.eol.value > dates.support.value {
      b := b.(standardEnd := dates.support, deprecatedSupportEnd := dates.eol, trueEOL := dates.eol);
    } else {
      b := b.(trueEOL := dates.eol);
      if dates.support.Some? {
        b := b.(standardEnd := dates.support);
      }
    }
  }

  // ---------------------------------------------------------------------------------------------
  // Lifecycle actions

  const EXTENDED_SUPPORT := "extended_support"
  const DEPRECATED_SUPPORT := "deprecated_support"
  const UNSUPPORTED := "unsupported"
  const EOL := "eol"
  const SUPPORTED := "supported"

  predicate IsAction(action: string) {
    action in {EXTENDED_SUPPORT, DEPRECATED_SUPPORT, UNSUPPORTED, EOL, SUPPORTED}
  }

  /** A freshly built lifecycle carries exactly the flags of `action`. */
  predicate HasFlagsOf(l: VersionLifecycle, action: string) {
    && l.isEOL == (action == EOL)
    && l.isDeprecated == (action in {EXTENDED_SUPPORT, DEPRECATED_SUPPORT, UNSUPPORTED, EOL})
    && l.isExtendedSupport == (action == EXTENDED_SUPPORT)
    && l.isDeprecatedSupport == (action == DEPRECATED_SUPPORT)
    && l.isSupported == (action in {EXTENDED_SUPPORT, DEPRECATED_SUPPORT, SUPPORTED})
  }

  function WithFlagsOf(l: VersionLifecycle, action: string): (r: VersionLifecycle)
    ensures HasFlagsOf(r, action)
  {
    l.(isEOL := action == EOL,
    isDeprecated := action in {EXTENDED_SUPPORT, DEPRECATED_SUPPORT, UNSUPPORTED, EOL},
    isExtendedSupport := action == EXTENDED_SUPPORT,
    isDeprecatedSupport := action == DEPRECATED_SUPPORT,
    isSupported := action in {EXTENDED_SUPPORT, DEPRECATED_SUPPORT, SUPPORTED})
  }

  predicate NoFlags(l: VersionLifecycle) {
    !l.isEOL && !l.isDeprecated && !l.isExtendedSupport && !l.isDeprecatedSupport && !l.isSupported
  }

  /** Applying an action to a lifecycle without flags gives it that action's flags, and an unknown
      action leaves it without any. */
  method ApplyLifecycleAction(lifecycle: VersionLifecycle, action: string) returns (l: VersionLifecycle)
    requires NoFlags(lifecycle)
    ensures l == WithFlagsOf(lifecycle, action)
  {
    l := lifecycle;
    if action == EXTENDED_SUPPORT {
      l := l.(isSupported := true, isDeprecated := true, isExtendedSupport := true);
    } else if action == DEPRECATED_SUPPORT {
      l := l.(isSupported := true, isDeprecated := true, isDeprecatedSupport := true, isExtendedSupport := false);
    } else if action == UNSUPPORTED {
      l := l.(isSupported := false, isDeprecated := true, isExtendedSupport := false);
    } else if action == EOL {
      l := l.(isEOL := true, isSupported := false, isDeprecated := true, isExtendedSupport := false);
    } else if action == SUPPORTED {
      l := l.(isSupported := true, isDeprecated := false, isExtendedSupport := false);
    }
  }

  /** The action whose flags the standard schema sets at `now`. */
  function StandardAction(b: Boundaries, now: Time): (action: string)
    ensures IsAction(action)
  {
    if After(now, b.trueEOL) then EOL
    else if !After(now, b.standardEnd) then SUPPORTED
    else if Before(now, b.extendedEnd) then EXTENDED_SUPPORT
    else if Before(now, b.deprecatedSupportEnd) then DEPRECATED_SUPPORT
    else UNSUPPORTED
  }

  method ClassifyStandard(lifecycle: VersionLifecycle, b: Boundaries, now: Time) returns (l: VersionLifecycle)
    requires NoFlags(lifecycle)
    ensures l == WithFlagsOf(lifecycle, StandardAction(b, now))
  {
    l := lifecycle;
    if b.trueEOL.Some? && now > b.trueEOL.value {
      l := l.(isEOL := true, isSupported := false, isDeprecated := true);
    } else if b.extendedEnd.Some? && b.standardEnd.Some? && now > b.standardEnd.value && now < b.extendedEnd.value {
      l := l.(isSupported := true, isExtendedSupport := true, isDeprecated := true);
    } else if b.deprecatedSupportEnd.Some? && b.standardEnd.Some? &&
              now > b.standardEnd.value && now < b.deprecatedSupportEnd.value {
      l := l.(isSupported := true, isDeprecated := true, isDeprecatedSupport := true);
    } else if b.standardEnd.Some? && now > b.standardEnd.value {
      l := l.(isDeprecated := true, isSupported := false);
    } else {
      l := l.(isSupported := true);
    }
  }

  // ---------------------------------------------------------------------------------------------
  // The declarative schema

  datatype DateSource = DateSource(field: string, boolTrueFallback: string)

  datatype LifecycleConfig = LifecycleConfig(
    deprecationDate: DateSource,
    deprecatedSupportEnd: DateSource,
    extendedSupportEnd: DateSource,
    eolDate: DateSource,
    deprecatedWindow: string,
    pastExtendedSupport: string)

  predicate IsSupportedField(field: string) {
    field in {"eol", "support", "extendedSupport"}
  }

  predicate ValidDateSource(source: DateSource) {
    && (source.field != "" ==> IsSupportedField(source.field))
    && (source.boolTrueFallback != "" ==> source.field != "" && IsSupportedField(source.boolTrueFallback))
  }

  /** The configuration check made when the adapter is built. */
  predicate ValidConfig(config: LifecycleConfig) {
    && ValidDateSource(config.deprecationDate)
    && ValidDateSource(config.deprecatedSupportEnd)
    && ValidDateSource(config.extendedSupportEnd)
    && ValidDateSource(config.eolDate)
    && (config.deprecatedWindow == "" || IsAction(config.deprecatedWindow))
    && (config.pastExtendedSupport == "" || IsAction(config.pastExtendedSupport))
    && !(&& config.deprecationDate.field == ""
         && config.deprecatedSupportEnd.field == ""
         && config.extendedSupportEnd.field == ""
         && config.eolDate.field == "")
  }

  function CycleFieldValue(cycle: ProductCycle, field: string): Option<FieldValue> {
    if field == "eol" then Some(cycle.eol)
    else if field == "support" then Some(cycle.support)
    else if field == "extendedSupport" then Some(cycle.extendedSupport)
    else None
  }

  function ParseDateSource(cycle: ProductCycle, source: DateSource): Option<Time> {
    match CycleFieldValue(cycle, source.field)
    case None => None
    case Some(On(date)) => Some(date)
    case Some(Flag(true)) =>
      (match CycleFieldValue(cycle, source.boolTrueFallback)
       case Some(On(date)) => Some(date)
       case _ => None)
    case _ => None
  }

  function DefaultAction(action: string, fallback: string): string {
    if action == "" then fallback else action
  }

  /** The action the declarative schema applies at `now`: the boundaries passed last decide, and both
      support windows share one configured action. */
  function DeclarativeAction(config: LifecycleConfig, b: Boundaries, now: Time): string {
    if After(now, b.trueEOL) then EOL
    else if After(now, b.deprecatedSupportEnd) then UNSUPPORTED
    else if After(now, b.extendedEnd) then DefaultAction(config.pastExtendedSupport, UNSUPPORTED)
    else if !After(now, b.standardEnd) then SUPPORTED
    else if Before(now, b.deprecatedSupportEnd) || Before(now, b.extendedEnd)
    then DefaultAction(config.deprecatedWindow, UNSUPPORTED)
    else UNSUPPORTED
  }

  method ClassifyDeclarative(config: LifecycleConfig, lifecycle: VersionLifecycle, now: Time)
    returns (l: VersionLifecycle)
    requires NoFlags(lifecycle)
    ensures l == WithFlagsOf(lifecycle, DeclarativeAction(config, BoundariesOf(lifecycle), now))
  {
    if lifecycle.eolDate.Some? && now > lifecycle.eolDate.value {
      l := ApplyLifecycleAction(lifecycle, EOL);
    } else if lifecycle.deprecatedSupportEnd.Some? && now > lifecycle.deprecatedSupportEnd.value {
      l := ApplyLifecycleAction(lifecycle, UNSUPPORTED);
    } else if lifecycle.extendedSupportEnd.Some? && now > lifecycle.extendedSupportEnd.value {
      l := ApplyLifecycleAction(lifecycle, DefaultAction(config.pastExtendedSupport, UNSUPPORTED));
    } else if lifecycle.deprecationDate.Some? && lifecycle.deprecatedSupportEnd.Some? &&
              now > lifecycle.deprecationDate.value && now < lifecycle.deprecatedSupportEnd.value {
      l := ApplyLifecycleAction(lifecycle, DefaultAction(config.deprecatedWindow, UNSUPPORTED));
    } else if lifecycle.deprecationDate.Some? && lifecycle.extendedSupportEnd.Some? &&
              now > lifecycle.deprecationDate.value && now < lifecycle.extendedSupportEnd.value {
      l := ApplyLifecycleAction(lifecycle, DefaultAction(config.deprecatedWindow, UNSUPPORTED));
    } else if lifecycle.deprecationDate.Some? && now > lifecycle.deprecationDate.value {
      l := ApplyLifecycleAction(lifecycle, UNSUPPORTED);
    } else {
      l := ApplyLifecycleAction(lifecycle, SUPPORTED);
    }
  }

  // ---------------------------------------------------------------------------------------------
  // Both schemas

  datatype Schema = Standard | Declarative(config: LifecycleConfig)

  /** A schema a provider can be built with. */
  predicate ValidSchema(schema: Schema) {
    schema.Declarative? ==> ValidConfig(schema.config)
  }

  function BoundariesOf(l: VersionLifecycle): Boundaries {
    Boundaries(l.deprecationDate, l.deprecatedSupportEnd, l.extendedSupportEnd, l.eolDate)
  }

  function CycleBoundaries(schema: Schema, cycle: ProductCycle): Boundaries {
    match schema
    case Standard => StandardBoundaries(ParseCycleDates(cycle))
    case Declarative(config) => Boundaries(
      ParseDateSource(cycle, config.deprecationDate),
      ParseDateSource(cycle, config.deprecatedSupportEnd),
      ParseDateSource(cycle, config.extendedSupportEnd),
      ParseDateSource(cycle, config.eolDate))
  }

  function ActionAt(schema: Schema, b: Boundaries, now: Time): string {
    match schema
    case Standard => StandardAction(b, now)
    case Declarative(config) => DeclarativeAction(config, b, now)
  }

  function WithBoundaries(l: VersionLifecycle, b: Boundaries): VersionLifecycle {
    l.(deprecationDate := b.standardEnd, deprecatedSupportEnd := b.deprecatedSupportEnd,
    extendedSupportEnd := b.extendedEnd, eolDate := b.trueEOL)
  }

  /** The lifecycle of `cycle` as adapted at `now`. */
  function Adapted(schema: Schema, cycle: ProductCycle, now: Time): VersionLifecycle {
    var b := CycleBoundaries(schema, cycle);
    WithFlagsOf(WithBoundaries(BlankLifecycle(cycle.cycle, "", now, "", ""), b), ActionAt(schema, b, now))
  }

  // ---------------------------------------------------------------------------------------------
  // What adapting means, in terms of the cycle's own fields

  /** The flags of a schedule at `now`: standard support runs to `standardEnd`, from there a window to
      `windowEnd`, extended support if it is paid for, and everything is over after `end`. */
  predicate PhasesAt(l: VersionLifecycle, now: Time, standardEnd: FieldValue, windowEnd: FieldValue, end: FieldValue,
                     paid: bool)
  {
    var over := end.On? && now > end.date;
    var past := standardEnd.On? && now > standardEnd.date;
    var inWindow := past && windowEnd.On? && now < windowEnd.date;
    && (l.isEOL <==> over)
    && (l.isExtendedSupport <==> !over && inWindow && paid)
    && (l.isDeprecatedSupport <==> !over && inWindow && !paid)
    && (l.isSupported <==> !over && (past ==> inWindow))
    && (l.isDeprecated <==> over || past)
    && l.deprecationDate == DateOf(standardEnd)
    && l.extendedSupportEnd == (if paid then DateOf(windowEnd) else None)
    && l.eolDate == DateOf(end)
  }

  /** The standard schema: an end of extended support is the end of everything, and the catalogue's end
      of life then ends standard support if nothing else does; extended support that is merely
      announced runs to the end of life; otherwise a gap between support and end of life is a window
      that nobody pays for. */
  predicate FollowsSchedule(l: VersionLifecycle, cycle: ProductCycle, now: Time) {
    var support, eol, extended := cycle.support, cycle.eol, cycle.extendedSupport;
    if extended.On? then
      && PhasesAt(l, now, if support.On? then support else eol, extended, extended, true)
      && (l.deprecatedSupportEnd == if support.On? && eol.On? && support.date < eol.date < extended.date
                                    then Some(eol.date) else None)
    else if extended == Flag(true) && eol.On? then
      PhasesAt(l, now, support, eol, eol, true) && l.deprecatedSupportEnd == None
    else if support.On? && eol.On? && support.date < eol.date then
      PhasesAt(l, now, support, eol, eol, false) && l.deprecatedSupportEnd == Some(eol.date)
    else
      PhasesAt(l, now, support, NoDate, eol, false) && l.deprecatedSupportEnd == None
  }

  /** The cycle's field of that name holds `value`. */
  predicate FieldIs(cycle: ProductCycle, name: string, value: FieldValue) {
    || (name == "eol" && cycle.eol == value)
    || (name == "support" && cycle.support == value)
    || (name == "extendedSupport" && cycle.extendedSupport == value)
  }

  /** The date is the configured field's, or the fallback field's when the configured one is `true`. */
  ghost predicate DatedBy(cycle: ProductCycle, source: DateSource, date: Option<Time>) {
    forall t: Time ::
      date == Some(t) <==>
      || FieldIs(cycle, source.field, On(t))
      || (FieldIs(cycle, source.field, Flag(true)) && FieldIs(cycle, source.boolTrueFallback, On(t)))
  }

  /** The flags of a declarative lifecycle at `now`, from its own dates: what the configuration says
      about support windows and about the time after extended support, where it says something, and
      "unsupported" where it does not. */
  predicate ActsOn(l: VersionLifecycle, config: LifecycleConfig, now: Time) {
    var inWindow := Before(now, l.deprecatedSupportEnd) || Before(now, l.extendedSupportEnd);
    var action :=
      if After(now, l.eolDate) then "eol"
      else if After(now, l.deprecatedSupportEnd) then "unsupported"
      else if After(now, l.extendedSupportEnd) then config.pastExtendedSupport
      else if !After(now, l.deprecationDate) then "supported"
      else if inWindow then config.deprecatedWindow
      else "unsupported";
    && (l.isEOL <==> action == "eol")
    && (l.isExtendedSupport <==> action == "extended_support")
    && (l.isDeprecatedSupport <==> action == "deprecated_support")
    && (l.isSupported <==> action in {"supported", "extended_support", "deprecated_support"})
    && (l.isDeprecated <==> action in {"", "unsupported", "eol", "extended_support", "deprecated_support"})
  }

  /** The declarative schema: each boundary is the date its configuration names. */
  ghost predicate FollowsConfig(l: VersionLifecycle, config: LifecycleConfig, cycle: ProductCycle, now: Time) {
    && DatedBy(cycle, config.deprecationDate, l.deprecationDate)
    && DatedBy(cycle, config.deprecatedSupportEnd, l.deprecatedSupportEnd)
    && DatedBy(cycle, config.extendedSupportEnd, l.extendedSupportEnd)
    && DatedBy(cycle, config.eolDate, l.eolDate)
    && ActsOn(l, config, now)
  }

  lemma AdaptedFollowsSchedule(cycle: ProductCycle, now: Time)
    ensures FollowsSchedule(Adapted(Standard, cycle, now), cycle, now)
  {
  }

  lemma ParsedIsDated(cycle: ProductCycle, source: DateSource)
    ensures DatedBy(cycle, source, ParseDateSource(cycle, source))
  {
  }

  lemma AdaptedFollowsConfig(config: LifecycleConfig, cycle: ProductCycle, now: Time)
    ensures FollowsConfig(Adapted(Declarative(config), cycle, now), config, cycle, now)
  {
    ParsedIsDated(cycle, config.deprecationDate);
    ParsedIsDated(cycle, config.deprecatedSupportEnd);
    ParsedIsDated(cycle, config.extendedSupportEnd);
    ParsedIsDated(cycle, config.eolDate);
    assert ActsOn(Adapted(Declarative(config), cycle, now), config, now);
  }

  /** Under either schema the lifecycle is named after the cycle, and its flags and dates are those that
      the cycle's own fields call for. */
  method AdaptCycle(schema: Schema, cycle: ProductCycle, now: Time) returns (lifecycle: VersionLifecycle)
    ensures lifecycle == Adapted(schema, cycle, now)
    ensures lifecycle.version == cycle.cycle && lifecycle.fetchedAt == now
    ensures schema.Standard? ==> FollowsSchedule(lifecycle, cycle, now)
    ensures schema.Declarative? ==> FollowsConfig(lifecycle, schema.config, cycle, now)
  {
    lifecycle := BlankLifecycle(cycle.cycle, "", now, "", "");
    match schema
    case Standard =>
      var b := DeriveBoundaries(ParseCycleDates(cycle));
      lifecycle := WithBoundaries(lifecycle, b);
      lifecycle := ClassifyStandard(lifecycle, b, now);
      AdaptedFollowsSchedule(cycle, now);
    case Declarative(config) =>
      lifecycle := lifecycle.(deprecationDate := ParseDateSource(cycle, config.deprecationDate));
      lifecycle := lifecycle.(deprecatedSupportEnd := ParseDateSource(cycle, config.deprecatedSupportEnd));
      lifecycle := lifecycle.(extendedSupportEnd := ParseDateSource(cycle, config.extendedSupportEnd));
      lifecycle := lifecycle.(eolDate := ParseDateSource(cycle, config.eolDate));
      lifecycle := ClassifyDeclarative(config, lifecycle, now);
      AdaptedFollowsConfig(config, cycle, now);
  }
}
