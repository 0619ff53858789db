/** Concurrent lookups of one provider. Callers that miss the cache share a flight, as in the report
    client, but a flight fetches without looking at the cache again. */
module ProviderProtocol {
  import opened Types
  import opened Adapters
  import opened Provider

  /** What a load ends with: an entry, or nothing when the catalogue failed. */
  type Loaded = Option<CachedVersions>

  datatype Phase = Fetching | Landing(loaded: Loaded) | Landed(loaded: Loaded)

  /** One run of the shared function, under the engine name its initiator asked with. */
  datatype Flight = Flight(engine: string, phase: Phase)

  datatype Progress = Calling | Missed | Waiting(flight: nat) | Returned(loaded: Loaded)

  datatype Caller = Caller(engine: string, progress: Progress)

  /** An answer of the catalogue, with the engine it was converted for and the time. */
  datatype Answered = Answered(engine: string, upstream: Upstream, at: Time)

  /** `writes` keeps every entry ever cached, in order, and `answers` every answer of the catalogue. */
  datatype State = State(
    now: Time,
    cache: Option<CachedVersions>,
    flights: map<nat, Flight>,
    current: Option<nat>,
    callers: map<nat, Caller>,
    writes: seq<CachedVersions>,
    answers: set<Answered>)

  datatype Event =
    | Tick(now: Time)
    | Call(caller: nat, engine: string)
    | LookUp(caller: nat)
    | Join(caller: nat)
    | Start(caller: nat, flight: nat)
    | Respond(flight: nat, upstream: Upstream)
    | Land(flight: nat)
    | Return(caller: nat)

  predicate Usable(entry: CachedVersions, cacheTTL: int, now: Time) {
    now - entry.cachedAt < cacheTTL
  }

  predicate Enabled(s: State, e: Event) {
    match e
    case Tick(now) => s.now <= now
    case Call(c, _) => c !in s.callers
    case LookUp(c) => c in s.callers && s.callers[c].progress.Calling?
    case Join(c) => c in s.callers && s.callers[c].progress.Missed? && s.current.Some?
    case Start(c, f) => c in s.callers && s.callers[c].progress.Missed? && s.current.None? && f !in s.flights
    case Respond(f, _) => f in s.flights && s.flights[f].phase.Fetching?
    case Land(f) => f in s.flights && s.flights[f].phase.Landing?
    case Return(c) =>
      && c in s.callers && s.callers[c].progress.Waiting? && s.callers[c].progress.flight in s.flights
      && s.flights[s.callers[c].progress.flight].phase.Landed?
  }

  function Progressed(s: State, c: nat, p: Progress): State
    requires c in s.callers
  {
    s.(callers := s.callers[c := s.callers[c].(progress := p)])
  }

  function Phased(s: State, f: nat, p: Phase): State
    requires f in s.flights
  {
    s.(flights := s.flights[f := s.flights[f].(phase := p)])
  }

  /** Anything but a failure is converted and cached. */
  function ApplyRespond(schema: Schema, s: State, f: nat, upstream: Upstream): State
    requires f in s.flights
  {
    if upstream.Failed? then Phased(s, f, Landing(None))
    else
      var entry := Entry(schema, s.flights[f].engine, upstream, s.now);
      Phased(s, f, Landing(Some(entry))).(
      cache := Some(entry),
      writes := s.writes + [entry],
      answers := s.answers + {Answered(s.flights[f].engine, upstream, s.now)})
  }

  function Apply(schema: Schema, cacheTTL: int, s: State, e: Event): State
    requires Enabled(s, e)
  {
    match e
    case Tick(now) => s.(now := now)
    case Call(c, engine) => s.(callers := s.callers[c := Caller(engine, Calling)])
    case LookUp(c) =>
      Progressed(s, c, if s.cache.Some? && Usable(s.cache.value, cacheTTL, s.now) then Returned(s.cache) else Missed)
    case Join(c) => Progressed(s, c, Waiting(s.current.value))
    case Start(c, f) =>
      Progressed(s, c, Waiting(f)).(
      flights := s.flights[f := Flight(s.callers[c].engine, Fetching)],
      current := Some(f))
    case Respond(f, upstream) => ApplyRespond(schema, s, f, upstream)
    case Land(f) => Phased(s, f, Landed(s.flights[f].phase.loaded)).(current := None)
    case Return(c) => Progressed(s, c, Returned(s.flights[s.callers[c].progress.flight].phase.loaded))
  }

  // ---------------------------------------------------------------------------------------------
  // Executions

  function Init(now: Time): State {
    State(now, None, map[], None, map[], [], {})
  }

  ghost predicate Reaches(schema: Schema, cacheTTL: int, start: Time, events: seq<Event>, s: State)
    decreases |events|, 1
  {
    if events == [] then s == Init(start)
    else exists prior :: Follows(schema, cacheTTL, start, events, prior, s)
  }

  ghost predicate Follows(schema: Schema, cacheTTL: int, start: Time, events: seq<Event>, prior: State, s: State)
    requires events != []
    decreases |events|, 0
  {
    var n := |events| - 1;
    && Reaches(schema, cacheTTL, start, events[..n], prior)
    && Enabled(prior, events[n])
    && s == Apply(schema, cacheTTL, prior, events[n])
  }

  // ---------------------------------------------------------------------------------------------
  // The invariant

  /** A flight that has not landed is the current one, so there is only one. */
  ghost predicate FlightIsCurrent(s: State) {
    forall f :: f in s.flights && !s.flights[f].phase.Landed? ==> s.current == Some(f)
  }

  /** An entry made from an answer that the catalogue gave at the entry's own time. */
  ghost predicate Genuine(schema: Schema, answers: set<Answered>, entry: CachedVersions) {
    exists engine, upstream :: && Answered(engine, upstream, entry.cachedAt) in answers && !upstream.Failed?
                               && entry == Entry(schema, engine, upstream, entry.cachedAt)
  }

  ghost predicate GenuineIfAny(schema: Schema, answers: set<Answered>, loaded: Loaded) {
    loaded.Some? ==> Genuine(schema, answers, loaded.value)
  }

  ghost predicate AllGenuine(schema: Schema, s: State) {
    && GenuineIfAny(schema, s.answers, s.cache)
    && (forall f :: f in s.flights && !s.flights[f].phase.Fetching? ==>
                      GenuineIfAny(schema, s.answers, s.flights[f].phase.loaded))
    && (forall c :: c in s.callers && s.callers[c].progress.Returned? ==>
                      GenuineIfAny(schema, s.answers, s.callers[c].progress.loaded))
  }

  ghost predicate CacheIsLastWrite(s: State) {
    s.cache == if s.writes == [] then None else Some(s.writes[|s.writes| - 1])
  }

  ghost predicate Inv(schema: Schema, s: State) {
    FlightIsCurrent(s) && AllGenuine(schema, s) && CacheIsLastWrite(s)
  }

  lemma StepKeepsFlight(schema: Schema, cacheTTL: int, s: State, e: Event)
    requires FlightIsCurrent(s) && Enabled(s, e)
    ensures FlightIsCurrent(Apply(schema, cacheTTL, s, e))
  {
  }

  lemma StepKeepsWrites(schema: Schema, cacheTTL: int, s: State, e: Event)
    requires CacheIsLastWrite(s) && Enabled(s, e)
    ensures CacheIsLastWrite(Apply(schema, cacheTTL, s, e))
  {
  }

  lemma GenuineGrows(schema: Schema, answers: set<Answered>, more: set<Answered>)
    requires answers <= more
    ensures forall entry :: Genuine(schema, answers, entry) ==> Genuine(schema, more, entry)
  {
    forall entry | Genuine(schema, answers, entry) ensures Genuine(schema, more, entry) {
      var engine, upstream :| && Answered(engine, upstream, entry.cachedAt) in answers && !upstream.Failed?
                              && entry == Entry(schema, engine, upstream, entry.cachedAt);
      assert Answered(engine, upstream, entry.cachedAt) in more;
    }
  }

  lemma RespondKeepsGenuine(schema: Schema, s: State, f: nat, upstream: Upstream)
    requires AllGenuine(schema, s) && f in s.flights
    ensures AllGenuine(schema, ApplyRespond(schema, s, f, upstream))
  {
    if !upstream.Failed? {
      var after := ApplyRespond(schema, s, f, upstream);
      var engine := s.flights[f].engine;
      GenuineGrows(schema, s.answers, after.answers);
      assert Answered(engine, upstream, s.now) in after.answers;
      assert Genuine(schema, after.answers, Entry(schema, engine, upstream, s.now));
    }
  }

  lemma StepKeepsGenuine(schema: Schema, cacheTTL: int, s: State, e: Event)
    requires AllGenuine(schema, s) && Enabled(s, e)
    ensures AllGenuine(schema, Apply(schema, cacheTTL, s, e))
  {
    if e.Respond? {
      RespondKeepsGenuine(schema, s, e.flight, e.upstream);
    }
  }

  lemma {:induction false} ReachableKeepsInv(schema: Schema, cacheTTL: int, start: Time, events: seq<Event>, s: State)
    requires Reaches(schema, cacheTTL, start, events, s)
    ensures Inv(schema, s)
    decreases |events|
  {
    if events != [] {
      var n := |events| - 1;
      var prior :| Follows(schema, cacheTTL, start, events, prior, s);
      ReachableKeepsInv(schema, cacheTTL, start, events[..n], prior);
      StepKeepsFlight(schema, cacheTTL, prior, events[n]);
      StepKeepsGenuine(schema, cacheTTL, prior, events[n]);
      StepKeepsWrites(schema, cacheTTL, prior, events[n]);
    }
  }

  // ---------------------------------------------------------------------------------------------
  // What holds in every execution

  /** The catalogue is asked once at a time. */
  lemma OneFetchAtATime(schema: Schema, cacheTTL: int, start: Time, events: seq<Event>, s: State, f: nat, g: nat)
    requires Reaches(schema, cacheTTL, start, events, s)
    requires f in s.flights && g in s.flights && s.flights[f].phase.Fetching? && s.flights[g].phase.Fetching?
    ensures f == g
  {
    ReachableKeepsInv(schema, cacheTTL, start, events, s);
  }

  /** Whatever a caller is given, or the cache holds, was made from an answer of the catalogue that was
      not a failure; failures are never cached. */
  lemma LoadsAreGenuine(schema: Schema, cacheTTL: int, start: Time, events: seq<Event>, s: State, loaded: Loaded)
    requires Reaches(schema, cacheTTL, start, events, s) && loaded.Some?
    requires || loaded == s.cache
             || exists c :: c in s.callers && s.callers[c].progress == Returned(loaded)
    ensures Genuine(schema, s.answers, loaded.value)
  {
    ReachableKeepsInv(schema, cacheTTL, start, events, s);
  }

  /** A look at the cache serves exactly what is younger than the time to live, and what it serves was
      made of an answer that the catalogue gave less than a time to live ago. */
  lemma LookUpsServeYoungAnswers(schema: Schema, cacheTTL: int, start: Time, events: seq<Event>, s: State, c: nat)
    requires Reaches(schema, cacheTTL, start, events, s) && Enabled(s, LookUp(c))
    ensures var served := Apply(schema, cacheTTL, s, LookUp(c)).callers[c].progress;
            && (served.Returned? <==> s.cache.Some? && s.now - s.cache.value.cachedAt < cacheTTL)
            && (served.Returned? ==>
                  exists engine, upstream, at ::
                    && Answered(engine, upstream, at) in s.answers && !upstream.Failed? && s.now - at < cacheTTL
                    && served == Returned(Some(Entry(schema, engine, upstream, at))))
  {
    ReachableKeepsInv(schema, cacheTTL, start, events, s);
    if s.cache.Some? {
      var entry := s.cache.value;
      assert Genuine(schema, s.answers, entry);
      var engine, upstream :| && Answered(engine, upstream, entry.cachedAt) in s.answers && !upstream.Failed?
                              && entry == Entry(schema, engine, upstream, entry.cachedAt);
    }
  }

  lemma OneMore(schema: Schema, cacheTTL: int, start: Time, events: seq<Event>, s: State, e: Event)
    requires Reaches(schema, cacheTTL, start, events, s) && Enabled(s, e)
    ensures Reaches(schema, cacheTTL, start, events + [e], Apply(schema, cacheTTL, s, e))
  {
    var more := events + [e];
    assert more[..|more| - 1] == events;
    assert Follows(schema, cacheTTL, start, more, s, Apply(schema, cacheTTL, s, e));
  }

  /** One caller's flight from start to landing. */
  lemma FlightRuns(schema: Schema, cacheTTL: int, start: Time, events: seq<Event>, s: State, c: nat, f: nat,
                   upstream: Upstream)
    returns (more: seq<Event>, t: State)
    requires Reaches(schema, cacheTTL, start, events, s) && Enabled(s, Start(c, f)) && !upstream.Failed?
    ensures Reaches(schema, cacheTTL, start, more, t)
    ensures t.writes == s.writes + [Entry(schema, s.callers[c].engine, upstream, s.now)]
    ensures t.now == s.now && t.current == None && t.flights.Keys == s.flights.Keys + {f}
    ensures t.cache == Some(Entry(schema, s.callers[c].engine, upstream, s.now))
    ensures t.flights[f].phase == Landed(t.cache)
    ensures t.callers == s.callers[c := s.callers[c].(progress := Waiting(f))]
  {
    OneMore(schema, cacheTTL, start, events, s, Start(c, f));
    var s1 := Apply(schema, cacheTTL, s, Start(c, f));
    var events1 := events + [Start(c, f)];
    OneMore(schema, cacheTTL, start, events1, s1, Respond(f, upstream));
    var s2 := Apply(schema, cacheTTL, s1, Respond(f, upstream));
    var events2 := events1 + [Respond(f, upstream)];
    OneMore(schema, cacheTTL, start, events2, s2, Land(f));
    t := Apply(schema, cacheTTL, s2, Land(f));
    more := events2 + [Land(f)];
  }

  /** What the catalogue answers reaches the caller that asked: from every state in which a caller can
      start a flight there is a run that ends with the entry in the cache and in the caller's hands. */
  lemma AnswerReachesItsCaller(schema: Schema, cacheTTL: int, start: Time, events: seq<Event>, s: State, c: nat,
                               f: nat, upstream: Upstream)
    returns (more: seq<Event>, t: State)
    requires Reaches(schema, cacheTTL, start, events, s) && Enabled(s, Start(c, f)) && !upstream.Failed?
    ensures Reaches(schema, cacheTTL, start, more, t)
    ensures var entry := Entry(schema, s.callers[c].engine, upstream, s.now);
            t.cache == Some(entry) && c in t.callers && t.callers[c].progress == Returned(Some(entry))
  {
    more, t := FlightRuns(schema, cacheTTL, start, events, s, c, f, upstream);
    OneMore(schema, cacheTTL, start, more, t, Return(c));
    more, t := more + [Return(c)], Apply(schema, cacheTTL, t, Return(c));
  }

  lemma BothMiss(schema: Schema, cacheTTL: int, start: Time, engine: string) returns (events: seq<Event>, s: State)
    ensures Reaches(schema, cacheTTL, start, events, s)
    ensures s == Init(start).(callers := map[0 := Caller(engine, Missed), 1 := Caller(engine, Missed)])
  {
    events, s := [], Init(start);
    OneMore(schema, cacheTTL, start, events, s, Call(0, engine));
    events, s := events + [Call(0, engine)], Apply(schema, cacheTTL, s, Call(0, engine));
    OneMore(schema, cacheTTL, start, events, s, Call(1, engine));
    events, s := events + [Call(1, engine)], Apply(schema, cacheTTL, s, Call(1, engine));
    OneMore(schema, cacheTTL, start, events, s, LookUp(0));
    events, s := events + [LookUp(0)], Apply(schema, cacheTTL, s, LookUp(0));
    OneMore(schema, cacheTTL, start, events, s, LookUp(1));
    events, s := events + [LookUp(1)], Apply(schema, cacheTTL, s, LookUp(1));
  }

  /** Without the second look at the cache, fetches can follow each other at once: of two callers that
      missed, the later one may start a flight of its own after the first has landed, and the
      catalogue is asked again while the entry just written is still good for its whole time to live. */
  lemma FetchesAreNotSpaced(schema: Schema, cacheTTL: int, start: Time, engine: string, upstream: Upstream)
    returns (events: seq<Event>, s: State)
    requires cacheTTL > 0 && !upstream.Failed?
    ensures Reaches(schema, cacheTTL, start, events, s)
    ensures |s.writes| == 2 && s.writes[0].cachedAt == s.writes[1].cachedAt
    ensures Usable(s.writes[0], cacheTTL, s.writes[1].cachedAt)
  {
    events, s := BothMiss(schema, cacheTTL, start, engine);
    events, s := FlightRuns(schema, cacheTTL, start, events, s, 0, 0, upstream);
    events, s := FlightRuns(schema, cacheTTL, start, events, s, 1, 1, upstream);
  }

  // ---------------------------------------------------------------------------------------------
  // Exactly which flights are wasted

  /** The look at the cache that a flight does not repeat: it has an entry that is still good. */
  predicate StillGood(s: State, cacheTTL: int) {
    s.cache.Some? && Usable(s.cache.value, cacheTTL, s.now)
  }

  /** `t` is reached from `s` by the events, in order. */
  ghost predicate Leads(schema: Schema, cacheTTL: int, s: State, events: seq<Event>, t: State)
    decreases |events|, 1
  {
    if events == [] then s == t
    else exists prior :: LeadsOn(schema, cacheTTL, s, events, prior, t)
  }

  ghost predicate LeadsOn(schema: Schema, cacheTTL: int, s: State, events: seq<Event>, prior: State, t: State)
    requires events != []
    decreases |events|, 0
  {
    var n := |events| - 1;
    && Leads(schema, cacheTTL, s, events[..n], prior)
    && Enabled(prior, events[n])
    && t == Apply(schema, cacheTTL, prior, events[n])
  }

  ghost predicate IsFetching(s: State, f: nat) {
    f in s.flights && s.flights[f].phase.Fetching?
  }

  /** However the run goes on, the flight never fetches while the cache has a good entry. */
  ghost predicate NeverWastes(schema: Schema, cacheTTL: int, s: State, f: nat) {
    forall events, t :: Leads(schema, cacheTTL, s, events, t) && IsFetching(t, f) ==> !StillGood(t, cacheTTL)
  }

  /** A write that follows another does so only when that one is no longer good. */
  predicate LastWriteIsSpaced(cacheTTL: int, writes: seq<CachedVersions>) {
    var n := |writes|;
    n >= 2 ==> !Usable(writes[n - 2], cacheTTL, writes[n - 1].cachedAt)
  }

  /** However the run goes on and whatever the catalogue answers, what the flight writes is spaced. */
  ghost predicate AlwaysSpaces(schema: Schema, cacheTTL: int, s: State, f: nat) {
    forall events, t, upstream: Upstream ::
      Leads(schema, cacheTTL, s, events, t) && IsFetching(t, f) && !upstream.Failed? ==>
        LastWriteIsSpaced(cacheTTL, ApplyRespond(schema, t, f, upstream).writes)
  }

  /** While the flight fetches, the entry in the cache can only grow older. */
  lemma StepKeepsStale(schema: Schema, cacheTTL: int, s: State, e: Event, f: nat)
    requires FlightIsCurrent(s) && f in s.flights && Enabled(s, e)
    requires IsFetching(s, f) ==> !StillGood(s, cacheTTL)
    ensures f in Apply(schema, cacheTTL, s, e).flights
    ensures IsFetching(Apply(schema, cacheTTL, s, e), f) ==> !StillGood(Apply(schema, cacheTTL, s, e), cacheTTL)
  {
  }

  lemma {:induction false} StaleStaysStale(schema: Schema, cacheTTL: int, s: State, events: seq<Event>, t: State,
                                           f: nat)
    requires FlightIsCurrent(s) && IsFetching(s, f) && !StillGood(s, cacheTTL)
    requires Leads(schema, cacheTTL, s, events, t)
    ensures FlightIsCurrent(t) && f in t.flights
    ensures IsFetching(t, f) ==> !StillGood(t, cacheTTL)
    decreases |events|
  {
    if events != [] {
      var n := |events| - 1;
      var prior :| LeadsOn(schema, cacheTTL, s, events, prior, t);
      StaleStaysStale(schema, cacheTTL, s, events[..n], prior, f);
      StepKeepsFlight(schema, cacheTTL, prior, events[n]);
      StepKeepsStale(schema, cacheTTL, prior, events[n], f);
    }
  }

  lemma {:induction false} LeadsKeepsWrites(schema: Schema, cacheTTL: int, s: State, events: seq<Event>, t: State)
    requires CacheIsLastWrite(s) && Leads(schema, cacheTTL, s, events, t)
    ensures CacheIsLastWrite(t)
    decreases |events|
  {
    if events != [] {
      var n := |events| - 1;
      var prior :| LeadsOn(schema, cacheTTL, s, events, prior, t);
      LeadsKeepsWrites(schema, cacheTTL, s, events[..n], prior);
      StepKeepsWrites(schema, cacheTTL, prior, events[n]);
    }
  }

  /** What a flight is about to write is spaced exactly if the cache has no good entry by then. */
  lemma WriteIsSpaced(schema: Schema, cacheTTL: int, s: State, f: nat, upstream: Upstream)
    requires CacheIsLastWrite(s) && f in s.flights && !upstream.Failed?
    ensures LastWriteIsSpaced(cacheTTL, ApplyRespond(schema, s, f, upstream).writes) <==> !StillGood(s, cacheTTL)
  {
  }

  /** A flight never fetches in vain exactly if the cache had no good entry when it was started: the guard
      of the look that the flight does not repeat. */
  lemma FlightIsWastedExactly(schema: Schema, cacheTTL: int, start: Time, events: seq<Event>, s: State, c: nat, f: nat)
    requires Reaches(schema, cacheTTL, start, events, s) && Enabled(s, Start(c, f))
    ensures NeverWastes(schema, cacheTTL, Apply(schema, cacheTTL, s, Start(c, f)), f) <==> !StillGood(s, cacheTTL)
  {
    var started := Apply(schema, cacheTTL, s, Start(c, f));
    ReachableKeepsInv(schema, cacheTTL, start, events, s);
    StepKeepsFlight(schema, cacheTTL, s, Start(c, f));
    assert Leads(schema, cacheTTL, started, [], started) && IsFetching(started, f);
    if !StillGood(s, cacheTTL) {
      forall more, t | Leads(schema, cacheTTL, started, more, t) && IsFetching(t, f)
        ensures !StillGood(t, cacheTTL)
      {
        StaleStaysStale(schema, cacheTTL, started, more, t, f);
      }
    }
  }

  /** The same over the entries written: what a flight writes is always a time to live after the entry
      before it exactly if the cache had no good entry when the flight was started. */
  lemma WritesAreSpacedExactly(schema: Schema, cacheTTL: int, start: Time, events: seq<Event>, s: State, c: nat, f: nat)
    requires Reaches(schema, cacheTTL, start, events, s) && Enabled(s, Start(c, f))
    ensures AlwaysSpaces(schema, cacheTTL, Apply(schema, cacheTTL, s, Start(c, f)), f) <==> !StillGood(s, cacheTTL)
  {
    var started := Apply(schema, cacheTTL, s, Start(c, f));
    ReachableKeepsInv(schema, cacheTTL, start, events, s);
    StepKeepsWrites(schema, cacheTTL, s, Start(c, f));
    FlightIsWastedExactly(schema, cacheTTL, start, events, s, c, f);
    if StillGood(s, cacheTTL) {
      var upstream := NotFound(s.now, "");
      WriteIsSpaced(schema, cacheTTL, started, f, upstream);
      assert Leads(schema, cacheTTL, started, [], started) && IsFetching(started, f);
    } else {
      forall more, t, upstream: Upstream |
        Leads(schema, cacheTTL, started, more, t) && IsFetching(t, f) && !upstream.Failed?
        ensures LastWriteIsSpaced(cacheTTL, ApplyRespond(schema, t, f, upstream).writes)
      {
        LeadsKeepsWrites(schema, cacheTTL, started, more, t);
        WriteIsSpaced(schema, cacheTTL, t, f, upstream);
      }
    }
  }
}
