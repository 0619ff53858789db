/** Concurrent callers of the report client. Callers of one report share a flight: the first one to
    miss the cache starts it, later ones wait for its result. Time passes between any two steps. */
module WizProtocol {
  import opened Types
  import opened ColumnIndex
  import opened WizClient

  datatype Phase =
    | Checking
    | Fetching
    | Landing(result: Result<Rows>)
    | Landed(result: Result<Rows>)

  /** One run of the shared function, with the columns its initiator requires. */
  datatype Flight = Flight(reportID: string, required: seq<string>, phase: Phase)

  datatype Progress =
    | Calling
    | Missed
    | Waiting(flight: nat)
    | Returned(rows: Result<Rows>)

  datatype Caller = Caller(reportID: string, required: seq<string>, progress: Progress)

  datatype Download = Download(reportID: string, report: Report, rows: Rows, at: Time)

  /** `current` is the table of flights that callers can still join. `writes` keeps every entry ever
      cached for a report, in order, and `downloads` every download. */
  datatype State = State(
    now: Time,
    cache: Cache,
    flights: map<nat, Flight>,
    current: map<string, nat>,
    callers: map<nat, Caller>,
    writes: map<string, seq<CachedReport>>,
    downloads: set<Download>)

  datatype Event =
    | Tick(now: Time)
    | Call(caller: nat, reportID: string, required: seq<string>)
    | LookUp(caller: nat)
    | Join(caller: nat)
    | Start(caller: nat, flight: nat)
    | Recheck(flight: nat)
    | Respond(flight: nat, remote: Remote)
    | Land(flight: nat)
    | Return(caller: nat)

  predicate Enabled(s: State, e: Event) {
    match e
    case Tick(now) => s.now <= now
    case Call(c, _, _) => c !in s.callers
    case LookUp(c) => c in s.callers && s.callers[c].progress.Calling?
    case Join(c) => c in s.callers && s.callers[c].progress.Missed? && s.callers[c].reportID in s.current
    case Start(c, f) =>
      c in s.callers && s.callers[c].progress.Missed? && s.callers[c].reportID !in s.current && f !in s.flights
    case Recheck(f) => f in s.flights && s.flights[f].phase.Checking?
    case Respond(f, _) => f in s.flights && s.flights[f].phase.Fetching?
    case Land(f) => f in s.flights && s.flights[f].phase.Landing?
    case Return(c) =>
      && c in s.callers && s.callers[c].progress.Waiting? && s.callers[c].progress.flight in s.flights
      && s.flights[s.callers[c].progress.flight].phase.Landed?
  }

  /** What a caller makes of the rows it is handed: its own columns decide. */
  function Validated(rows: Rows, required: seq<string>): Result<Rows> {
    if rows != [] && ValidColumns(rows[0], required) then Ok(rows) else Err("invalid CSV schema")
  }

  function Progressed(s: State, c: nat, p: Progress): State
    requires c in s.callers
  {
    s.(callers := s.callers[c := s.callers[c].(progress := p)])
  }

  function Phased(s: State, f: nat, p: Phase): State
    requires f in s.flights
  {
    s.(flights := s.flights[f := s.flights[f].(phase := p)])
  }

  function Writes(s: State, reportID: string): seq<CachedReport> {
    if reportID in s.writes then s.writes[reportID] else []
  }

  function ApplyRespond(s: State, f: nat, remote: Remote): State
    requires f in s.flights
  {
    var flight := s.flights[f];
    var id := flight.reportID;
    if !Succeeds(remote) then Phased(s, f, Landing(Err("fetch failed")))
    else
      var after := CacheAfter(s.cache, id, flight.required, remote, s.now);
      Phased(s, f, Landing(Ok(remote.rows))).(
      cache := after,
      writes :=
        if ValidColumns(remote.rows[0], flight.required) then s.writes[id := Writes(s, id) + [after[id]]] else s.writes,
      downloads := s.downloads + {Download(id, remote.report, remote.rows, s.now)})
  }

  function Apply(cacheTTL: int, s: State, e: Event): State
    requires Enabled(s, e)
  {
    match e
    case Tick(now) => s.(now := now)
    case Call(c, id, required) => s.(callers := s.callers[c := Caller(id, required, Calling)])
    case LookUp(c) =>
      var found := Found(s.cache, cacheTTL, s.callers[c].reportID, s.now);
      Progressed(s, c, if found.Some? then Returned(Validated(found.value, s.callers[c].required)) else Missed)
    case Join(c) => Progressed(s, c, Waiting(s.current[s.callers[c].reportID]))
    case Start(c, f) =>
      var caller := s.callers[c];
      Progressed(s, c, Waiting(f)).(
      flights := s.flights[f := Flight(caller.reportID, caller.required, Checking)],
      current := s.current[caller.reportID := f])
    case Recheck(f) =>
      var found := Found(s.cache, cacheTTL, s.flights[f].reportID, s.now);
      Phased(s, f, if found.Some? then Landing(Ok(found.value)) else Fetching)
    case Respond(f, remote) => ApplyRespond(s, f, remote)
    case Land(f) => Phased(s, f, Landed(s.flights[f].phase.result)).(current := s.current - {s.flights[f].reportID})
    case Return(c) =>
      var result := s.flights[s.callers[c].progress.flight].phase.result;
      Progressed(s, c, Returned(if result.Ok? then Validated(result.value, s.callers[c].required) else result))
  }

  // ---------------------------------------------------------------------------------------------
  // Executions

  function Init(now: Time): State {
    State(now, map[], map[], map[], map[], map[], {})
  }

  ghost predicate Reaches(cacheTTL: int, start: Time, events: seq<Event>, s: State)
    decreases |events|, 1
  {
    if events == [] then s == Init(start)
    else exists prior :: Follows(cacheTTL, start, events, prior, s)
  }

  ghost predicate Follows(cacheTTL: int, start: Time, events: seq<Event>, prior: State, s: State)
    requires events != []
    decreases |events|, 0
  {
    var n := |events| - 1;
    Reaches(cacheTTL, start, events[..n], prior) && Enabled(prior, events[n]) && s == Apply(cacheTTL, prior, events[n])
  }

  // ---------------------------------------------------------------------------------------------
  // The invariant

  /** A flight that has not landed is the one in the table, so it is the only one of its report. */
  ghost predicate FlightsAreCurrent(s: State) {
    && (forall f :: f in s.flights && !s.flights[f].phase.Landed? ==>
                      s.flights[f].reportID in s.current && s.current[s.flights[f].reportID] == f)
    && (forall id :: id in s.current ==> s.current[id] in s.flights && s.flights[s.current[id]].reportID == id)
  }

  /** Nobody can join a flight that has landed. */
  ghost predicate CurrentAreUnderway(s: State) {
    forall id :: id in s.current ==> s.current[id] in s.flights && !s.flights[s.current[id]].phase.Landed?
  }

  ghost predicate WaitersMatch(s: State) {
    forall c :: c in s.callers && s.callers[c].progress.Waiting? ==>
                  && s.callers[c].progress.flight in s.flights
                  && s.flights[s.callers[c].progress.flight].reportID == s.callers[c].reportID
  }

  /** The cache holds the last write of each report. */
  ghost predicate CacheIsLastWrite(s: State) {
    forall id :: id in s.cache || id in s.writes ==>
                   && id in s.cache && id in s.writes && s.writes[id] != []
                   && s.cache[id] == s.writes[id][|s.writes[id]| - 1]
  }

  /** While a report is being fetched, the cache has nothing usable for it. */
  ghost predicate FetchingMeansStale(cacheTTL: int, s: State) {
    forall f :: f in s.flights && s.flights[f].phase.Fetching? ==>
                  Found(s.cache, cacheTTL, s.flights[f].reportID, s.now).None?
  }

  /** An entry is written only when the one before it can no longer be used. */
  predicate SpacedAt(cacheTTL: int, writes: seq<CachedReport>, k: nat)
    requires k + 1 < |writes|
  {
    !Usable(writes[k], cacheTTL, writes[k + 1].fetchedAt)
  }

  ghost predicate Spaced(cacheTTL: int, writes: seq<CachedReport>) {
    forall k: nat :: k + 1 < |writes| ==> SpacedAt(cacheTTL, writes, k)
  }

  ghost predicate WritesSpaced(cacheTTL: int, s: State) {
    forall id :: id in s.writes ==> Spaced(cacheTTL, s.writes[id])
  }

  /** Rows that came from a whole download of the report. */
  ghost predicate Genuine(downloads: set<Download>, reportID: string, rows: Rows) {
    exists report, at :: Download(reportID, report, rows, at) in downloads && Whole(report, rows)
  }

  /** The entry was made of a download when that ended, and is due when its report is: a run interval and
      six hours after the report's last run. */
  ghost predicate MadeOf(downloads: set<Download>, id: string, entry: CachedReport) {
    exists report :: && Download(id, report, entry.data, entry.fetchedAt) in downloads
                     && entry.freshnessDeadline == report.lastRun + report.runIntervalHours * HOUR + 6 * HOUR
  }

  ghost predicate EntriesAreDated(s: State) {
    forall id :: id in s.cache ==> MadeOf(s.downloads, id, s.cache[id])
  }

  predicate Arrived(phase: Phase) {
    (phase.Landing? || phase.Landed?) && phase.result.Ok?
  }

  ghost predicate RowsAreGenuine(s: State) {
    && (forall id :: id in s.cache ==> Genuine(s.downloads, id, s.cache[id].data))
    && (forall f :: f in s.flights && Arrived(s.flights[f].phase) ==>
                      Genuine(s.downloads, s.flights[f].reportID, s.flights[f].phase.result.value))
  }

  /** What a caller is entitled to: genuine rows with the columns that this caller requires. */
  ghost predicate Entitled(downloads: set<Download>, caller: Caller, rows: Rows) {
    Genuine(downloads, caller.reportID, rows) && rows != [] && ValidColumns(rows[0], caller.required)
  }

  ghost predicate AnswersAreRight(s: State) {
    forall c :: c in s.callers && s.callers[c].progress.Returned? && s.callers[c].progress.rows.Ok? ==>
                  Entitled(s.downloads, s.callers[c], s.callers[c].progress.rows.value)
  }

  ghost predicate Inv(cacheTTL: int, s: State) {
    && FlightsAreCurrent(s)
    && CurrentAreUnderway(s)
    && WaitersMatch(s)
    && CacheIsLastWrite(s)
    && FetchingMeansStale(cacheTTL, s)
    && WritesSpaced(cacheTTL, s)
    && RowsAreGenuine(s)
    && AnswersAreRight(s)
    && EntriesAreDated(s)
  }

  lemma PhaseKeepsFlights(s: State, f: nat, p: Phase)
    requires FlightsAreCurrent(s) && f in s.flights && !s.flights[f].phase.Landed? && !p.Landed?
    ensures FlightsAreCurrent(Phased(s, f, p))
  {
  }

  lemma LandKeepsFlights(cacheTTL: int, s: State, f: nat)
    requires FlightsAreCurrent(s) && Enabled(s, Land(f))
    ensures FlightsAreCurrent(Apply(cacheTTL, s, Land(f)))
  {
  }

  lemma StepKeepsFlights(cacheTTL: int, s: State, e: Event)
    requires FlightsAreCurrent(s) && Enabled(s, e)
    ensures FlightsAreCurrent(Apply(cacheTTL, s, e))
  {
    match e
    case Recheck(f) => PhaseKeepsFlights(s, f, Apply(cacheTTL, s, e).flights[f].phase);
    case Respond(f, remote) => PhaseKeepsFlights(s, f, ApplyRespond(s, f, remote).flights[f].phase);
    case Land(f) => LandKeepsFlights(cacheTTL, s, f);
    case _ =>
  }

  lemma StepKeepsUnderway(cacheTTL: int, s: State, e: Event)
    requires FlightsAreCurrent(s) && CurrentAreUnderway(s) && Enabled(s, e)
    ensures CurrentAreUnderway(Apply(cacheTTL, s, e))
  {
    if e.Land? {
      LandKeepsUnderway(cacheTTL, s, e.flight);
    }
  }

  lemma LandKeepsUnderway(cacheTTL: int, s: State, f: nat)
    requires FlightsAreCurrent(s) && CurrentAreUnderway(s) && Enabled(s, Land(f))
    ensures CurrentAreUnderway(Apply(cacheTTL, s, Land(f)))
  {
  }

  lemma StepKeepsWaiters(cacheTTL: int, s: State, e: Event)
    requires FlightsAreCurrent(s) && WaitersMatch(s) && Enabled(s, e)
    ensures WaitersMatch(Apply(cacheTTL, s, e))
  {
  }

  lemma StepKeepsStaleness(cacheTTL: int, s: State, e: Event)
    requires FlightsAreCurrent(s) && FetchingMeansStale(cacheTTL, s) && Enabled(s, e)
    ensures FetchingMeansStale(cacheTTL, Apply(cacheTTL, s, e))
  {
  }

  lemma SpacedAppend(cacheTTL: int, writes: seq<CachedReport>, entry: CachedReport)
    requires Spaced(cacheTTL, writes)
    requires writes != [] ==> !Usable(writes[|writes| - 1], cacheTTL, entry.fetchedAt)
    ensures Spaced(cacheTTL, writes + [entry])
  {
    var longer := writes + [entry];
    forall k: nat | k + 1 < |longer| ensures SpacedAt(cacheTTL, longer, k) {
      if k + 1 < |writes| {
        assert SpacedAt(cacheTTL, writes, k);
      }
    }
  }

  lemma StepKeepsWrites(cacheTTL: int, s: State, e: Event)
    requires CacheIsLastWrite(s) && FetchingMeansStale(cacheTTL, s) && WritesSpaced(cacheTTL, s) && Enabled(s, e)
    ensures CacheIsLastWrite(Apply(cacheTTL, s, e)) && WritesSpaced(cacheTTL, Apply(cacheTTL, s, e))
  {
    if e.Respond? {
      RespondKeepsWrites(cacheTTL, s, e.flight, e.remote);
    }
  }

  lemma RespondKeepsWrites(cacheTTL: int, s: State, f: nat, remote: Remote)
    requires CacheIsLastWrite(s) && WritesSpaced(cacheTTL, s) && f in s.flights
    requires Found(s.cache, cacheTTL, s.flights[f].reportID, s.now).None?
    ensures CacheIsLastWrite(ApplyRespond(s, f, remote)) && WritesSpaced(cacheTTL, ApplyRespond(s, f, remote))
  {
    var flight := s.flights[f];
    if Succeeds(remote) && ValidColumns(remote.rows[0], flight.required) {
      var entry := EntryOf(remote.report, remote.rows, s.now);
      SpacedAppend(cacheTTL, Writes(s, flight.reportID), entry);
      WriteKeepsWrites(cacheTTL, s, flight.reportID, entry, ApplyRespond(s, f, remote));
    }
  }

  lemma WriteKeepsWrites(cacheTTL: int, s: State, id: string, entry: CachedReport, after: State)
    requires CacheIsLastWrite(s) && WritesSpaced(cacheTTL, s)
    requires after.cache == s.cache[id := entry] && after.writes == s.writes[id := Writes(s, id) + [entry]]
    requires Spaced(cacheTTL, Writes(s, id) + [entry])
    ensures CacheIsLastWrite(after) && WritesSpaced(cacheTTL, after)
  {
  }

  lemma GenuineGrows(downloads: set<Download>, more: set<Download>)
    requires downloads <= more
    ensures forall id, rows :: Genuine(downloads, id, rows) ==> Genuine(more, id, rows)
  {
    forall id, rows | Genuine(downloads, id, rows) ensures Genuine(more, id, rows) {
      var report, at :| Download(id, report, rows, at) in downloads && Whole(report, rows);
      assert Download(id, report, rows, at) in more;
    }
  }

  lemma StepKeepsRows(cacheTTL: int, s: State, e: Event)
    requires WaitersMatch(s) && RowsAreGenuine(s) && AnswersAreRight(s) && Enabled(s, e)
    ensures RowsAreGenuine(Apply(cacheTTL, s, e)) && AnswersAreRight(Apply(cacheTTL, s, e))
  {
    if e.Respond? {
      RespondKeepsRows(s, e.flight, e.remote);
    }
  }

  lemma RespondKeepsRows(s: State, f: nat, remote: Remote)
    requires f in s.flights && RowsAreGenuine(s) && AnswersAreRight(s)
    ensures RowsAreGenuine(ApplyRespond(s, f, remote)) && AnswersAreRight(ApplyRespond(s, f, remote))
  {
    if Succeeds(remote) {
      var id := s.flights[f].reportID;
      var after := ApplyRespond(s, f, remote);
      GenuineGrows(s.downloads, after.downloads);
      assert Download(id, remote.report, remote.rows, s.now) in after.downloads;
      assert Genuine(after.downloads, id, remote.rows);
    }
  }

  lemma MadeOfGrows(downloads: set<Download>, more: set<Download>)
    requires downloads <= more
    ensures forall id, entry :: MadeOf(downloads, id, entry) ==> MadeOf(more, id, entry)
  {
    forall id, entry | MadeOf(downloads, id, entry) ensures MadeOf(more, id, entry) {
      var report :| && Download(id, report, entry.data, entry.fetchedAt) in downloads
                    && entry.freshnessDeadline == report.lastRun + report.runIntervalHours * HOUR + 6 * HOUR;
      assert Download(id, report, entry.data, entry.fetchedAt) in more;
    }
  }

  lemma RespondKeepsDates(s: State, f: nat, remote: Remote)
    requires f in s.flights && EntriesAreDated(s)
    ensures EntriesAreDated(ApplyRespond(s, f, remote))
  {
    if Succeeds(remote) {
      var id, after := s.flights[f].reportID, ApplyRespond(s, f, remote);
      var entry := EntryOf(remote.report, remote.rows, s.now);
      MadeOfGrows(s.downloads, after.downloads);
      assert Download(id, remote.report, entry.data, entry.fetchedAt) in after.downloads;
      assert MadeOf(after.downloads, id, entry);
    }
  }

  lemma StepKeepsDates(cacheTTL: int, s: State, e: Event)
    requires EntriesAreDated(s) && Enabled(s, e)
    ensures EntriesAreDated(Apply(cacheTTL, s, e))
  {
    if e.Respond? {
      RespondKeepsDates(s, e.flight, e.remote);
    }
  }

  lemma {:induction false} ReachableKeepsInv(cacheTTL: int, start: Time, events: seq<Event>, s: State)
    requires Reaches(cacheTTL, start, events, s)
    ensures Inv(cacheTTL, s)
    decreases |events|
  {
    if events != [] {
      var n := |events| - 1;
      var prior :| Follows(cacheTTL, start, events, prior, s);
      ReachableKeepsInv(cacheTTL, start, events[..n], prior);
      StepKeepsFlights(cacheTTL, prior, events[n]);
      StepKeepsUnderway(cacheTTL, prior, events[n]);
      StepKeepsWaiters(cacheTTL, prior, events[n]);
      StepKeepsStaleness(cacheTTL, prior, events[n]);
      StepKeepsWrites(cacheTTL, prior, events[n]);
      StepKeepsRows(cacheTTL, prior, events[n]);
      StepKeepsDates(cacheTTL, prior, events[n]);
    }
  }

  // ---------------------------------------------------------------------------------------------
  // What holds in every execution

  /** No report is fetched twice at a time, and none is fetched while the cache could serve it. */
  lemma OneFetchPerReport(cacheTTL: int, start: Time, events: seq<Event>, s: State, f: nat, g: nat)
    requires Reaches(cacheTTL, start, events, s)
    requires f in s.flights && g in s.flights && s.flights[f].phase.Fetching? && s.flights[g].phase.Fetching?
    ensures s.flights[f].reportID == s.flights[g].reportID ==> f == g
    ensures Found(s.cache, cacheTTL, s.flights[f].reportID, s.now).None?
  {
    ReachableKeepsInv(cacheTTL, start, events, s);
  }

  /** A flight that a caller joins is still under way, so no caller is ever handed the outcome of one that
      was over before it missed the cache. */
  lemma JoinedFlightsAreUnderway(cacheTTL: int, start: Time, events: seq<Event>, s: State, c: nat)
    requires Reaches(cacheTTL, start, events, s) && Enabled(s, Join(c))
    ensures var joined := Apply(cacheTTL, s, Join(c)).callers[c].progress;
            && joined.Waiting? && joined.flight in s.flights
            && s.flights[joined.flight].reportID == s.callers[c].reportID
            && !s.flights[joined.flight].phase.Landed?
  {
    ReachableKeepsInv(cacheTTL, start, events, s);
  }

  /** Two consecutive writes of a report are a time to live apart, or the later one is not before the
      earlier one's deadline; and the cache holds the last of them. */
  lemma WritesAreSpaced(cacheTTL: int, start: Time, events: seq<Event>, s: State, id: string, k: nat)
    requires Reaches(cacheTTL, start, events, s)
    requires id in s.writes && k + 1 < |s.writes[id]|
    ensures var earlier, later := s.writes[id][k], s.writes[id][k + 1];
            || later.fetchedAt >= earlier.fetchedAt + cacheTTL
            || (earlier.freshnessDeadline != ZERO_TIME && later.fetchedAt >= earlier.freshnessDeadline)
    ensures id in s.cache && s.cache[id] == s.writes[id][|s.writes[id]| - 1]
  {
    ReachableKeepsInv(cacheTTL, start, events, s);
    assert SpacedAt(cacheTTL, s.writes[id], k);
  }

  /** Every entry is a download of its own report with exactly the rows that the report announced. */
  lemma EntriesAreWhole(cacheTTL: int, start: Time, events: seq<Event>, s: State, id: string) returns (report: Report)
    requires Reaches(cacheTTL, start, events, s) && id in s.cache
    ensures exists at :: Download(id, report, s.cache[id].data, at) in s.downloads
    ensures |s.cache[id].data| - 1 == report.expectedRows
  {
    ReachableKeepsInv(cacheTTL, start, events, s);
    var at;
    report, at :| Download(id, report, s.cache[id].data, at) in s.downloads && Whole(report, s.cache[id].data);
  }

  /** A caller that is given rows is given a whole download of the report it asked for, with the columns
      that it requires, whoever started the fetch. */
  lemma AnswersSuitTheirCallers(cacheTTL: int, start: Time, events: seq<Event>, s: State, c: nat)
    returns (report: Report)
    requires Reaches(cacheTTL, start, events, s)
    requires c in s.callers && s.callers[c].progress.Returned? && s.callers[c].progress.rows.Ok?
    ensures var rows := s.callers[c].progress.rows.value;
            && (exists at :: Download(s.callers[c].reportID, report, rows, at) in s.downloads)
            && |rows| - 1 == report.expectedRows
            && rows != [] && ValidColumns(rows[0], s.callers[c].required)
  {
    ReachableKeepsInv(cacheTTL, start, events, s);
    var rows := s.callers[c].progress.rows.value;
    assert Entitled(s.downloads, s.callers[c], rows);
    var at;
    report, at :| Download(s.callers[c].reportID, report, rows, at) in s.downloads && Whole(report, rows);
  }

  /** A download may be served at `now`: less than a time to live after it was made, and before its
      report is due, unless that is the moment which stands for "never". */
  predicate Fresh(d: Download, cacheTTL: int, now: Time) {
    var due := d.report.lastRun + d.report.runIntervalHours * HOUR + 6 * HOUR;
    now < d.at + cacheTTL && (due == ZERO_TIME || now < due)
  }

  /** The download behind an entry decides alone whether the entry is served. */
  lemma EntryServes(cacheTTL: int, s: State, id: string) returns (d: Option<Download>)
    requires EntriesAreDated(s)
    ensures d.Some? <==> id in s.cache
    ensures d.Some? ==> d.value in s.downloads && d.value.reportID == id
    ensures Found(s.cache, cacheTTL, id, s.now) ==
            if d.Some? && Fresh(d.value, cacheTTL, s.now) then Some(d.value.rows) else None
  {
    if id in s.cache {
      var entry := s.cache[id];
      assert MadeOf(s.downloads, id, entry);
      var report :| && Download(id, report, entry.data, entry.fetchedAt) in s.downloads
                    && entry.freshnessDeadline == report.lastRun + report.runIntervalHours * HOUR + 6 * HOUR;
      d := Some(Download(id, report, entry.data, entry.fetchedAt));
    } else {
      d := None;
    }
  }

  /** A look-up hands out exactly the rows of a fresh download of the report, and only to a caller whose
      columns they have; in every other case the caller goes on to fetch. */
  lemma LookUpsServeFreshRows(cacheTTL: int, start: Time, events: seq<Event>, s: State, c: nat)
    returns (d: Option<Download>)
    requires Reaches(cacheTTL, start, events, s) && Enabled(s, LookUp(c))
    ensures d.Some? <==> s.callers[c].reportID in s.cache
    ensures d.Some? ==> d.value in s.downloads && d.value.reportID == s.callers[c].reportID
    ensures Apply(cacheTTL, s, LookUp(c)).callers[c].progress ==
            if d.None? || !Fresh(d.value, cacheTTL, s.now) then Missed
            else if d.value.rows != [] && ValidColumns(d.value.rows[0], s.callers[c].required)
            then Returned(Ok(d.value.rows))
            else Returned(Err("invalid CSV schema"))
  {
    ReachableKeepsInv(cacheTTL, start, events, s);
    d := EntryServes(cacheTTL, s, s.callers[c].reportID);
  }

  /** The second look of a flight serves the same, and otherwise the report is fetched. */
  lemma RechecksServeFreshRows(cacheTTL: int, start: Time, events: seq<Event>, s: State, f: nat)
    returns (d: Option<Download>)
    requires Reaches(cacheTTL, start, events, s) && Enabled(s, Recheck(f))
    ensures d.Some? <==> s.flights[f].reportID in s.cache
    ensures d.Some? ==> d.value in s.downloads && d.value.reportID == s.flights[f].reportID
    ensures Apply(cacheTTL, s, Recheck(f)).flights[f].phase ==
            if d.Some? && Fresh(d.value, cacheTTL, s.now) then Landing(Ok(d.value.rows)) else Fetching
  {
    ReachableKeepsInv(cacheTTL, start, events, s);
    d := EntryServes(cacheTTL, s, s.flights[f].reportID);
  }

  /** The exception: a report due exactly at the moment that stands for "never" is served long after. */
  lemma ZeroDeadlineIsNeverDue()
    ensures var entry := EntryOf(Report(ZERO_TIME - 6 * HOUR, 0, 0), [["name"]], 0);
            entry.freshnessDeadline < 0 && Found(map["r" := entry], HOUR, "r", 1) == Some([["name"]])
  {
  }

  lemma OneMore(cacheTTL: int, start: Time, events: seq<Event>, s: State, e: Event)
    requires Reaches(cacheTTL, start, events, s) && Enabled(s, e)
    ensures Reaches(cacheTTL, start, events + [e], Apply(cacheTTL, s, e))
  {
    var more := events + [e];
    assert more[..|more| - 1] == events;
    assert Follows(cacheTTL, start, more, s, Apply(cacheTTL, s, e));
  }

  lemma FlightFetches(cacheTTL: int, start: Time, events: seq<Event>, s: State, c: nat, f: nat, report: Report,
                      rows: Rows)
    returns (more: seq<Event>, t: State)
    requires Reaches(cacheTTL, start, events, s) && Enabled(s, Start(c, f)) && s.callers[c].reportID !in s.cache
    requires rows != [] && |rows| - 1 == report.expectedRows
    ensures Reaches(cacheTTL, start, more, t) && f in t.flights && t.flights[f].phase == Landing(Ok(rows))
    ensures t.callers == s.callers[c := s.callers[c].(progress := Waiting(f))]
    ensures t.now == s.now && t.cache == CacheAfter(s.cache, s.callers[c].reportID, s.callers[c].required,
                                                    Downloaded(report, rows), s.now)
  {
    OneMore(cacheTTL, start, events, s, Start(c, f));
    var s1, events1 := Apply(cacheTTL, s, Start(c, f)), events + [Start(c, f)];
    OneMore(cacheTTL, start, events1, s1, Recheck(f));
    var s2, events2 := Apply(cacheTTL, s1, Recheck(f)), events1 + [Recheck(f)];
    OneMore(cacheTTL, start, events2, s2, Respond(f, Downloaded(report, rows)));
    more, t := events2 + [Respond(f, Downloaded(report, rows))],
    Apply(cacheTTL, s2, Respond(f, Downloaded(report, rows)));
  }

  /** A whole download reaches the caller that asked for it: from every state in which a caller can start
      a flight for a report that is not cached, there is a run that ends with exactly those rows in the
      caller's hands and in the cache, if they have the caller's columns. */
  lemma DownloadReachesItsCaller(cacheTTL: int, start: Time, events: seq<Event>, s: State, c: nat, f: nat,
                                 report: Report, rows: Rows)
    returns (more: seq<Event>, t: State)
    requires Reaches(cacheTTL, start, events, s) && Enabled(s, Start(c, f)) && s.callers[c].reportID !in s.cache
    requires rows != [] && |rows| - 1 == report.expectedRows && ValidColumns(rows[0], s.callers[c].required)
    ensures Reaches(cacheTTL, start, more, t)
    ensures c in t.callers && t.callers[c].progress == Returned(Ok(rows))
    ensures t.cache == s.cache[s.callers[c].reportID := EntryOf(report, rows, s.now)]
  {
    more, t := FlightFetches(cacheTTL, start, events, s, c, f, report, rows);
    OneMore(cacheTTL, start, more, t, Land(f));
    more, t := more + [Land(f)], Apply(cacheTTL, t, Land(f));
    OneMore(cacheTTL, start, more, t, Return(c));
    more, t := more + [Return(c)], Apply(cacheTTL, t, Return(c));
  }

  lemma {:induction false} UnusedNumber(used: set<nat>) returns (n: nat)
    ensures forall k :: k in used ==> k < n
  {
    if used == {} {
      n := 0;
    } else {
      var k :| k in used;
      var m := UnusedNumber(used - {k});
      n := if k < m then m else k + 1;
      forall j | j in used ensures j < n {
        assert j == k || j in used - {k};
      }
    }
  }

  /** The steps that still lie between a caller and its answer, at most. */
  function StepsLeft(s: State, c: nat): nat
    requires c in s.callers
  {
    match s.callers[c].progress
    case Calling => 6
    case Missed => 5
    case Waiting(f) =>
      if f !in s.flights then 4
      else
        (match s.flights[f].phase
         case Checking => 4
         case Fetching => 3
         case Landing(_) => 2
         case Landed(_) => 1)
    case Returned(_) => 0
  }

  /** No step of anybody takes a caller further from its answer. */
  lemma ProgressIsKept(cacheTTL: int, start: Time, events: seq<Event>, s: State, c: nat, e: Event)
    requires Reaches(cacheTTL, start, events, s) && c in s.callers && Enabled(s, e)
    ensures c in Apply(cacheTTL, s, e).callers && StepsLeft(Apply(cacheTTL, s, e), c) <= StepsLeft(s, c)
  {
    ReachableKeepsInv(cacheTTL, start, events, s);
    StepKeepsProgress(cacheTTL, s, c, e);
  }

  lemma StepKeepsProgress(cacheTTL: int, s: State, c: nat, e: Event)
    requires FlightsAreCurrent(s) && WaitersMatch(s) && c in s.callers && Enabled(s, e)
    ensures c in Apply(cacheTTL, s, e).callers && StepsLeft(Apply(cacheTTL, s, e), c) <= StepsLeft(s, c)
  {
  }

  /** Nobody is stuck: while a caller has no answer, a step other than a new call or the passing of
      time can be taken that brings it nearer. */
  lemma NobodyIsStuck(cacheTTL: int, start: Time, events: seq<Event>, s: State, c: nat) returns (e: Event)
    requires Reaches(cacheTTL, start, events, s)
    requires c in s.callers && !s.callers[c].progress.Returned?
    ensures Enabled(s, e) && !e.Tick? && !e.Call?
    ensures StepsLeft(Apply(cacheTTL, s, e), c) < StepsLeft(s, c)
  {
    ReachableKeepsInv(cacheTTL, start, events, s);
    match s.callers[c].progress
    case Calling => e := LookUp(c);
    case Missed =>
      if s.callers[c].reportID in s.current {
        e := Join(c);
      } else {
        var f := UnusedNumber(s.flights.Keys);
        e := Start(c, f);
      }
    case Waiting(f) =>
      match s.flights[f].phase
      case Checking => e := Recheck(f);
      case Fetching => e := Respond(f, NoToken);
      case Landing(_) => e := Land(f);
      case Landed(_) => e := Return(c);
  }
}
