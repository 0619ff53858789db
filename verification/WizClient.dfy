/** The report client: a cache of downloaded reports, each with its own time to live and a deadline
    taken from the report's schedule. */
module WizClient {
  import opened Types
  import opened ColumnIndex

  type Rows = seq<seq<string>>

  const HOUR: int := 3_600_000_000_000
  const DEFAULT_CACHE_TTL: int := HOUR
  const FRESHNESS_GRACE: int := 6 * HOUR

  datatype Report = Report(lastRun: Time, runIntervalHours: int, expectedRows: int)

  /** How the three remote calls of one fetch end. */
  datatype Remote =
    | NoToken
    | NoReport
    | NoDownload(report: Report)
    | Unparsable(report: Report)
    | Downloaded(report: Report, rows: Rows)

  datatype CachedReport = CachedReport(data: Rows, fetchedAt: Time, freshnessDeadline: Time)

  type Cache = map<string, CachedReport>

  /** An entry stops being served when it is a time to live old, or when its report is due again. */
  predicate Usable(entry: CachedReport, cacheTTL: int, now: Time) {
    && now < entry.fetchedAt + cacheTTL
    && (entry.freshnessDeadline == ZERO_TIME || now < entry.freshnessDeadline)
  }

  function Found(cache: Cache, cacheTTL: int, reportID: string, now: Time): Option<Rows> {
    if reportID in cache && Usable(cache[reportID], cacheTTL, now) then Some(cache[reportID].data) else None
  }

  /** A download is whole when it has a header and as many rows below it as the report announced. */
  predicate Whole(report: Report, rows: Rows) {
    |rows| == report.expectedRows + 1 && rows != []
  }

  predicate Succeeds(remote: Remote) {
    remote.Downloaded? && Whole(remote.report, remote.rows)
  }

  function EntryOf(report: Report, rows: Rows, now: Time): CachedReport {
    CachedReport(rows, now, report.lastRun + report.runIntervalHours * HOUR + FRESHNESS_GRACE)
  }

  /** A whole download is cached if it has the columns its initiator requires. */
  function CacheAfter(cache: Cache, reportID: string, required: seq<string>, remote: Remote, now: Time): Cache {
    if Succeeds(remote) && ValidColumns(remote.rows[0], required)
    then cache[reportID := EntryOf(remote.report, remote.rows, now)]
    else cache
  }

  /** A header is there in everything the cache holds. */
  ghost predicate Headed(cache: Cache) {
    forall id :: id in cache ==> cache[id].data != []
  }

  class Client {
    const cacheTTL: int
    var cache: Cache

    constructor (cacheTTL: int)
      ensures this.cacheTTL == if cacheTTL == 0 then DEFAULT_CACHE_TTL else cacheTTL
      ensures cache == map[]
    {
      this.cacheTTL := if cacheTTL == 0 then DEFAULT_CACHE_TTL else cacheTTL;
      cache := map[];
    }

    /** An entry is served while it is younger than the time to live and, if it has a deadline, before
        that. */
    method Lookup(reportID: string, now: Time) returns (rows: Option<Rows>)
      ensures rows == Found(cache, cacheTTL, reportID, now)
      ensures rows.Some? <==>
              && reportID in cache
              && now - cache[reportID].fetchedAt < cacheTTL
              && (cache[reportID].freshnessDeadline != ZERO_TIME ==> now < cache[reportID].freshnessDeadline)
      ensures rows.Some? ==> rows.value == cache[reportID].data
    {
      if reportID !in cache {
        return None;
      }
      var cached := cache[reportID];
      if now - cached.fetchedAt >= cacheTTL {
        return None;
      }
      if cached.freshnessDeadline != ZERO_TIME && !(now < cached.freshnessDeadline) {
        return None;
      }
      return Some(cached.data);
    }

    /** Rows that lack the initiator's columns are returned, for those who wait for the same fetch, but
        not cached. */
    method FetchAndCache(reportID: string, required: seq<string>, remote: Remote, now: Time) returns (r: Result<Rows>)
      modifies this
      ensures r.Ok? <==> remote.Downloaded? && remote.rows != [] && |remote.rows| - 1 == remote.report.expectedRows
      ensures r.Ok? ==> r.value == remote.rows
      ensures cache == CacheAfter(old(cache), reportID, required, remote, now)
      ensures r.Ok? && ValidColumns(remote.rows[0], required) ==>
                var due := remote.report.lastRun + remote.report.runIntervalHours * HOUR + 6 * HOUR;
                cache == old(cache)[reportID := CachedReport(remote.rows, now, due)]
      ensures !(r.Ok? && ValidColumns(remote.rows[0], required)) ==> cache == old(cache)
    {
      match remote {
        case NoToken => return Err("failed to get Wiz access token");
        case NoReport => return Err("failed to get Wiz report");
        case NoDownload(_) => return Err("failed to download Wiz report");
        case Unparsable(_) => return Err("failed to parse Wiz report CSV");
        case Downloaded(report, rows) =>
          if |rows| == 0 {
            return Err("CSV has no header");
          }
          var actualRows := |rows| - 1;
          if actualRows != report.expectedRows {
            return Err("unexpected number of data rows");
          }
          var valid := ValidateRequiredColumns(rows, required);
          if !valid {
            return Ok(rows);
          }
          cache := cache[reportID := EntryOf(report, rows, now)];
          return Ok(rows);
      }
    }

    /** One caller alone: the cache is looked up at `t0` and again at `t1`, and the fetch ends at `t2`.
        The answer has the caller's columns, whoever filled the cache. */
    method GetReportData(reportID: string, required: seq<string>, t0: Time, t1: Time, remote: Remote, t2: Time)
      returns (r: Result<Rows>)
      requires Headed(cache) && t0 <= t1 <= t2
      modifies this
      ensures Headed(cache)
      ensures r.Ok? ==> r.value != [] && ValidColumns(r.value[0], required)
      ensures var served := old(
                  && reportID in cache && t0 - cache[reportID].fetchedAt < cacheTTL
                  && (cache[reportID].freshnessDeadline != ZERO_TIME ==> t0 < cache[reportID].freshnessDeadline));
              if served then
                var rows := old(cache)[reportID].data;
                && cache == old(cache)
                && r == if ValidColumns(rows[0], required) then Ok(rows) else Err("invalid CSV schema")
              else
                && cache == CacheAfter(old(cache), reportID, required, remote, t2)
                && (r.Ok? <==> Succeeds(remote) && ValidColumns(remote.rows[0], required))
                && (r.Ok? ==> r.value == remote.rows)
    {
      var rows := Lookup(reportID, t0);
      if rows.None? {
        rows := Lookup(reportID, t1);
        if rows.None? {
          var fetched := FetchAndCache(reportID, required, remote, t2);
          if fetched.Err? {
            return fetched;
          }
          rows := Some(fetched.value);
        }
      }
      var valid := ValidateRequiredColumns(rows.value, required);
      return if valid then Ok(rows.value) else Err("invalid CSV schema");
    }
  }
}
