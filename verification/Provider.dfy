/** The end-of-life provider: a cache of one product's adapted cycles, and the search in it. */
module Provider {
  import opened Types
  import opened Text
  import opened Adapters
  import opened Policy
  import opened LifecycleTime

  // ---------------------------------------------------------------------------------------------
  // Searching the cycles

  predicate IsExact(id: string, version: string) {
    TrimSpace(id) == version
  }

  predicate IsDottedPrefix(id: string, version: string) {
    TrimSpace(id) != "" && HasPrefix(version, TrimSpace(id) + ".")
  }

  /** `r` names an exact match if there is one, otherwise a dotted prefix that no other exceeds in
      length, otherwise nothing. */
  predicate IsBestMatch(ids: seq<string>, version: string, r: Option<nat>) {
    && (r.Some? ==>
          && r.value < |ids|
          && (|| IsExact(ids[r.value], version)
              || (&& IsDottedPrefix(ids[r.value], version)
                  && forall j :: 0 <= j < |ids| ==>
                                   && !IsExact(ids[j], version)
                                   && (IsDottedPrefix(ids[j], version) ==>
                                       |TrimSpace(ids[j])| <= |TrimSpace(ids[r.value])|))))
    && (r.None? ==> forall j :: 0 <= j < |ids| ==> !IsExact(ids[j], version) && !IsDottedPrefix(ids[j], version))
  }

  function FirstExact(ids: seq<string>, version: string): (r: Option<nat>)
    ensures r.Some? ==> r.value < |ids|
  {
    if ids == [] then None
    else
      var r := FirstExact(ids[..|ids| - 1], version);
      if r.None? && IsExact(ids[|ids| - 1], version) then Some(|ids| - 1) else r
  }

  function LongestPrefix(ids: seq<string>, version: string): (r: Option<nat>)
    ensures r.Some? ==> r.value < |ids|
  {
    if ids == [] then None
    else
      var n := |ids| - 1;
      var r := LongestPrefix(ids[..n], version);
      if IsDottedPrefix(ids[n], version) && (r.None? || |TrimSpace(ids[n])| > |TrimSpace(ids[r.value])|)
      then Some(n) else r
  }

  /** The search of the provider: the first exact match, else the first longest dotted prefix. */
  function FindVersion(ids: seq<string>, version: string): (r: Option<nat>)
    ensures r.Some? ==> r.value < |ids|
  {
    if FirstExact(ids, version).Some? then FirstExact(ids, version) else LongestPrefix(ids, version)
  }

  lemma {:induction false} FirstExactFinds(ids: seq<string>, version: string)
    ensures var r := FirstExact(ids, version);
            && (r.Some? ==> IsExact(ids[r.value], version))
            && (r.None? ==> forall j :: 0 <= j < |ids| ==> !IsExact(ids[j], version))
  {
    if ids != [] {
      FirstExactFinds(ids[..|ids| - 1], version);
    }
  }

  lemma {:induction false} LongestPrefixFinds(ids: seq<string>, version: string)
    ensures var r := LongestPrefix(ids, version);
            && (r.Some? ==> IsDottedPrefix(ids[r.value], version))
            && (r.Some? ==> forall j :: 0 <= j < |ids| && IsDottedPrefix(ids[j], version) ==>
                                          |TrimSpace(ids[j])| <= |TrimSpace(ids[r.value])|)
            && (r.None? ==> forall j :: 0 <= j < |ids| ==> !IsDottedPrefix(ids[j], version))
  {
    if ids != [] {
      LongestPrefixFinds(ids[..|ids| - 1], version);
    }
  }

  lemma FindVersionIsBest(ids: seq<string>, version: string)
    ensures IsBestMatch(ids, version, FindVersion(ids, version))
  {
    FirstExactFinds(ids, version);
    LongestPrefixFinds(ids, version);
  }

  predicate DistinctIdentifiers(ids: seq<string>) {
    forall i, j :: 0 <= i < j < |ids| ==> TrimSpace(ids[i]) != TrimSpace(ids[j])
  }

  /** The search is canonical: with distinct identifiers all orders of the same catalogue have the same
      best match. */
  lemma BestMatchIsCanonical(ids: seq<string>, other: seq<string>, version: string)
    requires multiset(ids) == multiset(other) && DistinctIdentifiers(ids)
    ensures FindVersion(ids, version).Some? <==> FindVersion(other, version).Some?
    ensures FindVersion(ids, version).Some? ==>
              ids[FindVersion(ids, version).value] == other[FindVersion(other, version).value]
  {
    forall x: string ensures x in ids <==> x in other {
      assert x in ids <==> x in multiset(ids);
    }
    var r, q := FindVersion(ids, version), FindVersion(other, version);
    FindVersionIsBest(ids, version);
    FindVersionIsBest(other, version);
    assert r.Some? ==> ids[r.value] in other;
    assert q.Some? ==> other[q.value] in ids;
    if r.Some? && q.Some? {
      var x, y := ids[r.value], other[q.value];
      assert x in other && y in ids;
      BestAmong(ids, version, r.value, y);
      BestAmong(other, version, q.value, x);
      if IsDottedPrefix(x, version) && IsDottedPrefix(y, version) && |TrimSpace(x)| == |TrimSpace(y)| {
        assert TrimSpace(x) == version[..|TrimSpace(x)|] == TrimSpace(y);
      }
      var j :| 0 <= j < |ids| && ids[j] == y;
      assert TrimSpace(ids[j]) == TrimSpace(ids[r.value]);
    }
  }

  lemma BestAmong(ids: seq<string>, version: string, i: nat, y: string)
    requires i < |ids| && IsBestMatch(ids, version, Some(i)) && y in ids
    ensures IsExact(y, version) ==> TrimSpace(ids[i]) == TrimSpace(y)
    ensures IsExact(ids[i], version) ||
            (&& IsDottedPrefix(ids[i], version) && !IsExact(y, version)
             && (IsDottedPrefix(y, version) ==> |TrimSpace(y)| <= |TrimSpace(ids[i])|))
  {
  }

  // ---------------------------------------------------------------------------------------------
  // Agreement with the policy

  predicate HasKubernetesPrefix(version: string) {
    HasPrefix(version, "k8s-") || HasPrefix(version, "kubernetes-")
  }

  /** What the policy makes of a cycle found by the search: the text as it stands decides, white space
      included, and a Kubernetes prefix is never stripped to any effect. */
  predicate PolicyAgrees(id: string, version: string) {
    id == version || (!HasKubernetesPrefix(version) && HasPrefix(version, id + "."))
  }

  /** The search trims both the identifier and the version, the policy neither; and the policy strips
      Kubernetes prefixes, which the search does not. For a cycle the search accepts, the policy agrees
      exactly under the condition above. */
  lemma MatchAgreesWithPolicy(id: string, version: string)
    requires TrimSpace(id) != ""
    requires IsExact(id, TrimSpace(version)) || IsDottedPrefix(id, TrimSpace(version))
    ensures VersionMatches(id, version) <==> PolicyAgrees(id, version)
  {
    if HasKubernetesPrefix(version) {
      PrefixedNeverMatches(id, version);
    } else {
      assert Normalized(version) == version;
    }
  }

  /** A prefixed version without its prefix does not begin with a cycle that the search accepted for
      the whole. */
  lemma PrefixedNeverMatches(id: string, version: string)
    requires TrimSpace(id) != "" && HasKubernetesPrefix(version)
    requires IsExact(id, TrimSpace(version)) || IsDottedPrefix(id, TrimSpace(version))
    ensures !(id <= Normalized(version)) && id != Normalized(version) && !HasPrefix(Normalized(version), id + ".")
  {
    var prefix := NormalizedPrefix(version);
    CoreOfVersion(id, version);
    NotInsideItself(prefix, Normalized(version), id, version);
    DottedPrefixShape(Normalized(version), id);
  }

  lemma NotInsideItself(prefix: string, n: string, id: string, version: string)
    requires prefix != "" && '.' !in prefix && prefix + n == version
    requires BeginsCleanly(TrimSpace(id), version)
    ensures !(id <= n)
  {
    var k := TrimSpaceShape(id);
    if id <= n {
      PaddedShift(prefix, n, id, k);
      DotlessBefore(prefix, id[..k]);
      NoOverlap(prefix + id[..k], n[k..], TrimSpace(id), version);
    }
  }

  lemma DotlessBefore(prefix: string, padding: string)
    requires prefix != "" && '.' !in prefix
    requires forall i :: 0 <= i < |padding| ==> IsSpace(padding[i])
    ensures prefix + padding != "" && '.' !in prefix + padding
  {
  }

  /** The trimmed identifier begins a version that begins with a Kubernetes prefix; a dot follows, or
      nothing but white space. */
  predicate BeginsCleanly(core: string, version: string) {
    && core <= version && core != "" && !IsSpace(core[|core| - 1])
    && (|| (|core| < |version| && version[|core|] == '.')
        || forall i :: |core| <= i < |version| ==> IsSpace(version[i]))
  }

  lemma CoreOfVersion(id: string, version: string)
    requires TrimSpace(id) != "" && HasKubernetesPrefix(version)
    requires IsExact(id, TrimSpace(version)) || IsDottedPrefix(id, TrimSpace(version))
    ensures BeginsCleanly(TrimSpace(id), version)
  {
    var core, trimmed := TrimSpace(id), TrimSpace(version);
    var k := TrimSpaceShape(version);
    TrimSpaceEnds(id);
    assert version[0] == 'k' && k == 0;
    assert trimmed == version[..|trimmed|];
    if core != trimmed {
      DottedPrefixShape(trimmed, core);
      assert version[|core|] == trimmed[|core|];
    }
  }

  /** Leading white space of the identifier belongs to what stands before its core. */
  lemma PaddedShift(prefix: string, n: string, id: string, k: nat)
    requires id <= n && k + |TrimSpace(id)| <= |id| && id[k..k + |TrimSpace(id)|] == TrimSpace(id)
    ensures k <= |n| && prefix + id[..k] + n[k..] == prefix + n && TrimSpace(id) <= n[k..]
  {
    assert n[..|id|] == id;
    assert id[..k] == n[..k];
    assert n[k..k + |TrimSpace(id)|] == TrimSpace(id);
  }

  /** A non-empty text without dots cannot stand in front of a second occurrence of `core`. */
  lemma NoOverlap(before: string, rest: string, core: string, version: string)
    requires before != "" && '.' !in before && before + rest == version && BeginsCleanly(core, version)
    ensures !(core <= rest)
  {
    if |core| < |version| && version[|core|] == '.' {
      NoDottedOverlap(before, rest, core, |core|);
    } else if |core| <= |rest| {
      assert IsSpace(version[|before| + |core| - 1]);
      assert version[|before| + |core| - 1] == rest[|core| - 1];
    }
  }

  lemma {:induction false} NoDottedOverlap(before: string, rest: string, core: string, j: nat)
    requires before != "" && '.' !in before
    requires core <= before + rest && j <= |core| && j < |before + rest| && (before + rest)[j] == '.'
    ensures !(core <= rest)
    decreases j
  {
    assert forall i :: 0 <= i < |before| ==> before[i] in before;
    assert forall i :: 0 <= i < |before| ==> (before + rest)[i] == before[i];
    var i := j - |before|;
    if core <= rest {
      assert core[i] == rest[i] == (before + rest)[j];
      assert (before + rest)[i] == core[i];
      NoDottedOverlap(before, rest, core, i);
    }
  }

  lemma DottedPrefixShape(version: string, id: string)
    ensures HasPrefix(version, id + ".") ==> id <= version && |id| < |version| && version[|id|] == '.'
  {
    if HasPrefix(version, id + ".") {
      assert version[|id|] == (id + ".")[|id|];
      assert version[..|id|] == id;
    }
  }

  lemma NormalizedPrefix(version: string) returns (prefix: string)
    requires HasKubernetesPrefix(version)
    ensures prefix != "" && '.' !in prefix && prefix + Normalized(version) == version
  {
    if HasPrefix(version, "k8s-") {
      var rest := version[4..];
      assert "k8s-" + rest == version && TrimPrefix(version, "k8s-") == rest;
      if HasPrefix(rest, "kubernetes-") {
        prefix := "k8s-" + "kubernetes-";
      } else {
        prefix := "k8s-";
      }
    } else {
      prefix := "kubernetes-";
    }
  }

  /** The exception is real: the provider answers for version k8s-1.33.2 with cycle k8s-1.33, and the
      policy then refuses the answer. */
  lemma PrefixedVersionMismatch()
    ensures FindVersion(["k8s-1.33"], TrimSpace("k8s-1.33.2")) == Some(0)
    ensures !VersionMatches("k8s-1.33", "k8s-1.33.2")
  {
    TrimFixed("k8s-1.33");
    TrimFixed("k8s-1.33.2");
    assert "k8s-1.33.2"[..9] == "k8s-1.33" + ".";
    assert IsDottedPrefix("k8s-1.33", "k8s-1.33.2");
    assert ["k8s-1.33"][..0] == [];
    assert Normalized("k8s-1.33.2") == "1.33.2";
  }

  /** So is the other: the catalogue may pad an identifier. The search trims it and finds it, and the
      policy refuses it, for a version with neither prefix nor white space. */
  lemma PaddedIdentifierMismatch()
    ensures FindVersion(["8.0 "], TrimSpace("8.0")) == Some(0)
    ensures !VersionMatches("8.0 ", "8.0")
  {
    TrimFixed("8.0");
    assert TrimLeft("8.0 ") == "8.0 ";
    assert "8.0 "[..3] == "8.0";
    assert TrimSpace("8.0 ") == "8.0";
    assert ["8.0 "][..0] == [];
    assert Normalized("8.0") == "8.0";
  }

  // ---------------------------------------------------------------------------------------------
  // Loading and caching

  /** What the catalogue answers to a request for the product's cycles. */
  datatype Upstream =
    | Cycles(cycles: seq<ProductCycle>, fetchedAt: Time, dataSource: string)
    | NotFound(fetchedAt: Time, dataSource: string)
    | Failed(fetchedAt: Time, dataSource: string)

  datatype CachedVersions = CachedVersions(
    versions: seq<VersionLifecycle>,
    malformedCycles: seq<string>,
    fetchedAt: Time,
    cachedAt: Time,
    dataSource: string,
    productCause: string)

  predicate ValidCycle(cycle: ProductCycle) {
    && TrimSpace(cycle.cycle) != ""
    && cycle.metadataValid
    && cycle.support != Malformed && cycle.eol != Malformed && cycle.extendedSupport != Malformed
  }

  function ValidCycles(cycles: seq<ProductCycle>): seq<ProductCycle> {
    if cycles == [] then []
    else
      var rest, last := ValidCycles(cycles[..|cycles| - 1]), cycles[|cycles| - 1];
      if ValidCycle(last) then rest + [last] else rest
  }

  function MalformedIdentifiers(cycles: seq<ProductCycle>): seq<string> {
    if cycles == [] then []
    else
      var rest, last := MalformedIdentifiers(cycles[..|cycles| - 1]), cycles[|cycles| - 1];
      if !ValidCycle(last) && TrimSpace(last.cycle) != "" then rest + [TrimSpace(last.cycle)] else rest
  }

  function Converted(schema: Schema, engine: string, cycle: ProductCycle, now: Time): VersionLifecycle {
    Adapted(schema, cycle, now).(engine := engine)
  }

  function ConvertedAll(schema: Schema, engine: string, cycles: seq<ProductCycle>, now: Time)
    : (r: seq<VersionLifecycle>)
    ensures |r| == |cycles|
  {
    seq(|cycles|, i requires 0 <= i < |cycles| => Converted(schema, engine, cycles[i], now))
  }

  /** The entry made from an answer that is not an error. A product the catalogue does not know gives
      an empty entry with its own cause. */
  function Entry(schema: Schema, engine: string, upstream: Upstream, now: Time): CachedVersions
    requires !upstream.Failed?
  {
    match upstream
    case NotFound(fetchedAt, dataSource) =>
      CachedVersions([], [], fetchedAt, now, dataSource, PRODUCT_NOT_FOUND)
    case Cycles(cycles, fetchedAt, dataSource) =>
      CachedVersions(ConvertedAll(schema, engine, ValidCycles(cycles), now), MalformedIdentifiers(cycles),
                     fetchedAt, now, dataSource, "")
  }

  function Identifiers(versions: seq<VersionLifecycle>): seq<string> {
    seq(|versions|, i requires 0 <= i < |versions| => versions[i].version)
  }

  predicate MatchingCycle(cycles: seq<string>, version: string) {
    exists i :: 0 <= i < |cycles| &&
                (TrimSpace(cycles[i]) == version || HasPrefix(version, TrimSpace(cycles[i]) + "."))
  }

  function WithMetadata(l: VersionLifecycle, engine: string, cached: CachedVersions): VersionLifecycle {
    l.(engine := engine, fetchedAt := cached.fetchedAt, dataSource := cached.dataSource)
  }

  /** The answer an entry gives for an engine and a trimmed version. */
  function Answer(cached: CachedVersions, engine: string, version: string): VersionLifecycle {
    var best := FindVersion(Identifiers(cached.versions), version);
    if best.Some? then WithMetadata(cached.versions[best.value], engine, cached)
    else BlankLifecycle("", engine, cached.fetchedAt, cached.dataSource,
                        if cached.productCause != "" then cached.productCause
                        else if MatchingCycle(cached.malformedCycles, version) then MALFORMED_CYCLE
                        else CYCLE_NOT_FOUND)
  }

  method SearchVersions(versions: seq<VersionLifecycle>, version: string) returns (r: Option<VersionLifecycle>)
    ensures var best := FindVersion(Identifiers(versions), version);
            r == if best.Some? then Some(versions[best.value]) else None
  {
    ghost var ids := Identifiers(versions);
    var bestMatch: Option<VersionLifecycle> := None;
    var bestMatchLen := 0;
    for i := 0 to |versions|
      invariant FirstExact(ids[..i], version).None?
      invariant bestMatch.Some? <==> LongestPrefix(ids[..i], version).Some?
      invariant bestMatch.Some? ==> bestMatch.value == versions[LongestPrefix(ids[..i], version).value]
      invariant bestMatchLen == if bestMatch.Some? then |TrimSpace(bestMatch.value.version)| else 0
    {
      assert ids[..i + 1][..i] == ids[..i];
      var cycleVersion := TrimSpace(versions[i].version);
      if cycleVersion == version {
        FirstExactIsFirst(ids, version, i);
        return Some(versions[i]);
      }
      if HasPrefix(version, cycleVersion + ".") && |cycleVersion| > bestMatchLen {
        bestMatch := Some(versions[i]);
        bestMatchLen := |cycleVersion|;
      }
    }
    assert ids[..|ids|] == ids;
    return bestMatch;
  }

  datatype Lookup = Lookup(lifecycle: Option<VersionLifecycle>, failed: bool)

  class Provider {
    const schema: Schema
    const product: string
    const cacheTTL: int
    var cache: map<string, CachedVersions>

    constructor (schema: Schema, product: string, cacheTTL: int)
      requires ValidSchema(schema)
      ensures this.schema == schema && this.product == product && cache == map[]
      ensures this.cacheTTL == if cacheTTL == 0 then DAY else cacheTTL
    {
      this.schema := schema;
      this.product := product;
      this.cacheTTL := if cacheTTL == 0 then DAY else cacheTTL;
      cache := map[];
    }

    /** Cycles that fail validation are skipped, their identifiers kept. */
    method ConvertCycles(engine: string, cycles: seq<ProductCycle>, now: Time)
      returns (versions: seq<VersionLifecycle>, malformed: seq<string>)
      ensures versions == ConvertedAll(schema, engine, ValidCycles(cycles), now)
      ensures malformed == MalformedIdentifiers(cycles)
    {
      versions, malformed := [], [];
      for i := 0 to |cycles|
        invariant versions == ConvertedAll(schema, engine, ValidCycles(cycles[..i]), now)
        invariant malformed == MalformedIdentifiers(cycles[..i])
      {
        assert cycles[..i + 1][..i] == cycles[..i];
        if !ValidCycle(cycles[i]) {
          if TrimSpace(cycles[i].cycle) != "" {
            malformed := malformed + [TrimSpace(cycles[i].cycle)];
          }
          continue;
        }
        var lifecycle := AdaptCycle(schema, cycles[i], now);
        lifecycle := lifecycle.(engine := engine, fetchedAt := now);
        versions := versions + [lifecycle];
      }
      assert cycles[..|cycles|] == cycles;
    }

    /** An entry is reused while it is younger than the time to live. Otherwise the catalogue decides:
        errors are passed on and never cached, everything else replaces the entry. */
    method LoadVersions(engine: string, now: Time, upstream: Upstream) returns (loaded: Option<CachedVersions>)
      modifies this
      ensures var young := old(product in cache && now - cache[product].cachedAt < cacheTTL);
              && (young ==> cache == old(cache) && loaded == Some(cache[product]))
              && (!young && upstream.Failed? ==> cache == old(cache) && loaded == None)
              && (!young && !upstream.Failed? ==>
                    var entry := Entry(schema, engine, upstream, now);
                    cache == old(cache)[product := entry] && loaded == Some(entry))
    {
      if product in cache {
        if now - cache[product].cachedAt < cacheTTL {
          return Some(cache[product]);
        }
      }
      if upstream.Failed? {
        return None;
      }
      var entry := CachedVersions([], [], upstream.fetchedAt, now, upstream.dataSource, PRODUCT_NOT_FOUND);
      if upstream.Cycles? {
        var versions, malformed := ConvertCycles(engine, upstream.cycles, now);
        entry := CachedVersions(versions, malformed, upstream.fetchedAt, now, upstream.dataSource, "");
      }
      cache := cache[product := entry];
      return Some(entry);
    }

    /** The search returns the answer of the entry loaded; a failed load gives a lifecycle without
        boundaries or flags, together with the error. */
    method GetVersionLifecycle(engine: string, version: string, now: Time, upstream: Upstream) returns (r: Lookup)
      modifies this
      ensures var young := old(product in cache && now - cache[product].cachedAt < cacheTTL);
              && (young ==>
                    && cache == old(cache)
                    && r == Lookup(Some(Answer(cache[product], ToLower(engine), TrimSpace(version))), false))
              && (!young && !upstream.Failed? ==>
                    var entry := Entry(schema, ToLower(engine), upstream, now);
                    && cache == old(cache)[product := entry]
                    && r == Lookup(Some(Answer(entry, ToLower(engine), TrimSpace(version))), false))
              && (!young && upstream.Failed? ==>
                    && cache == old(cache)
                    && r == Lookup(Some(BlankLifecycle(TrimSpace(version), ToLower(engine), upstream.fetchedAt,
                                                       upstream.dataSource, SOURCE_ERROR)), true))
    {
      var name, wanted := ToLower(engine), TrimSpace(version);
      var loaded := LoadVersions(name, now, upstream);
      if loaded.None? {
        return Lookup(Some(BlankLifecycle(wanted, name, upstream.fetchedAt, upstream.dataSource, SOURCE_ERROR)), true);
      }
      var cached := loaded.value;
      var matched := SearchVersions(cached.versions, wanted);
      if matched.Some? {
        return Lookup(Some(WithMetadata(matched.value, name, cached)), false);
      }
      var cause := cached.productCause;
      if cause == "" {
        cause := CYCLE_NOT_FOUND;
        if MatchingCycle(cached.malformedCycles, wanted) {
          cause := MALFORMED_CYCLE;
        }
      }
      return Lookup(Some(BlankLifecycle("", name, cached.fetchedAt, cached.dataSource, cause)), false);
    }
  }

  lemma {:induction false} FirstExactIsFirst(ids: seq<string>, version: string, i: nat)
    requires i < |ids| && IsExact(ids[i], version) && FirstExact(ids[..i], version).None?
    ensures FirstExact(ids, version) == Some(i)
    decreases |ids|
  {
    var n := |ids| - 1;
    if i < n {
      assert ids[..n][..i] == ids[..i];
      FirstExactIsFirst(ids[..n], version, i);
    }
  }

  // ---------------------------------------------------------------------------------------------
  // What an answer says

  predicate Fits(id: string, version: string) {
    IsExact(id, version) || IsDottedPrefix(id, version)
  }

  /** A cycle of the catalogue that can be answered with: it has an identifier and nothing malformed. */
  ghost predicate Offers(cycles: seq<ProductCycle>, c: ProductCycle) {
    && c in cycles && TrimSpace(c.cycle) != ""
    && c.metadataValid && c.support != Malformed && c.eol != Malformed && c.extendedSupport != Malformed
  }

  /** A cycle that has an identifier but is malformed. */
  ghost predicate Spoils(cycles: seq<ProductCycle>, c: ProductCycle) {
    && c in cycles && TrimSpace(c.cycle) != ""
    && (!c.metadataValid || c.support == Malformed || c.eol == Malformed || c.extendedSupport == Malformed)
  }

  /** An exact match, or a dotted prefix when there is no exact match and none longer. */
  ghost predicate BestOffer(cycles: seq<ProductCycle>, c: ProductCycle, version: string) {
    && Offers(cycles, c)
    && (|| IsExact(c.cycle, version)
        || (&& IsDottedPrefix(c.cycle, version)
            && forall d :: Offers(cycles, d) ==>
                             && !IsExact(d.cycle, version)
                             && (IsDottedPrefix(d.cycle, version) ==> |TrimSpace(d.cycle)| <= |TrimSpace(c.cycle)|)))
  }

  lemma {:induction false} ValidCyclesAreOffers(cycles: seq<ProductCycle>)
    ensures forall c :: c in ValidCycles(cycles) <==> Offers(cycles, c)
  {
    if cycles != [] {
      var n := |cycles| - 1;
      ValidCyclesAreOffers(cycles[..n]);
      assert cycles == cycles[..n] + [cycles[n]];
    }
  }

  lemma {:induction false} MalformedAreSpoiled(cycles: seq<ProductCycle>)
    ensures forall c :: Spoils(cycles, c) ==> TrimSpace(c.cycle) in MalformedIdentifiers(cycles)
    ensures forall id :: id in MalformedIdentifiers(cycles) ==>
                           exists c :: Spoils(cycles, c) && TrimSpace(c.cycle) == id
  {
    if cycles != [] {
      var n := |cycles| - 1;
      MalformedAreSpoiled(cycles[..n]);
      assert cycles == cycles[..n] + [cycles[n]];
      forall id | id in MalformedIdentifiers(cycles) ensures exists c :: Spoils(cycles, c) && TrimSpace(c.cycle) == id {
        if id in MalformedIdentifiers(cycles[..n]) {
          var c :| Spoils(cycles[..n], c) && TrimSpace(c.cycle) == id;
          assert Spoils(cycles, c);
        } else {
          assert Spoils(cycles, cycles[n]);
        }
      }
    }
  }

  lemma MatchingMeansSpoiled(cycles: seq<ProductCycle>, version: string)
    ensures MatchingCycle(MalformedIdentifiers(cycles), version) <==>
            exists c :: Spoils(cycles, c) && Fits(c.cycle, version)
  {
    var ids := MalformedIdentifiers(cycles);
    MalformedAreSpoiled(cycles);
    if MatchingCycle(ids, version) {
      var i :| 0 <= i < |ids| && (TrimSpace(ids[i]) == version || HasPrefix(version, TrimSpace(ids[i]) + "."));
      assert ids[i] in ids;
      var c :| Spoils(cycles, c) && TrimSpace(c.cycle) == ids[i];
      TrimTwice(c.cycle);
      assert Fits(c.cycle, version);
    }
    if c :| Spoils(cycles, c) && Fits(c.cycle, version) {
      TrimTwice(c.cycle);
      var i :| 0 <= i < |ids| && ids[i] == TrimSpace(c.cycle);
    }
  }

  lemma FoundIsBestOffer(cycles: seq<ProductCycle>, ids: seq<string>, version: string)
    requires |ids| == |ValidCycles(cycles)|
    requires forall i :: 0 <= i < |ids| ==> ids[i] == ValidCycles(cycles)[i].cycle
    ensures var best := FindVersion(ids, version);
            && (best.Some? ==> BestOffer(cycles, ValidCycles(cycles)[best.value], version))
            && (best.None? ==> forall c :: Offers(cycles, c) ==> !Fits(c.cycle, version))
  {
    var best, valid := FindVersion(ids, version), ValidCycles(cycles);
    ValidCyclesAreOffers(cycles);
    FindVersionIsBest(ids, version);
    forall c | Offers(cycles, c) ensures exists i :: 0 <= i < |ids| && ids[i] == c.cycle {
      var i :| 0 <= i < |valid| && valid[i] == c;
      assert ids[i] == c.cycle;
    }
    if best.Some? {
      assert valid[best.value] in valid;
    }
  }

  /** `l` is the cycle as adapted at that moment, with the provenance of the download. */
  predicate IsCycleAt(l: VersionLifecycle, schema: Schema, engine: string, c: ProductCycle, fetchedAt: Time,
                      dataSource: string, at: Time)
  {
    l == Adapted(schema, c, at).(engine := engine, fetchedAt := fetchedAt, dataSource := dataSource)
  }

  /** The answer to a lookup, from the catalogue's cycles: the best match of the sound ones as adapted at
      that moment, or a blank lifecycle that says whether a malformed cycle would have matched. Either
      way it carries the provenance of the download. */
  lemma AnswerIsExact(schema: Schema, engine: string, cycles: seq<ProductCycle>, fetchedAt: Time, dataSource: string,
                      version: string, at: Time)
    ensures var l := Answer(Entry(schema, engine, Cycles(cycles, fetchedAt, dataSource), at), engine, version);
            if exists c :: Offers(cycles, c) && Fits(c.cycle, version)
            then exists c :: BestOffer(cycles, c, version) &&
                             IsCycleAt(l, schema, engine, c, fetchedAt, dataSource, at)
            else l == BlankLifecycle("", engine, fetchedAt, dataSource,
                                     if exists c :: Spoils(cycles, c) && Fits(c.cycle, version) then MALFORMED_CYCLE
                                     else CYCLE_NOT_FOUND)
  {
    var cached := Entry(schema, engine, Cycles(cycles, fetchedAt, dataSource), at);
    var ids := Identifiers(cached.versions);
    FoundIsBestOffer(cycles, ids, version);
    MatchingMeansSpoiled(cycles, version);
    var best := FindVersion(ids, version);
    if best.Some? {
      var c := ValidCycles(cycles)[best.value];
      assert Fits(c.cycle, version);
      assert IsCycleAt(Answer(cached, engine, version), schema, engine, c, fetchedAt, dataSource, at);
    }
  }

  lemma UnknownProductIsShown(schema: Schema, engine: string, fetchedAt: Time, dataSource: string, version: string,
                              at: Time)
    ensures Answer(Entry(schema, engine, NotFound(fetchedAt, dataSource), at), engine, version) ==
            BlankLifecycle("", engine, fetchedAt, dataSource, PRODUCT_NOT_FOUND)
  {
  }

  /** Serving a version from a cached entry errs one way only: against the same catalogue contents
      loaded afresh at `t1`, the entry of `t0` gives no greater severity. */
  lemma CachedAnswerErrsLow(p: DefaultPolicy, schema: Schema, engine: string, version: string, upstream: Upstream,
                            t0: Time, t1: Time)
    requires ValidSchema(schema) && t0 <= t1 && !upstream.Failed?
    ensures var stale := Answer(Entry(schema, engine, upstream, t0), engine, TrimSpace(version));
            var renewed := Answer(Entry(schema, engine, upstream, t1), engine, TrimSpace(version));
            && Classify(p, version, stale, t1).Severity() <= Classify(p, version, renewed, t1).Severity()
            && (Classify(p, version, stale, t1) == Unknown <==> Classify(p, version, renewed, t1) == Unknown)
  {
    var stale, renewed := Entry(schema, engine, upstream, t0), Entry(schema, engine, upstream, t1);
    assert Identifiers(stale.versions) == Identifiers(renewed.versions);
    var best := FindVersion(Identifiers(stale.versions), TrimSpace(version));
    if best.Some? {
      var cycle := ValidCycles(upstream.cycles)[best.value];
      LabelsDoNotMatter(p, version, Adapted(schema, cycle, t0), Answer(stale, engine, TrimSpace(version)), t1);
      LabelsDoNotMatter(p, version, Adapted(schema, cycle, t1), Answer(renewed, engine, TrimSpace(version)), t1);
      RefreshNeverLowersSeverity(p, schema, cycle, version, t0, t1, t1);
      MatchedIsClassified(p, schema, cycle, version, t0, t1);
      MatchedIsClassified(p, schema, cycle, version, t1, t1);
    }
  }

  lemma LabelsDoNotMatter(p: DefaultPolicy, version: string, l: VersionLifecycle, m: VersionLifecycle, now: Time)
    requires l.(engine := m.engine, fetchedAt := m.fetchedAt, dataSource := m.dataSource) == m
    ensures Classify(p, version, l, now) == Classify(p, version, m, now)
  {
    assert FutureDates(l, now) == FutureDates(m, now);
  }

  /** The lifecycle-mismatch diagnosis, exactly: the search found a cycle with which the policy does not
      agree. */
  lemma MismatchExactly(p: DefaultPolicy, schema: Schema, engine: string, version: string, upstream: Upstream,
                        t0: Time, t1: Time)
    requires !upstream.Failed?
    ensures var cached := Entry(schema, engine, upstream, t0);
            var best := FindVersion(Identifiers(cached.versions), TrimSpace(version));
            var l := Answer(cached, engine, TrimSpace(version));
            UnknownCause(version, l, Classify(p, version, l, t1)) == LIFECYCLE_MISMATCH <==>
            best.Some? && !PolicyAgrees(Identifiers(cached.versions)[best.value], version)
  {
    var cached := Entry(schema, engine, upstream, t0);
    var ids := Identifiers(cached.versions);
    FindVersionIsBest(ids, TrimSpace(version));
    var best := FindVersion(ids, TrimSpace(version));
    if best.Some? {
      ValidCyclesAreOffers(upstream.cycles);
      var cycle := ValidCycles(upstream.cycles)[best.value];
      assert ids[best.value] == cycle.cycle && cycle in ValidCycles(upstream.cycles);
      MatchAgreesWithPolicy(cycle.cycle, version);
      DottedPrefixShape(TrimSpace(version), TrimSpace(cycle.cycle));
    }
  }

  /** For catalogues whose identifiers carry no surrounding white space, and clean versions without a
      Kubernetes prefix, the lifecycle-mismatch diagnosis is unreachable. */
  lemma MismatchIsUnreachable(p: DefaultPolicy, schema: Schema, engine: string, version: string, upstream: Upstream,
                              t0: Time, t1: Time)
    requires !upstream.Failed?
    requires upstream.Cycles? ==> forall c :: c in upstream.cycles ==> TrimSpace(c.cycle) == c.cycle
    requires version == TrimSpace(version) && !HasKubernetesPrefix(version)
    ensures var l := Answer(Entry(schema, engine, upstream, t0), engine, TrimSpace(version));
            UnknownCause(version, l, Classify(p, version, l, t1)) != LIFECYCLE_MISMATCH
  {
    var ids := Identifiers(Entry(schema, engine, upstream, t0).versions);
    FindVersionIsBest(ids, version);
    MismatchExactly(p, schema, engine, version, upstream, t0, t1);
    if upstream.Cycles? {
      ValidCyclesAreOffers(upstream.cycles);
      forall i | 0 <= i < |ids| ensures TrimSpace(ids[i]) == ids[i] {
        assert ValidCycles(upstream.cycles)[i] in ValidCycles(upstream.cycles);
      }
    }
  }
}
