/** The worker-local findings store: one map from resource ID to finding, shared by all types. */
module MemoryStore {
  import opened Types

  type Findings = map<string, Finding>

  datatype FindingFilters = FindingFilters(
    kind: Option<string>,
    service: Option<string>,
    status: Option<Status>,
    engine: Option<string>)

  predicate MatchesFilters(f: Finding, filters: FindingFilters) {
    && (filters.kind.Some? ==> f.kind == filters.kind.value)
    && (filters.service.Some? ==> f.service == filters.service.value)
    && (filters.status.Some? ==> f.status == filters.status.value)
    && (filters.engine.Some? ==> f.engine == filters.engine.value)
  }

  function OfKind(kind: string): FindingFilters {
    FindingFilters(Some(kind), None, None, None)
  }

  /** Findings by resource ID, the last one winning. */
  function ByID(findings: seq<Finding>): Findings {
    if findings == [] then map[]
    else
      var last := findings[|findings| - 1];
      ByID(findings[..|findings| - 1])[last.resourceID := last]
  }

  predicate KeyedByID(m: Findings) {
    forall id :: id in m ==> m[id].resourceID == id
  }

  /** The findings of `m` that pass the filters. */
  function Selected(m: Findings, filters: FindingFilters): Findings {
    map id | id in m && MatchesFilters(m[id], filters) :: m[id]
  }

  /** `m` without the findings of one type. */
  function Evicted(m: Findings, kind: string): Findings {
    map id | id in m && m[id].kind != kind :: m[id]
  }

  /** The store after replacing all findings of one type. */
  function Replaced(m: Findings, kind: string, findings: seq<Finding>): Findings {
    Evicted(m, kind) + ByID(findings)
  }

  /** `listing` holds each value of `m` exactly once, in some order. */
  predicate IsListing(m: Findings, listing: seq<Finding>) {
    |listing| == |m| && ByID(listing) == m
  }

  lemma {:induction false} ByIDMembers(findings: seq<Finding>)
    ensures KeyedByID(ByID(findings))
    ensures forall id :: id in ByID(findings) ==> ByID(findings)[id] in findings
    ensures forall f :: f in findings ==> f.resourceID in ByID(findings)
  {
    if findings != [] {
      var n := |findings| - 1;
      ByIDMembers(findings[..n]);
      assert findings == findings[..n] + [findings[n]];
    }
  }

  /** A listing really is a permutation: no resource occurs in it twice. */
  lemma {:induction false} ListingHasNoDuplicates(m: Findings, listing: seq<Finding>)
    requires IsListing(m, listing)
    ensures forall i, j :: 0 <= i < j < |listing| ==> listing[i].resourceID != listing[j].resourceID
    decreases |listing|
  {
    if listing != [] {
      var n := |listing| - 1;
      var rest, last := listing[..n], listing[n];
      ByIDSize(rest);
      assert m == ByID(rest)[last.resourceID := last];
      assert last.resourceID !in ByID(rest);
      ListingHasNoDuplicates(ByID(rest), rest);
      ByIDMembers(rest);
      forall i, j | 0 <= i < j < |listing| ensures listing[i].resourceID != listing[j].resourceID {
        assert listing[i] == rest[i] && rest[i] in rest;
      }
    }
  }

  /** The last finding of a resource is the one that stays. */
  lemma {:induction false} LastOneWins(findings: seq<Finding>, i: nat)
    requires i < |findings|
    requires forall j :: i < j < |findings| ==> findings[j].resourceID != findings[i].resourceID
    ensures findings[i].resourceID in ByID(findings) && ByID(findings)[findings[i].resourceID] == findings[i]
  {
    var n := |findings| - 1;
    if i < n {
      LastOneWins(findings[..n], i);
    }
  }

  /** What a listing holds, filter by filter. */
  lemma ListingPasses(m: Findings, filters: FindingFilters, listing: seq<Finding>, f: Finding)
    requires KeyedByID(m) && IsListing(Selected(m, filters), listing)
    ensures f in listing <==>
            && f.resourceID in m && m[f.resourceID] == f
            && (filters.kind == None || filters.kind == Some(f.kind))
            && (filters.service == None || filters.service == Some(f.service))
            && (filters.status == None || filters.status == Some(f.status))
            && (filters.engine == None || filters.engine == Some(f.engine))
  {
    ByIDMembers(listing);
    if f in listing {
      ListingHasNoDuplicates(Selected(m, filters), listing);
      var i :| 0 <= i < |listing| && listing[i] == f;
      LastOneWins(listing, i);
    }
  }

  lemma ListOneMore(m: Findings, listing: seq<Finding>, f: Finding)
    requires IsListing(m, listing) && f.resourceID !in m
    ensures IsListing(m[f.resourceID := f], listing + [f])
  {
    assert (listing + [f])[..|listing|] == listing;
  }

  /** Taking one more finding from those still to be visited. */
  lemma SelectOneMore(m: Findings, filters: FindingFilters, todo: set<string>, id: string)
    requires KeyedByID(m) && id in todo && id in m
    ensures id !in Selected(m - todo, filters)
    ensures Selected(m - (todo - {id}), filters) ==
            if MatchesFilters(m[id], filters) then Selected(m - todo, filters)[id := m[id]]
            else Selected(m - todo, filters)
  {
  }

  lemma SaveOneMore(m: Findings, batch: seq<Finding>, i: nat)
    requires i < |batch|
    ensures (m + ByID(batch[..i]))[batch[i].resourceID := batch[i]] == m + ByID(batch[..i + 1])
    ensures KeyedByID(m + ByID(batch[..i])) ==> KeyedByID(m + ByID(batch[..i + 1]))
  {
    assert batch[..i + 1][..i] == batch[..i];
    assert ByID(batch[..i + 1]) == ByID(batch[..i])[batch[i].resourceID := batch[i]];
  }

  lemma {:induction false} ByIDSize(findings: seq<Finding>)
    ensures |ByID(findings)| <= |findings|
  {
    if findings != [] {
      ByIDSize(findings[..|findings| - 1]);
    }
  }

  class Store {
    var findings: Findings

    ghost predicate Valid()
      reads this
    {
      KeyedByID(findings)
    }

    constructor ()
      ensures Valid() && findings == map[]
    {
      findings := map[];
    }

    /** Stores the batch by resource ID; also the second half of a replacement. */
    method SaveFindings(batch: seq<Finding>)
      requires Valid()
      modifies this
      ensures Valid()
      ensures findings == old(findings) + ByID(batch)
    {
      for i := 0 to |batch|
        invariant Valid()
        invariant findings == old(findings) + ByID(batch[..i])
      {
        SaveOneMore(old(findings), batch, i);
        findings := findings[batch[i].resourceID := batch[i]];
      }
      assert batch[..|batch|] == batch;
    }

    method ListFindings(filters: FindingFilters) returns (results: seq<Finding>)
      requires Valid()
      ensures IsListing(Selected(findings, filters), results)
    {
      results := [];
      var todo := findings.Keys;
      assert Selected(findings - todo, filters) == map[];
      while todo != {}
        invariant todo <= findings.Keys
        invariant IsListing(Selected(findings - todo, filters), results)
        decreases |todo|
      {
        var id :| id in todo;
        SelectOneMore(findings, filters, todo, id);
        if MatchesFilters(findings[id], filters) {
          ListOneMore(Selected(findings - todo, filters), results, findings[id]);
          results := results + [findings[id]];
        }
        todo := todo - {id};
      }
      assert findings - {} == findings;
    }

    /** Replacing evicts every finding of the type, then stores the batch by resource ID. */
    method ReplaceFindings(kind: string, batch: seq<Finding>)
      requires Valid()
      modifies this
      ensures Valid()
      ensures findings == Replaced(old(findings), kind, batch)
    {
      var todo := findings.Keys;
      while todo != {}
        invariant todo <= findings.Keys <= old(findings).Keys
        invariant forall id :: id in old(findings) ==>
            (id in findings <==> id in todo || old(findings)[id].kind != kind)
        invariant forall id :: id in findings ==> findings[id] == old(findings)[id]
        decreases |todo|
      {
        var id :| id in todo;
        todo := todo - {id};
        if findings[id].kind == kind {
          findings := findings - {id};
        }
      }
      assert findings == Evicted(old(findings), kind);
      SaveFindings(batch);
    }
  }

  // ---------------------------------------------------------------------------------------------
  // What replacing means for the types that share the store

  /** Every finding of `m` belongs to the type its resource ID belongs to. */
  predicate TypedBy(m: Findings, kindOf: string -> string) {
    forall id :: id in m ==> m[id].kind == kindOf(id)
  }

  predicate BatchTypedBy(findings: seq<Finding>, kind: string, kindOf: string -> string) {
    forall f :: f in findings ==> f.kind == kind == kindOf(f.resourceID)
  }

  /** When resource IDs are disjoint across types, replacing one type's findings leaves exactly the new
      batch under that type and touches no other type. */
  lemma ReplaceIsolatesTypes(m: Findings, kind: string, batch: seq<Finding>, kindOf: string -> string, other: string)
    requires KeyedByID(m) && TypedBy(m, kindOf) && BatchTypedBy(batch, kind, kindOf)
    ensures KeyedByID(Replaced(m, kind, batch)) && TypedBy(Replaced(m, kind, batch), kindOf)
    ensures Selected(Replaced(m, kind, batch), OfKind(other)) ==
            if other == kind then ByID(batch) else Selected(m, OfKind(other))
  {
    BatchByIDIsTyped(batch, kind, kindOf);
    ReplacedAt(m, kind, ByID(batch), kindOf, other);
  }

  lemma ReplacedAt(m: Findings, kind: string, stored: Findings, kindOf: string -> string, other: string)
    requires TypedBy(m, kindOf) && forall id :: id in stored ==> stored[id].kind == kind == kindOf(id)
    ensures Selected(Evicted(m, kind) + stored, OfKind(other)) ==
            if other == kind then stored else Selected(m, OfKind(other))
  {
    var r := Evicted(m, kind) + stored;
    forall id
      ensures id in r && r[id].kind == other <==>
              if other == kind then id in stored else id in m && m[id].kind == other
    {
    }
  }

  lemma BatchByIDIsTyped(batch: seq<Finding>, kind: string, kindOf: string -> string)
    requires BatchTypedBy(batch, kind, kindOf)
    ensures KeyedByID(ByID(batch))
    ensures forall id :: id in ByID(batch) ==> ByID(batch)[id].kind == kind == kindOf(id)
  {
    ByIDMembers(batch);
    forall id | id in ByID(batch) ensures ByID(batch)[id].kind == kind == kindOf(id) {
      assert ByID(batch)[id] in batch;
    }
  }
}
