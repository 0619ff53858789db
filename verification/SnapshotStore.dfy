/** The bucket of snapshots: saving under a dated key, listing page by page, and finding by ID. */
module SnapshotStore {
  import opened Types
  import opened Text
  import opened SnapshotBuilder

  /** An object of the bucket, with the day path of the snapshot's generation time. */
  datatype Stored = Stored(snapshot: Snapshot, day: string)

  type Bucket = map<string, Stored>

  function LatestKey(prefix: string): string {
    prefix + "latest.json"
  }

  function GenerateKey(prefix: string, day: string, id: string): string {
    prefix + day + "/" + id + ".json"
  }

  predicate ContainsSnapshotID(key: string, id: string) {
    var expectedSuffix := id + ".json";
    |key| >= |expectedSuffix| && key[|key| - |expectedSuffix|..] == expectedSuffix
  }

  // ---------------------------------------------------------------------------------------------
  // The server's listing

  predicate Less(a: string, b: string) {
    if b == "" then false
    else if a == "" then true
    else a[0] < b[0] || (a[0] == b[0] && Less(a[1..], b[1..]))
  }

  ghost predicate Ascending(keys: seq<string>) {
    forall i, j :: 0 <= i < j < |keys| ==> Less(keys[i], keys[j])
  }

  /** The keys under the prefix, each once, in the order of their characters. */
  ghost predicate Lists(prefix: string, bucket: Bucket, keys: seq<string>) {
    Ascending(keys) && forall k :: k in keys <==> k in bucket && HasPrefix(k, prefix)
  }

  /** What the server does with one request: it fails, or it gives a page of a length of its choosing. */
  datatype Choice = Fails | Gives(n: nat)

  datatype Reply = Failed | Page(keys: seq<string>, truncated: bool)

  /** The server stays within the keys asked for. A page may be empty although more keys follow. */
  function Serve(keys: seq<string>, offset: nat, maxKeys: int, choice: Choice): Reply
    requires offset <= |keys|
  {
    match choice
    case Fails => Failed
    case Gives(n) =>
      var rest := |keys| - offset;
      var most := if maxKeys <= 0 then 0 else if maxKeys < rest then maxKeys else rest;
      var size := if n < most then n else most;
      Page(keys[offset..offset + size], most > 0 && size < rest)
  }

  /** The first `calls` requests are answered. */
  ghost predicate Answers(server: nat -> Choice, calls: nat) {
    forall i: nat :: i < calls ==> server(i).Gives?
  }

  /** From its `patience`-th request on, the server gives no more empty pages while keys are left. */
  ghost predicate GivesFrom(server: nat -> Choice, patience: nat) {
    forall i: nat :: patience <= i && server(i).Gives? ==> server(i).n > 0
  }

  /** How many requests a walk over the listing can still make. */
  ghost function RequestsLeft(keys: seq<string>, offset: nat, request: nat, patience: nat): nat
    requires offset <= |keys|
  {
    |keys| - offset + if request < patience then patience - request else 0
  }

  /** A request that is answered with a truncated page brings the end of the walk nearer. */
  lemma ServeAdvances(keys: seq<string>, offset: nat, maxKeys: int, server: nat -> Choice, request: nat, patience: nat)
    requires offset <= |keys| && GivesFrom(server, patience)
    ensures var reply := Serve(keys, offset, maxKeys, server(request));
            && (reply.Failed? <==> !server(request).Gives?)
            && (reply.Page? ==>
                  && offset + |reply.keys| <= |keys| && reply.keys == keys[offset..offset + |reply.keys|]
                  && (maxKeys <= 0 ==> reply.keys == [] && !reply.truncated)
                  && (maxKeys > 0 && !reply.truncated ==> offset + |reply.keys| == |keys|)
                  && (reply.truncated ==> RequestsLeft(keys, offset + |reply.keys|, request + 1, patience) <
                                          RequestsLeft(keys, offset, request, patience)))
  {
  }

  // ---------------------------------------------------------------------------------------------
  // What listing and finding mean

  datatype Metadata = Metadata(key: string, snapshotID: string, totalResources: int)

  /** The latest pointer and objects whose metadata cannot be read are skipped. */
  function HeadSnapshotObject(prefix: string, bucket: Bucket, failing: set<string>, key: string): Option<Metadata> {
    if key == LatestKey(prefix) || key in failing || key !in bucket then None
    else Some(Metadata(key, bucket[key].snapshot.id, bucket[key].snapshot.summary.overall.total))
  }

  function Heads(prefix: string, bucket: Bucket, failing: set<string>, keys: seq<string>): seq<Metadata> {
    if keys == [] then []
    else
      var n := |keys| - 1;
      var head := HeadSnapshotObject(prefix, bucket, failing, keys[n]);
      Heads(prefix, bucket, failing, keys[..n]) + if head.Some? then [head.value] else []
  }

  /** An entry of a listing: what the bucket holds under a readable key other than the latest pointer's. */
  predicate IsEntry(prefix: string, bucket: Bucket, failing: set<string>, keys: seq<string>, m: Metadata) {
    && m.key in keys && m.key in bucket && m.key !in failing && m.key != prefix + "latest.json"
    && m.snapshotID == bucket[m.key].snapshot.id
    && m.totalResources == bucket[m.key].snapshot.summary.overall.total
  }

  lemma {:induction false} HeadsAreEntries(prefix: string, bucket: Bucket, failing: set<string>, keys: seq<string>,
                                           m: Metadata)
    ensures m in Heads(prefix, bucket, failing, keys) <==> IsEntry(prefix, bucket, failing, keys, m)
  {
    if keys != [] {
      var n := |keys| - 1;
      HeadsAreEntries(prefix, bucket, failing, keys[..n], m);
      assert m.key in keys <==> m.key in keys[..n] || m.key == keys[n];
      var head := HeadSnapshotObject(prefix, bucket, failing, keys[n]);
      assert m in Heads(prefix, bucket, failing, keys) <==>
          m in Heads(prefix, bucket, failing, keys[..n]) || head == Some(m);
    }
  }

  ghost predicate EntriesAscend(entries: seq<Metadata>) {
    forall i, j :: 0 <= i < j < |entries| ==> Less(entries[i].key, entries[j].key)
  }

  lemma {:induction false} HeadsAscend(prefix: string, bucket: Bucket, failing: set<string>, keys: seq<string>)
    requires Ascending(keys)
    ensures EntriesAscend(Heads(prefix, bucket, failing, keys))
  {
    if keys != [] {
      var n := |keys| - 1;
      var rest, head := Heads(prefix, bucket, failing, keys[..n]), HeadSnapshotObject(prefix, bucket, failing, keys[n]);
      HeadsAscend(prefix, bucket, failing, keys[..n]);
      forall i | 0 <= i < |rest| ensures Less(rest[i].key, keys[n]) {
        HeadsAreEntries(prefix, bucket, failing, keys[..n], rest[i]);
        var k :| 0 <= k < n && keys[..n][k] == rest[i].key;
        assert Less(keys[k], keys[n]);
      }
      assert head.Some? ==> head.value.key == keys[n];
    }
  }

  /** The listing holds all these entries and nothing else, in the ascending order of their keys, so
      each once. */
  lemma HeadsAreExact(prefix: string, bucket: Bucket, failing: set<string>, keys: seq<string>)
    requires Ascending(keys)
    ensures forall m :: m in Heads(prefix, bucket, failing, keys) <==> IsEntry(prefix, bucket, failing, keys, m)
    ensures EntriesAscend(Heads(prefix, bucket, failing, keys))
  {
    forall m ensures m in Heads(prefix, bucket, failing, keys) <==> IsEntry(prefix, bucket, failing, keys, m) {
      HeadsAreEntries(prefix, bucket, failing, keys, m);
    }
    HeadsAscend(prefix, bucket, failing, keys);
  }

  function FirstOf<T>(s: seq<T>, limit: int): seq<T> {
    if limit <= 0 then [] else if limit < |s| then s[..limit] else s
  }

  function FirstMatch(keys: seq<string>, id: string): (r: Option<string>)
    ensures r.Some? ==> r.value in keys && ContainsSnapshotID(r.value, id)
  {
    if keys == [] then None
    else
      var n := |keys| - 1;
      var r := FirstMatch(keys[..n], id);
      if r.Some? then r
      else if ContainsSnapshotID(keys[n], id) then Some(keys[n])
      else None
  }

  /** The snapshot found by its ID. */
  function Found(bucket: Bucket, keys: seq<string>, id: string): Option<Snapshot> {
    var target := FirstMatch(keys, id);
    if target.Some? && target.value in bucket then Some(bucket[target.value].snapshot) else None
  }

  lemma {:induction false} HeadsGrow(prefix: string, bucket: Bucket, failing: set<string>, keys: seq<string>, k: nat)
    requires k <= |keys|
    ensures Heads(prefix, bucket, failing, keys[..k]) <= Heads(prefix, bucket, failing, keys)
  {
    if k == |keys| {
      assert keys[..k] == keys;
    } else {
      var n := |keys| - 1;
      assert keys[..n][..k] == keys[..k];
      HeadsGrow(prefix, bucket, failing, keys[..n], k);
    }
  }

  lemma {:induction false} FirstMatchStays(keys: seq<string>, id: string, k: nat)
    requires k <= |keys| && FirstMatch(keys[..k], id).Some?
    ensures FirstMatch(keys, id) == FirstMatch(keys[..k], id)
  {
    if k == |keys| {
      assert keys[..k] == keys;
    } else {
      var n := |keys| - 1;
      assert keys[..n][..k] == keys[..k];
      FirstMatchStays(keys[..n], id, k);
    }
  }

  lemma HeadsStep(prefix: string, bucket: Bucket, failing: set<string>, keys: seq<string>, k: nat)
    requires k < |keys|
    ensures var head := HeadSnapshotObject(prefix, bucket, failing, keys[k]);
            Heads(prefix, bucket, failing, keys[..k + 1]) ==
            Heads(prefix, bucket, failing, keys[..k]) + if head.Some? then [head.value] else []
  {
    assert keys[..k + 1][..k] == keys[..k];
  }

  lemma LimitReached(prefix: string, bucket: Bucket, failing: set<string>, keys: seq<string>, k: nat, limit: int)
    requires k <= |keys| && limit == |Heads(prefix, bucket, failing, keys[..k])| > 0
    ensures FirstOf(Heads(prefix, bucket, failing, keys), limit) == Heads(prefix, bucket, failing, keys[..k])
  {
    HeadsGrow(prefix, bucket, failing, keys, k);
  }

  lemma EndOfListing(prefix: string, bucket: Bucket, failing: set<string>, keys: seq<string>, k: nat, limit: int)
    requires k <= |keys|
    requires if limit <= 0 then k == 0 else k == |keys| && |Heads(prefix, bucket, failing, keys[..k])| < limit
    ensures FirstOf(Heads(prefix, bucket, failing, keys), limit) == Heads(prefix, bucket, failing, keys[..k])
  {
    assert keys[..|keys|] == keys;
  }

  lemma MatchStep(keys: seq<string>, id: string, k: nat)
    requires k < |keys| && FirstMatch(keys[..k], id).None?
    ensures FirstMatch(keys[..k + 1], id) == if ContainsSnapshotID(keys[k], id) then Some(keys[k]) else None
  {
    assert keys[..k + 1][..k] == keys[..k];
  }

  class S3Store {
    const prefix: string
    var bucket: Bucket

    constructor (prefix: string)
      ensures this.prefix == prefix && bucket == map[]
    {
      this.prefix := prefix;
      bucket := map[];
    }

    /** A failure of the second write is reported, but the snapshot is stored by then. */
    method SaveSnapshot(snapshot: Snapshot, day: string, putOk: bool, latestOk: bool) returns (ok: bool)
      modifies this
      ensures ok == (putOk && latestOk)
      ensures bucket == AfterSave(old(bucket), prefix, Stored(snapshot, day), putOk, latestOk)
      ensures !putOk ==> bucket == old(bucket)
      ensures putOk ==>
                var stored := old(bucket)[prefix + day + "/" + snapshot.id + ".json" := Stored(snapshot, day)];
                bucket == if latestOk then stored[prefix + "latest.json" := Stored(snapshot, day)] else stored
    {
      var key := GenerateKey(prefix, day, snapshot.id);
      if !putOk {
        return false;
      }
      bucket := bucket[key := Stored(snapshot, day)];
      if !latestOk {
        return false;
      }
      bucket := bucket[LatestKey(prefix) := Stored(snapshot, day)];
      return true;
    }

    /** Reads the metadata of one page of the listing until `remaining` entries are found. */
    method HeadPage(contents: seq<string>, failing: set<string>, before: seq<Metadata>, remaining: int,
                    ghost keys: seq<string>, ghost from: nat)
      returns (metadata: seq<Metadata>, left: int, ghost k: nat)
      requires from + |contents| <= |keys| && contents == keys[from..from + |contents|]
      requires before == Heads(prefix, bucket, failing, keys[..from]) && remaining > 0
      ensures from <= k <= from + |contents| && metadata == Heads(prefix, bucket, failing, keys[..k])
      ensures left == remaining - (|metadata| - |before|)
      ensures left == 0 || (0 < left && k == from + |contents|)
    {
      metadata, left, k := before, remaining, from;
      for i := 0 to |contents|
        invariant k == from + i && metadata == Heads(prefix, bucket, failing, keys[..k])
        invariant left == remaining - (|metadata| - |before|) && left > 0
      {
        HeadsStep(prefix, bucket, failing, keys, k);
        assert contents[i] == keys[k];
        k := k + 1;
        var meta := HeadSnapshotObject(prefix, bucket, failing, contents[i]);
        if meta.None? {
          continue;
        }
        metadata := metadata + [meta.value];
        left := left - 1;
        if left <= 0 {
          return;
        }
      }
    }

    /** The listing has been read up to `offset`, and `remaining` entries are still wanted. */
    ghost predicate Walked(keys: seq<string>, failing: set<string>, limit: int, offset: nat, metadata: seq<Metadata>,
                           remaining: int)
      requires offset <= |keys|
      reads this
    {
      && metadata == Heads(prefix, bucket, failing, keys[..offset])
      && remaining == limit - |metadata|
      && (offset > 0 ==> remaining > 0)
    }

    /** Whatever pages the server makes of the listing, the result is its first entries, the latest
        pointer and unreadable objects left out; an error is the server's. */
    method ListSnapshots(keys: seq<string>, failing: set<string>, limit: int, server: nat -> Choice,
                         ghost patience: nat)
      returns (r: Result<seq<Metadata>>, ghost calls: nat)
      requires GivesFrom(server, patience)
      ensures r.Ok? ==> r.value == FirstOf(Heads(prefix, bucket, failing, keys), limit)
      ensures r.Ok? <==> Answers(server, calls)
      ensures r.Err? ==> calls > 0 && Answers(server, calls - 1)
      ensures calls <= |keys| + patience + 1
    {
      var metadata: seq<Metadata> := [];
      var offset, request := 0, 0;
      calls := 0;
      var remaining := limit;
      while true
        invariant 0 <= offset <= |keys| && request == calls && Answers(server, calls)
        invariant calls + RequestsLeft(keys, offset, request, patience) <= |keys| + patience
        invariant Walked(keys, failing, limit, offset, metadata, remaining)
        decreases RequestsLeft(keys, offset, request, patience)
      {
        var pageSize := if remaining > 1000 then 1000 else remaining;
        ServeAdvances(keys, offset, pageSize, server, request, patience);
        var reply := Serve(keys, offset, pageSize, server(request));
        request, calls := request + 1, calls + 1;
        if reply.Failed? {
          return Err("failed to list snapshots"), calls;
        }
        if reply.keys != [] {
          ghost var k;
          metadata, remaining, k := HeadPage(reply.keys, failing, metadata, remaining, keys, offset);
          if remaining <= 0 {
            LimitReached(prefix, bucket, failing, keys, k, limit);
            return Ok(metadata), calls;
          }
        }
        offset := offset + |reply.keys|;
        if !(reply.truncated && remaining > 0) {
          break;
        }
      }
      EndOfListing(prefix, bucket, failing, keys, offset, limit);
      return Ok(metadata), calls;
    }

    /** The first match of one page of the listing, or nothing. */
    method MatchPage(contents: seq<string>, id: string, ghost keys: seq<string>, ghost from: nat)
      returns (target: string)
      requires from + |contents| <= |keys| && contents == keys[from..from + |contents|]
      requires FirstMatch(keys[..from], id).None?
      ensures target == "" ==> FirstMatch(keys[..from + |contents|], id).None?
      ensures target != "" ==> FirstMatch(keys, id) == Some(target)
    {
      target := "";
      for i := 0 to |contents|
        invariant FirstMatch(keys[..from + i], id).None?
      {
        assert contents[i] == keys[from + i];
        MatchStep(keys, id, from + i);
        if ContainsSnapshotID(contents[i], id) {
          FirstMatchStays(keys, id, from + i + 1);
          return contents[i];
        }
      }
    }

    /** Walks the listing for the first match; an empty key stands for none. */
    method FindKey(id: string, keys: seq<string>, server: nat -> Choice, ghost patience: nat)
      returns (answered: bool, targetKey: string, ghost calls: nat)
      requires GivesFrom(server, patience)
      ensures answered <==> Answers(server, calls)
      ensures !answered ==> calls > 0 && Answers(server, calls - 1)
      ensures answered ==> FirstMatch(keys, id) == if targetKey == "" then None else Some(targetKey)
      ensures calls <= |keys| + patience + 1
    {
      targetKey := "";
      var offset, request := 0, 0;
      calls := 0;
      while true
        invariant 0 <= offset <= |keys| && request == calls && Answers(server, calls)
        invariant calls + RequestsLeft(keys, offset, request, patience) <= |keys| + patience
        invariant FirstMatch(keys[..offset], id).None?
        decreases RequestsLeft(keys, offset, request, patience)
      {
        ServeAdvances(keys, offset, 1000, server, request, patience);
        var reply := Serve(keys, offset, 1000, server(request));
        request, calls := request + 1, calls + 1;
        if reply.Failed? {
          return false, "", calls;
        }
        targetKey := MatchPage(reply.keys, id, keys, offset);
        if targetKey != "" {
          return true, targetKey, calls;
        }
        offset := offset + |reply.keys|;
        if !reply.truncated {
          break;
        }
      }
      assert keys[..|keys|] == keys;
      return true, "", calls;
    }

    /** The object found is the first match of the listing, whatever pages the server makes of it. */
    method GetSnapshot(id: string, keys: seq<string>, server: nat -> Choice, getOk: bool, ghost patience: nat)
      returns (r: Result<Snapshot>, ghost calls: nat)
      requires GivesFrom(server, patience)
      ensures r.Ok? ==> Found(bucket, keys, id) == Some(r.value)
      ensures r.Ok? <==> Answers(server, calls) && getOk && Found(bucket, keys, id).Some?
      ensures !Answers(server, calls) ==> calls > 0 && Answers(server, calls - 1)
      ensures calls <= |keys| + patience + 1
    {
      var answered, targetKey;
      answered, targetKey, calls := FindKey(id, keys, server, patience);
      if !answered {
        return Err("failed to list snapshots"), calls;
      }
      if targetKey == "" {
        return Err("snapshot not found"), calls;
      }
      if !getOk || targetKey !in bucket {
        return Err("failed to get snapshot"), calls;
      }
      return Ok(bucket[targetKey].snapshot), calls;
    }
  }

  function AfterSave(bucket: Bucket, prefix: string, o: Stored, putOk: bool, latestOk: bool): Bucket {
    if !putOk then bucket
    else
      var saved := bucket[GenerateKey(prefix, o.day, o.snapshot.id) := o];
      if latestOk then saved[LatestKey(prefix) := o] else saved
  }
}
