/** Finding a saved snapshot by its ID: which stored object the lookup returns, and when it is the one
    that was saved. */
module SnapshotLookup {
  import opened Types
  import opened Text
  import opened SnapshotBuilder
  import opened SnapshotStore

  /** The buckets that saving produces: every object lies under its own key, or is the latest pointer. */
  ghost predicate Written(prefix: string, bucket: Bucket) {
    forall k :: k in bucket ==> k == LatestKey(prefix) || k == GenerateKey(prefix, bucket[k].day, bucket[k].snapshot.id)
  }

  lemma SaveKeepsWritten(bucket: Bucket, prefix: string, o: Stored, putOk: bool, latestOk: bool)
    requires Written(prefix, bucket)
    ensures Written(prefix, AfterSave(bucket, prefix, o, putOk, latestOk))
    ensures GenerateKey(prefix, o.day, o.snapshot.id) != LatestKey(prefix)
  {
    KeyIsNotLatest(prefix, o.day, o.snapshot.id);
  }

  lemma KeyIsNotLatest(prefix: string, day: string, id: string)
    ensures GenerateKey(prefix, day, id) != LatestKey(prefix)
  {
    var key := GenerateKey(prefix, day, id);
    assert key[|prefix| + |day|] == '/';
    if |day| < |"latest.json"| {
      assert LatestKey(prefix)[|prefix| + |day|] == "latest.json"[|day|];
    }
  }

  // ---------------------------------------------------------------------------------------------
  // What a key matches

  lemma SuffixOfBoth(s: string, id: string)
    ensures ContainsSnapshotID(s + ".json", id) <==> HasSuffix(s, id)
  {
    var key, suffix := s + ".json", id + ".json";
    if |key| >= |suffix| {
      assert key[|key| - |suffix|..] == s[|s| - |id|..] + ".json";
      if key[|key| - |suffix|..] == suffix {
        assert s[|s| - |id|..] == (s[|s| - |id|..] + ".json")[..|id|] == suffix[..|id|] == id;
      }
    }
  }

  lemma SlashFreeSuffix(head: string, a: string, b: string)
    requires '/' !in b
    ensures HasSuffix(head + "/" + a, b) <==> HasSuffix(a, b)
  {
    var s := head + "/" + a;
    if |b| <= |a| {
      assert s[|s| - |b|..] == a[|a| - |b|..];
    } else if |b| <= |s| {
      var i := |b| - |a| - 1;
      assert s[|s| - |b|..][i] == s[|head|] == '/';
      assert b[i] in b;
    }
  }

  /** The key of a snapshot matches a slash-free ID exactly when the ID ends the snapshot's. */
  lemma KeyMatchesSuffix(prefix: string, day: string, a: string, b: string)
    requires '/' !in b
    ensures ContainsSnapshotID(GenerateKey(prefix, day, a), b) <==> HasSuffix(a, b)
  {
    SuffixOfBoth(prefix + day + "/" + a, b);
    SlashFreeSuffix(prefix + day, a, b);
  }

  /** What the key of a stored object stands for. */
  function NameOf(prefix: string, bucket: Bucket, key: string): string
    requires key in bucket
  {
    if key == LatestKey(prefix) then prefix + "latest" else bucket[key].snapshot.id
  }

  lemma MatchesByName(prefix: string, bucket: Bucket, key: string, id: string)
    requires Written(prefix, bucket) && key in bucket && '/' !in id
    ensures ContainsSnapshotID(key, id) <==> HasSuffix(NameOf(prefix, bucket, key), id)
    ensures HasPrefix(key, prefix)
  {
    if key == LatestKey(prefix) {
      SuffixOfBoth(prefix + "latest", id);
      assert prefix + "latest" + ".json" == key;
    } else {
      KeyMatchesSuffix(prefix, bucket[key].day, bucket[key].snapshot.id, id);
    }
  }

  // ---------------------------------------------------------------------------------------------
  // The order of the listing

  lemma {:induction false} LessIsStrict(a: string, b: string)
    requires Less(a, b)
    ensures !Less(b, a) && a != b
  {
    if a != "" && a[0] == b[0] {
      LessIsStrict(a[1..], b[1..]);
    }
  }

  lemma {:induction false} LessByPart(p: string, a: string, b: string, x: string, y: string)
    requires Less(a, b) && |a| == |b|
    ensures Less(p + a + x, p + b + y)
  {
    if p != "" {
      assert (p + a + x)[1..] == p[1..] + a + x && (p + b + y)[1..] == p[1..] + b + y;
      LessByPart(p[1..], a, b, x, y);
    } else {
      assert p + a + x == a + x && p + b + y == b + y;
      if a[0] == b[0] {
        assert (a + x)[1..] == "" + a[1..] + x && (b + y)[1..] == "" + b[1..] + y;
        LessByPart("", a[1..], b[1..], x, y);
      }
    }
  }

  lemma {:induction false} FirstMatchIsFirst(keys: seq<string>, id: string)
    ensures FirstMatch(keys, id).None? ==> forall k :: k in keys ==> !ContainsSnapshotID(k, id)
    ensures FirstMatch(keys, id).Some? ==>
              exists i :: 0 <= i < |keys| && keys[i] == FirstMatch(keys, id).value && NoneMatch(keys[..i], id)
  {
    if keys != [] {
      var n := |keys| - 1;
      FirstMatchIsFirst(keys[..n], id);
      if FirstMatch(keys[..n], id).Some? {
        var i :| 0 <= i < n && keys[..n][i] == FirstMatch(keys[..n], id).value && NoneMatch(keys[..n][..i], id);
        assert keys[..n][..i] == keys[..i];
        assert keys[i] == FirstMatch(keys, id).value;
      } else if FirstMatch(keys, id).Some? {
        assert keys[n] == FirstMatch(keys, id).value && NoneMatch(keys[..n], id);
      }
    }
  }

  ghost predicate NoneMatch(keys: seq<string>, id: string) {
    forall k :: k in keys ==> !ContainsSnapshotID(k, id)
  }

  /** In an ascending listing the first match is the least one. */
  lemma FirstMatchIsLeast(keys: seq<string>, id: string, key: string)
    requires Ascending(keys) && key in keys && ContainsSnapshotID(key, id)
    ensures FirstMatch(keys, id) == Some(key) <==> forall k :: k in keys && Less(k, key) ==> !ContainsSnapshotID(k, id)
  {
    FirstMatchIsFirst(keys, id);
    var i :| 0 <= i < |keys| && keys[i] == FirstMatch(keys, id).value && NoneMatch(keys[..i], id);
    var j :| 0 <= j < |keys| && keys[j] == key;
    forall m | 0 <= m < i ensures !ContainsSnapshotID(keys[m], id) {
      assert keys[m] in keys[..i];
    }
    if i < j {
      assert Less(keys[i], keys[j]);
      LessIsStrict(keys[i], keys[j]);
    }
    forall k | i == j && k in keys && Less(k, key) ensures !ContainsSnapshotID(k, id) {
      var m :| 0 <= m < |keys| && keys[m] == k;
      LessIsStrict(k, key);
      assert j < m ==> Less(key, k);
      assert m < j;
    }
  }

  // ---------------------------------------------------------------------------------------------
  // Saving and finding

  /** Asking for a stored, slash-free ID returns the object under its own key exactly when no object
      with a smaller key has a name that ends with the ID. */
  lemma FoundUnderItsOwnKey(prefix: string, bucket: Bucket, keys: seq<string>, key: string)
    requires Written(prefix, bucket) && Lists(prefix, bucket, keys)
    requires key in bucket && key != LatestKey(prefix) && '/' !in bucket[key].snapshot.id
    ensures var id := bucket[key].snapshot.id;
            FirstMatch(keys, id) == Some(key) <==>
            forall k :: k in bucket && Less(k, key) ==> !HasSuffix(NameOf(prefix, bucket, k), id)
  {
    var id := bucket[key].snapshot.id;
    forall k | k in bucket
      ensures (ContainsSnapshotID(k, id) <==> HasSuffix(NameOf(prefix, bucket, k), id)) && k in keys
    {
      MatchesByName(prefix, bucket, k, id);
    }
    assert HasSuffix(id, id);
    FirstMatchIsLeast(keys, id, key);
  }

  /** A snapshot just saved is found by its ID when that ID ends no other stored snapshot's; the latest
      pointer does not stand in the way, since it holds the same snapshot. */
  lemma SavedIsFound(prefix: string, bucket: Bucket, snapshot: Snapshot, day: string, latestOk: bool, keys: seq<string>)
    requires Written(prefix, bucket) && '/' !in snapshot.id
    requires Lists(prefix, AfterSave(bucket, prefix, Stored(snapshot, day), true, latestOk), keys)
    requires forall k :: k in bucket && k != LatestKey(prefix) && k != GenerateKey(prefix, day, snapshot.id) ==>
                           !HasSuffix(bucket[k].snapshot.id, snapshot.id)
    requires !latestOk && LatestKey(prefix) in bucket ==> !HasSuffix(prefix + "latest", snapshot.id)
    ensures Found(AfterSave(bucket, prefix, Stored(snapshot, day), true, latestOk), keys, snapshot.id) == Some(snapshot)
  {
    var id, own := snapshot.id, GenerateKey(prefix, day, snapshot.id);
    var saved := AfterSave(bucket, prefix, Stored(snapshot, day), true, latestOk);
    SaveKeepsWritten(bucket, prefix, Stored(snapshot, day), true, latestOk);
    assert HasSuffix(id, id);
    MatchesByName(prefix, saved, own, id);
    FirstMatchIsFirst(keys, id);
    var target := FirstMatch(keys, id).value;
    MatchesByName(prefix, saved, target, id);
  }

  lemma {:induction false} EarlierKeyIsLess(prefix: string, day0: string, day1: string, id: string)
    requires Less(day0, day1) && |day0| == |day1|
    ensures Less(GenerateKey(prefix, day0, id), GenerateKey(prefix, day1, id))
  {
    var tail := "/" + id + ".json";
    LessByPart(prefix, day0, day1, tail, tail);
    assert prefix + day0 + tail == GenerateKey(prefix, day0, id);
    assert prefix + day1 + tail == GenerateKey(prefix, day1, id);
  }

  /** Two objects under one ID, saved on two days: the later one is never found by that ID. */
  lemma {:induction false} LaterDayIsNotFound(prefix: string, bucket: Bucket, keys: seq<string>, id: string,
                                              day0: string, day1: string)
    requires Written(prefix, bucket) && Lists(prefix, bucket, keys) && '/' !in id
    requires Less(day0, day1) && |day0| == |day1|
    requires GenerateKey(prefix, day0, id) in bucket && bucket[GenerateKey(prefix, day0, id)].snapshot.id == id
    requires GenerateKey(prefix, day1, id) in bucket && bucket[GenerateKey(prefix, day1, id)].snapshot.id == id
    ensures FirstMatch(keys, id) != Some(GenerateKey(prefix, day1, id))
  {
    var key0 := GenerateKey(prefix, day0, id);
    EarlierKeyIsLess(prefix, day0, day1, id);
    KeyIsNotLatest(prefix, day0, id);
    KeyIsNotLatest(prefix, day1, id);
    FoundUnderItsOwnKey(prefix, bucket, keys, GenerateKey(prefix, day1, id));
    assert HasSuffix(NameOf(prefix, bucket, key0), id);
  }

  lemma {:induction false} LessAt(p: string, a: string, b: string)
    requires a != "" && b != "" && a[0] < b[0]
    ensures Less(p + a, p + b)
  {
    LessByPart(p, a[..1], b[..1], a[1..], b[1..]);
    assert p + a[..1] + a[1..] == p + a && p + b[..1] + b[1..] == p + b;
  }

  function TwoDays(first: Snapshot, second: Snapshot): Bucket {
    var once := AfterSave(map[], "v/", Stored(first, "2024/01/01"), true, true);
    AfterSave(once, "v/", Stored(second, "2024/01/02"), true, true)
  }

  /** A concrete case: one ID saved on two days. The lookup answers with the first day's snapshot. */
  lemma SameIDOnTwoDays(first: Snapshot, second: Snapshot) returns (keys: seq<string>)
    requires first.id == second.id == "scan"
    ensures Lists("v/", TwoDays(first, second), keys)
    ensures Found(TwoDays(first, second), keys, "scan") == Some(first)
  {
    var bucket := TwoDays(first, second);
    var key0, key1 := GenerateKey("v/", "2024/01/01", "scan"), GenerateKey("v/", "2024/01/02", "scan");
    keys := [key0, key1, LatestKey("v/")];
    TwoDaysAscend();
    SaveKeepsWritten(map[], "v/", Stored(first, "2024/01/01"), true, true);
    SaveKeepsWritten(map["v/latest.json" := Stored(first, "2024/01/01")], "v/",
                     Stored(second, "2024/01/02"), true, true);
    assert HasPrefix(key0, "v/") && HasPrefix(key1, "v/") && HasPrefix(LatestKey("v/"), "v/");
    KeyMatchesSuffix("v/", "2024/01/01", "scan", "scan");
    assert keys[..1] == [key0] && [key0][..0] == [];
    assert FirstMatch([key0], "scan") == Some(key0);
    FirstMatchStays(keys, "scan", 1);
    assert key0 != key1;
  }

  lemma AscendingThree(a: string, b: string, c: string)
    requires Less(a, b) && Less(b, c) && Less(a, c)
    ensures Ascending([a, b, c])
  {
  }

  lemma BeforeLatest(day: string)
    requires day != "" && day[0] < 'l'
    ensures Less(GenerateKey("v/", day, "scan"), LatestKey("v/"))
  {
    LessAt("v/", day + "/" + "scan" + ".json", "latest.json");
    assert GenerateKey("v/", day, "scan") == "v/" + (day + "/" + "scan" + ".json");
  }

  lemma NextDayIsGreater()
    ensures Less("2024/01/01", "2024/01/02")
  {
    LessAt("2024/01/0", "1", "2");
  }

  lemma TwoDaysAscend()
    ensures Ascending([GenerateKey("v/", "2024/01/01", "scan"), GenerateKey("v/", "2024/01/02", "scan"),
                       LatestKey("v/")])
    ensures GenerateKey("v/", "2024/01/01", "scan") != GenerateKey("v/", "2024/01/02", "scan")
  {
    var day0, day1 := "2024/01/01", "2024/01/02";
    NextDayIsGreater();
    EarlierKeyIsLess("v/", day0, day1, "scan");
    BeforeLatest(day0);
    BeforeLatest(day1);
    LessIsStrict(GenerateKey("v/", day0, "scan"), GenerateKey("v/", day1, "scan"));
    AscendingThree(GenerateKey("v/", day0, "scan"), GenerateKey("v/", day1, "scan"), LatestKey("v/"));
  }
}
