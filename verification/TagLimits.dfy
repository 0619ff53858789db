/** How far the parser of the tags column can be trusted: for tags with distinct keys and without quotes,
    printing and parsing gives the tags back exactly when the braces of each of them balance. */
module TagLimits {
  import opened Types
  import opened Tags
  import opened TagFields

  // ---------------------------------------------------------------------------------------------
  // What the splitter finds after a tag

  /** No piece of `s` that starts with a brace at `m` or later is one of `p`. */
  ghost predicate Avoids(s: string, m: nat, p: string -> bool) {
    forall a, b :: m <= a < b <= |s| && s[a] == '{' ==> !p(s[a..b])
  }

  ghost predicate NoneOf(objects: seq<string>, p: string -> bool) {
    forall i :: 0 <= i < |objects| ==> !p(objects[i])
  }

  /** The object open at `m`, if there is one, will not be one of `p` either. */
  ghost predicate OpenAvoids(s: string, m: nat, p: string -> bool)
    requires m <= |s|
  {
    SplitState(s[..m]).depth > 0 ==> forall b :: m <= b <= |s| ==> !p(s[SplitState(s[..m]).start..b])
  }

  lemma SplitOne(s: string, k: nat)
    requires k < |s|
    ensures var st, next := SplitState(s[..k]), SplitState(s[..k + 1]);
            && next.start == (if s[k] == '{' && st.depth == 0 then k else st.start)
            && next.depth == (if s[k] == '{' then st.depth + 1 else if s[k] == '}' then st.depth - 1 else st.depth)
            && st.start <= k
            && next.tags == if s[k] == '}' && st.depth == 1 then st.tags + [s[st.start..k + 1]] else st.tags
  {
    assert s[..k + 1][..k] == s[..k];
    var st := SplitState(s[..k]);
    assert s[..k + 1][st.start..] == s[st.start..k + 1];
  }

  /** The object that is open at `k` was opened after `m`, or was open at `m` already. */
  predicate OpenedSince(s: string, m: nat, k: nat)
    requires m <= k <= |s|
  {
    var before, st := SplitState(s[..m]), SplitState(s[..k]);
    st.depth > 0 ==>
      || (m <= st.start < k && s[st.start] == '{')
      || (before.depth > 0 && st.start == before.start)
  }

  lemma ClosedAvoids(s: string, m: nat, k: nat, p: string -> bool)
    requires m <= k < |s| && Avoids(s, m, p) && OpenAvoids(s, m, p) && OpenedSince(s, m, k)
    requires SplitState(s[..k]).depth == 1
    ensures SplitState(s[..k]).start <= k && !p(s[SplitState(s[..k]).start..k + 1])
  {
  }

  lemma StillOpened(s: string, m: nat, k: nat)
    requires m <= k < |s| && OpenedSince(s, m, k)
    ensures OpenedSince(s, m, k + 1)
  {
    SplitOne(s, k);
  }

  /** The objects split off since `m`, none of which is one of `p`. */
  ghost predicate SplitOff(s: string, m: nat, k: nat, p: string -> bool)
    requires m <= k <= |s|
  {
    var before, after := SplitState(s[..m]).tags, SplitState(s[..k]).tags;
    before <= after && NoneOf(after[|before|..], p)
  }

  lemma MoreSplitOff(s: string, m: nat, k: nat, p: string -> bool)
    requires m <= k < |s| && SplitOff(s, m, k, p)
    requires SplitState(s[..k]).start <= k
    requires SplitState(s[..k]).depth == 1 ==> !p(s[SplitState(s[..k]).start..k + 1])
    ensures SplitOff(s, m, k + 1, p)
  {
    SplitOne(s, k);
    var before, now, next := SplitState(s[..m]).tags, SplitState(s[..k]).tags, SplitState(s[..k + 1]).tags;
    if now != next {
      var o := s[SplitState(s[..k]).start..k + 1];
      assert next[|before|..] == now[|before|..] + [o];
    }
  }

  lemma OneMoreAvoids(s: string, m: nat, k: nat, p: string -> bool)
    requires m <= k < |s| && Avoids(s, m, p) && OpenAvoids(s, m, p)
    requires OpenedSince(s, m, k) && SplitOff(s, m, k, p)
    ensures OpenedSince(s, m, k + 1) && SplitOff(s, m, k + 1, p)
  {
    SplitOne(s, k);
    if SplitState(s[..k]).depth == 1 {
      ClosedAvoids(s, m, k, p);
    }
    MoreSplitOff(s, m, k, p);
    StillOpened(s, m, k);
  }

  /** Whatever is split off after `m` is not one of `p`. */
  lemma {:induction false} SplitAvoids(s: string, m: nat, k: nat, p: string -> bool)
    requires m <= k <= |s| && Avoids(s, m, p) && OpenAvoids(s, m, p)
    ensures OpenedSince(s, m, k) && SplitOff(s, m, k, p)
  {
    if k > m {
      SplitAvoids(s, m, k - 1, p);
      OneMoreAvoids(s, m, k - 1, p);
    }
  }

  // ---------------------------------------------------------------------------------------------
  // What the map holds under one key

  function PairsOf(objects: seq<string>): seq<(string, string)> {
    if objects == [] then [] else PairsOf(objects[..|objects| - 1]) + [ParseTagObject(objects[|objects| - 1])]
  }

  /** The value of the last pair with this key. */
  function LastValue(pairs: seq<(string, string)>, key: string): Option<string> {
    if pairs == [] then None
    else
      var (k, v) := pairs[|pairs| - 1];
      if k == key then Some(v) else LastValue(pairs[..|pairs| - 1], key)
  }

  function ValueAt(objects: seq<string>, key: string): Option<string> {
    LastValue(PairsOf(objects), key)
  }

  lemma {:induction false} CollectHolds(objects: seq<string>, key: string)
    requires key != ""
    ensures key in Collect(objects) <==> ValueAt(objects, key).Some?
    ensures key in Collect(objects) ==> Collect(objects)[key] == ValueAt(objects, key).value
  {
    if objects != [] {
      var n := |objects| - 1;
      var pair := ParseTagObject(objects[n]);
      CollectHolds(objects[..n], key);
      assert (PairsOf(objects[..n]) + [pair])[..n] == PairsOf(objects[..n]) by {
        PairsLength(objects[..n]);
      }
    }
  }

  lemma {:induction false} PairsLength(objects: seq<string>)
    ensures |PairsOf(objects)| == |objects|
  {
    if objects != [] {
      PairsLength(objects[..|objects| - 1]);
    }
  }

  lemma {:induction false} PairsAt(objects: seq<string>, i: nat)
    requires i < |objects|
    ensures |PairsOf(objects)| == |objects| && PairsOf(objects)[i] == ParseTagObject(objects[i])
  {
    var n := |objects| - 1;
    PairsLength(objects[..n]);
    if i < n {
      PairsAt(objects[..n], i);
    }
  }

  lemma {:induction false} PairsAppend(objects: seq<string>, more: seq<string>)
    ensures PairsOf(objects + more) == PairsOf(objects) + PairsOf(more)
  {
    if more == [] {
      assert objects + more == objects;
    } else {
      var n := |more| - 1;
      assert (objects + more)[..|objects + more| - 1] == objects + more[..n];
      PairsAppend(objects, more[..n]);
    }
  }

  lemma {:induction false} LastValueAvoids(pairs: seq<(string, string)>, more: seq<(string, string)>, key: string)
    requires forall i :: 0 <= i < |more| ==> more[i].0 != key
    ensures LastValue(pairs + more, key) == LastValue(pairs, key)
  {
    if more == [] {
      assert pairs + more == pairs;
    } else {
      var n := |more| - 1;
      assert (pairs + more)[..|pairs + more| - 1] == pairs + more[..n];
      LastValueAvoids(pairs, more[..n], key);
    }
  }

  function HasKey(key: string): string -> bool {
    (o: string) => FieldText(o, "key") == key
  }

  lemma CollectAvoids(objects: seq<string>, more: seq<string>, key: string)
    requires NoneOf(more, HasKey(key))
    ensures ValueAt(objects + more, key) == ValueAt(objects, key)
  {
    PairsAppend(objects, more);
    PairsLength(more);
    forall i | 0 <= i < |more| ensures PairsOf(more)[i].0 != key {
      PairsAt(more, i);
      assert !HasKey(key)(more[i]);
    }
    LastValueAvoids(PairsOf(objects), PairsOf(more), key);
  }

  /** The value under the key is the same before and after what is split off from `m` on. */
  lemma KeyIsSettled(s: string, m: nat, key: string)
    requires m <= |s| && Avoids(s, m, HasKey(key)) && OpenAvoids(s, m, HasKey(key))
    ensures ValueAt(SplitState(s).tags, key) == ValueAt(SplitState(s[..m]).tags, key)
  {
    SplitAvoids(s, m, |s|, HasKey(key));
    SettledBySplit(s, m, key);
  }

  lemma SettledBySplit(s: string, m: nat, key: string)
    requires m <= |s| && SplitOff(s, m, |s|, HasKey(key))
    ensures ValueAt(SplitState(s).tags, key) == ValueAt(SplitState(s[..m]).tags, key)
  {
    assert s[..|s|] == s;
    var before, after := SplitState(s[..m]).tags, SplitState(s).tags;
    assert after == before + after[|before|..];
    CollectAvoids(before, after[|before|..], key);
  }

  // ---------------------------------------------------------------------------------------------
  // A list with an unbalanced tag

  ghost predicate DistinctKeys(tags: seq<Tag>) {
    forall i, j :: 0 <= i < j < |tags| ==> tags[i].key != tags[j].key
  }

  /** What is printed before a tag. */
  function Before(pre: seq<Tag>): string {
    if pre == [] then "" else PrintAll(pre) + ","
  }

  lemma {:induction false} TailAppend(post: seq<Tag>, t: Tag)
    ensures Tail(post + [t]) == Tail(post) + ("," + PrintTag(t))
  {
    if post == [] {
      assert [t][1..] == [];
      assert "," + PrintTag(t) + "" == "," + PrintTag(t);
    } else {
      assert (post + [t])[1..] == post[1..] + [t];
      TailAppend(post[1..], t);
      var head := "," + PrintTag(post[0]);
      assert head + (Tail(post[1..]) + ("," + PrintTag(t))) == head + Tail(post[1..]) + ("," + PrintTag(t));
    }
  }

  lemma {:induction false} PrintAllSplits(pre: seq<Tag>, t: Tag, post: seq<Tag>)
    ensures PrintAll(pre + [t] + post) == Before(pre) + (PrintTag(t) + Tail(post))
  {
    if post == [] {
      assert pre + [t] + post == pre + [t];
      assert (pre + [t])[..|pre|] == pre;
      assert PrintTag(t) + "" == PrintTag(t);
    } else {
      var n := |post| - 1;
      var all := pre + [t] + post;
      PrintAllSplits(pre, t, post[..n]);
      TailAppend(post[..n], post[n]);
      assert post[..n] + [post[n]] == post;
      assert all[..|all| - 1] == pre + [t] + post[..n] && all[|all| - 1] == post[n];
      SplitText(Before(pre), PrintTag(t), Tail(post[..n]), "," + PrintTag(post[n]));
      PrintAllLast(all);
    }
  }

  lemma PrintAllLast(tags: seq<Tag>)
    requires |tags| > 1
    ensures PrintAll(tags) == PrintAll(tags[..|tags| - 1]) + ("," + PrintTag(tags[|tags| - 1]))
  {
    var before, last := PrintAll(tags[..|tags| - 1]), PrintTag(tags[|tags| - 1]);
    assert PrintAll(tags) == before + "," + last;
  }

  lemma SplitText(a: string, b: string, c: string, d: string)
    ensures a + (b + c) + d == a + (b + (c + d))
  {
  }

  lemma {:induction false} LastWinsKeys(tags: seq<Tag>)
    ensures LastWins(tags).Keys == KeySet(tags) - {""}
  {
    if tags != [] {
      var n := |tags| - 1;
      LastWinsKeys(tags[..n]);
      assert tags == tags[..n] + [tags[n]];
    }
  }

  lemma {:induction false} LastWinsAt(tags: seq<Tag>, i: nat)
    requires DistinctKeys(tags) && i < |tags| && tags[i].key != ""
    ensures tags[i].key in LastWins(tags) && LastWins(tags)[tags[i].key] == tags[i].value
  {
    var n := |tags| - 1;
    if i < n {
      LastWinsAt(tags[..n], i);
    }
  }

  /** After what stands before a tag, the splitter is outside all objects, with the earlier ones found. */
  lemma SplitBefore(pre: seq<Tag>, key: string)
    requires AllPrintable(pre) && key != "" && key !in KeySet(pre)
    ensures SplitState(Before(pre)).depth == 0
    ensures ValueAt(SplitState(Before(pre)).tags, key) == None
  {
    if pre == [] {
      assert SplitState(Before(pre)) == Split(0, 0, []);
    } else {
      SplitOfPrinted(pre);
      SplitComma(PrintAll(pre));
      CollectOfPrinted(pre);
      LastWinsKeys(pre);
      CollectHolds(PrintEach(pre), key);
    }
  }

  /** The pieces of a text that start inside the text following `before` are pieces of that text. */
  lemma PieceOf(before: string, rest: string, a: nat, b: nat)
    requires |before| <= a <= b <= |before + rest|
    ensures (before + rest)[a..b] == rest[a - |before|..][..b - a]
  {
  }

  lemma PieceKeys(before: string, rest: string, a: nat, b: nat, key: string)
    requires |before| <= a < b <= |before + rest| && key != ""
    requires FieldText(rest[a - |before|..], "key") != key
    ensures FieldText((before + rest)[a..b], "key") != key
  {
    PieceOf(before, rest, a, b);
    FieldCut(rest[a - |before|..], b - a, "key");
  }

  lemma PieceLacksKey(before: string, t: Tag, post: seq<Tag>, rest: string, a: nat, b: nat)
    requires QuoteFree(t) && AllQuoteFree(post) && t.key != "" && t.key !in KeySet(post)
    requires rest == PrintTag(t) + Tail(post) && |before| < a < b <= |before + rest| && rest[a - |before|] == '{'
    ensures FieldText((before + rest)[a..b], "key") != t.key
  {
    LaterKeys(t, post, a - |before|);
    PieceKeys(before, rest, a, b, t.key);
  }

  /** From inside a tag on, no object shows that tag's key. */
  lemma AvoidsOwnKey(before: string, t: Tag, post: seq<Tag>, m: nat)
    requires QuoteFree(t) && AllQuoteFree(post) && t.key != "" && t.key !in KeySet(post)
    requires |before| < m <= |before + (PrintTag(t) + Tail(post))|
    ensures Avoids(before + (PrintTag(t) + Tail(post)), m, HasKey(t.key))
  {
    var rest := PrintTag(t) + Tail(post);
    var s := before + rest;
    forall a, b | m <= a < b <= |s| && s[a] == '{' ensures !HasKey(t.key)(s[a..b]) {
      PieceLacksKey(before, t, post, rest, a, b);
    }
  }

  // ---------------------------------------------------------------------------------------------
  // An object closed early

  /** The end of the shortest prefix of `b` that closes the object opened before it. */
  lemma {:induction false} FirstDip(b: string) returns (m: nat)
    requires Walk(b, 1).None?
    ensures m < |b| && Walk(b[..m], 1) == Some(1) && b[m] == '}'
  {
    var n := |b| - 1;
    if Walk(b[..n], 1).None? {
      m := FirstDip(b[..n]);
      assert b[..n][..m] == b[..m];
    } else {
      m := n;
    }
  }

  lemma FirstObject(p: string, s: string, b: string, m: nat)
    requires SplitState(p).depth == 0
    requires s == "{" + b + "}" && m < |b| && b[m] == '}' && Walk(b[..m], 1) == Some(1)
    ensures s[m + 1] == '}'
    ensures SplitState(p + s[..m + 2]) == Split(0, |p|, SplitState(p).tags + [s[..m + 2]])
  {
    BracedPrefix(s, b, m);
    SplitObject(p, b[..m]);
    ObjectText(p, b[..m]);
  }

  lemma BracedPrefix(s: string, b: string, m: nat)
    requires s == "{" + b + "}" && m < |b| && b[m] == '}'
    ensures s[m + 1] == '}' && s[..m + 2] == "{" + b[..m] + "}"
  {
  }

  /** The object is closed early, at a brace of the key or of the value. */
  lemma EarlyClose(p: string, t: Tag) returns (j: nat)
    requires SplitState(p).depth == 0 && Walk(Body(t), 1).None?
    ensures 8 < j <= |t.key| + 8 || |t.key| + 19 < j <= |t.key| + |t.value| + 19
    ensures j <= |PrintTag(t)|
    ensures SplitState(p + PrintTag(t)[..j]) == Split(0, |p|, SplitState(p).tags + [PrintTag(t)[..j]])
  {
    var m := FirstDip(Body(t));
    PrintedBody(t);
    PrintedLength(t);
    j := m + 2;
    FirstObject(p, PrintTag(t), Body(t), m);
    PrintedChars(t, j - 1);
  }

  lemma ValueAfter(objects: seq<string>, o: string, key: string)
    ensures ValueAt(objects + [o], key) ==
            if FieldText(o, "key") == key then Some(FieldText(o, "value")) else ValueAt(objects, key)
  {
    PairsAppend(objects, [o]);
    assert [o][..0] == [];
    assert PairsOf([o]) == [ParseTagObject(o)];
    assert (PairsOf(objects) + [ParseTagObject(o)])[..|PairsOf(objects)|] == PairsOf(objects);
  }

  /** The object closed early does not hold the tag. */
  lemma EarlyObjectIsWrong(objects: seq<string>, t: Tag, j: nat)
    requires QuoteFree(t) && t.key != "" && ValueAt(objects, t.key) == None && j <= |PrintTag(t)|
    requires 8 < j <= |t.key| + 8 || |t.key| + 19 < j <= |t.key| + |t.value| + 19
    ensures ValueAt(objects + [PrintTag(t)[..j]], t.key) != Some(t.value)
  {
    ValueAfter(objects, PrintTag(t)[..j], t.key);
    if j <= |t.key| + 8 {
      CutKeyKeyless(t, j);
    } else {
      CutValueValueless(t, j);
    }
  }

  lemma ClosedEarlyIsLost(p: string, t: Tag, post: seq<Tag>)
    requires SplitState(p).depth == 0 && ValueAt(SplitState(p).tags, t.key) == None
    requires QuoteFree(t) && AllQuoteFree(post) && t.key != "" && t.key !in KeySet(post)
    requires Walk(Body(t), 1).None?
    ensures ValueAt(SplitState(p + (PrintTag(t) + Tail(post))).tags, t.key) != Some(t.value)
  {
    var j := EarlyClose(p, t);
    var rest := PrintTag(t) + Tail(post);
    EarlyObjectIsWrong(SplitState(p).tags, t, j);
    PrefixOf(p, PrintTag(t), Tail(post), j);
    AvoidsOwnKey(p, t, post, |p| + j);
    SettledAfter(p + rest, |p| + j, p + PrintTag(t)[..j], t.key);
  }

  /** Outside all objects at `m`, the value under an avoided key is settled. */
  lemma SettledAfter(s: string, m: nat, x: string, key: string)
    requires m <= |s| && s[..m] == x && SplitState(x).depth == 0 && Avoids(s, m, HasKey(key))
    ensures ValueAt(SplitState(s).tags, key) == ValueAt(SplitState(x).tags, key)
  {
    KeyIsSettled(s, m, key);
  }

  lemma PrefixOf(p: string, a: string, b: string, j: nat)
    requires j <= |a|
    ensures (p + (a + b))[..|p| + j] == p + a[..j]
  {
  }

  // ---------------------------------------------------------------------------------------------
  // An object that stays open

  lemma {:induction false} SplitPlain(x: string, w: string)
    requires BraceFree(w)
    ensures SplitState(x + w) == SplitState(x)
  {
    if w == "" {
      assert x + w == x;
    } else {
      var n := |w| - 1;
      assert w[n] in w && BraceFree(w[..n]);
      SplitPlain(x, w[..n]);
      assert (x + w)[..|x| + n] == x + w[..n];
    }
  }

  const NAME_OF_NEXT := "\"key\":\""

  /** Up to the next tag's key, an object that is open stays open. */
  lemma StaysOpen(x: string)
    requires SplitState(x).depth > 0
    ensures SplitState(x + (",{" + NAME_OF_NEXT)) ==
            SplitState(x).(depth := SplitState(x).depth + 1)
  {
    SplitComma(x);
    OpenBrace(x + ",");
    SplitPlain(x + "," + "{", NAME_OF_NEXT);
    NextReassociated(x);
  }

  lemma NextReassociated(x: string)
    ensures x + "," + "{" + NAME_OF_NEXT == x + (",{" + NAME_OF_NEXT)
  {
  }

  lemma OpenBrace(x: string)
    requires SplitState(x).depth > 0
    ensures SplitState(x + "{") == SplitState(x).(depth := SplitState(x).depth + 1)
  {
    assert (x + "{")[..|x|] == x;
  }

  lemma NextTagText(t: Tag, post: seq<Tag>)
    requires post != []
    ensures |PrintTag(t) + Tail(post)| >= |PrintTag(t)| + 9
    ensures (PrintTag(t) + Tail(post))[..|PrintTag(t)| + 9] == PrintTag(t) + ",{" + NAME_OF_NEXT
  {
    TailStarts(post);
    PrintShape(post[0], Tail(post[1..]));
    NextText(PrintTag(t), Tail(post), post[0].key +
             ("\",\"value\":\"" + (post[0].value + (END + Tail(post[1..])))));
  }

  lemma NextText(x: string, tail: string, y: string)
    requires tail == "," + ("{\"key\":\"" + y)
    ensures |x + tail| >= |x| + 9 && (x + tail)[..|x| + 9] == x + ",{" + NAME_OF_NEXT
  {
    assert tail == ",{" + NAME_OF_NEXT + y;
  }

  lemma NextAvoids(p: string, t: Tag, post: seq<Tag>, m: nat)
    requires post != [] && AllQuoteFree(post) && post[0].key != "" && post[0].key !in KeySet(post[1..])
    requires m == |p| + |PrintTag(t)| + 9 <= |p + (PrintTag(t) + Tail(post))|
    ensures Avoids(p + (PrintTag(t) + Tail(post)), m, HasKey(post[0].key))
  {
    var before, rest := p + PrintTag(t) + ",", PrintTag(post[0]) + Tail(post[1..]);
    TailStarts(post);
    assert QuoteFree(post[0]);
    Reassociate(p, PrintTag(t), rest);
    AvoidsOwnKey(before, post[0], post[1..], m);
  }

  lemma Reassociate(p: string, a: string, rest: string)
    ensures p + (a + ("," + rest)) == p + a + "," + rest
  {
  }

  lemma OpenPieceLacks(p: string, rest: string, b: nat, own: string, key: string)
    requires |p| <= b <= |p + rest| && FieldText(rest, "key") == own && own != key && key != ""
    ensures FieldText((p + rest)[|p|..b], "key") != key
  {
    assert (p + rest)[|p|..b] == rest[..b - |p|];
    FieldCut(rest, b - |p|, "key");
  }

  lemma OpenObjectAvoids(p: string, rest: string, m: nat, own: string, key: string)
    requires m <= |p + rest| && |p| <= m && FieldText(rest, "key") == own && own != key && key != ""
    requires SplitState((p + rest)[..m]).start == |p|
    ensures OpenAvoids(p + rest, m, HasKey(key))
  {
    forall b | m <= b <= |p + rest| ensures !HasKey(key)((p + rest)[|p|..b]) {
      OpenPieceLacks(p, rest, b, own, key);
    }
  }

  lemma StillOpenLosesNext(p: string, t: Tag, post: seq<Tag>)
    requires SplitState(p).depth == 0 && post != []
    requires ValueAt(SplitState(p).tags, post[0].key) == None
    requires QuoteFree(t) && AllQuoteFree(post) && post[0].key != ""
    requires post[0].key != t.key && post[0].key !in KeySet(post[1..])
    requires Walk(Body(t), 1).Some? && Walk(Body(t), 1) != Some(1)
    ensures ValueAt(SplitState(p + (PrintTag(t) + Tail(post))).tags, post[0].key) == None
  {
    var m := |p| + |PrintTag(t)| + 9;
    OpenTag(p, t);
    OpenUntilNext(p, t, post);
    OwnKey(t, post);
    NextAvoids(p, t, post, m);
    SettledWhileOpen(p, PrintTag(t) + Tail(post), m, t.key, post[0].key);
  }

  lemma OpenUntilNext(p: string, t: Tag, post: seq<Tag>)
    requires SplitState(p + PrintTag(t)).depth > 0 && post != []
    ensures var m := |p| + |PrintTag(t)| + 9;
            && m <= |p + (PrintTag(t) + Tail(post))|
            && SplitState((p + (PrintTag(t) + Tail(post)))[..m]).start == SplitState(p + PrintTag(t)).start
            && SplitState((p + (PrintTag(t) + Tail(post)))[..m]).tags == SplitState(p + PrintTag(t)).tags
  {
    StaysOpen(p + PrintTag(t));
    NextTagText(t, post);
    PrefixTo(p, PrintTag(t) + Tail(post), PrintTag(t), ",{" + NAME_OF_NEXT);
  }

  lemma SettledWhileOpen(p: string, rest: string, m: nat, own: string, key: string)
    requires |p| <= m <= |p + rest| && FieldText(rest, "key") == own && own != key && key != ""
    requires SplitState((p + rest)[..m]).start == |p| && SplitState((p + rest)[..m]).tags == SplitState(p).tags
    requires Avoids(p + rest, m, HasKey(key)) && ValueAt(SplitState(p).tags, key) == None
    ensures ValueAt(SplitState(p + rest).tags, key) == None
  {
    OpenObjectAvoids(p, rest, m, own, key);
    KeyIsSettled(p + rest, m, key);
  }

  lemma OpenTag(p: string, t: Tag)
    requires SplitState(p).depth == 0 && Walk(Body(t), 1).Some? && Walk(Body(t), 1) != Some(1)
    ensures SplitState(p + PrintTag(t)).depth > 0
    ensures SplitState(p + PrintTag(t)).start == |p| && SplitState(p + PrintTag(t)).tags == SplitState(p).tags
  {
    PrintedBody(t);
    ObjectText(p, Body(t));
    SplitObject(p, Body(t));
  }

  lemma PrefixTo(p: string, rest: string, a: string, b: string)
    requires |a + b| <= |rest| && rest[..|a + b|] == a + b
    ensures (p + rest)[..|p| + |a + b|] == p + a + b
  {
  }

  lemma NeverClosed(p: string, t: Tag)
    requires SplitState(p).depth == 0 && ValueAt(SplitState(p).tags, t.key) == None
    requires Walk(Body(t), 1).Some? && Walk(Body(t), 1) != Some(1)
    ensures ValueAt(SplitState(p + (PrintTag(t) + Tail([]))).tags, t.key) == None
  {
    assert PrintTag(t) + Tail([]) == PrintTag(t);
    OpenTag(p, t);
  }

  // ---------------------------------------------------------------------------------------------
  // Main results

  ghost predicate AllBalanced(tags: seq<Tag>) {
    forall i :: 0 <= i < |tags| ==> Balanced(tags[i])
  }

  /** Tags as the law allows them: distinct, non-empty keys, and no quotes. */
  ghost predicate Plain(tags: seq<Tag>) {
    DistinctKeys(tags) && forall i :: 0 <= i < |tags| ==> QuoteFree(tags[i]) && tags[i].key != ""
  }

  /** The first tag whose braces do not balance, with what is before and after it. */
  lemma FirstUnbalanced(tags: seq<Tag>) returns (u: nat)
    requires !AllBalanced(tags)
    ensures u < |tags| && !Balanced(tags[u]) && AllBalanced(tags[..u])
  {
    u := 0;
    while Balanced(tags[u])
      invariant u < |tags| && AllBalanced(tags[..u]) && !AllBalanced(tags)
      decreases |tags| - u
    {
      assert AllBalanced(tags[..u + 1]);
      assert tags[..|tags|] == tags;
      u := u + 1;
    }
  }

  /** A list with an unbalanced tag loses it or the next one. */
  lemma UnbalancedIsLost(pre: seq<Tag>, t: Tag, post: seq<Tag>)
    requires Plain(pre + [t] + post) && AllPrintable(pre) && AllQuoteFree(post) && !Balanced(t)
    requires QuoteFree(t) && t.key != "" && t.key !in KeySet(pre) && t.key !in KeySet(post)
    requires post != [] ==> && post[0].key != "" && post[0].key != t.key
                            && post[0].key !in KeySet(pre) && post[0].key !in KeySet(post[1..])
    ensures || ValueAt(SplitState(PrintAll(pre + [t] + post)).tags, t.key) != Some(t.value)
            || (post != [] && ValueAt(SplitState(PrintAll(pre + [t] + post)).tags, post[0].key) == None)
  {
    PrintAllSplits(pre, t, post);
    WalkOfBody(t);
    SplitBefore(pre, t.key);
    if Walk(Body(t), 1).None? {
      ClosedEarlyIsLost(Before(pre), t, post);
    } else if post == [] {
      NeverClosed(Before(pre), t);
    } else {
      SplitBefore(pre, post[0].key);
      StillOpenLosesNext(Before(pre), t, post);
    }
  }

  lemma KeysAround(tags: seq<Tag>, u: nat)
    requires Plain(tags) && u < |tags|
    ensures tags == tags[..u] + [tags[u]] + tags[u + 1..]
    ensures tags[u].key !in KeySet(tags[..u]) && tags[u].key !in KeySet(tags[u + 1..])
    ensures AllQuoteFree(tags[u + 1..]) && QuoteFree(tags[u]) && tags[u].key != ""
  {
  }

  lemma NextKeyIsNew(tags: seq<Tag>, u: nat)
    requires Plain(tags) && u + 1 < |tags|
    ensures var next := tags[u + 1].key;
            && next != "" && next != tags[u].key && next !in KeySet(tags[..u]) && next !in KeySet(tags[u + 1..][1..])
  {
  }

  lemma ValuesOfPrinted(tags: seq<Tag>, i: nat)
    requires Plain(tags) && i < |tags| && Parsed(Print(tags)) == LastWins(tags)
    ensures ValueAt(SplitState(PrintAll(tags)).tags, tags[i].key) == Some(tags[i].value)
  {
    ParsedOfPrinted(tags);
    LastWinsAt(tags, i);
    CollectHolds(SplitState(PrintAll(tags)).tags, tags[i].key);
  }

  /** Tags with distinct, non-empty keys and without quotes survive printing and parsing exactly when the
      braces of each of them balance: the splitter counts braces inside quotes too. */
  lemma TagsSurviveIffBalanced(tags: seq<Tag>)
    requires Plain(tags)
    ensures Parsed(Print(tags)) == LastWins(tags) <==> AllBalanced(tags)
  {
    if AllBalanced(tags) {
      assert AllPrintable(tags);
      TagRoundTrip(tags);
    } else {
      var u := FirstUnbalanced(tags);
      KeysAround(tags, u);
      assert AllPrintable(tags[..u]);
      if u + 1 < |tags| {
        NextKeyIsNew(tags, u);
      }
      UnbalancedIsLost(tags[..u], tags[u], tags[u + 1..]);
      if Parsed(Print(tags)) == LastWins(tags) {
        ValuesOfPrinted(tags, u);
        if u + 1 < |tags| {
          ValuesOfPrinted(tags, u + 1);
        }
      }
    }
  }

  /** The same for one tag. */
  lemma TagSurvivesIffBalanced(t: Tag)
    requires QuoteFree(t) && t.key != ""
    ensures Parsed(Print([t])) == map[t.key := t.value] <==> Balanced(t)
  {
    TagsSurviveIffBalanced([t]);
    assert [t][..0] == [];
  }

  /** A value that is a closing brace is lost. */
  lemma ClosingBraceIsLost()
    ensures Parsed(Print([Tag("a", "}")])) != map["a" := "}"]
  {
    TagSurvivesIffBalanced(Tag("a", "}"));
    assert "a" + "}" == "a}" && "a}"[..1] == "a" && "a"[..0] == "";
  }
}
