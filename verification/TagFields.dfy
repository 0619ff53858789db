/** What the field search of the tag parser finds in pieces of a printed list: pieces that start later, and
    pieces cut off early. */
module TagFields {
  import opened Text
  import opened Tags

  predicate QuoteFree(t: Tag) {
    '\"' !in t.key && '\"' !in t.value
  }

  // ---------------------------------------------------------------------------------------------
  // A field's text depends only on what follows its name

  lemma UntilSuffix(s: string, start: nat)
    requires start <= |s|
    ensures UntilQuote(s, start) == UntilQuote(s[start..], 0)
  {
    var rest := s[start..];
    assert rest[0..] == rest;
    var e := Index(rest, QUOTE);
    if e > 0 {
      assert rest[0..e] == s[start..start + e];
    }
  }

  lemma AfterNameSuffix(s: string, n: nat)
    requires n <= |s|
    ensures AfterName(s, n) == AfterName(s[n..], 0)
  {
    var rest := s[n..];
    assert rest[0..] == rest;
    var c := Index(rest, COLON);
    if c > 0 {
      UntilSuffix(s, n + c + 3);
      UntilSuffix(rest, c + 3);
      assert rest[c + 3..] == s[n + c + 3..];
    }
  }

  function FromName(s: string, n: int): string
    requires n <= |s|
  {
    if n < 0 then "" else AfterName(s[n..], 0)
  }

  /** The text of a field, read from its name on. */
  lemma FieldFromName(s: string, field: string)
    ensures FieldText(s, field) == FromName(s, Index(s, Quoted(field)))
  {
    var n := Index(s, Quoted(field));
    if n >= 0 {
      FieldTextIs(s, field);
      AfterNameSuffix(s, n);
    }
  }

  lemma SameText(s: string, rest: string, n: int, k: nat)
    requires k <= |s| && s[k..] == rest && n <= |rest|
    ensures FromName(s, Shift(n, k)) == FromName(rest, n)
  {
    if n >= 0 {
      assert s[k..][n..] == s[k + n..];
    }
  }

  /** A field found `k` characters later in a text that goes on alike has the same text. */
  lemma SameField(s: string, rest: string, field: string, k: nat)
    requires k <= |s| && s[k..] == rest
    requires Index(s, Quoted(field)) == Shift(Index(rest, Quoted(field)), k)
    ensures FieldText(s, field) == FieldText(rest, field)
  {
    FieldFromName(s, field);
    FieldFromName(rest, field);
    SameText(s, rest, Index(rest, Quoted(field)), k);
  }

  /** Text without quotes in front of a field does not matter. */
  lemma SkipText(w: string, rest: string, field: string)
    requires '\"' !in w
    ensures FieldText(w + rest, field) == FieldText(rest, field)
  {
    IndexSkip(w, rest, Quoted(field));
    SameField(w + rest, rest, field, |w|);
  }

  /** Nor does a quoted word that is not the field's name. */
  lemma SkipWord(w: string, rest: string, field: string)
    requires '\"' !in w && '\"' !in field && StartsWithQuote(rest) && w != field
    ensures FieldText(Open(w, rest), field) == FieldText(rest, field)
  {
    IndexOpen(w, rest, field);
    SameField(Open(w, rest), rest, field, |w| + 1);
  }

  // ---------------------------------------------------------------------------------------------
  // Cutting a text off

  /** Cutting a text off loses the occurrences that do not fit, and moves none. */
  lemma {:induction false} IndexCut(s: string, j: nat, pattern: string)
    requires j <= |s|
    ensures var i := Index(s, pattern);
            Index(s[..j], pattern) == if 0 <= i && i + |pattern| <= j then i else -1
  {
    if HasPrefix(s, pattern) {
      assert |pattern| <= j ==> s[..j][..|pattern|] == pattern;
    } else if j > 0 {
      assert s[..j][1..] == s[1..][..j - 1];
      if |pattern| <= j {
        assert s[..j][..|pattern|] == s[..|pattern|];
      }
      IndexCut(s[1..], j - 1, pattern);
    }
  }

  lemma UntilCut(s: string, j: nat)
    requires j <= |s|
    ensures UntilQuote(s[..j], 0) in {"", UntilQuote(s, 0)}
  {
    var piece := s[..j];
    assert piece[0..] == piece && s[0..] == s;
    IndexCut(s, j, QUOTE);
    var e := Index(piece, QUOTE);
    if e > 0 {
      assert piece[0..e] == s[0..e];
    }
  }

  lemma AfterNameCut(s: string, j: nat)
    requires j <= |s|
    ensures AfterName(s[..j], 0) in {"", AfterName(s, 0)}
  {
    var piece := s[..j];
    assert piece[0..] == piece && s[0..] == s;
    IndexCut(s, j, COLON);
    var c := Index(piece, COLON);
    if c > 0 {
      UntilSuffix(piece, c + 3);
      UntilSuffix(s, c + 3);
      assert piece[c + 3..] == s[c + 3..][..j - c - 3];
      UntilCut(s[c + 3..], j - c - 3);
    }
  }

  lemma NameCut(s: string, j: nat, n: int)
    requires n <= j <= |s|
    ensures FromName(s[..j], n) in {"", FromName(s, n)}
  {
    if n >= 0 {
      assert s[..j][n..] == s[n..][..j - n];
      AfterNameCut(s[n..], j - n);
    }
  }

  /** Cut off, a text shows a field as before or not at all. */
  lemma FieldCut(s: string, j: nat, field: string)
    requires j <= |s|
    ensures FieldText(s[..j], field) in {"", FieldText(s, field)}
  {
    var n := Index(s[..j], Quoted(field));
    IndexCut(s, j, Quoted(field));
    FieldFromName(s[..j], field);
    FieldFromName(s, field);
    NameCut(s, j, n);
  }

  // ---------------------------------------------------------------------------------------------
  // A printed tag with what follows it

  function Tail(post: seq<Tag>): string {
    if post == [] then "" else "," + PrintTag(post[0]) + Tail(post[1..])
  }

  function KeySet(tags: seq<Tag>): set<string> {
    set t | t in tags :: t.key
  }

  ghost predicate AllQuoteFree(tags: seq<Tag>) {
    forall t :: t in tags ==> QuoteFree(t)
  }

  /** From the end of a tag on, with `post` after it. */
  function FromEnd(post: seq<Tag>): string {
    if post == [] then END else Open("},{", FromKeyName(post[0], FromEnd(post[1..])))
  }

  lemma EndShape(x: string)
    ensures Open("},{", x) == "\"}," + ("{" + x)
  {
  }

  lemma TailShape(a: string, b: string)
    ensures END + ("," + a + b) == "\"}," + (a + b)
  {
  }

  lemma {:induction false} EndText(post: seq<Tag>)
    ensures FromEnd(post) == END + Tail(post)
  {
    if post != [] {
      EndText(post[1..]);
      PrintedFromQuotes(post[0], Tail(post[1..]));
      EndShape(FromKeyName(post[0], FromEnd(post[1..])));
      TailShape(PrintTag(post[0]), Tail(post[1..]));
    }
  }

  lemma NameText(t: Tag, post: seq<Tag>)
    ensures PrintTag(t) + Tail(post) == "{" + FromKeyName(t, FromEnd(post))
  {
    EndText(post);
    PrintedFromQuotes(t, Tail(post));
  }

  /** From a tag's name on, its key is read. */
  lemma KeyFromName(t: Tag, post: seq<Tag>)
    requires QuoteFree(t)
    ensures FieldText(FromKeyName(t, FromEnd(post)), "key") == t.key
  {
    var rest := Open(":", Open(t.key, FromComma(t, FromEnd(post))));
    var s := FromKeyName(t, FromEnd(post));
    IndexOpen("key", rest, "key");
    FieldFromName(s, "key");
    assert s[0..] == s;
    KeyAfterColon(s, "key", t.key, FromComma(t, FromEnd(post)));
  }

  /** The text after the next colon. */
  lemma KeyAfterColon(s: string, w: string, key: string, rest: string)
    requires '\"' !in w && w != ":" && '\"' !in key && StartsWithQuote(rest)
    requires s == Open(w, Open(":", Open(key, rest)))
    ensures Index(s, COLON) == |w| + 1
    ensures AfterName(s, 0) == key
  {
    assert COLON == Quoted(":");
    IndexOpen(w, Open(":", Open(key, rest)), ":");
    IndexOpen(":", Open(key, rest), ":");
    assert s[0..] == s;
    AfterNameIs(s, 0, |w| + 1);
    ColonDrops(s, w, key, rest);
    TextUntilQuote(s, |w| + 4, key, rest);
  }

  lemma ColonDrops(s: string, w: string, key: string, rest: string)
    requires s == Open(w, Open(":", Open(key, rest)))
    ensures |w| + 4 <= |s| && s[|w| + 4..] == key + rest
  {
    var inner := Open(":", Open(key, rest));
    assert s[|w| + 1..] == inner;
    assert inner[3..] == key + rest;
    assert s[|w| + 1..][3..] == s[|w| + 4..];
  }

  function NextKey(post: seq<Tag>): string {
    if post == [] then "" else post[0].key
  }

  /** From the end of a tag on, the next tag's key is read. */
  lemma KeyFromEnd(post: seq<Tag>)
    requires AllQuoteFree(post)
    ensures FieldText(FromEnd(post), "key") == NextKey(post)
  {
    if post != [] {
      assert QuoteFree(post[0]);
      SkipWord("},{", FromKeyName(post[0], FromEnd(post[1..])), "key");
      KeyFromName(post[0], post[1..]);
    }
  }

  lemma AfterColon(s: string)
    requires Index(s, COLON) > 0
    ensures AfterName(s, 0) == UntilQuote(s[Index(s, COLON) + 3..], 0)
  {
    var c := Index(s, COLON);
    assert s[0..] == s;
    AfterNameIs(s, 0, c);
    UntilSuffix(s, c + 3);
  }

  /** A colon found `k` characters later, in a text that goes on alike, opens the same text. */
  lemma SameColon(s: string, rest: string, k: nat)
    requires k <= |s| && s[k..] == rest
    requires Index(rest, COLON) > 0 && Index(s, COLON) == k + Index(rest, COLON)
    ensures AfterName(s, 0) == AfterName(rest, 0)
  {
    AfterColon(s);
    AfterColon(rest);
    DropDrop(s, k, Index(rest, COLON) + 3);
  }

  lemma NoColonAfter(s: string)
    requires Index(s, COLON) < 0
    ensures AfterName(s, 0) == ""
  {
    assert s[0..] == s;
  }

  /** When the value itself spells "key", the colon that follows is the one of the next tag's key. */
  lemma KeyAfterValue(post: seq<Tag>)
    requires AllQuoteFree(post)
    ensures AfterName(Open("key", FromEnd(post)), 0) == NextKey(post)
  {
    var s := Open("key", FromEnd(post));
    assert COLON == Quoted(":");
    IndexOpen("key", FromEnd(post), ":");
    if post == [] {
      NoColonAfter(s);
    } else {
      var t, rest := post[0], post[1..];
      assert QuoteFree(t);
      KeyAfterColon(FromKeyName(t, FromEnd(rest)), "key", t.key, FromComma(t, FromEnd(rest)));
      ColonPastEnd(FromKeyName(t, FromEnd(rest)));
    }
  }

  lemma ColonPastEnd(name: string)
    requires StartsWithQuote(name) && Index(name, COLON) > 0
    ensures AfterName(Open("key", Open("},{", name)), 0) == AfterName(name, 0)
  {
    var s := Open("key", Open("},{", name));
    ColonIsLater(name);
    EightLater(name);
    SameColon(s, name, 8);
  }

  lemma ColonIsLater(name: string)
    requires StartsWithQuote(name) && Index(name, COLON) > 0
    ensures Index(Open("key", Open("},{", name)), COLON) == 8 + Index(name, COLON)
  {
    assert COLON == Quoted(":");
    IndexOpen("key", Open("},{", name), ":");
    IndexOpen("},{", name, ":");
  }

  lemma EightLater(name: string)
    ensures |Open("key", Open("},{", name))| >= 8 && Open("key", Open("},{", name))[8..] == name
  {
    var s := Open("key", Open("},{", name));
    assert s[4..] == Open("},{", name) && s[4..][4..] == name;
    assert s[4..][4..] == s[8..];
  }

  lemma KeyFromValue(t: Tag, post: seq<Tag>)
    requires QuoteFree(t) && AllQuoteFree(post)
    ensures FieldText(FromValue(t, FromEnd(post)), "key") == NextKey(post)
  {
    if t.value == "key" {
      var s := FromValue(t, FromEnd(post));
      IndexOpen("key", FromEnd(post), "key");
      FieldFromName(s, "key");
      assert s[0..] == s;
      KeyAfterValue(post);
    } else {
      SkipWord(t.value, FromEnd(post), "key");
      KeyFromEnd(post);
    }
  }

  lemma KeyFromComma(t: Tag, post: seq<Tag>)
    requires QuoteFree(t) && AllQuoteFree(post)
    ensures FieldText(FromComma(t, FromEnd(post)), "key") == NextKey(post)
  {
    SkipWord(",", Open("value", Open(":", FromValue(t, FromEnd(post)))), "key");
    SkipWord("value", Open(":", FromValue(t, FromEnd(post))), "key");
    SkipWord(":", FromValue(t, FromEnd(post)), "key");
    KeyFromValue(t, post);
  }

  /** The whole text from a tag on shows that tag's key. */
  lemma OwnKey(t: Tag, post: seq<Tag>)
    requires QuoteFree(t)
    ensures FieldText(PrintTag(t) + Tail(post), "key") == t.key
  {
    NameText(t, post);
    SkipText("{", FromKeyName(t, FromEnd(post)), "key");
    KeyFromName(t, post);
  }

  // ---------------------------------------------------------------------------------------------
  // Objects that start later

  lemma PrintedLength(t: Tag)
    ensures |PrintTag(t)| == |t.key| + |t.value| + 21
  {
  }

  /** Where a printed tag can hold an opening brace: at its start, in its key or in its value. */
  lemma BracePlaces(t: Tag, a: nat)
    requires a < |PrintTag(t)| && PrintTag(t)[a] == '{'
    ensures a == 0 || 8 <= a < |t.key| + 8 || |t.key| + 19 <= a < |t.key| + |t.value| + 19
  {
    PrintedLength(t);
    PrintedChars(t, a);
  }

  lemma PrintedChars(t: Tag, i: nat)
    requires i < |PrintTag(t)|
    ensures i < 8 ==> PrintTag(t)[i] == "{\"key\":\""[i]
    ensures |t.key| + 8 <= i < |t.key| + 19 ==> PrintTag(t)[i] == "\",\"value\":\""[i - |t.key| - 8]
    ensures |t.key| + |t.value| + 19 <= i < |t.key| + |t.value| + 21 ==>
              PrintTag(t)[i] == "\"}"[i - |t.key| - |t.value| - 19]
  {
  }

  lemma InKey(t: Tag, post: seq<Tag>, a: nat)
    requires 8 <= a <= |t.key| + 8
    ensures a <= |PrintTag(t) + Tail(post)|
    ensures (PrintTag(t) + Tail(post))[a..] == t.key[a - 8..] + FromComma(t, FromEnd(post))
    ensures a == |t.key| + 8 ==> (PrintTag(t) + Tail(post))[a..] == FromComma(t, FromEnd(post))
  {
    var s := PrintTag(t) + Tail(post);
    NameText(t, post);
    assert s == "{" + Open("key", Open(":", Open(t.key, FromComma(t, FromEnd(post)))));
    NameShape(t.key, FromComma(t, FromEnd(post)));
    assert s[8..] == t.key + FromComma(t, FromEnd(post));
    assert s[8..][a - 8..] == s[a..];
    assert (t.key + FromComma(t, FromEnd(post)))[a - 8..] == t.key[a - 8..] + FromComma(t, FromEnd(post));
  }

  lemma InValue(t: Tag, post: seq<Tag>, a: nat)
    requires |t.key| + 19 <= a <= |t.key| + |t.value| + 19
    ensures a <= |PrintTag(t) + Tail(post)|
    ensures (PrintTag(t) + Tail(post))[a..] == t.value[a - |t.key| - 19..] + FromEnd(post)
  {
    InKey(t, post, |t.key| + 8);
    ValueIn(PrintTag(t) + Tail(post), |t.key| + 8, t.value, FromEnd(post), a);
  }

  lemma CommaDrops(x: string)
    ensures var s := Open(",", Open("value", Open(":", QUOTE + x)));
            |s| >= 11 && s[11..] == x
  {
    CommaShape(x);
  }

  lemma ValueIn(s: string, i: nat, value: string, end: string, a: nat)
    requires i <= |s| && s[i..] == Open(",", Open("value", Open(":", Open(value, end))))
    requires i + 11 <= a <= i + 11 + |value|
    ensures a <= |s| && s[a..] == value[a - i - 11..] + end
  {
    CommaDrops(value + end);
    DropDrop(s, i, 11);
    DropDrop(s, i + 11, a - i - 11);
    DropFirst(value, end, a - i - 11);
  }

  lemma DropFirst(x: string, y: string, i: nat)
    requires i <= |x|
    ensures (x + y)[i..] == x[i..] + y
  {
  }

  lemma InTail(t: Tag, post: seq<Tag>, a: nat)
    requires post != [] && |PrintTag(t)| < a <= |PrintTag(t) + Tail(post)|
    ensures (PrintTag(t) + Tail(post))[a..] == (PrintTag(post[0]) + Tail(post[1..]))[a - |PrintTag(t)| - 1..]
  {
    TailStarts(post);
    DropPast(PrintTag(t), PrintTag(post[0]) + Tail(post[1..]), a);
  }

  lemma TailStarts(post: seq<Tag>)
    requires post != []
    ensures Tail(post) == "," + (PrintTag(post[0]) + Tail(post[1..]))
  {
    assert Tail(post) == "," + PrintTag(post[0]) + Tail(post[1..]);
  }

  lemma DropPast(x: string, rest: string, a: nat)
    requires |x| < a <= |x + ("," + rest)|
    ensures (x + ("," + rest))[a..] == rest[a - |x| - 1..]
  {
    var s := x + ("," + rest);
    assert s[|x|..] == "," + rest;
    assert s[|x|..][1..] == rest;
    assert s[|x|..][1..] == s[|x| + 1..];
    assert s[|x| + 1..][a - |x| - 1..] == s[a..];
  }

  /** Read from an opening brace other than its first, the text shows the key of a later tag or none. */
  lemma {:induction false} LaterKeys(t: Tag, post: seq<Tag>, a: nat)
    requires QuoteFree(t) && AllQuoteFree(post)
    requires 0 < a < |PrintTag(t) + Tail(post)| && (PrintTag(t) + Tail(post))[a] == '{'
    ensures var key := FieldText((PrintTag(t) + Tail(post))[a..], "key");
            key == "" || key in KeySet(post)
    decreases |post|, 1
  {
    var s := PrintTag(t) + Tail(post);
    PrintedLength(t);
    if a < |PrintTag(t)| {
      BracePlaces(t, a);
      if a < |t.key| + 8 {
        InKey(t, post, a);
        SkipText(t.key[a - 8..], FromComma(t, FromEnd(post)), "key");
        KeyFromComma(t, post);
      } else {
        InValue(t, post, a);
        SkipText(t.value[a - |t.key| - 19..], FromEnd(post), "key");
        KeyFromEnd(post);
      }
    } else {
      assert post != [];
      assert s[|PrintTag(t)|] == ',';
      InTail(t, post, a);
      LaterTagKeys(t, post, a);
    }
  }

  lemma LaterTagKeys(t: Tag, post: seq<Tag>, a: nat)
    requires AllQuoteFree(post) && post != []
    requires |PrintTag(t)| < a < |PrintTag(t) + Tail(post)| && (PrintTag(t) + Tail(post))[a] == '{'
    ensures var key := FieldText((PrintTag(post[0]) + Tail(post[1..]))[a - |PrintTag(t)| - 1..], "key");
            key == "" || key in KeySet(post)
    decreases |post|, 0
  {
    var p, rest, b := post[0], post[1..], a - |PrintTag(t)| - 1;
    assert QuoteFree(p);
    InTail(t, post, a);
    SameChar(PrintTag(t) + Tail(post), PrintTag(p) + Tail(rest), a, b);
    if b == 0 {
      WholeText(PrintTag(p) + Tail(rest));
      OwnKey(p, rest);
    } else {
      LaterKeys(p, rest, b);
      assert KeySet(rest) <= KeySet(post);
    }
  }

  lemma SameChar(s: string, r: string, a: nat, b: nat)
    requires a < |s| && b <= |r| && s[a..] == r[b..]
    ensures b < |r| && r[b] == s[a]
  {
    assert s[a..][0] == s[a];
  }

  lemma WholeText(s: string)
    ensures s[0..] == s
  {
  }

  // ---------------------------------------------------------------------------------------------
  // Objects cut off early

  lemma NoQuoteNoText(w: string)
    requires '\"' !in w
    ensures UntilQuote(w, 0) == ""
  {
    assert w[0..] == w && w + "" == w;
    IndexSkip(w, "", QUOTE);
  }

  lemma CutAfterColon(r: string, k: nat, c: nat)
    requires Index(r, COLON) == c > 0 && c + 3 <= k <= |r| && '\"' !in r[c + 3..k]
    ensures AfterName(r[..k], 0) == ""
  {
    IndexCut(r, k, COLON);
    AfterColon(r[..k]);
    assert r[..k][c + 3..] == r[c + 3..k];
    NoQuoteNoText(r[c + 3..k]);
  }

  /** Cut off before its closing quote, a field has no text. */
  lemma CutBeforeQuote(s: string, j: nat, field: string, n: nat, c: nat)
    requires Index(s, Quoted(field)) == n && n + |field| + 2 <= j <= |s|
    requires Index(s[n..], COLON) == c > 0 && n + c + 3 <= j && '\"' !in s[n + c + 3..j]
    ensures FieldText(s[..j], field) == ""
  {
    IndexCut(s, j, Quoted(field));
    FieldFromName(s[..j], field);
    CutFromName(s, j, n, c);
  }

  lemma CutFromName(s: string, j: nat, n: nat, c: nat)
    requires n + c + 3 <= j <= |s| && Index(s[n..], COLON) == c > 0 && '\"' !in s[n + c + 3..j]
    ensures FromName(s[..j], n) == ""
  {
    SliceOfSlice(s, n, c + 3, j);
    CutAfterColon(s[n..], j - n, c);
  }

  lemma SliceOfSlice(s: string, n: nat, i: nat, j: nat)
    requires n + i <= j <= |s|
    ensures s[..j][n..] == s[n..][..j - n] && s[n..][i..j - n] == s[n + i..j]
  {
  }

  lemma CutKeyKeyless(t: Tag, j: nat)
    requires QuoteFree(t) && 8 <= j <= |t.key| + 8
    ensures j <= |PrintTag(t)| && FieldText(PrintTag(t)[..j], "key") == ""
  {
    PrintedLength(t);
    KeyPlaces(t);
    SliceOfText(PrintTag(t), 8, t.key, FromComma(t, END), j);
    CutBeforeQuote(PrintTag(t), j, "key", 1, 4);
  }

  lemma CutValueValueless(t: Tag, j: nat)
    requires QuoteFree(t) && |t.key| + 19 <= j <= |t.key| + |t.value| + 19
    ensures j <= |PrintTag(t)| && FieldText(PrintTag(t)[..j], "value") == ""
  {
    PrintedLength(t);
    ValuePlaces(t);
    SliceOfText(PrintTag(t), |t.key| + 19, t.value, END, j);
    CutBeforeQuote(PrintTag(t), j, "value", ValueName(t), |t.key| + 16 - ValueName(t));
  }

  lemma SliceOfText(s: string, i: nat, text: string, rest: string, j: nat)
    requires i <= j <= i + |text| && i <= |s| && s[i..] == text + rest && '\"' !in text
    ensures j <= |s| && '\"' !in s[i..j]
  {
    assert s[i..j] == s[i..][..j - i] == text[..j - i];
  }
}
