/** The hand-written parser of the tags column, an array of objects with a key and a value. */
module Tags {
  import opened Types
  import opened Text

  // ---------------------------------------------------------------------------------------------
  // Searching

  /** The position of the first occurrence of `pattern`, or -1. */
  function Index(s: string, pattern: string): (r: int)
    ensures -1 <= r && (r >= 0 ==> r + |pattern| <= |s|)
  {
    if HasPrefix(s, pattern) then 0
    else if s == "" then -1
    else
      var rest := Index(s[1..], pattern);
      if rest < 0 then -1 else rest + 1
  }

  const QUOTE := "\""
  const COLON := "\":\""

  /** The text from `start` up to the next quote, or nothing if there is none. */
  function UntilQuote(s: string, start: nat): string
    requires start <= |s|
  {
    var end := Index(s[start..], QUOTE) + start;
    if end > start then s[start..end] else ""
  }

  /** The text between the quotes that follow the name of a field, or nothing. */
  function FieldText(tagObject: string, field: string): string {
    var nameIdx := Index(tagObject, QUOTE + field + QUOTE);
    if nameIdx < 0 then "" else AfterName(tagObject, nameIdx)
  }

  /** The quoted text after the first colon that follows a field's name. */
  function AfterName(s: string, nameIdx: nat): string
    requires nameIdx <= |s|
  {
    var colon := Index(s[nameIdx..], COLON) + nameIdx;
    if colon <= nameIdx then "" else UntilQuote(s, colon + 3)
  }

  function ParseTagObject(tagObject: string): (string, string) {
    (FieldText(tagObject, "key"), FieldText(tagObject, "value"))
  }

  // ---------------------------------------------------------------------------------------------
  // Splitting

  datatype Split = Split(depth: int, start: nat, tags: seq<string>)

  /** The state of the splitter after reading all of `s`. */
  function SplitState(s: string): (r: Split)
    ensures r.start <= |s|
  {
    if s == "" then Split(0, 0, [])
    else
      var n := |s| - 1;
      var st := SplitState(s[..n]);
      if s[n] == '{' then Split(st.depth + 1, if st.depth == 0 then n else st.start, st.tags)
      else if s[n] == '}' then
        Split(st.depth - 1, st.start, if st.depth == 1 then st.tags + [s[st.start..]] else st.tags)
      else st
  }

  method SplitTags(s: string) returns (tags: seq<string>)
    ensures tags == SplitState(s).tags
  {
    tags := [];
    var depth := 0;
    var start := 0;
    for i := 0 to |s|
      invariant Split(depth, start, tags) == SplitState(s[..i])
    {
      assert s[..i + 1][..i] == s[..i];
      var ch := s[i];
      if ch == '{' {
        depth := depth + 1;
        if depth == 1 {
          start := i;
        }
      } else if ch == '}' {
        depth := depth - 1;
        if depth == 0 {
          assert s[..i + 1][start..] == s[start..i + 1];
          tags := tags + [s[start..i + 1]];
        }
      }
    }
    assert s[..|s|] == s;
  }

  /** Later objects win, and objects without a key are skipped. */
  function Collect(objects: seq<string>): map<string, string> {
    if objects == [] then map[]
    else
      var n := |objects| - 1;
      var (key, value) := ParseTagObject(objects[n]);
      if key != "" then Collect(objects[..n])[key := value] else Collect(objects[..n])
  }

  function Inner(trimmed: string): string {
    TrimSuffix(TrimPrefix(trimmed, "["), "]")
  }

  function Parsed(tagsJSON: string): map<string, string> {
    var trimmed := TrimSpace(tagsJSON);
    if tagsJSON == "" || trimmed == "[]" || trimmed == "" then map[] else Collect(SplitState(Inner(trimmed)).tags)
  }

  method ParseTags(tagsJSON: string) returns (tags: map<string, string>)
    ensures tags == Parsed(tagsJSON)
  {
    tags := map[];
    if tagsJSON == "" {
      return;
    }
    var trimmed := TrimSpace(tagsJSON);
    if trimmed == "[]" || trimmed == "" {
      return;
    }
    trimmed := TrimPrefix(trimmed, "[");
    trimmed := TrimSuffix(trimmed, "]");
    var parts := SplitTags(trimmed);
    for i := 0 to |parts|
      invariant tags == Collect(parts[..i])
    {
      assert parts[..i + 1][..i] == parts[..i];
      var (key, value) := ParseTagObject(parts[i]);
      if key != "" {
        tags := tags[key := value];
      }
    }
    assert parts[..|parts|] == parts;
  }

  // ---------------------------------------------------------------------------------------------
  // Printing

  datatype Tag = Tag(key: string, value: string)

  /** One object of the column's format, sections 4 and 5 of RFC 8259. */
  function PrintTag(t: Tag): string {
    "{\"key\":\"" + t.key + "\",\"value\":\"" + t.value + "\"}"
  }

  function PrintAll(tags: seq<Tag>): string {
    if tags == [] then ""
    else
      var n := |tags| - 1;
      (if n == 0 then "" else PrintAll(tags[..n]) + ",") + PrintTag(tags[n])
  }

  function Print(tags: seq<Tag>): string {
    "[" + PrintAll(tags) + "]"
  }

  /** The map a list of tags stands for: the last of equal keys wins, and an empty key counts for nothing. */
  function LastWins(tags: seq<Tag>): map<string, string> {
    if tags == [] then map[]
    else
      var rest, last := LastWins(tags[..|tags| - 1]), tags[|tags| - 1];
      if last.key == "" then rest else rest[last.key := last.value]
  }

  /** The depth reached by reading `s` from depth `d`, unless the outermost object is closed on the
      way. */
  function Walk(s: string, d: int): Option<int> {
    if s == "" then Some(d)
    else
      var n := |s| - 1;
      match Walk(s[..n], d)
      case None => None
      case Some(e) =>
        if s[n] == '{' then Some(e + 1)
        else if s[n] == '}' then (if e == 1 then None else Some(e - 1))
        else Some(e)
  }

  /** Braces inside the key and value, if any, stay balanced. */
  predicate Balanced(t: Tag) {
    Walk(t.key + t.value, 1) == Some(1)
  }

  predicate Printable(t: Tag) {
    '\"' !in t.key && '\"' !in t.value && Balanced(t)
  }

  // ---------------------------------------------------------------------------------------------
  // Parsing one printed object

  /** A pattern that starts with a quote is not found in text without quotes. */
  lemma {:induction false} IndexSkip(p: string, s: string, pattern: string)
    requires '\"' !in p && pattern != "" && pattern[0] == '\"'
    ensures Index(p + s, pattern) == if Index(s, pattern) < 0 then -1 else |p| + Index(s, pattern)
  {
    if p == "" {
      assert p + s == s;
    } else {
      assert (p + s)[0] == p[0] && p[0] in p;
      assert (p + s)[1..] == p[1..] + s;
      IndexSkip(p[1..], s, pattern);
    }
  }

  function Quoted(w: string): string {
    QUOTE + w + QUOTE
  }

  lemma QuotedWordsAgree(w: string, rest: string, x: string)
    requires '\"' !in w && '\"' !in x
    ensures HasPrefix(Quoted(w) + rest, Quoted(x)) <==> w == x
  {
    var s := Quoted(w) + rest;
    assert s[|w| + 1] == '\"' && Quoted(x)[|x| + 1] == '\"';
    if |w| < |x| {
      assert Quoted(x)[|w| + 1] == x[|w|] && x[|w|] in x;
    } else if |x| < |w| {
      assert s[|x| + 1] == w[|x|] && w[|x|] in w;
    } else {
      assert s[..|Quoted(x)|] == Quoted(w);
      assert Quoted(w)[1..|w| + 1] == w && Quoted(x)[1..|x| + 1] == x;
    }
  }

  predicate StartsWithQuote(s: string) {
    s != "" && s[0] == '\"'
  }

  /** `found` in the text that starts at offset `n`, seen from offset 0. */
  function Shift(found: int, n: nat): int {
    if found < 0 then -1 else found + n
  }

  /** A text that starts with a quote, goes on with `w` and then with `rest`. */
  function Open(w: string, rest: string): string {
    QUOTE + (w + rest)
  }

  /** Searching a quoted word from a quote: it is either the next quoted word, or found from the next
      quote on. */
  lemma IndexOpen(w: string, rest: string, x: string)
    requires '\"' !in w && '\"' !in x && StartsWithQuote(rest)
    ensures Index(Open(w, rest), Quoted(x)) == if w == x then 0 else Shift(Index(rest, Quoted(x)), |w| + 1)
  {
    var s := Open(w, rest);
    assert s == Quoted(w) + rest[1..];
    QuotedWordsAgree(w, rest[1..], x);
    assert s[1..] == w + rest;
    IndexSkip(w, rest, Quoted(x));
  }

  const END := "\"}"

  /** A printed object, from each of its quotes on; `end` is its end and what follows. */
  function FromValue(t: Tag, end: string): string { Open(t.value, end) }
  function FromValueColon(t: Tag, end: string): string { Open(":", FromValue(t, end)) }
  function FromValueName(t: Tag, end: string): string { Open("value", FromValueColon(t, end)) }
  function FromComma(t: Tag, end: string): string { Open(",", FromValueName(t, end)) }
  function FromKey(t: Tag, end: string): string { Open(t.key, FromComma(t, end)) }
  function FromKeyColon(t: Tag, end: string): string { Open(":", FromKey(t, end)) }
  function FromKeyName(t: Tag, end: string): string { Open("key", FromKeyColon(t, end)) }

  lemma CommaShape(x: string)
    ensures Open(",", Open("value", Open(":", QUOTE + x))) == "\",\"value\":\"" + x
  {
    assert Open(":", QUOTE + x) == "\":\"" + x;
    assert Open("value", "\":\"" + x) == "\"value\":\"" + x;
  }

  lemma NameShape(key: string, x: string)
    ensures "{" + Open("key", Open(":", Open(key, x))) == "{\"key\":\"" + (key + x)
  {
    assert Open(":", Open(key, x)) == "\":\"" + (key + x);
  }

  lemma PrintShape(t: Tag, tail: string)
    ensures PrintTag(t) + tail == "{\"key\":\"" + (t.key + ("\",\"value\":\"" + (t.value + (END + tail))))
  {
  }

  /** A printed object and what follows it, from its first quote on. */
  lemma PrintedFromQuotes(t: Tag, tail: string)
    ensures PrintTag(t) + tail == "{" + FromKeyName(t, END + tail)
  {
    PrintShape(t, tail);
    CommaShape(t.value + (END + tail));
    NameShape(t.key, FromComma(t, END + tail));
  }

  /** The text up to the next quote. */
  lemma UpToQuote(w: string, rest: string)
    requires '\"' !in w && StartsWithQuote(rest)
    ensures Index(w + rest, QUOTE) == |w|
  {
    IndexSkip(w, rest, QUOTE);
  }

  lemma TextUntilQuote(s: string, start: nat, text: string, rest: string)
    requires start <= |s| && s[start..] == text + rest && '\"' !in text && StartsWithQuote(rest)
    ensures UntilQuote(s, start) == text
  {
    UpToQuote(text, rest);
    assert s[start..][..|text|] == s[start..start + |text|];
  }

  lemma AfterNameIs(s: string, n: nat, c: nat)
    requires n < c && n <= |s| && Index(s[n..], COLON) == c - n && c + 3 <= |s|
    ensures AfterName(s, n) == UntilQuote(s, c + 3)
  {
    var rest := s[n..];
    var colon := Index(rest, COLON) + n;
    assert colon == c;
  }

  lemma FieldTextIs(s: string, field: string)
    requires Index(s, Quoted(field)) >= 0
    ensures FieldText(s, field) == AfterName(s, Index(s, Quoted(field)))
  {
  }

  lemma KeyPlaces(t: Tag)
    requires '\"' !in t.key && '\"' !in t.value
    ensures |PrintTag(t)| >= 8 && PrintTag(t)[8..] == t.key + FromComma(t, END)
    ensures Index(PrintTag(t), Quoted("key")) == 1 && Index(PrintTag(t)[1..], COLON) == 4
  {
    PrintedFromQuotes(t, "");
    assert PrintTag(t) + "" == PrintTag(t) && END + "" == END;
    IndexOpen("key", FromKeyColon(t, END), "key");
    IndexSkip("{", FromKeyName(t, END), Quoted("key"));
    ColonFromKeyName(t);
    KeyInPrintedTag(t);
  }

  /** The key comes back whatever it spells, even "key", "value" or ":". */
  lemma KeyOfPrintedTag(t: Tag)
    requires '\"' !in t.key && '\"' !in t.value
    ensures FieldText(PrintTag(t), "key") == t.key
  {
    var s := PrintTag(t);
    KeyPlaces(t);
    FieldTextIs(s, "key");
    AfterNameIs(s, 1, 5);
    TextUntilQuote(s, 8, t.key, FromComma(t, END));
  }

  lemma KeyInPrintedTag(t: Tag)
    ensures |PrintTag(t)| >= 8 && PrintTag(t)[1..] == FromKeyName(t, END)
    ensures PrintTag(t)[8..] == t.key + FromComma(t, END)
  {
    var s := PrintTag(t);
    PrintedFromQuotes(t, "");
    assert PrintTag(t) + "" == PrintTag(t) && END + "" == END;
    assert s[1..] == FromKeyName(t, END);
    assert FromKeyName(t, END)[7..] == t.key + FromComma(t, END);
    assert s[1..][7..] == s[8..];
  }

  lemma ColonFromKeyName(t: Tag)
    requires '\"' !in t.key
    ensures Index(FromKeyName(t, END), COLON) == 4
  {
    assert COLON == Quoted(":");
    IndexOpen("key", FromKeyColon(t, END), ":");
    IndexOpen(":", FromKey(t, END), ":");
  }

  /** From the key on, the name of the value field is found at the key when the key spells "value",
      and after the key otherwise; either way the next colon is the one before the value. */
  lemma ValueNameFromKey(t: Tag)
    requires '\"' !in t.key && '\"' !in t.value
    ensures Index(FromKey(t, END), Quoted("value")) == if t.key == "value" then 0 else |t.key| + 3
  {
    IndexOpen(t.key, FromComma(t, END), "value");
    IndexOpen(",", FromValueName(t, END), "value");
    IndexOpen("value", FromValueColon(t, END), "value");
  }

  lemma ColonFromValueName(t: Tag)
    requires '\"' !in t.value
    ensures Index(FromValueName(t, END), COLON) == 6
  {
    assert COLON == Quoted(":");
    IndexOpen("value", FromValueColon(t, END), ":");
    IndexOpen(":", FromValue(t, END), ":");
  }

  lemma ColonFromKey(t: Tag)
    requires '\"' !in t.key && '\"' !in t.value && t.key != ":"
    ensures Index(FromKey(t, END), COLON) == |t.key| + 9
  {
    assert COLON == Quoted(":");
    ColonFromValueName(t);
    IndexOpen(t.key, FromComma(t, END), ":");
    IndexOpen(",", FromValueName(t, END), ":");
  }

  lemma OpenDrops(w: string, rest: string)
    ensures |Open(w, rest)| == |w| + 1 + |rest| && Open(w, rest)[|w| + 1..] == rest
  {
  }

  lemma ValueDrops(x: string)
    ensures var s := Open("value", Open(":", QUOTE + x));
            |s| >= 9 && s[9..] == x
  {
    var s := Open("value", Open(":", QUOTE + x));
    assert s == "\"value\":\"" + x;
  }

  lemma DropDrop(s: string, i: nat, j: nat)
    requires i + j <= |s|
    ensures s[i..][j..] == s[i + j..]
  {
  }

  lemma FromKeyDrops(t: Tag)
    ensures |FromKey(t, END)| > |t.key| + 12
    ensures FromKey(t, END)[|t.key| + 3..] == FromValueName(t, END)
    ensures FromKey(t, END)[|t.key| + 12..] == t.value + END
  {
    var s, k := FromKey(t, END), |t.key| + 1;
    OpenDrops(t.key, FromComma(t, END));
    OpenDrops(",", FromValueName(t, END));
    ValueDrops(t.value + END);
    DropDrop(s, k, 2);
    DropDrop(s, k + 2, 9);
  }

  lemma ValueNameOfPrintedTag(t: Tag)
    requires '\"' !in t.key && '\"' !in t.value
    ensures PrintTag(t)[7..] == FromKey(t, END)
    ensures Index(PrintTag(t), Quoted("value")) == 7 + Index(FromKey(t, END), Quoted("value"))
  {
    PrintedFromQuotes(t, "");
    assert PrintTag(t) + "" == PrintTag(t) && END + "" == END;
    assert PrintTag(t)[1..] == FromKeyName(t, END);
    assert FromKeyName(t, END)[6..] == FromKey(t, END);
    assert PrintTag(t)[1..][6..] == PrintTag(t)[7..];
    IndexSkip("{", FromKeyName(t, END), Quoted("value"));
    IndexOpen("key", FromKeyColon(t, END), "value");
    IndexOpen(":", FromKey(t, END), "value");
    ValueNameFromKey(t);
  }

  /** Where the value's name stands in a printed tag. */
  function ValueName(t: Tag): nat {
    if t.key == "value" then 7 else |t.key| + 10
  }

  lemma ValuePlaces(t: Tag)
    requires '\"' !in t.key && '\"' !in t.value
    ensures |PrintTag(t)| >= |t.key| + 19 && PrintTag(t)[|t.key| + 19..] == t.value + END
    ensures Index(PrintTag(t), Quoted("value")) == ValueName(t)
    ensures Index(PrintTag(t)[ValueName(t)..], COLON) == |t.key| + 16 - ValueName(t)
  {
    var s := PrintTag(t);
    ValueNameOfPrintedTag(t);
    ValueNameFromKey(t);
    ColonFromValueName(t);
    if t.key == "value" {
      ColonFromKey(t);
    }
    FromKeyDrops(t);
    assert s[7..][|t.key| + 3..] == s[|t.key| + 10..];
    assert s[7..][|t.key| + 12..] == s[|t.key| + 19..];
  }

  lemma ValueOfPrintedTag(t: Tag)
    requires '\"' !in t.key && '\"' !in t.value
    ensures FieldText(PrintTag(t), "value") == t.value
  {
    var s := PrintTag(t);
    ValuePlaces(t);
    FieldTextIs(s, "value");
    AfterNameIs(s, ValueName(t), |t.key| + 16);
    TextUntilQuote(s, |t.key| + 19, t.value, END);
  }

  lemma PrintedTagParses(t: Tag)
    requires '\"' !in t.key && '\"' !in t.value
    ensures ParseTagObject(PrintTag(t)) == (t.key, t.value)
  {
    KeyOfPrintedTag(t);
    ValueOfPrintedTag(t);
  }

  // ---------------------------------------------------------------------------------------------
  // Splitting a printed list

  lemma {:induction false} WalkAppend(a: string, b: string, d: int)
    ensures Walk(a + b, d) == match Walk(a, d) { case None => None case Some(e) => Walk(b, e) }
  {
    if b == "" {
      assert a + b == a;
    } else {
      var n := |b| - 1;
      assert (a + b)[..|a| + n] == a + b[..n];
      assert (a + b)[|a| + n] == b[n];
      WalkAppend(a, b[..n], d);
    }
  }

  predicate BraceFree(s: string) {
    '{' !in s && '}' !in s
  }

  lemma {:induction false} WalkBraceFree(s: string, d: int)
    requires BraceFree(s)
    ensures Walk(s, d) == Some(d)
  {
    if s != "" {
      var n := |s| - 1;
      assert s[n] in s;
      assert BraceFree(s[..n]);
      WalkBraceFree(s[..n], d);
    }
  }

  lemma {:induction false} WalkStaysInside(s: string, d: int)
    requires d >= 1 && Walk(s, d).Some?
    ensures Walk(s, d).value >= 1
  {
    if s != "" {
      WalkStaysInside(s[..|s| - 1], d);
    }
  }

  /** A printed object without its outer braces. */
  function Body(t: Tag): string {
    "\"key\":\"" + t.key + ("\",\"value\":\"" + t.value + QUOTE)
  }

  lemma PrintedBody(t: Tag)
    ensures PrintTag(t) == "{" + Body(t) + "}"
  {
    assert t.value + "\"}" == t.value + QUOTE + "}";
    assert PrintTag(t) == "{" + ("\"key\":\"" + t.key + ("\",\"value\":\"" + (t.value + "\"}")));
  }

  lemma WalkOfBody(t: Tag)
    ensures Walk(Body(t), 1) == Walk(t.key + t.value, 1)
  {
    var prefix, middle := "\"key\":\"", "\",\"value\":\"";
    assert Body(t) == prefix + (t.key + (middle + (t.value + QUOTE)));
    WalkAppend(prefix, t.key + (middle + (t.value + QUOTE)), 1);
    WalkBraceFree(prefix, 1);
    WalkAppend(t.key, middle + (t.value + QUOTE), 1);
    WalkAppend(t.key, t.value, 1);
    if Walk(t.key, 1).Some? {
      var e := Walk(t.key, 1).value;
      WalkAppend(middle, t.value + QUOTE, e);
      WalkBraceFree(middle, e);
      WalkAppend(t.value, QUOTE, e);
      if Walk(t.value, e).Some? {
        WalkBraceFree(QUOTE, Walk(t.value, e).value);
      }
    }
  }

  /** Inside an object the splitter only counts braces. */
  lemma {:induction false} SplitInside(p: string, b: string)
    requires SplitState(p).depth == 0 && Walk(b, 1).Some?
    ensures SplitState(p + "{" + b) == Split(Walk(b, 1).value, |p|, SplitState(p).tags)
  {
    var s := p + "{" + b;
    var n := |s| - 1;
    if b == "" {
      assert s[..n] == p;
    } else {
      assert s[..n] == p + "{" + b[..|b| - 1];
      assert s[n] == b[|b| - 1];
      SplitInside(p, b[..|b| - 1]);
      WalkStaysInside(b[..|b| - 1], 1);
    }
  }

  lemma SplitClose(q: string)
    ensures var st := SplitState(q);
            SplitState(q + "}") ==
            Split(st.depth - 1, st.start, if st.depth == 1 then st.tags + [(q + "}")[st.start..]] else st.tags)
  {
    assert (q + "}")[..|q|] == q;
  }

  lemma ObjectText(p: string, b: string)
    ensures p + ("{" + b + "}") == p + "{" + b + "}"
    ensures (p + "{" + b + "}")[|p|..] == "{" + b + "}"
  {
    assert p + "{" + b + "}" == p + ("{" + b + "}");
  }

  /** After a closing brace the splitter has either read a whole object or is still inside one. */
  lemma SplitObject(p: string, b: string)
    requires SplitState(p).depth == 0 && Walk(b, 1).Some?
    ensures var st := SplitState(p + "{" + b + "}");
            if Walk(b, 1) == Some(1) then st == Split(0, |p|, SplitState(p).tags + ["{" + b + "}"])
            else st == Split(Walk(b, 1).value - 1, |p|, SplitState(p).tags) && st.depth > 0
  {
    SplitInside(p, b);
    WalkStaysInside(b, 1);
    SplitClose(p + "{" + b);
    ObjectText(p, b);
  }

  lemma SplitComma(p: string)
    ensures SplitState(p + ",") == SplitState(p)
  {
    assert (p + ",")[..|p|] == p;
  }

  function PrintEach(tags: seq<Tag>): seq<string> {
    if tags == [] then [] else PrintEach(tags[..|tags| - 1]) + [PrintTag(tags[|tags| - 1])]
  }

  ghost predicate AllPrintable(tags: seq<Tag>) {
    forall t :: t in tags ==> Printable(t)
  }

  lemma {:induction false} SplitOfPrinted(tags: seq<Tag>)
    requires AllPrintable(tags)
    ensures SplitState(PrintAll(tags)).depth == 0
    ensures SplitState(PrintAll(tags)).tags == PrintEach(tags)
  {
    if tags != [] {
      var n := |tags| - 1;
      var t := tags[n];
      SplitOfPrinted(tags[..n]);
      SplitComma(PrintAll(tags[..n]));
      PrintedBody(t);
      WalkOfBody(t);
      assert Printable(t);
      var p := if n == 0 then "" else PrintAll(tags[..n]) + ",";
      SplitObject(p, Body(t));
      ObjectText(p, Body(t));
    }
  }

  lemma CollectAppend(objects: seq<string>, t: Tag)
    requires '\"' !in t.key && '\"' !in t.value
    ensures Collect(objects + [PrintTag(t)]) ==
            if t.key == "" then Collect(objects) else Collect(objects)[t.key := t.value]
  {
    PrintedTagParses(t);
    assert (objects + [PrintTag(t)])[..|objects|] == objects;
  }

  lemma {:induction false} CollectOfPrinted(tags: seq<Tag>)
    requires AllPrintable(tags)
    ensures Collect(PrintEach(tags)) == LastWins(tags)
  {
    if tags != [] {
      var n := |tags| - 1;
      CollectOfPrinted(tags[..n]);
      assert Printable(tags[n]);
      CollectAppend(PrintEach(tags[..n]), tags[n]);
    }
  }

  lemma InnerOfBracketed(x: string)
    ensures TrimSpace("[" + x + "]") == "[" + x + "]"
    ensures Inner("[" + x + "]") == x
  {
    var s := "[" + x + "]";
    TrimFixed(s);
    assert s[1..] == x + "]";
    assert s[1..][..|x|] == x;
    assert (x + "]")[|x|..] == "]";
  }

  lemma ParsedOfPrinted(tags: seq<Tag>)
    ensures Parsed(Print(tags)) == Collect(SplitState(PrintAll(tags)).tags)
  {
    InnerOfBracketed(PrintAll(tags));
    if tags != [] {
      assert |PrintAll(tags)| > 0;
    }
  }

  /** Printing a list of tags and parsing it back gives the list's map, the last of equal keys
      winning and empty keys dropped, whatever the keys and values spell as long as they hold no quote
      and their braces balance. */
  lemma {:induction false} TagRoundTrip(tags: seq<Tag>)
    requires AllPrintable(tags)
    ensures Parsed(Print(tags)) == LastWins(tags)
  {
    ParsedOfPrinted(tags);
    SplitOfPrinted(tags);
    CollectOfPrinted(tags);
  }
}
