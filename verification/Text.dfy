/** The string operations the program takes from its standard library. */
module Text {

  /** White space as Unicode defines it. */
  predicate IsSpace(c: char) {
    c in {'\t', '\n', '\U{0B}', '\U{0C}', '\r', ' ', '\U{85}', '\U{A0}', '\U{1680}', '\U{2028}', '\U{2029}',
          '\U{202F}', '\U{205F}', '\U{3000}'} || '\U{2000}' <= c <= '\U{200A}'
  }

  function TrimLeft(s: string): string {
    if |s| > 0 && IsSpace(s[0]) then TrimLeft(s[1..]) else s
  }

  function TrimRight(s: string): string {
    if |s| > 0 && IsSpace(s[|s| - 1]) then TrimRight(s[..|s| - 1]) else s
  }

  function TrimSpace(s: string): string {
    TrimRight(TrimLeft(s))
  }

  predicate HasPrefix(s: string, prefix: string) {
    prefix <= s
  }

  predicate HasSuffix(s: string, suffix: string) {
    |suffix| <= |s| && s[|s| - |suffix|..] == suffix
  }

  function TrimPrefix(s: string, prefix: string): string {
    if HasPrefix(s, prefix) then s[|prefix|..] else s
  }

  function TrimSuffix(s: string, suffix: string): string {
    if HasSuffix(s, suffix) then s[..|s| - |suffix|] else s
  }

  function LowerChar(c: char): char {
    if 'A' <= c <= 'Z' then (c as int + 32) as char else c
  }

  function ToLower(s: string): string {
    seq(|s|, i requires 0 <= i < |s| => LowerChar(s[i]))
  }

  /** The text is its own trimming exactly when neither end is white space. */
  lemma TrimFixed(s: string)
    ensures TrimSpace(s) == s <==> (s == "" || (!IsSpace(s[0]) && !IsSpace(s[|s| - 1])))
  {
    if s != "" && IsSpace(s[0]) {
      var j := TrimLeftShorter(s[1..]);
      var k := TrimRightShorter(TrimLeft(s));
    } else if s != "" && IsSpace(s[|s| - 1]) {
      var k := TrimRightShorter(s[..|s| - 1]);
    }
  }

  lemma {:induction false} TrimLeftShorter(s: string) returns (k: nat)
    ensures k <= |s| && TrimLeft(s) == s[k..]
    ensures forall i :: 0 <= i < k ==> IsSpace(s[i])
    ensures TrimLeft(s) != "" ==> !IsSpace(TrimLeft(s)[0])
  {
    k := 0;
    if |s| > 0 && IsSpace(s[0]) {
      var j := TrimLeftShorter(s[1..]);
      k := j + 1;
      assert s[1..][j..] == s[k..];
      forall i | 0 <= i < k ensures IsSpace(s[i]) {
        if i > 0 { assert s[1..][i - 1] == s[i]; }
      }
    }
  }

  lemma {:induction false} TrimRightShorter(s: string) returns (k: nat)
    ensures k <= |s| && TrimRight(s) == s[..k]
    ensures forall i :: k <= i < |s| ==> IsSpace(s[i])
    ensures TrimRight(s) != "" ==> !IsSpace(TrimRight(s)[|TrimRight(s)| - 1])
  {
    k := |s|;
    if |s| > 0 && IsSpace(s[|s| - 1]) {
      var n := |s| - 1;
      k := TrimRightShorter(s[..n]);
      assert s[..n][..k] == s[..k];
      forall i | k <= i < |s| ensures IsSpace(s[i]) {
        if i < n { assert s[..n][i] == s[i]; }
      }
    }
  }

  /** What trimming does: it drops white space at both ends and nothing else. */
  lemma TrimSpaceShape(s: string) returns (k: nat)
    ensures k + |TrimSpace(s)| <= |s| && s[k..k + |TrimSpace(s)|] == TrimSpace(s)
    ensures forall i :: 0 <= i < k || k + |TrimSpace(s)| <= i < |s| ==> IsSpace(s[i])
  {
    k := TrimLeftShorter(s);
    var l := TrimLeft(s);
    var m := TrimRightShorter(l);
    assert l[..m] == s[k..k + m];
    forall i | k + m <= i < |s| ensures IsSpace(s[i]) {
      assert l[i - k] == s[i];
    }
  }

  lemma TrimSpaceEnds(s: string)
    ensures TrimSpace(s) != "" ==> !IsSpace(TrimSpace(s)[|TrimSpace(s)| - 1])
  {
    var m := TrimRightShorter(TrimLeft(s));
  }

  lemma TrimTwice(s: string)
    ensures TrimSpace(TrimSpace(s)) == TrimSpace(s)
  {
    var k := TrimLeftShorter(s);
    var m := TrimRightShorter(TrimLeft(s));
    TrimFixed(TrimSpace(s));
  }

  /** Trimming keeps everything that is not white space. */
  lemma TrimKeeps(s: string, c: char)
    requires c in s && !IsSpace(c)
    ensures c in TrimSpace(s)
  {
    var k := TrimSpaceShape(s);
    var i :| 0 <= i < |s| && s[i] == c;
    assert TrimSpace(s)[i - k] == c;
  }
}
