/** Searching and splitting text the way the libraries used by the sources do. */
module Text {

  /** The position of the first c in s, or the length of s. */
  function IndexOf(s: string, c: char): (i: nat)
    ensures i <= |s| && c !in s[..i]
    ensures i < |s| ==> s[i] == c
    ensures i == |s| <==> c !in s
  {
    if s == "" || s[0] == c then 0
    else
      assert s == [s[0]] + s[1..];
      var i := 1 + IndexOf(s[1..], c);
      assert s[..i] == [s[0]] + s[1..][..i - 1];
      i
  }

  /** Drops a leading run of c. */
  function SkipRun(s: string, c: char): (r: string)
    ensures |r| <= |s|
    ensures s != "" && s[0] == c ==> |r| < |s|
  {
    if s != "" && s[0] == c then SkipRun(s[1..], c) else s
  }

  /** split with token_compress_on: a run of separators counts as one; there is always a token. */
  function Split(s: string, sep: char): (tokens: seq<string>)
    ensures |tokens| > 0
    decreases |s|
  {
    var i := IndexOf(s, sep);
    if i == |s| then [s] else [s[..i]] + Split(SkipRun(s[i..], sep), sep)
  }

  lemma {:induction false} IndexOfIsFirst(s: string, c: char, k: nat)
    requires k < |s| && s[k] == c && c !in s[..k]
    ensures IndexOf(s, c) == k
  {
    if k == 0 {
    } else {
      assert s[0] == s[..k][0];
      assert s[1..][..k - 1] == s[..k][1..];
      IndexOfIsFirst(s[1..], c, k - 1);
    }
  }

  lemma SplitFirst(token: string, rest: string, sep: char)
    requires sep !in token && rest != "" && rest[0] != sep
    ensures Split(token + [sep] + rest, sep) == [token] + Split(rest, sep)
  {
    var s, i := token + [sep] + rest, |token|;
    assert s[..i] == token && s[i] == sep;
    IndexOfIsFirst(s, sep, i);
    assert s[i..][1..] == rest;
    assert SkipRun(s[i..], sep) == SkipRun(rest, sep) == rest;
  }

  /** A run of separators counts as one. */
  lemma {:induction false} RunIsOne(token: string, k: nat, rest: string, sep: char)
    requires sep !in token && k > 0
    ensures Split(token + seq(k, _ => sep) + rest, sep) == Split(token + [sep] + rest, sep)
  {
    var s := token + seq(k, _ => sep) + rest;
    assert s[|token|] == sep && s[..|token|] == token;
    IndexOfIsFirst(s, sep, |token|);
    assert s[|token|..] == seq(k, _ => sep) + rest;
    SkipsRun(k, rest, sep);
    var one := token + [sep] + rest;
    assert one[|token|] == sep && one[..|token|] == token;
    IndexOfIsFirst(one, sep, |token|);
    assert one[|token|..] == seq(1, _ => sep) + rest;
    SkipsRun(1, rest, sep);
  }

  lemma {:induction false} SkipsRun(k: nat, rest: string, sep: char)
    ensures SkipRun(seq(k, _ => sep) + rest, sep) == SkipRun(rest, sep)
  {
    var s := seq(k, _ => sep) + rest;
    if k == 0 {
      assert s == rest;
    } else {
      assert s[1..] == seq(k - 1, _ => sep) + rest;
      SkipsRun(k - 1, rest, sep);
    }
  }

  predicate IsSpace(c: char) {
    c == ' ' || '\t' <= c <= '\r'
  }

  /** trim: drops white space at both ends. */
  function Trim(s: string): string {
    TrimRight(TrimLeft(s))
  }

  function TrimLeft(s: string): string {
    if s != "" && IsSpace(s[0]) then TrimLeft(s[1..]) else s
  }

  function TrimRight(s: string): string {
    if s != "" && IsSpace(s[|s| - 1]) then TrimRight(s[..|s| - 1]) else s
  }
}
