/** The JavaScript string operations the configuration and header parsers use. */
module Text {

  /** What `String.prototype.trim` strips: white space and line terminators. */
  predicate IsSpace(c: char) {
    || '\t' <= c <= '\r' || c == ' ' || c == '\U{00A0}' || c == '\U{FEFF}' || c == '\U{1680}'
    || '\U{2000}' <= c <= '\U{200A}' || c == '\U{2028}' || c == '\U{2029}' || c == '\U{202F}'
    || c == '\U{205F}' || c == '\U{3000}'
  }

  function TrimStart(s: string): string {
    if s != "" && IsSpace(s[0]) then TrimStart(s[1..]) else s
  }

  function TrimEnd(s: string): string {
    if s != "" && IsSpace(s[|s| - 1]) then TrimEnd(s[..|s| - 1]) else s
  }

  function Trim(s: string): string {
    TrimEnd(TrimStart(s))
  }

  ghost predicate AllSpace(s: string) {
    forall i :: 0 <= i < |s| ==> IsSpace(s[i])
  }

  lemma {:induction false} TrimStartCuts(s: string) returns (pre: string)
    ensures s == pre + TrimStart(s) && AllSpace(pre)
    ensures TrimStart(s) != "" ==> !IsSpace(TrimStart(s)[0])
  {
    if s != "" && IsSpace(s[0]) {
      pre := TrimStartCuts(s[1..]);
      pre := [s[0]] + pre;
    } else {
      pre := "";
    }
  }

  lemma {:induction false} TrimEndCuts(s: string) returns (post: string)
    ensures s == TrimEnd(s) + post && AllSpace(post)
    ensures TrimEnd(s) != "" ==> !IsSpace(TrimEnd(s)[|TrimEnd(s)| - 1])
  {
    if s != "" && IsSpace(s[|s| - 1]) {
      post := TrimEndCuts(s[..|s| - 1]);
      post := post + [s[|s| - 1]];
    } else {
      post := "";
    }
  }

  /** Trimming takes the white space off both ends, all of it and nothing else. */
  lemma TrimCuts(s: string) returns (pre: string, post: string)
    ensures s == pre + Trim(s) + post && AllSpace(pre) && AllSpace(post)
    ensures Trim(s) != "" ==> !IsSpace(Trim(s)[0]) && !IsSpace(Trim(s)[|Trim(s)| - 1])
  {
    pre := TrimStartCuts(s);
    post := TrimEndCuts(TrimStart(s));
    if Trim(s) != "" { assert TrimStart(s)[0] == Trim(s)[0]; }
  }

  /** The parts after putting one more character in front. */
  function Cons(c: char, parts: seq<string>, sep: char): (r: seq<string>)
    requires |parts| > 0
    ensures |r| > 0
  {
    if c == sep then [""] + parts else [[c] + parts[0]] + parts[1..]
  }

  lemma ConsConcat(c: char, a: seq<string>, b: seq<string>, sep: char)
    requires |a| > 0
    ensures Cons(c, a + b, sep) == Cons(c, a, sep) + b
  {
    assert (a + b)[0] == a[0] && (a + b)[1..] == a[1..] + b;
  }

  /** `s.split(sep)` for a one-character separator: always at least one part. */
  function Split(s: string, sep: char): (parts: seq<string>)
    ensures |parts| > 0
  {
    if s == "" then [""] else Cons(s[0], Split(s[1..], sep), sep)
  }

  /** The separator-joined text of the parts. */
  function Join(parts: seq<string>, sep: char): string
    requires |parts| > 0
  {
    if |parts| == 1 then parts[0] else parts[0] + [sep] + Join(parts[1..], sep)
  }

  /** Splitting loses nothing and no part holds the separator. */
  lemma {:induction false} SplitJoins(s: string, sep: char)
    ensures Join(Split(s, sep), sep) == s
    ensures forall i :: 0 <= i < |Split(s, sep)| ==> sep !in Split(s, sep)[i]
  {
    if s == "" {
    } else {
      SplitJoins(s[1..], sep);
      var rest := Split(s[1..], sep);
      if s[0] == sep {
        assert ([""] + rest)[1..] == rest;
      } else {
        var parts := [[s[0]] + rest[0]] + rest[1..];
        assert parts[1..] == rest[1..];
      }
    }
  }

  /** Splitting at a separator splits the two sides independently. */
  lemma {:induction false} SplitConcat(a: string, b: string, sep: char)
    ensures Split(a + [sep] + b, sep) == Split(a, sep) + Split(b, sep)
  {
    var whole := a + [sep] + b;
    if a == "" {
      assert whole[1..] == b;
    } else {
      SplitConcat(a[1..], b, sep);
      assert whole[0] == a[0] && whole[1..] == a[1..] + [sep] + b;
      ConsConcat(a[0], Split(a[1..], sep), Split(b, sep), sep);
    }
  }
}
