/**
 * The JavaScript string operations the dispatch engine relies on, over `seq<char>`:
 * `startsWith`, `endsWith`, `trim`, `split(/\s+/)`, `toLowerCase`, `join` and the
 * decimal rendering of a count inside a template literal.
 */
module Strings {

  /** The characters JavaScript's `trim` and the regular expression class `\s` treat as white space. */
  predicate IsSpace(c: char) {
    || c == ' ' || c == '\t' || c == '\n' || c == '\r' || c == '\U{000B}' || c == '\U{000C}'
    || c == '\U{00A0}' || c == '\U{1680}' || ('\U{2000}' <= c <= '\U{200A}')
    || c == '\U{2028}' || c == '\U{2029}' || c == '\U{202F}' || c == '\U{205F}'
    || c == '\U{3000}' || c == '\U{FEFF}'
  }

  predicate NoSpace(s: string) {
    forall i :: 0 <= i < |s| ==> !IsSpace(s[i])
  }

  predicate StartsWith(s: string, prefix: string) {
    |prefix| <= |s| && s[..|prefix|] == prefix
  }

  predicate EndsWith(s: string, suffix: string) {
    |suffix| <= |s| && s[|s| - |suffix|..] == suffix
  }

  /** `s.includes(sub)`. */
  predicate Contains(s: string, sub: string) {
    exists i :: 0 <= i <= |s| && StartsWith(s[i..], sub)
  }

  /** Drops the leading white space. */
  function TrimStart(s: string): (r: string)
    ensures |r| <= |s| && r == s[|s| - |r|..]
    ensures forall i :: 0 <= i < |s| - |r| ==> IsSpace(s[i])
    ensures r == [] || !IsSpace(r[0])
  {
    if s != [] && IsSpace(s[0]) then TrimStart(s[1..]) else s
  }

  /** Drops the trailing white space. */
  function TrimEnd(s: string): (r: string)
    ensures |r| <= |s| && r == s[..|r|]
    ensures forall i :: |r| <= i < |s| ==> IsSpace(s[i])
    ensures r == [] || !IsSpace(r[|r| - 1])
  {
    if s != [] && IsSpace(s[|s| - 1]) then TrimEnd(s[..|s| - 1]) else s
  }

  /** JavaScript's `s.trim()`: the longest slice of `s` that neither starts nor ends with white space. */
  function Trim(s: string): (r: string)
    ensures r == [] || (!IsSpace(r[0]) && !IsSpace(r[|r| - 1]))
    ensures var k := |s| - |TrimStart(s)|;
      && k + |r| <= |s| && r == s[k..k + |r|]
      && (forall i :: 0 <= i < k ==> IsSpace(s[i]))
      && (forall i :: k + |r| <= i < |s| ==> IsSpace(s[i]))
  {
    TrimEnd(TrimStart(s))
  }

  /** The longest prefix of `s` holding no white space. */
  function TakeWord(s: string): (w: string)
    ensures |w| <= |s| && w == s[..|w|] && NoSpace(w)
    ensures |w| < |s| ==> IsSpace(s[|w|])
  {
    if s == [] || IsSpace(s[0]) then [] else [s[0]] + TakeWord(s[1..])
  }

  /** Drops a leading run of white space. */
  function DropSpaces(s: string): (r: string)
    ensures |r| <= |s| && r == s[|s| - |r|..]
    ensures r == [] || !IsSpace(r[0])
  {
    if s != [] && IsSpace(s[0]) then DropSpaces(s[1..]) else s
  }

  /**
   * JavaScript's `s.split(/\s+/)`: the fields between maximal runs of white space,
   * including an empty first field when `s` starts with white space and an empty last
   * field when it ends with it; `""` splits into `[""]`.
   */
  function SplitWs(s: string): (r: seq<string>)
    ensures |r| >= 1
    decreases |s|
  {
    var w := TakeWord(s);
    var rest := s[|w|..];
    if rest == [] then [w] else [w] + SplitWs(DropSpaces(rest))
  }

  /** Lower-cases the ASCII capitals and keeps every other character. */
  function LowerChar(c: char): char {
    if 'A' <= c <= 'Z' then (c as int - 'A' as int + 'a' as int) as char else c
  }

  /** `s.toLowerCase()`, on ASCII letters. */
  function ToLower(s: string): (r: string)
    ensures |r| == |s| && forall i :: 0 <= i < |s| ==> r[i] == LowerChar(s[i])
  {
    seq(|s|, i requires 0 <= i < |s| => LowerChar(s[i]))
  }

  /** `parts.join(sep)`. */
  function Join(parts: seq<string>, sep: string): string {
    if |parts| == 0 then ""
    else if |parts| == 1 then parts[0]
    else parts[0] + sep + Join(parts[1..], sep)
  }

  /** The decimal digits of `n`, as a template literal renders a count. */
  function NatToString(n: nat): (r: string)
    ensures r != [] && forall i :: 0 <= i < |r| ==> '0' <= r[i] <= '9'
  {
    var d := [(n % 10 + '0' as int) as char];
    if n < 10 then d else NatToString(n / 10) + d
  }

  lemma {:induction false} TakeWordOfWordThenSpace(w: string, rest: string)
    requires NoSpace(w)
    requires rest == [] || IsSpace(rest[0])
    ensures TakeWord(w + rest) == w
    decreases |w|
  {
    if w != [] {
      assert (w + rest)[1..] == w[1..] + rest;
      TakeWordOfWordThenSpace(w[1..], rest);
    }
  }

  /** One step of `SplitWs` over a word, one space and a word-initial rest. */
  lemma SplitWsStep(w: string, tail: string)
    requires NoSpace(w) && tail != [] && !IsSpace(tail[0])
    ensures SplitWs(w + " " + tail) == [w] + SplitWs(tail)
  {
    var s := w + " " + tail;
    TakeWordOfWordThenSpace(w, " " + tail);
    assert s == w + (" " + tail);
    assert s[|w|..] == " " + tail;
    assert (" " + tail)[1..] == tail;
    assert DropSpaces(" " + tail) == tail;
  }

  /**
   * Splitting on white space undoes joining with single spaces, when no word is
   * empty and no word holds white space.
   */
  lemma {:induction false} SplitJoinRoundTrip(words: seq<string>)
    requires |words| >= 1
    requires forall i :: 0 <= i < |words| ==> words[i] != [] && NoSpace(words[i])
    ensures SplitWs(Join(words, " ")) == words
    decreases |words|
  {
    if |words| == 1 {
      TakeWordOfWordThenSpace(words[0], []);
      assert words[0] + [] == words[0];
    } else {
      var tail := Join(words[1..], " ");
      JoinStartsWithFirst(words[1..], " ");
      SplitWsStep(words[0], tail);
      SplitJoinRoundTrip(words[1..]);
      assert words == [words[0]] + words[1..];
    }
  }

  lemma {:induction false} JoinStartsWithFirst(parts: seq<string>, sep: string)
    requires |parts| >= 1 && parts[0] != []
    ensures Join(parts, sep) != [] && Join(parts, sep)[0] == parts[0][0]
  {
  }

  /** A string that differs from `prefix` at position `i` does not start with it. */
  lemma NotPrefixAt(s: string, prefix: string, i: nat)
    requires i < |prefix| && (i >= |s| || s[i] != prefix[i])
    ensures !StartsWith(s, prefix)
  {
    if |prefix| <= |s| {
      assert s[..|prefix|][i] == s[i];
    }
  }

  /** A string with no white space at either end is its own trim. */
  lemma TrimOfTrimmed(s: string)
    requires s != [] && !IsSpace(s[0]) && !IsSpace(s[|s| - 1])
    ensures Trim(s) == s
  {
  }

  /** Trimming a word-bounded string followed by one space gives the string back. */
  lemma TrimDropsTrailingSpace(s: string)
    requires s != [] && !IsSpace(s[0]) && !IsSpace(s[|s| - 1])
    ensures Trim(s + " ") == s
  {
    assert TrimStart(s + " ") == s + " ";
    assert (s + " ")[..|s|] == s;
  }

  /** The first and last characters of a join of non-empty parts are those of the first and last parts. */
  lemma {:induction false} JoinEnds(parts: seq<string>, sep: string)
    requires |parts| >= 1 && forall i :: 0 <= i < |parts| ==> parts[i] != []
    ensures Join(parts, sep) != [] && Join(parts, sep)[0] == parts[0][0]
    ensures var s, last := Join(parts, sep), parts[|parts| - 1]; s != [] && s[|s| - 1] == last[|last| - 1]
    decreases |parts|
  {
    if |parts| > 1 {
      JoinEnds(parts[1..], sep);
    }
  }

  /** A string contains each of the pieces it is concatenated from. */
  lemma ContainsMiddle(a: string, b: string, c: string)
    ensures Contains(a + b + c, b)
  {
    var s := a + b + c;
    assert s[|a|..][..|b|] == b;
  }

  lemma ContainsTransitive(s: string, t: string, u: string)
    requires Contains(s, t) && Contains(t, u)
    ensures Contains(s, u)
  {
    var i :| 0 <= i <= |s| && StartsWith(s[i..], t);
    var j :| 0 <= j <= |t| && StartsWith(t[j..], u);
    assert s[i + j..][..|u|] == u by {
      forall k | 0 <= k < |u| ensures s[i + j..][..|u|][k] == u[k] {
        assert s[i..][..|t|][j + k] == t[j + k];
        assert t[j..][..|u|][k] == u[k];
      }
    }
  }

  lemma ContainsLeft(a: string, b: string)
    ensures Contains(a + b, a)
  {
    ContainsMiddle([], a, b);
    assert [] + a + b == a + b;
  }

  lemma ContainsRight(a: string, b: string)
    ensures Contains(a + b, b)
  {
    ContainsMiddle(a, b, []);
    assert a + b + [] == a + b;
  }

  /** `a + b + c` starts with `a`, ends with `c` and contains `b`. */
  lemma Framed(a: string, b: string, c: string)
    ensures StartsWith(a + b + c, a) && EndsWith(a + b + c, c) && Contains(a + b + c, b)
  {
    ContainsMiddle(a, b, c);
    assert (a + b + c)[..|a|] == a;
    assert (a + b + c)[|a + b|..] == c;
  }

  /** A left-nested concatenation of seven pieces starts with the first and contains each. */
  /** In a concatenation of seven pieces, the third starts after the first two and the last two end it. */
  lemma SevenPiecesOrder(p1: string, p2: string, p3: string, p4: string, p5: string, p6: string, p7: string)
    ensures var s := p1 + p2 + p3 + p4 + p5 + p6 + p7;
      && |p1| + |p2| + |p3| <= |s| - |p6| - |p7|
      && StartsWith(s[|p1| + |p2|..], p3) && EndsWith(s, p6 + p7)
  {
    var s := p1 + p2 + p3 + p4 + p5 + p6 + p7;
    assert s == (p1 + p2) + p3 + (p4 + p5) + (p6 + p7);
    assert s[|p1| + |p2|..][..|p3|] == p3;
    assert s[|s| - |p6 + p7|..] == p6 + p7;
  }

  lemma SevenPieces(p1: string, p2: string, p3: string, p4: string, p5: string, p6: string, p7: string)
    ensures var s := p1 + p2 + p3 + p4 + p5 + p6 + p7;
      && StartsWith(s, p1) && Contains(s, p2) && Contains(s, p3) && Contains(s, p4)
      && Contains(s, p5) && Contains(s, p6) && Contains(s, p7)
  {
    var s2 := p1 + p2;
    var s3 := s2 + p3;
    var s4 := s3 + p4;
    var s5 := s4 + p5;
    var s6 := s5 + p6;
    var s := s6 + p7;
    ContainsRight(s6, p7);
    ContainsLeft(s6, p7);
    ContainsRight(s5, p6);
    ContainsLeft(s5, p6);
    ContainsTransitive(s, s6, p6);
    ContainsTransitive(s, s6, s5);
    ContainsRight(s4, p5);
    ContainsLeft(s4, p5);
    ContainsTransitive(s, s5, p5);
    ContainsTransitive(s, s5, s4);
    ContainsRight(s3, p4);
    ContainsLeft(s3, p4);
    ContainsTransitive(s, s4, p4);
    ContainsTransitive(s, s4, s3);
    ContainsRight(s2, p3);
    ContainsLeft(s2, p3);
    ContainsTransitive(s, s3, p3);
    ContainsTransitive(s, s3, s2);
    ContainsRight(p1, p2);
    ContainsTransitive(s, s2, p2);
    assert s[..|p1|] == p1;
  }
}
