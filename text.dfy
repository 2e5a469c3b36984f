/** The parts of Python's `str` that the scrapers use: `isspace`, `strip`,
    `split()` (on runs of whitespace), `split(sep, maxsplit)`, `" ".join`,
    `replace(pattern, "")`, `startswith`, `in`, `lower` (ASCII letters) and `zfill`. */
module Text {
  import opened Wrappers

  /** Python's `str.isspace` for one character: the characters `split()` and `strip()` treat as whitespace. */
  predicate IsSpace(c: char) {
    ('\t' <= c <= '\r') || ('\U{1C}' <= c <= '\U{1F}') || c == ' ' || c == '\U{85}' || c == '\U{A0}'
    || c == '\U{1680}' || ('\U{2000}' <= c <= '\U{200A}') || c == '\U{2028}' || c == '\U{2029}'
    || c == '\U{202F}' || c == '\U{205F}' || c == '\U{3000}'
  }

  predicate NoSpace(s: string) {
    forall k :: 0 <= k < |s| ==> !IsSpace(s[k])
  }

  predicate StartsWith(s: string, prefix: string) {
    |prefix| <= |s| && s[..|prefix|] == prefix
  }

  /** Python's `sub in s`. */
  predicate Contains(s: string, sub: string)
    decreases |s|
  {
    StartsWith(s, sub) || (s != [] && Contains(s[1..], sub))
  }

  /** Number of leading whitespace characters. */
  function SpacePrefixLen(s: string): (n: nat)
    ensures n <= |s|
    ensures forall k :: 0 <= k < n ==> IsSpace(s[k])
    ensures n == |s| || !IsSpace(s[n])
  {
    if s == [] || !IsSpace(s[0]) then 0 else 1 + SpacePrefixLen(s[1..])
  }

  /** Number of trailing whitespace characters. */
  function SpaceSuffixLen(s: string): (n: nat)
    ensures n <= |s|
    ensures forall k :: |s| - n <= k < |s| ==> IsSpace(s[k])
    ensures n == |s| || !IsSpace(s[|s| - 1 - n])
  {
    if s == [] || !IsSpace(s[|s| - 1]) then 0 else 1 + SpaceSuffixLen(s[..|s| - 1])
  }

  /** Number of leading non-whitespace characters. */
  function WordLen(s: string): (n: nat)
    ensures n <= |s|
    ensures forall k :: 0 <= k < n ==> !IsSpace(s[k])
    ensures n == |s| || IsSpace(s[n])
  {
    if s == [] || IsSpace(s[0]) then 0 else 1 + WordLen(s[1..])
  }

  /** Python's `s.strip()`: the slice left after removing every leading and trailing whitespace
      character. The removed ends are all whitespace, and the result neither starts nor ends with
      whitespace, so no more could be removed. */
  function Strip(s: string): (r: string)
    ensures r == [] || (!IsSpace(r[0]) && !IsSpace(r[|r| - 1]))
    ensures exists i, j ::
      (0 <= i <= j <= |s| && r == s[i..j]
       && (forall k :: 0 <= k < i ==> IsSpace(s[k])) && (forall k :: j <= k < |s| ==> IsSpace(s[k])))
  {
    var a := SpacePrefixLen(s);
    var b := SpaceSuffixLen(s[a..]);
    s[a..|s| - b]
  }

  /** Python's `s.split()`: the maximal runs of non-whitespace, in order. */
  function SplitWs(s: string): (parts: seq<string>)
    ensures forall k :: 0 <= k < |parts| ==> parts[k] != [] && NoSpace(parts[k])
    decreases |s|
  {
    var t := s[SpacePrefixLen(s)..];
    if t == [] then []
    else
      var n := WordLen(t);
      var word := t[..n];
      assert word != [] && NoSpace(word);
      [word] + SplitWs(t[n..])
  }

  /** Python's `sep.join(parts)`. */
  function Join(parts: seq<string>, sep: string): string {
    if parts == [] then ""
    else if |parts| == 1 then parts[0]
    else parts[0] + sep + Join(parts[1..], sep)
  }

  /** Index of the first occurrence of `c`, if any. */
  function FirstIndex(s: string, c: char): (r: Option<nat>)
    ensures r.Some? ==> r.value < |s| && s[r.value] == c && c !in s[..r.value]
    ensures r.None? ==> c !in s
  {
    if s == [] then None
    else if s[0] == c then Some(0)
    else match FirstIndex(s[1..], c)
      case None => None
      case Some(i) => Some(i + 1)
  }

  /** Python's `s.split(c, maxsplit)` for a one-character separator. */
  function SplitMax(s: string, c: char, maxsplit: nat): seq<string>
    decreases maxsplit
  {
    if maxsplit == 0 then [s]
    else match FirstIndex(s, c)
      case None => [s]
      case Some(i) => [s[..i]] + SplitMax(s[i + 1..], c, maxsplit - 1)
  }

  /** Python's `s.split(c)` for a one-character separator (no limit on the number of splits). */
  function SplitOn(s: string, c: char): seq<string>
    decreases |s|
  {
    match FirstIndex(s, c)
    case None => [s]
    case Some(i) => [s[..i]] + SplitOn(s[i + 1..], c)
  }

  /** Python's `s.replace(pattern, "")`: every non-overlapping occurrence, scanned from the left, is removed. */
  function RemoveAll(s: string, pattern: string): string
    requires pattern != []
    decreases |s|
  {
    if s == [] then []
    else if StartsWith(s, pattern) then RemoveAll(s[|pattern|..], pattern)
    else [s[0]] + RemoveAll(s[1..], pattern)
  }

  function LowerChar(c: char): char {
    if 'A' <= c <= 'Z' then (c as int + 32) as char else c
  }

  /** Python's `s.lower()` restricted to ASCII letters (see README). */
  function Lower(s: string): (r: string)
    ensures |r| == |s|
  {
    seq(|s|, k requires 0 <= k < |s| => LowerChar(s[k]))
  }

  /** Python's `s.zfill(width)`: pad with '0' on the left, after a leading sign. */
  function ZFill(s: string, width: nat): (r: string)
    ensures |s| >= width ==> r == s
    ensures |s| < width ==> |r| == width
    ensures |s| < width && s != [] && (s[0] == '+' || s[0] == '-') ==>
      r[0] == s[0] && (forall k :: 1 <= k <= width - |s| ==> r[k] == '0') && r[width - |s| + 1..] == s[1..]
    ensures |s| < width && !(s != [] && (s[0] == '+' || s[0] == '-')) ==>
      (forall k :: 0 <= k < width - |s| ==> r[k] == '0') && r[width - |s|..] == s
  {
    if |s| >= width then s
    else
      var zeros := seq(width - |s|, _ => '0');
      if s != [] && (s[0] == '+' || s[0] == '-') then [s[0]] + zeros + s[1..] else zeros + s
  }

  // ---------------------------------------------------------------- lemmas

  /** `s.split()` undoes `" ".join(words)` when every word is non-empty and has no whitespace. */
  lemma {:induction false} SplitWsJoin(words: seq<string>)
    requires forall k :: 0 <= k < |words| ==> words[k] != [] && NoSpace(words[k])
    ensures SplitWs(Join(words, " ")) == words
  {
    if words == [] {
    } else if |words| == 1 {
      SplitWsWord(words[0], []);
      assert words[0] + [] == words[0];
    } else {
      SplitWsJoin(words[1..]);
      assert Join(words, " ") == words[0] + " " + Join(words[1..], " ");
      SplitWsWordThenRest(words[0], Join(words[1..], " "));
      HeadTail(words);
    }
  }

  /** Concatenation is associative (stated once for any element type). */
  lemma ConcatAssoc<T>(a: seq<T>, b: seq<T>, c: seq<T>)
    ensures a + (b + c) == (a + b) + c
  {
  }

  /** The empty sequence is a unit of concatenation. */
  lemma EmptyConcat<T>(s: seq<T>)
    ensures [] + s == s && s + [] == s
  {
  }

  /** Two single elements in front of nothing. */
  lemma TwoThenEmpty<T>(a: T, b: T, s: seq<T>)
    requires s == []
    ensures [a] + ([b] + s) == [a, b]
  {
  }

  /** A non-empty sequence is its head followed by its tail. */
  lemma HeadTail<T>(s: seq<T>)
    requires s != []
    ensures s == [s[0]] + s[1..]
  {
  }

  /** A word, a space, then anything: the word is the first piece and the rest splits on its own. */
  lemma SplitWsWordThenRest(w: string, rest: string)
    requires w != [] && NoSpace(w)
    ensures SplitWs(w + " " + rest) == [w] + SplitWs(rest)
  {
    var tail := " " + rest;
    assert w + " " + rest == w + tail;
    assert IsSpace(tail[0]);
    SplitWsWord(w, tail);
    SplitWsSkipsLeadingSpace(rest);
  }

  /** A word followed by nothing or by whitespace is the first piece of `split()`. */
  lemma SplitWsWord(w: string, tail: string)
    requires w != [] && NoSpace(w)
    requires tail == [] || IsSpace(tail[0])
    ensures SplitWs(w + tail) == [w] + SplitWs(tail)
  {
    var s := w + tail;
    assert SpacePrefixLen(s) == 0;
    assert s[0..] == s;
    WordLenOfWord(w, tail);
    assert s[..|w|] == w;
    assert s[|w|..] == tail;
  }

  lemma {:induction false} WordLenOfWord(w: string, tail: string)
    requires NoSpace(w)
    requires tail == [] || IsSpace(tail[0])
    ensures WordLen(w + tail) == |w|
  {
    if w != [] {
      assert (w + tail)[1..] == w[1..] + tail;
      WordLenOfWord(w[1..], tail);
    }
  }

  lemma SplitWsSkipsLeadingSpace(s: string)
    ensures SplitWs(" " + s) == SplitWs(s)
  {
    assert (" " + s)[1..] == s;
    assert (" " + s)[SpacePrefixLen(" " + s)..] == s[SpacePrefixLen(s)..];
  }

  /** `s.split(c)` has one more piece than there are occurrences of `c`: it has more than one piece exactly when `c in s`. */
  lemma {:induction false} SplitOnManyIff(s: string, c: char)
    ensures |SplitOn(s, c)| > 1 <==> c in s
  {
    match FirstIndex(s, c)
    case None =>
    case Some(i) =>
  }

  /** The last piece of `s.split(c, 1)` is everything after the first `c`, or `s` itself. */
  lemma SplitMaxOneLast(s: string, c: char)
    ensures var parts := SplitMax(s, c, 1);
      parts[|parts| - 1] == (match FirstIndex(s, c) case None => s case Some(i) => s[i + 1..])
  {
  }

  /** `split(c, 2)`: the pieces before the first `c`, between the first two, and after the second. */
  lemma SplitMaxTwo(t: string, c: char)
    ensures var parts := SplitMax(t, c, 2);
      match FirstIndex(t, c)
      case None => parts == [t]
      case Some(i) =>
        match FirstIndex(t[i + 1..], c)
        case None => parts == [t[..i], t[i + 1..]]
        case Some(j) => parts == [t[..i], t[i + 1..][..j], t[i + 1..][j + 1..]]
  {
    match FirstIndex(t, c)
    case None =>
    case Some(i) =>
      var u := t[i + 1..];
      match FirstIndex(u, c)
      case None =>
        assert SplitMax(u, c, 1) == [u];
      case Some(j) =>
        assert SplitMax(u, c, 1) == [u[..j]] + SplitMax(u[j + 1..], c, 0);
  }

  /** With two separators present, the third piece of `split(c, 2)` is everything after the second. */
  lemma SplitMaxTwoThird(t: string, c: char, i: nat, j: nat)
    requires FirstIndex(t, c) == Some(i) && i + 1 <= |t| && FirstIndex(t[i + 1..], c) == Some(j)
    ensures |SplitMax(t, c, 2)| == 3 && SplitMax(t, c, 2)[2] == t[i + 1..][j + 1..]
  {
    var u := t[i + 1..];
    assert SplitMax(u, c, 1) == [u[..j]] + SplitMax(u[j + 1..], c, 0);
  }

  /** Removing a pattern longer than the string changes nothing. */
  lemma {:induction false} RemoveAllShort(s: string, pattern: string)
    requires pattern != [] && |s| < |pattern|
    ensures RemoveAll(s, pattern) == s
  {
    if s != [] {
      RemoveAllShort(s[1..], pattern);
      assert s == [s[0]] + s[1..];
    }
  }

  /** A string without an occurrence of the pattern is left as it is. */
  lemma {:induction false} RemoveAllAbsent(s: string, pattern: string)
    requires pattern != [] && !Contains(s, pattern)
    ensures RemoveAll(s, pattern) == s
    decreases |s|
  {
    if s != [] {
      RemoveAllAbsent(s[1..], pattern);
      assert s == [s[0]] + s[1..];
    }
  }

  /** Removing a pattern at the front of the string. */
  lemma RemoveAllPrefix(pattern: string, s: string)
    requires pattern != []
    ensures RemoveAll(pattern + s, pattern) == RemoveAll(s, pattern)
  {
    assert StartsWith(pattern + s, pattern);
    assert (pattern + s)[|pattern|..] == s;
  }

  /** Stripping is idempotent. */
  lemma StripStripped(s: string)
    requires s == [] || (!IsSpace(s[0]) && !IsSpace(s[|s| - 1]))
    ensures Strip(s) == s
  {
  }
}
