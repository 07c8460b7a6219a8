/** The Python string operations the engine relies on, over `string`
    (a sequence of code points): `str.split()` with no separator,
    `str.strip()` and its one-sided and character-set forms, `sep.join`,
    ASCII `str.lower()`, the substring test `a in b` and the slice `s[:k]`. */
module Text {

  /** The characters for which Python's `str.isspace()` holds; `str.split()`
      and `str.strip()` without arguments split on and strip exactly these. */
  const Whitespace: set<char> := {
    ' ', '\t', '\n', '\r', '\U{000b}', '\U{000c}',
    '\U{001c}', '\U{001d}', '\U{001e}', '\U{001f}', '\U{0085}', '\U{00a0}', '\U{1680}',
    '\U{2000}', '\U{2001}', '\U{2002}', '\U{2003}', '\U{2004}', '\U{2005}',
    '\U{2006}', '\U{2007}', '\U{2008}', '\U{2009}', '\U{200a}',
    '\U{2028}', '\U{2029}', '\U{202f}', '\U{205f}', '\U{3000}'
  }

  predicate IsSpace(c: char) {
    c in Whitespace
  }

  /** A word as `str.split()` yields it: non-empty and free of whitespace. */
  predicate IsWord(w: string) {
    |w| > 0 && forall i :: 0 <= i < |w| ==> !IsSpace(w[i])
  }

  predicate AllWords(ws: seq<string>) {
    forall i :: 0 <= i < |ws| ==> IsWord(ws[i])
  }

  predicate AllSpaces(s: string) {
    forall i :: 0 <= i < |s| ==> IsSpace(s[i])
  }

  /** Length of the run of non-whitespace characters that starts `s`. */
  function WordLength(s: string): (n: nat)
    ensures n <= |s|
    ensures forall i :: 0 <= i < n ==> !IsSpace(s[i])
    ensures n == |s| || IsSpace(s[n])
  {
    if s == [] || IsSpace(s[0]) then 0 else 1 + WordLength(s[1..])
  }

  /** Python's `s.split()`: the maximal runs of non-whitespace characters, in order. */
  function Split(s: string): (ws: seq<string>)
    ensures AllWords(ws)
    decreases |s|
  {
    if s == [] then []
    else if IsSpace(s[0]) then Split(s[1..])
    else
      var n := WordLength(s);
      [s[..n]] + Split(s[n..])
  }

  /** Python's `s.lstrip(cs)`: drops the longest prefix made of characters in `cs`. */
  function LStripChars(s: string, cs: set<char>): (r: string)
    ensures |r| <= |s| && r == s[|s| - |r|..]
    ensures r == [] || r[0] !in cs
    ensures forall i :: 0 <= i < |s| - |r| ==> s[i] in cs
  {
    if s != [] && s[0] in cs then LStripChars(s[1..], cs) else s
  }

  /** Python's `s.rstrip(cs)`: drops the longest suffix made of characters in `cs`. */
  function RStripChars(s: string, cs: set<char>): (r: string)
    ensures |r| <= |s| && r == s[..|r|]
    ensures r == [] || r[|r| - 1] !in cs
    ensures forall i :: |r| <= i < |s| ==> s[i] in cs
  {
    if s != [] && s[|s| - 1] in cs then RStripChars(s[..|s| - 1], cs) else s
  }

  /** Python's `s.strip(cs)`. */
  function StripChars(s: string, cs: set<char>): string {
    RStripChars(LStripChars(s, cs), cs)
  }

  /** Python's `s.strip()`, `s.lstrip()` and `s.rstrip()` without arguments. */
  function Strip(s: string): string {
    StripChars(s, Whitespace)
  }

  function RStrip(s: string): string {
    RStripChars(s, Whitespace)
  }

  /** Python's `sep.join(parts)`. */
  function Join(parts: seq<string>, sep: string): string {
    if parts == [] then []
    else if |parts| == 1 then parts[0]
    else parts[0] + sep + Join(parts[1..], sep)
  }

  function LowerChar(c: char): char {
    if 'A' <= c <= 'Z' then (c as int + 32) as char else c
  }

  /** `s.lower()` on ASCII letters; every other character is kept. */
  function Lower(s: string): string {
    seq(|s|, i requires 0 <= i < |s| => LowerChar(s[i]))
  }

  /** Python's `needle in hay` for two strings. */
  predicate IsSubstring(needle: string, hay: string) {
    needle <= hay || (hay != [] && IsSubstring(needle, hay[1..]))
  }

  /** Python's slice `s[:k]`, where a negative `k` counts from the end. */
  function TakePy<T>(s: seq<T>, k: int): seq<T> {
    if k >= 0 then s[..if k < |s| then k else |s|]
    else s[..if |s| + k > 0 then |s| + k else 0]
  }

  /** Python's slice `s[a:b]` for non-negative bounds, which are clamped to
      the length and give an empty slice when `a >= b`. */
  function SlicePy<T>(s: seq<T>, a: nat, b: nat): seq<T> {
    var lo := if a < |s| then a else |s|;
    var hi := if b < |s| then b else |s|;
    if lo <= hi then s[lo..hi] else []
  }

  function Min(a: int, b: int): int {
    if a < b then a else b
  }

  // ---------------------------------------------------------------------
  // Lemmas about splitting, joining and stripping

  lemma {:induction false} WordLengthAppend(a: string, t: string)
    requires WordLength(a) < |a| || t == [] || IsSpace(t[0])
    ensures WordLength(a + t) == WordLength(a)
    decreases |a|
  {
    if a == [] {
    } else if IsSpace(a[0]) {
    } else {
      assert (a + t)[1..] == a[1..] + t;
      WordLengthAppend(a[1..], t);
    }
  }

  lemma {:induction false} SplitAllSpaces(s: string)
    requires AllSpaces(s)
    ensures Split(s) == []
    decreases |s|
  {
    if s != [] {
      SplitAllSpaces(s[1..]);
    }
  }

  /** Whitespace appended to a string adds no word. */
  lemma {:induction false} SplitAppendSpaces(a: string, t: string)
    requires AllSpaces(t)
    ensures Split(a + t) == Split(a)
    decreases |a|
  {
    if a == [] {
      assert a + t == t;
      SplitAllSpaces(t);
    } else if IsSpace(a[0]) {
      assert (a + t)[1..] == a[1..] + t;
      SplitAppendSpaces(a[1..], t);
    } else {
      var n := WordLength(a);
      WordLengthAppend(a, t);
      assert (a + t)[..n] == a[..n];
      assert (a + t)[n..] == a[n..] + t;
      SplitAppendSpaces(a[n..], t);
    }
  }

  /** Whitespace in front of a string adds no word. */
  lemma {:induction false} SplitPrependSpaces(p: string, a: string)
    requires AllSpaces(p)
    ensures Split(p + a) == Split(a)
    decreases |p|
  {
    if p != [] {
      assert (p + a)[1..] == p[1..] + a;
      SplitPrependSpaces(p[1..], a);
    } else {
      assert p + a == a;
    }
  }

  lemma SplitLStrip(s: string)
    ensures Split(LStripChars(s, Whitespace)) == Split(s)
  {
    var l := LStripChars(s, Whitespace);
    var p := s[..|s| - |l|];
    assert s == p + l;
    assert AllSpaces(p) by {
      forall i | 0 <= i < |p| ensures IsSpace(p[i]) {
        assert p[i] == s[i];
      }
    }
    SplitPrependSpaces(p, l);
  }

  lemma SplitRStrip(s: string)
    ensures Split(RStripChars(s, Whitespace)) == Split(s)
  {
    var r := RStripChars(s, Whitespace);
    var t := s[|r|..];
    assert s == r + t;
    assert AllSpaces(t) by {
      forall i | 0 <= i < |t| ensures IsSpace(t[i]) {
        assert t[i] == s[|r| + i];
      }
    }
    SplitAppendSpaces(r, t);
  }

  /** Stripping a string keeps its words: `s.strip().split() == s.split()`. */
  lemma SplitStrip(s: string)
    ensures Split(Strip(s)) == Split(s)
  {
    SplitLStrip(s);
    SplitRStrip(LStripChars(s, Whitespace));
  }

  /** `s.strip(cs)` is the slice `s[a:b]`, and everything outside it is in `cs`. */
  lemma StripCharsSlice(s: string, cs: set<char>) returns (a: nat, b: nat)
    ensures a <= b <= |s| && StripChars(s, cs) == s[a..b]
    ensures forall i :: 0 <= i < a ==> s[i] in cs
    ensures forall i :: b <= i < |s| ==> s[i] in cs
  {
    var l := LStripChars(s, cs);
    var r := RStripChars(l, cs);
    a := |s| - |l|;
    b := a + |r|;
    assert r == l[..|r|] && l == s[a..];
    forall i | b <= i < |s| ensures s[i] in cs {
      assert s[i] == l[i - a];
    }
  }

  /** `s.strip(cs)` neither starts nor ends with a character of `cs`. */
  lemma StripCharsEnds(s: string, cs: set<char>)
    ensures var r := StripChars(s, cs);
      r == [] || (r[0] !in cs && r[|r| - 1] !in cs)
  {
    var l := LStripChars(s, cs);
    var r := RStripChars(l, cs);
    if r != [] {
      assert r[0] == l[0];
    }
  }

  /** `s[:k].rstrip()` for `k < |s|`: a prefix of `s`, at most `k` long, not
      ending in whitespace, and what it drops of `s[:k]` is whitespace. */
  lemma RStripPrefix(s: string, k: nat) returns (kept: string)
    requires k < |s|
    ensures kept == RStrip(TakePy(s, k))
    ensures |kept| <= k && kept == s[..|kept|]
    ensures kept == [] || !IsSpace(kept[|kept| - 1])
    ensures AllSpaces(s[|kept|..k])
  {
    var cut := s[..k];
    assert TakePy(s, k) == cut;
    kept := RStrip(cut);
    assert kept == cut[..|kept|];
    assert s[|kept|..k] == cut[|kept|..];
  }

  lemma {:induction false} JoinEnds(ws: seq<string>, sep: string)
    requires |ws| > 0 && AllWords(ws)
    ensures |Join(ws, sep)| >= |ws[0]| > 0
    ensures Join(ws, sep)[0] == ws[0][0]
    ensures Join(ws, sep)[|Join(ws, sep)| - 1] == ws[|ws| - 1][|ws[|ws| - 1]| - 1]
    decreases |ws|
  {
    if |ws| > 1 {
      JoinEnds(ws[1..], sep);
    }
  }

  /** Words joined by single spaces start and end with a non-space, so
      stripping them changes nothing, and they are never empty. */
  lemma StripJoinedWords(ws: seq<string>)
    requires |ws| > 0 && AllWords(ws)
    ensures Join(ws, " ") != []
    ensures Strip(Join(ws, " ")) == Join(ws, " ")
  {
    var j := Join(ws, " ");
    JoinEnds(ws, " ");
    assert !IsSpace(j[0]) && !IsSpace(j[|j| - 1]);
    assert LStripChars(j, Whitespace) == j;
  }

  lemma AllWordsSlice(ws: seq<string>, a: nat, b: nat)
    requires AllWords(ws) && a <= b <= |ws|
    ensures AllWords(ws[a..b])
  {
    forall k | 0 <= k < b - a ensures IsWord(ws[a..b][k]) {
      assert ws[a..b][k] == ws[a + k];
    }
  }

  /** Splitting words joined by single spaces gives the words back. */
  lemma {:induction false} SplitJoin(ws: seq<string>)
    requires AllWords(ws)
    ensures Split(Join(ws, " ")) == ws
    decreases |ws|
  {
    if ws == [] {
    } else if |ws| == 1 {
      var w := ws[0];
      WordLengthAppend(w, []);
      assert w + [] == w;
      assert w[|w|..] == [];
    } else {
      var w := ws[0];
      var rest := Join(ws[1..], " ");
      var j := w + " " + rest;
      assert j == w + (" " + rest);
      WordLengthAppend(w, " " + rest);
      assert WordLength(w) == |w|;
      assert j[..|w|] == w;
      assert j[|w|..] == " " + rest;
      assert (" " + rest)[1..] == rest;
      SplitJoin(ws[1..]);
    }
  }

  // ---------------------------------------------------------------------
  // Lemmas about stripping padded and lowercased strings

  /** A string that neither starts nor ends with whitespace is its own strip. */
  lemma StripUnpadded(s: string)
    requires s != [] && !IsSpace(s[0]) && !IsSpace(s[|s| - 1])
    ensures Strip(s) == s
  {
    assert LStripChars(s, Whitespace) == s;
  }

  /** Characters of `cs` in front of a string are all stripped by `lstrip(cs)`. */
  lemma {:induction false} LStripPrefix(p: string, s: string, cs: set<char>)
    requires forall i :: 0 <= i < |p| ==> p[i] in cs
    ensures LStripChars(p + s, cs) == LStripChars(s, cs)
    decreases |p|
  {
    if p == [] {
      assert p + s == s;
    } else {
      assert (p + s)[1..] == p[1..] + s;
      LStripPrefix(p[1..], s, cs);
    }
  }

  /** `(s + t).lstrip(cs)`: what is left of `s`, then all of `t` (or only
      `t.lstrip(cs)` when nothing is left of `s`). */
  lemma {:induction false} LStripAppend(s: string, t: string, cs: set<char>)
    ensures LStripChars(s + t, cs)
         == if LStripChars(s, cs) == [] then LStripChars(t, cs) else LStripChars(s, cs) + t
    decreases |s|
  {
    if s == [] {
      assert s + t == t;
    } else if s[0] in cs {
      assert (s + t)[1..] == s[1..] + t;
      LStripAppend(s[1..], t, cs);
    }
  }

  /** Characters of `cs` after a string are all stripped by `rstrip(cs)`. */
  lemma {:induction false} RStripSuffix(s: string, q: string, cs: set<char>)
    requires forall i :: 0 <= i < |q| ==> q[i] in cs
    ensures RStripChars(s + q, cs) == RStripChars(s, cs)
    decreases |q|
  {
    if q == [] {
      assert s + q == s;
    } else {
      var q' := q[..|q| - 1];
      assert (s + q)[..|s + q| - 1] == s + q';
      RStripSuffix(s, q', cs);
    }
  }

  /** Whitespace around a string does not change its strip. */
  lemma StripPadded(pre: string, s: string, post: string)
    requires AllSpaces(pre) && AllSpaces(post)
    ensures Strip(pre + s + post) == Strip(s)
  {
    assert pre + s + post == pre + (s + post);
    LStripPrefix(pre, s + post, Whitespace);
    LStripAppend(s, post, Whitespace);
    if LStripChars(s, Whitespace) == [] {
      LStripPrefix(post, [], Whitespace);
      assert post + [] == post;
    } else {
      RStripSuffix(LStripChars(s, Whitespace), post, Whitespace);
    }
  }

  lemma LowerCharSpace(c: char)
    ensures IsSpace(LowerChar(c)) <==> IsSpace(c)
  {
  }

  lemma {:induction false} LStripLower(s: string)
    ensures LStripChars(Lower(s), Whitespace) == Lower(LStripChars(s, Whitespace))
    decreases |s|
  {
    if s != [] {
      LowerCharSpace(s[0]);
      if IsSpace(s[0]) {
        assert Lower(s)[1..] == Lower(s[1..]);
        LStripLower(s[1..]);
      }
    }
  }

  lemma LowerInit(s: string)
    requires s != []
    ensures Lower(s)[..|s| - 1] == Lower(s[..|s| - 1])
  {
  }

  lemma {:induction false} RStripLower(s: string)
    ensures RStripChars(Lower(s), Whitespace) == Lower(RStripChars(s, Whitespace))
    decreases |s|
  {
    if s != [] {
      LowerCharSpace(s[|s| - 1]);
      if IsSpace(s[|s| - 1]) {
        LowerInit(s);
        RStripLower(s[..|s| - 1]);
      }
    }
  }

  /** Lowercasing and stripping commute: `s.lower().strip() == s.strip().lower()`. */
  lemma StripLower(s: string)
    ensures Strip(Lower(s)) == Lower(Strip(s))
  {
    LStripLower(s);
    RStripLower(LStripChars(s, Whitespace));
  }
}
