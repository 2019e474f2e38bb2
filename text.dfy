/**
 * String primitives with the meaning of Python `str` methods: `startswith`, `endswith`,
 * `rstrip`, `strip` and `lower`, which the HTTP client calls, and `find`, `rfind`, `split` and
 * `partition`, which the `urllib.parse` model is written with. Strings are sequences of Unicode
 * scalar values.
 */
module Text {

  predicate IsAsciiAlpha(c: char) {
    'a' <= c <= 'z' || 'A' <= c <= 'Z'
  }

  predicate IsAsciiDigit(c: char) {
    '0' <= c <= '9'
  }

  predicate IsAsciiUpper(c: char) {
    'A' <= c <= 'Z'
  }

  /** No character of `s` is in `cs`. */
  predicate Avoids(s: string, cs: set<char>) {
    forall c | c in s :: c !in cs
  }

  function LowerChar(c: char): (d: char)
    ensures !IsAsciiUpper(d)
    ensures IsAsciiAlpha(c) <==> IsAsciiAlpha(d)
    ensures !IsAsciiUpper(c) ==> d == c
    ensures IsAsciiUpper(c) ==> d as int == c as int + 32
  {
    if IsAsciiUpper(c) then (c as int + 32) as char else c
  }

  /** ASCII case folding; characters outside A-Z are kept. */
  function Lower(s: string): (r: string)
    ensures |r| == |s|
    ensures forall i :: 0 <= i < |s| ==> r[i] == LowerChar(s[i])
  {
    seq(|s|, i requires 0 <= i < |s| => LowerChar(s[i]))
  }

  lemma LowerOfLower(s: string)
    requires forall i :: 0 <= i < |s| ==> !IsAsciiUpper(s[i])
    ensures Lower(s) == s
  {
  }

  predicate StartsWith(s: string, prefix: string) {
    |prefix| <= |s| && s[..|prefix|] == prefix
  }

  lemma StartsWithAppend(a: string, b: string)
    ensures StartsWith(a + b, a)
  {
    assert (a + b)[..|a|] == a;
  }

  predicate EndsWith(s: string, suffix: string) {
    |suffix| <= |s| && s[|s| - |suffix|..] == suffix
  }

  /** Index of the first character of `s` that is in `cs`, or `|s|` when there is none. */
  function IndexOfAny(s: string, cs: set<char>): (i: nat)
    ensures i <= |s|
    ensures i < |s| ==> s[i] in cs
    ensures forall j :: 0 <= j < i ==> s[j] !in cs
  {
    if s == [] then 0
    else if s[0] in cs then 0
    else 1 + IndexOfAny(s[1..], cs)
  }

  /** `s.find(c)` with "not found" read as `|s|`. */
  function IndexOf(s: string, c: char): (i: nat)
    ensures i <= |s|
    ensures i < |s| <==> c in s
    ensures i < |s| ==> s[i] == c
    ensures forall j :: 0 <= j < i ==> s[j] != c
  {
    IndexOfAny(s, {c})
  }

  /** `s.rfind(c)`: index of the last `c` in `s`, or -1. */
  function LastIndexOf(s: string, c: char): (i: int)
    ensures -1 <= i < |s|
    ensures i >= 0 <==> c in s
    ensures i >= 0 ==> s[i] == c
    ensures forall j :: i < j < |s| ==> s[j] != c
  {
    if s == [] then -1
    else if s[|s| - 1] == c then |s| - 1
    else LastIndexOf(s[..|s| - 1], c)
  }

  /** The part of `s` before the first `c` (`s.partition(c)[0]`). */
  function Before(s: string, c: char): (r: string)
    ensures c !in r
    ensures c !in s ==> r == s
  {
    s[..IndexOf(s, c)]
  }

  /** The part of `s` after the last `c`, or `s` itself (`s.rpartition(c)[2]`). */
  function AfterLast(s: string, c: char): (r: string)
    ensures c !in r
    ensures c !in s ==> r == s
  {
    s[LastIndexOf(s, c) + 1..]
  }

  /**
   * `s.split(c, 1)` when `c in s`, else `s` and an empty remainder: the pair
   * (text before the first `c`, text after it).
   */
  function SplitAt(s: string, c: char): (string, string) {
    var i := IndexOf(s, c);
    if i < |s| then (s[..i], s[i + 1..]) else (s, "")
  }

  /** `s.split(c)`: the pieces between the occurrences of `c`. */
  function Split(s: string, c: char): (parts: seq<string>)
    ensures |parts| >= 1
    decreases |s|
  {
    var i := IndexOf(s, c);
    if i == |s| then [s] else [s[..i]] + Split(s[i + 1..], c)
  }

  /** `sep.join(parts)` for a one-character separator. */
  function JoinWith(parts: seq<string>, sep: char): string {
    if parts == [] then ""
    else if |parts| == 1 then parts[0]
    else parts[0] + [sep] + JoinWith(parts[1..], sep)
  }

  /** `s.rstrip(c)`: `s` without its trailing run of `c`. */
  function RStripChar(s: string, c: char): (r: string)
    ensures StartsWith(s, r)
    ensures r == [] || r[|r| - 1] != c
    ensures forall i :: |r| <= i < |s| ==> s[i] == c
  {
    if s == [] || s[|s| - 1] != c then s else RStripChar(s[..|s| - 1], c)
  }

  lemma RStripCharKeeps(s: string, c: char)
    requires s != [] && s[|s| - 1] != c
    ensures RStripChar(s, c) == s
  {
  }

  lemma {:induction false} RStripCharSuffix(s: string, run: string, c: char)
    requires s != [] && s[|s| - 1] != c
    requires forall i :: 0 <= i < |run| ==> run[i] == c
    ensures RStripChar(s + run, c) == s
    decreases |run|
  {
    if run == [] {
      assert s + run == s;
    } else {
      assert (s + run)[..|s + run| - 1] == s + run[..|run| - 1];
      RStripCharSuffix(s, run[..|run| - 1], c);
    }
  }

  /** Stripping a non-letter commutes with case folding. */
  lemma {:induction false} RStripCharLower(s: string, c: char)
    requires !IsAsciiAlpha(c)
    ensures RStripChar(Lower(s), c) == Lower(RStripChar(s, c))
    decreases |s|
  {
    if s != [] {
      var t := s[..|s| - 1];
      var last := s[|s| - 1];
      assert Lower(s)[..|s| - 1] == Lower(t);
      assert Lower(s)[|s| - 1] == LowerChar(last);
      if last == c {
        assert LowerChar(last) == c;
        RStripCharLower(t, c);
        assert RStripChar(Lower(s), c) == RStripChar(Lower(t), c);
        assert RStripChar(s, c) == RStripChar(t, c);
      } else {
        assert LowerChar(last) != c;
        assert RStripChar(Lower(s), c) == Lower(s);
        assert RStripChar(s, c) == s;
      }
    }
  }

  /** `s` without the characters of `cs` (repeated `str.replace(c, "")`). */
  function Without(s: string, cs: set<char>): string {
    if s == [] then []
    else (if s[0] in cs then [] else [s[0]]) + Without(s[1..], cs)
  }

  /** Nothing of `cs` is left after removing it. */
  lemma {:induction false} WithoutAvoids(s: string, cs: set<char>)
    ensures Avoids(Without(s, cs), cs)
    decreases |s|
  {
    if s != [] {
      WithoutAvoids(s[1..], cs);
    }
  }

  /** Removing characters that do not occur changes nothing. */
  lemma {:induction false} WithoutClean(s: string, cs: set<char>)
    requires Avoids(s, cs)
    ensures Without(s, cs) == s
    decreases |s|
  {
    if s != [] {
      assert s[0] in s;
      AvoidsSlice(s, 1, |s|, cs);
      WithoutClean(s[1..], cs);
      assert [s[0]] + s[1..] == s;
    }
  }

  lemma {:induction false} WithoutAppend(a: string, b: string, cs: set<char>)
    ensures Without(a + b, cs) == Without(a, cs) + Without(b, cs)
    decreases |a|
  {
    if a != [] {
      assert (a + b)[1..] == a[1..] + b;
      WithoutAppend(a[1..], b, cs);
    } else {
      assert a + b == b;
    }
  }

  /** The characters Python's `str.isspace` accepts, which `str.strip()` removes. */
  predicate IsPyWhitespace(c: char) {
    ('\t' <= c <= '\r') || ('\U{1c}' <= c <= ' ') || c == '\U{85}' || c == '\U{a0}'
    || c == '\U{1680}' || ('\U{2000}' <= c <= '\U{200a}') || c == '\U{2028}' || c == '\U{2029}'
    || c == '\U{202f}' || c == '\U{205f}' || c == '\U{3000}'
  }

  /** `s.strip()`: `s` without leading and trailing whitespace. */
  function Strip(s: string): (r: string)
    ensures r == [] || (!IsPyWhitespace(r[0]) && !IsPyWhitespace(r[|r| - 1]))
    ensures (forall i :: 0 <= i < |s| ==> IsPyWhitespace(s[i])) <==> r == []
    decreases |s|
  {
    if s == [] then []
    else if IsPyWhitespace(s[0]) then Strip(s[1..])
    else if IsPyWhitespace(s[|s| - 1]) then Strip(s[..|s| - 1])
    else s
  }

  /** `s[i..j]` is what is left of `s` once whitespace is cut off before `i` and from `j` on. */
  predicate WhitespaceAround(s: string, i: int, j: int) {
    && 0 <= i <= j <= |s|
    && (forall m :: 0 <= m < i ==> IsPyWhitespace(s[m]))
    && (forall m :: j <= m < |s| ==> IsPyWhitespace(s[m]))
  }

  /**
   * What `strip()` returns is a slice of its input, and everything cut off on either side is
   * whitespace; with the ends of the result not being whitespace, this fixes the result.
   */
  lemma {:induction false} StripCutsWhitespace(s: string)
    ensures exists i, j :: WhitespaceAround(s, i, j) && Strip(s) == s[i..j]
    decreases |s|
  {
    if s == [] {
      assert WhitespaceAround(s, 0, 0) && Strip(s) == s[0..0];
    } else if IsPyWhitespace(s[0]) {
      StripCutsWhitespace(s[1..]);
      var i, j :| WhitespaceAround(s[1..], i, j) && Strip(s[1..]) == s[1..][i..j];
      WhitespaceAroundTail(s, i, j);
      assert s[1..][i..j] == s[i + 1..j + 1];
    } else if IsPyWhitespace(s[|s| - 1]) {
      var t := s[..|s| - 1];
      StripCutsWhitespace(t);
      var i, j :| WhitespaceAround(t, i, j) && Strip(t) == t[i..j];
      WhitespaceAroundInit(s, i, j);
      assert t[i..j] == s[i..j];
    } else {
      assert WhitespaceAround(s, 0, |s|) && Strip(s) == s[0..|s|];
    }
  }

  lemma WhitespaceAroundTail(s: string, i: int, j: int)
    requires s != [] && IsPyWhitespace(s[0]) && WhitespaceAround(s[1..], i, j)
    ensures WhitespaceAround(s, i + 1, j + 1)
  {
    forall m | 0 < m < |s| ensures s[m] == s[1..][m - 1] {}
  }

  lemma WhitespaceAroundInit(s: string, i: int, j: int)
    requires s != [] && IsPyWhitespace(s[|s| - 1]) && WhitespaceAround(s[..|s| - 1], i, j)
    ensures WhitespaceAround(s, i, j)
  {
    forall m | 0 <= m < |s| - 1 ensures s[m] == s[..|s| - 1][m] {}
  }

  /** `s.lstrip(chars)` for the C0 control characters and the space. */
  function LStripControls(s: string): (r: string)
    ensures r == [] || r[0] > ' '
  {
    if s != [] && s[0] <= ' ' then LStripControls(s[1..]) else s
  }

  lemma AvoidsSlice(s: string, i: int, j: int, cs: set<char>)
    requires Avoids(s, cs) && 0 <= i <= j <= |s|
    ensures Avoids(s[i..j], cs)
  {
    forall c | c in s[i..j] ensures c !in cs {
      var k :| 0 <= k < j - i && s[i..j][k] == c;
      assert s[i + k] == c;
    }
  }

  /** Everything before the first character of `cs` avoids `cs`. */
  lemma AvoidsBeforeFirst(s: string, cs: set<char>)
    ensures Avoids(s[..IndexOfAny(s, cs)], cs)
  {
    var i := IndexOfAny(s, cs);
    forall c | c in s[..i] ensures c !in cs {
      var k :| 0 <= k < i && s[..i][k] == c;
    }
  }

  /** The first character of `cs` in `a + b` is in `b` when `a` has none. */
  lemma IndexOfAnyAppend(a: string, b: string, cs: set<char>)
    requires Avoids(a, cs)
    ensures IndexOfAny(a + b, cs) == |a| + IndexOfAny(b, cs)
  {
    var k := |a| + IndexOfAny(b, cs);
    assert forall j :: 0 <= j < |a| ==> (a + b)[j] == a[j] && a[j] in a;
    assert forall j :: |a| <= j < k ==> (a + b)[j] == b[j - |a|];
    assert k < |a + b| ==> (a + b)[k] == b[k - |a|];
  }

  /** Splitting at the first `c` of `a + [c] + b`, where `a` has no `c`. */
  lemma SplitAtFirst(a: string, c: char, b: string)
    requires c !in a
    ensures SplitAt(a + [c] + b, c) == (a, b)
  {
    IndexOfAnyAppend(a, [c] + b, {c});
    assert a + [c] + b == a + ([c] + b);
    assert (a + [c] + b)[..|a|] == a;
    assert (a + [c] + b)[|a| + 1..] == b;
  }

  /** The first character of `cs` in `a + b` is the one in `a`, when `a` has one. */
  lemma IndexOfAnyPrefix(a: string, b: string, cs: set<char>)
    requires IndexOfAny(a, cs) < |a|
    ensures IndexOfAny(a + b, cs) == IndexOfAny(a, cs)
  {
    var i := IndexOfAny(a, cs);
    assert (a + b)[i] == a[i];
    assert forall j :: 0 <= j < i ==> (a + b)[j] == a[j];
  }

  lemma {:induction false} LStripControlsAppend(s: string, t: string)
    requires t != [] && t[0] > ' '
    ensures LStripControls(s + t) == LStripControls(s) + t
    decreases |s|
  {
    if s == [] {
      assert s + t == t;
    } else {
      assert (s + t)[0] == s[0];
      if s[0] <= ' ' {
        assert (s + t)[1..] == s[1..] + t;
        LStripControlsAppend(s[1..], t);
      }
    }
  }
}
