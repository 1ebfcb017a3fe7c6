/** The string operations the chat parser relies on, written out over
    `seq<char>` with Python's semantics: `str.strip()`, `str.split(sep)` for a
    one-character separator, and `str.replace(pat, '')`. */
module Text {

  /** Python's `str.isspace()` for a single character: the ASCII whitespace and
      separator controls plus the Unicode space separators (among them U+3000,
      the ideographic space common in Chinese input). */
  predicate IsSpace(c: char) {
    || c == ' ' || c == '\t' || c == '\n' || c == '\r'
    || c == '\U{B}' || c == '\U{C}'
    || ('\U{1C}' <= c <= '\U{1F}')
    || c == '\U{85}' || c == '\U{A0}' || c == '\U{1680}'
    || ('\U{2000}' <= c <= '\U{200A}')
    || c == '\U{2028}' || c == '\U{2029}' || c == '\U{202F}' || c == '\U{205F}'
    || c == '\U{3000}'
  }

  predicate AllSpace(s: string) {
    forall k | 0 <= k < |s| :: IsSpace(s[k])
  }

  /** No leading and no trailing whitespace. */
  predicate IsStripped(s: string) {
    s == [] || (!IsSpace(s[0]) && !IsSpace(s[|s| - 1]))
  }

  /** The number of leading whitespace characters of `s`. */
  function Lead(s: string): (n: nat)
    ensures n <= |s| && AllSpace(s[..n])
    ensures n < |s| ==> !IsSpace(s[n])
    decreases |s|
  {
    if |s| > 0 && IsSpace(s[0]) then
      var n := 1 + Lead(s[1..]);
      assert s[..n] == [s[0]] + s[1..][..n - 1];
      n
    else 0
  }

  /** The number of trailing whitespace characters of `s`. */
  function Trail(s: string): (n: nat)
    ensures n <= |s| && AllSpace(s[|s| - n..])
    ensures n < |s| ==> !IsSpace(s[|s| - n - 1])
    decreases |s|
  {
    if |s| > 0 && IsSpace(s[|s| - 1]) then
      var k := Trail(s[..|s| - 1]);
      TrailStep(s, k);
      k + 1
    else 0
  }

  /** A whitespace character after a maximal whitespace run extends it. */
  lemma TrailStep(s: string, k: nat)
    requires |s| > 0 && IsSpace(s[|s| - 1])
    requires var t := s[..|s| - 1];
      k <= |t| && AllSpace(t[|t| - k..]) && (k < |t| ==> !IsSpace(t[|t| - k - 1]))
    ensures k + 1 <= |s| && AllSpace(s[|s| - (k + 1)..])
    ensures k + 1 < |s| ==> !IsSpace(s[|s| - (k + 1) - 1])
  {
    var t := s[..|s| - 1];
    assert s[|s| - (k + 1)..] == t[|t| - k..] + [s[|s| - 1]];
    SpacesAppended(t[|t| - k..], s[|s| - 1]);
    assert k < |t| ==> s[|s| - (k + 1) - 1] == t[|t| - k - 1];
  }

  lemma SpacesAppended(a: string, c: char)
    requires AllSpace(a) && IsSpace(c)
    ensures AllSpace(a + [c])
  {
  }

  /** Python's `s.strip()`: the longest infix of `s` that neither starts nor
      ends with whitespace, everything cut off being whitespace. */
  function Strip(s: string): (r: string)
    ensures IsStripped(r)
    ensures |r| <= |s|
    ensures IsStripped(s) ==> r == s
    ensures forall c | c in r :: c in s
    ensures Lead(s) + |r| <= |s|
    ensures r == s[Lead(s)..Lead(s) + |r|]
    ensures AllSpace(s[..Lead(s)]) && AllSpace(s[Lead(s) + |r|..])
  {
    var n := Lead(s);
    var m := Trail(s[n..]);
    StripShape(s, n, m);
    s[n..|s| - m]
  }

  /** Cutting `n` leading and then `m` trailing whitespace characters, each
      count maximal, leaves a stripped infix with whitespace on either side. */
  lemma StripShape(s: string, n: nat, m: nat)
    requires n <= |s| && AllSpace(s[..n]) && (n < |s| ==> !IsSpace(s[n]))
    requires m <= |s| - n && AllSpace(s[n..][|s| - n - m..])
    requires m < |s| - n ==> !IsSpace(s[n..][|s| - n - m - 1])
    ensures IsStripped(s[n..|s| - m])
    ensures AllSpace(s[|s| - m..])
    ensures forall c | c in s[n..|s| - m] :: c in s
    ensures IsStripped(s) ==> n == 0 && m == 0
  {
    var r := s[n..|s| - m];
    if r != [] {
      assert r[0] == s[n];
      assert r[|r| - 1] == s[n..][|s| - n - m - 1];
    }
    assert s[|s| - m..] == s[n..][|s| - n - m..];
    InfixChars(s, r, n);
    if IsStripped(s) && s != [] {
      assert s[n..][|s| - n - m - 1] == s[|s| - m - 1];
    }
  }

  /** Every character of an infix occurs in the whole. */
  lemma InfixChars(s: string, r: string, i: int)
    requires 0 <= i <= |s| - |r| && r == s[i..i + |r|]
    ensures forall c | c in r :: c in s
  {
    forall c | c in r ensures c in s {
      var k :| 0 <= k < |r| && r[k] == c;
      assert s[i + k] == c;
    }
  }

  /** Index of the first occurrence of `c` in `s`. */
  function IndexOf(s: string, c: char): (i: nat)
    requires c in s
    ensures i < |s| && s[i] == c && c !in s[..i]
  {
    if s[0] == c then 0
    else
      var j := IndexOf(s[1..], c);
      assert s[..j + 1] == [s[0]] + s[1..][..j];
      j + 1
  }

  /** The pieces joined back together with the separator between them. */
  function Join(parts: seq<string>, sep: char): string
    requires |parts| >= 1
  {
    if |parts| == 1 then parts[0] else parts[0] + [sep] + Join(parts[1..], sep)
  }

  /** Python's `s.split(sep)` for a single-character separator: the maximal
      separator-free pieces, in order, always at least one (possibly empty). */
  function Split(s: string, sep: char): (parts: seq<string>)
    ensures |parts| >= 1
    ensures forall k | 0 <= k < |parts| :: sep !in parts[k]
    ensures Join(parts, sep) == s
    decreases |s|
  {
    if sep !in s then [s]
    else
      var i := IndexOf(s, sep);
      var rest := Split(s[i + 1..], sep);
      var parts := [s[..i]] + rest;
      assert parts[1..] == rest;
      assert s == s[..i] + [sep] + s[i + 1..];
      parts
  }

  /** Whether `pat` occurs in `s` as a contiguous piece. */
  predicate Contains(s: string, pat: string)
    decreases |s|
  {
    |s| >= |pat| && (s[..|pat|] == pat || (|s| > 0 && Contains(s[1..], pat)))
  }

  /** Python's `s.replace(pat, '')`: every occurrence of `pat`, found by a
      left-to-right scan that does not overlap matches, is removed. */
  function RemoveAll(s: string, pat: string): (r: string)
    requires |pat| > 0
    ensures |r| <= |s|
    ensures !Contains(s, pat) ==> r == s
    ensures Contains(s, pat) ==> |r| < |s|
    decreases |s|
  {
    if |s| < |pat| then s
    else if s[..|pat|] == pat then RemoveAll(s[|pat|..], pat)
    else [s[0]] + RemoveAll(s[1..], pat)
  }

  // ---------------------------------------------------------------------
  // Properties relating the operations to one another.
  // ---------------------------------------------------------------------

  /** `IndexOf` is determined by its contract. */
  lemma IndexOfIsFirst(s: string, c: char, i: nat)
    requires i < |s| && s[i] == c && c !in s[..i]
    ensures IndexOf(s, c) == i
  {
  }

  /** `replace` removes the leftmost occurrence first: when no occurrence of
      `pat` starts inside `a`, `a` is kept whole, the `pat` after it is
      removed, and the scan resumes after that `pat`. */
  lemma {:induction false} RemoveAllLeftmost(a: string, pat: string, b: string)
    requires |pat| > 0
    requires !Contains(a + pat[..|pat| - 1], pat)
    ensures RemoveAll(a + pat + b, pat) == a + RemoveAll(b, pat)
    decreases |a|
  {
    var s := a + pat + b;
    if a == [] {
      assert s == pat + b;
      assert s[..|pat|] == pat && s[|pat|..] == b;
      assert RemoveAll(s, pat) == RemoveAll(b, pat);
    } else {
      var head := a + pat[..|pat| - 1];
      NoMatchAtStart(head, pat);
      assert s[..|pat|] == head[..|pat|];
      assert head[1..] == a[1..] + pat[..|pat| - 1];
      var rest := a[1..] + pat + b;
      assert s[1..] == rest;
      RemoveAllLeftmost(a[1..], pat, b);
      RemoveAllSkips(s, pat);
      ConsAppend(a, RemoveAll(b, pat));
    }
  }

  lemma ConsAppend(a: string, t: string)
    requires |a| > 0
    ensures [a[0]] + (a[1..] + t) == a + t
  {
    assert a == [a[0]] + a[1..];
  }

  /** A text without `pat` has no match at its start or further on. */
  lemma NoMatchAtStart(head: string, pat: string)
    requires |head| >= |pat| > 0 && !Contains(head, pat)
    ensures head[..|pat|] != pat && !Contains(head[1..], pat)
  {
  }

  /** Without a match at the start, the first character is kept. */
  lemma RemoveAllSkips(s: string, pat: string)
    requires |s| >= |pat| > 0 && s[..|pat|] != pat
    ensures RemoveAll(s, pat) == [s[0]] + RemoveAll(s[1..], pat)
  {
  }

  /** Splitting inverts joining when no piece contains the separator. */
  lemma {:induction false} SplitJoin(parts: seq<string>, sep: char)
    requires |parts| >= 1
    requires forall k | 0 <= k < |parts| :: sep !in parts[k]
    ensures Split(Join(parts, sep), sep) == parts
    decreases |parts|
  {
    if |parts| == 1 {
    } else {
      var rest := parts[1..];
      var tail := Join(rest, sep);
      var s := Join(parts, sep);
      var i := |parts[0]|;
      assert s == parts[0] + [sep] + tail;
      assert s[..i] == parts[0];
      assert s[i] == sep;
      IndexOfIsFirst(s, sep, i);
      assert s[i + 1..] == tail;
      assert Split(s, sep) == [s[..i]] + Split(s[i + 1..], sep);
      assert forall k | 0 <= k < |rest| :: rest[k] == parts[k + 1];
      SplitJoin(rest, sep);
      assert parts == [parts[0]] + rest;
    }
  }

  /** Stripping a padded infix recovers the infix. */
  lemma {:induction false} StripPadded(pre: string, t: string, post: string)
    requires AllSpace(pre) && AllSpace(post) && IsStripped(t) && t != []
    ensures Strip(pre + t + post) == t
  {
    var s := pre + t + post;
    var u := t + post;
    assert s == pre + u;
    assert u[0] == t[0];
    LeadPadded(pre, u);
    assert s[Lead(s)..] == u;
    assert u[|t| - 1] == t[|t| - 1];
    TrailPadded(t, post);
    assert Strip(s) == s[|pre|..|s| - |post|];
    assert s[|pre|..|s| - |post|] == t;
  }

  lemma {:induction false} LeadPadded(pre: string, u: string)
    requires AllSpace(pre) && u != [] && !IsSpace(u[0])
    ensures Lead(pre + u) == |pre|
    decreases |pre|
  {
    if pre == [] {
      assert pre + u == u;
    } else {
      assert (pre + u)[1..] == pre[1..] + u;
      LeadPadded(pre[1..], u);
    }
  }

  lemma {:induction false} TrailPadded(u: string, post: string)
    requires AllSpace(post) && u != [] && !IsSpace(u[|u| - 1])
    ensures Trail(u + post) == |post|
    decreases |post|
  {
    if post == [] {
      assert u + post == u;
    } else {
      var w := u + post;
      assert w[..|w| - 1] == u + post[..|post| - 1];
      TrailPadded(u, post[..|post| - 1]);
    }
  }

  /** Stripping is idempotent. */
  lemma StripIdempotent(s: string)
    ensures Strip(Strip(s)) == Strip(s)
  {
  }

  /** Removing a suffix pattern from a text that does not even contain the
      pattern's first character gives the text back. */
  lemma {:induction false} RemoveAllSuffix(w: string, pat: string)
    requires |pat| > 0
    requires pat[0] !in w
    ensures RemoveAll(w + pat, pat) == w
    decreases |w|
  {
    var s := w + pat;
    if w == [] {
      assert s[..|pat|] == pat;
      assert s[|pat|..] == [];
    } else {
      assert s[0] == w[0] != pat[0];
      assert s[..|pat|] != pat;
      assert s[1..] == w[1..] + pat;
      RemoveAllSuffix(w[1..], pat);
      assert s == [w[0]] + (w[1..] + pat);
    }
  }
}
