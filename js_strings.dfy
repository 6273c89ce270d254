/** The parts of JavaScript's string semantics that the banner generator relies on:
    truthiness of strings, `String.prototype.includes` and `String.prototype.trim`. */
module JsStrings {
  import opened Wrappers

  /** A string is truthy in JavaScript exactly when it is not empty. */
  predicate Truthy(s: string) {
    s != ""
  }

  /** An optional string (`string | undefined`) is truthy when present and not empty. */
  predicate TruthyOpt(s: Option<string>) {
    s.Some? && Truthy(s.value)
  }

  /** `w` occurs in `s` starting at index `i`. */
  predicate OccursAt(s: string, w: string, i: int) {
    0 <= i && i + |w| <= |s| && s[i..i + |w|] == w
  }

  /** `s.includes(w)`: `w` is a substring of `s`. */
  predicate Includes(s: string, w: string) {
    exists i | 0 <= i <= |s| - |w| :: OccursAt(s, w, i)
  }

  /** A string that holds a character `w` contains cannot include `w` unless it holds that character too. */
  lemma MissingCharExcludes(s: string, w: string, c: char)
    requires c in w && c !in s
    ensures !Includes(s, w)
  {
    forall i | 0 <= i <= |s| - |w| ensures !OccursAt(s, w, i) {
      var k :| 0 <= k < |w| && w[k] == c;
      assert i + k < |s|;
    }
  }

  /** Whatever `t` includes, `p + t + q` includes too. */
  lemma IncludesInside(p: string, t: string, q: string, w: string)
    requires Includes(t, w)
    ensures Includes(p + t + q, w)
  {
    var j :| 0 <= j <= |t| - |w| && OccursAt(t, w, j);
    var s := p + t + q;
    assert s[|p| + j..|p| + j + |w|] == t[j..j + |w|];
    assert OccursAt(s, w, |p| + j);
  }

  /** A string includes itself wherever it is placed. */
  lemma IncludesPiece(p: string, w: string, q: string)
    ensures Includes(p + w + q, w)
  {
    assert OccursAt(w, w, 0);
    IncludesInside(p, w, q, w);
  }

  /** When `t` is quoted between a prefix ending in the delimiter `d` and the suffix `[d]`,
      and `d` does not occur in `w`, the quoted string includes `w` exactly when `t` does:
      no occurrence can straddle a delimiter. */
  lemma IncludesQuoted(p: string, t: string, d: char, w: string)
    requires |w| > 0 && d !in w
    requires |p| > 0 && p[|p| - 1] == d && !Includes(p, w)
    ensures Includes(p + t + [d], w) <==> Includes(t, w)
  {
    var s := p + t + [d];
    forall i | 0 <= i && i + |w| <= |p| ensures !OccursAt(s, w, i) {
      assert !OccursAt(p, w, i);
      assert s[i..i + |w|] == p[i..i + |w|];
    }
    forall i | 0 <= i < |p| < i + |w| + 1 && i + |w| <= |s| ensures !OccursAt(s, w, i) {
      assert s[i..i + |w|][|p| - 1 - i] == d;
    }
    forall i | |p| <= i <= |p| + |t| < i + |w| && i + |w| <= |s| ensures !OccursAt(s, w, i) {
      assert s[i..i + |w|][|p| + |t| - i] == d;
    }
    forall i | |p| <= i && i + |w| <= |p| + |t| ensures OccursAt(s, w, i) <==> OccursAt(t, w, i - |p|) {
      assert s[i..i + |w|] == t[i - |p|..i - |p| + |w|];
    }
    if Includes(t, w) {
      IncludesInside(p, t, [d], w);
    }
  }

  /** The characters `String.prototype.trim` removes: ECMAScript's WhiteSpace
      (tab, vertical tab, form feed, space, no-break space, byte order mark and the
      Unicode space separators) and LineTerminator (LF, CR, LS, PS). */
  predicate IsWhiteSpace(c: char) {
    c == '\t' || c == '\n' || c == '\U{B}' || c == '\U{C}' || c == '\r' || c == ' '
    || c == '\U{A0}' || c == '\U{1680}' || ('\U{2000}' <= c <= '\U{200A}')
    || c == '\U{2028}' || c == '\U{2029}' || c == '\U{202F}' || c == '\U{205F}'
    || c == '\U{3000}' || c == '\U{FEFF}'
  }

  /** `s` with its leading white space removed (`trimStart`). */
  function TrimStart(s: string): (r: string)
    ensures |r| <= |s|
    ensures r == [] || !IsWhiteSpace(r[0])
    ensures forall k :: 0 <= k < |s| - |r| ==> IsWhiteSpace(s[k])
  {
    if s != [] && IsWhiteSpace(s[0]) then TrimStart(s[1..]) else s
  }

  /** `s` with its trailing white space removed (`trimEnd`). */
  function TrimEnd(s: string): (r: string)
    ensures |r| <= |s|
    ensures r == [] || !IsWhiteSpace(r[|r| - 1])
    ensures forall k :: |r| <= k < |s| ==> IsWhiteSpace(s[k])
  {
    if s != [] && IsWhiteSpace(s[|s| - 1]) then TrimEnd(s[..|s| - 1]) else s
  }

  /** `trimStart` keeps a suffix of `s`. */
  lemma {:induction false} TrimStartIsSuffix(s: string)
    ensures TrimStart(s) == s[|s| - |TrimStart(s)|..]
  {
    if s != [] && IsWhiteSpace(s[0]) {
      TrimStartIsSuffix(s[1..]);
    }
  }

  /** `trimEnd` keeps a prefix of `s`. */
  lemma {:induction false} TrimEndIsPrefix(s: string)
    ensures TrimEnd(s) == s[..|TrimEnd(s)|]
  {
    if s != [] && IsWhiteSpace(s[|s| - 1]) {
      TrimEndIsPrefix(s[..|s| - 1]);
    }
  }

  /** `s.trim()`. */
  function Trim(s: string): string {
    TrimEnd(TrimStart(s))
  }

  /** `r` is `s[i..j]`, and everything outside `i..j` is white space. */
  predicate TrimmedTo(s: string, i: int, j: int, r: string) {
    0 <= i <= j <= |s| && r == s[i..j]
    && (forall k | 0 <= k < i :: IsWhiteSpace(s[k]))
    && (forall k | j <= k < |s| :: IsWhiteSpace(s[k]))
  }

  /** A prefix `b` of a suffix `a` of `s` is a slice of `s`, and white space at the end
      of `a` is white space at the end of `s`. */
  lemma SliceOfSuffix(s: string, i: nat, a: string, b: string)
    requires i <= |s| && a == s[i..] && |b| <= |a| && b == a[..|b|]
    requires forall k | |b| <= k < |a| :: IsWhiteSpace(a[k])
    ensures i + |b| <= |s| && b == s[i..i + |b|]
    ensures forall k | i + |b| <= k < |s| :: IsWhiteSpace(s[k])
  {
    forall k | i + |b| <= k < |s| ensures IsWhiteSpace(s[k]) {
      assert s[k] == a[k - i];
    }
  }

  /** The bounds of `s.trim()` inside `s`: what `trimStart` cuts before `i` and what
      `trimEnd` cuts from `j` on. */
  lemma TrimBounds(s: string) returns (i: int, j: int)
    ensures TrimmedTo(s, i, j, Trim(s))
  {
    var a := TrimStart(s);
    var b := TrimEnd(a);
    TrimStartIsSuffix(s);
    TrimEndIsPrefix(a);
    i := |s| - |a|;
    SliceOfSuffix(s, i, a, b);
    j := i + |b|;
  }

  /** `s.trim()` is a contiguous piece of `s` that neither starts nor ends with white
      space, and everything cut off on either side is white space. */
  lemma TrimIsSlice(s: string)
    ensures exists i, j :: TrimmedTo(s, i, j, Trim(s))
    ensures Trim(s) != [] ==> !IsWhiteSpace(Trim(s)[0]) && !IsWhiteSpace(Trim(s)[|Trim(s)| - 1])
  {
    var i, j := TrimBounds(s);
    TrimEndIsPrefix(TrimStart(s));
  }

  /** `trimStart` removes all of a string made only of white space. */
  lemma {:induction false} BlankTrimsToEmpty(s: string)
    requires forall k :: 0 <= k < |s| ==> IsWhiteSpace(s[k])
    ensures TrimStart(s) == []
  {
    if s != [] {
      BlankTrimsToEmpty(s[1..]);
    }
  }

  /** `s.trim()` is empty exactly when `s` is made only of white space. */
  lemma TrimEmptyIffBlank(s: string)
    ensures Trim(s) == [] <==> forall k :: 0 <= k < |s| ==> IsWhiteSpace(s[k])
  {
    var a := TrimStart(s);
    if forall k :: 0 <= k < |s| ==> IsWhiteSpace(s[k]) {
      BlankTrimsToEmpty(s);
    }
    if Trim(s) == [] {
      // `trimEnd` removes all of `a`, which does not start with white space: `a` is empty.
      assert a == [];
    }
  }

  /** A string that neither starts nor ends with white space is its own `trim()`. */
  lemma TrimUnpadded(s: string)
    requires s != [] ==> !IsWhiteSpace(s[0]) && !IsWhiteSpace(s[|s| - 1])
    ensures Trim(s) == s
  {
  }
}
