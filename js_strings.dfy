/** The JavaScript string operations the session services rely on: case
    mapping, `trim`, `includes` and the anchored regular-expression test
    `/^word/`, `replace` with a string pattern (both searches go through
    `indexOf`), and the truthiness fallback `a || b`.

    A `string` here is a sequence of Unicode scalar values, not of UTF-16 code
    units as in JavaScript: a character outside the Basic Multilingual Plane
    is one character here and two code units there, and a string holding a
    lone surrogate has no counterpart. Every pattern searched for below is
    ASCII and every whitespace code lies in the Basic Multilingual Plane, so
    `includes`, `replace`, `trim` and the prefix test answer as in
    JavaScript; only the numeric index `indexOf` returns can differ, and the
    model uses it only inside `replace`. */
module JsStrings {

  import opened Wrappers

  // ---------------------------------------------------------------- case mapping

  predicate IsAsciiUpper(c: char) { 'A' <= c <= 'Z' }

  predicate IsAsciiLower(c: char) { 'a' <= c <= 'z' }

  function LowerChar(c: char): (d: char)
    ensures !IsAsciiUpper(d)
    ensures IsAsciiUpper(c) ==> d as int == c as int + 32
    ensures !IsAsciiUpper(c) ==> d == c
  {
    if IsAsciiUpper(c) then (c as int + 32) as char else c
  }

  function UpperChar(c: char): (d: char)
    ensures !IsAsciiLower(d)
    ensures IsAsciiLower(c) ==> d as int == c as int - 32
    ensures !IsAsciiLower(c) ==> d == c
  {
    if IsAsciiLower(c) then (c as int - 32) as char else c
  }

  /** `s.toLowerCase()`, for the ASCII letters. */
  function ToLower(s: string): (r: string)
    ensures |r| == |s|
    ensures forall i :: 0 <= i < |s| ==> r[i] == LowerChar(s[i])
  {
    seq(|s|, i requires 0 <= i < |s| => LowerChar(s[i]))
  }

  /** `s.toUpperCase()`, for the ASCII letters. */
  function ToUpper(s: string): (r: string)
    ensures |r| == |s|
    ensures forall i :: 0 <= i < |s| ==> r[i] == UpperChar(s[i])
  {
    seq(|s|, i requires 0 <= i < |s| => UpperChar(s[i]))
  }

  // ---------------------------------------------------------------- trim

  /** The characters `String.prototype.trim` removes: ECMAScript WhiteSpace
      (tab, vertical tab, form feed, space, no-break space, zero-width no-break
      space and the Unicode space separators) and LineTerminator (line feed,
      carriage return, line and paragraph separator). */
  const WhitespaceCodes: set<int> :=
    {0x09, 0x0A, 0x0B, 0x0C, 0x0D, 0x20, 0xA0, 0x1680,
     0x2000, 0x2001, 0x2002, 0x2003, 0x2004, 0x2005, 0x2006, 0x2007, 0x2008, 0x2009, 0x200A,
     0x2028, 0x2029, 0x202F, 0x205F, 0x3000, 0xFEFF}

  predicate IsWhitespace(c: char) {
    c as int in WhitespaceCodes
  }

  /** Drops the leading whitespace: the result is the suffix of `s` that starts
      at its first non-whitespace character. */
  function TrimStart(s: string): (r: string)
    ensures |r| <= |s| && r == s[|s| - |r|..]
    ensures r == [] || !IsWhitespace(r[0])
    ensures forall i :: 0 <= i < |s| - |r| ==> IsWhitespace(s[i])
  {
    if s == [] || !IsWhitespace(s[0]) then s else TrimStart(s[1..])
  }

  /** Drops the trailing whitespace: the result is the prefix of `s` that ends
      at its last non-whitespace character. */
  function TrimEnd(s: string): (r: string)
    ensures |r| <= |s| && r == s[..|r|]
    ensures r == [] || !IsWhitespace(r[|r| - 1])
    ensures forall i :: |r| <= i < |s| ==> IsWhitespace(s[i])
  {
    if s == [] || !IsWhitespace(s[|s| - 1]) then s else TrimEnd(s[..|s| - 1])
  }

  /** `r` is the slice of `s` starting at `lo`, and everything of `s` outside
      that slice is whitespace. */
  predicate TrimmedSlice(s: string, r: string, lo: int) {
    && 0 <= lo && lo + |r| <= |s| && r == s[lo..lo + |r|]
    && (forall i :: 0 <= i < lo ==> IsWhitespace(s[i]))
    && (forall i :: lo + |r| <= i < |s| ==> IsWhitespace(s[i]))
  }

  /** `s.trim()`: the result is a slice of `s` with only whitespace cut on
      either side and no whitespace at either end. */
  function Trim(s: string): (r: string)
    ensures exists lo :: TrimmedSlice(s, r, lo)
    ensures r == [] || (!IsWhitespace(r[0]) && !IsWhitespace(r[|r| - 1]))
  {
    TrimIsSlice(s);
    TrimEnd(TrimStart(s))
  }

  lemma TrimIsSlice(s: string)
    ensures TrimmedSlice(s, TrimEnd(TrimStart(s)), |s| - |TrimStart(s)|)
  {
    var t := TrimStart(s);
    SliceOfTrimmedTail(s, t, TrimEnd(t), |s| - |t|);
  }

  /** Cutting whitespace from the end of a suffix left after cutting
      whitespace from the front yields a whitespace-margined slice. */
  lemma SliceOfTrimmedTail(s: string, t: string, r: string, lo: nat)
    requires lo <= |s| && t == s[lo..] && forall i :: 0 <= i < lo ==> IsWhitespace(s[i])
    requires |r| <= |t| && r == t[..|r|] && forall i :: |r| <= i < |t| ==> IsWhitespace(t[i])
    ensures TrimmedSlice(s, r, lo)
  {
    forall i | lo + |r| <= i < |s| ensures IsWhitespace(s[i]) {
      assert s[i] == t[i - lo];
    }
    assert r == s[lo..lo + |r|];
  }

  /** A string consisting of whitespace only trims to the empty string. */
  lemma {:induction false} TrimAllWhitespace(s: string)
    requires forall i :: 0 <= i < |s| ==> IsWhitespace(s[i])
    ensures Trim(s) == []
  {
    if s != [] {
      assert IsWhitespace(s[0]);
      TrimAllWhitespace(s[1..]);
      assert TrimStart(s) == TrimStart(s[1..]);
    }
  }

  /** A string with no whitespace at either end is unchanged by trimming. */
  lemma TrimKeepsTrimmed(s: string)
    requires s == [] || (!IsWhitespace(s[0]) && !IsWhitespace(s[|s| - 1]))
    ensures Trim(s) == s
  {
  }

  // ---------------------------------------------------------------- searching

  /** `pat` occurs in `s` starting at index `i`. */
  predicate OccursAt(s: string, pat: string, i: int) {
    0 <= i && i + |pat| <= |s| && s[i..i + |pat|] == pat
  }

  /** `s.indexOf(pat, from)`: the first index at or after `from` where `pat`
      occurs, or -1 when there is none. */
  function IndexFrom(s: string, pat: string, from: nat): (r: int)
    requires from <= |s|
    ensures r == -1 || (from <= r && OccursAt(s, pat, r))
    ensures r == -1 ==> forall i :: from <= i <= |s| ==> !OccursAt(s, pat, i)
    ensures r != -1 ==> forall i :: from <= i < r ==> !OccursAt(s, pat, i)
    decreases |s| - from
  {
    if OccursAt(s, pat, from) then from
    else if from == |s| then -1
    else IndexFrom(s, pat, from + 1)
  }

  /** `s.indexOf(pat)`. */
  function IndexOf(s: string, pat: string): (r: int)
    ensures r == -1 || OccursAt(s, pat, r)
    ensures r == -1 <==> forall i :: 0 <= i <= |s| ==> !OccursAt(s, pat, i)
    ensures r != -1 ==> forall i :: 0 <= i < r ==> !OccursAt(s, pat, i)
  {
    IndexFrom(s, pat, 0)
  }

  /** `s.includes(pat)`: holds exactly when `pat` occurs at some index. */
  function Contains(s: string, pat: string): (b: bool)
    ensures b <==> exists i :: OccursAt(s, pat, i)
  {
    IndexOf(s, pat) != -1
  }

  /** The anchored regular-expression test `/^p/.test(s)` for a literal `p`:
      an occurrence at index 0, so in particular `s.includes(p)`. */
  function StartsWith(s: string, p: string): (b: bool)
    ensures b <==> OccursAt(s, p, 0)
    ensures b ==> Contains(s, p)
  {
    |p| <= |s| && s[..|p|] == p
  }

  /** `s.replace(pat, rep)` with a string pattern: only the first occurrence of
      `pat` is replaced, and a string without `pat` is returned unchanged. The
      replacement strings used in this model contain no `$`, so JavaScript's
      `$`-substitution patterns do not arise. */
  function ReplaceFirst(s: string, pat: string, rep: string): (r: string)
    ensures !Contains(s, pat) ==> r == s
    ensures Contains(s, pat) ==>
      var i := IndexOf(s, pat);
      r == s[..i] + rep + s[i + |pat|..]
      && forall j :: 0 <= j < i ==> !OccursAt(s, pat, j)
  {
    var i := IndexOf(s, pat);
    if i == -1 then s else s[..i] + rep + s[i + |pat|..]
  }

  // ---------------------------------------------------------------- truthiness

  /** `a || b` for two strings: the empty string is falsy. */
  function Or(a: string, b: string): (r: string)
    ensures r == a || r == b
    ensures r == a <==> (a != "" || a == b)
  {
    if a != "" then a else b
  }

  /** `a || b` where `a` may be `undefined`. */
  function OrOpt(a: Option<string>, b: string): (r: string)
    ensures a.Some? && a.value != "" ==> r == a.value
    ensures (a.None? || a.value == "") ==> r == b
  {
    if a.Some? && a.value != "" then a.value else b
  }
}
