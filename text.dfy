/**
 * The few Python string operations the program relies on, stated over
 * `string` (a sequence of Unicode scalar values, as Python's `str`):
 * `str.isspace` on one character, `str.strip()` with no argument,
 * `str.startswith` and the substring test `p in s`.
 */
module Text {

  /** Python's `str.isspace()` on a single character: the characters
      Python treats as whitespace (bidirectional class WS, B or S, or
      general category Zs). */
  predicate IsSpace(c: char)
  {
    ('\t' <= c <= '\r') || ('\U{1c}' <= c <= ' ') || c == '\U{85}' || c == '\U{a0}'
    || c == '\U{1680}' || ('\U{2000}' <= c <= '\U{200a}') || c == '\U{2028}'
    || c == '\U{2029}' || c == '\U{202f}' || c == '\U{205f}' || c == '\U{3000}'
  }

  /** Every character of `s` is whitespace (vacuously so for ""). */
  predicate AllSpace(s: string)
  {
    forall i :: 0 <= i < |s| ==> IsSpace(s[i])
  }

  /** Removes leading whitespace (see TrimStartSpec). */
  function TrimStart(s: string): string
  {
    if s != [] && IsSpace(s[0]) then TrimStart(s[1..]) else s
  }

  /** Removes trailing whitespace (see TrimEndSpec). */
  function TrimEnd(s: string): string
  {
    if s != [] && IsSpace(s[|s| - 1]) then TrimEnd(s[..|s| - 1]) else s
  }

  /** What is left after TrimStart is a suffix of `s`, everything removed is
      whitespace, and what is left does not start with whitespace. */
  lemma {:induction false} TrimStartSpec(s: string)
    ensures var r := TrimStart(s);
            |r| <= |s| && r == s[|s| - |r|..] && AllSpace(s[..|s| - |r|])
            && (r != [] ==> !IsSpace(r[0]))
  {
    if s != [] && IsSpace(s[0]) {
      TrimStartSpec(s[1..]);
      var r := TrimStart(s);
      assert s[1..][|s| - 1 - |r|..] == s[|s| - |r|..];
    }
  }

  /** What is left after TrimEnd is a prefix of `s`, everything removed is
      whitespace, and what is left does not end with whitespace. */
  lemma {:induction false} TrimEndSpec(s: string)
    ensures var r := TrimEnd(s);
            |r| <= |s| && r == s[..|r|] && AllSpace(s[|r|..])
            && (r != [] ==> !IsSpace(r[|r| - 1]))
  {
    if s != [] && IsSpace(s[|s| - 1]) {
      var n := |s| - 1;
      TrimEndSpec(s[..n]);
      var r := TrimEnd(s);
      assert s[..n][..|r|] == s[..|r|];
      assert s[|r|..] == s[..n][|r|..] + [s[n]];
      forall k | 0 <= k < |s| - |r| ensures IsSpace(s[|r|..][k]) {
        if k < n - |r| { assert s[|r|..][k] == s[..n][|r|..][k]; }
      }
    }
  }

  /** Python's `s.strip()`: no leading or trailing whitespace is left (see
      StripSlice for what is removed). */
  function Strip(s: string): (r: string)
    ensures |r| <= |s|
    ensures r != [] ==> !IsSpace(r[0]) && !IsSpace(r[|r| - 1])
  {
    var t := TrimStart(s);
    TrimStartSpec(s);
    TrimEndSpec(t);
    TrimEnd(t)
  }

  /** `s` is `Strip(s)` padded on both sides with whitespace only. */
  lemma StripSlice(s: string)
    ensures exists i, j :: 0 <= i <= j <= |s| && Strip(s) == s[i..j] && AllSpace(s[..i]) && AllSpace(s[j..])
  {
    var t := TrimStart(s);
    var r := TrimEnd(t);
    TrimStartSpec(s);
    TrimEndSpec(t);
    assert r == s[|s| - |t|..|s| - |t| + |r|];
    assert s[|s| - |t| + |r|..] == t[|r|..];
  }

  /** Stripping leaves nothing exactly when the text is all whitespace. */
  lemma {:induction false} StripEmptyIff(s: string)
    ensures Strip(s) == [] <==> AllSpace(s)
  {
    var r := Strip(s);
    StripSlice(s);
    var i, j :| 0 <= i <= j <= |s| && r == s[i..j] && AllSpace(s[..i]) && AllSpace(s[j..]);
    if r == [] {
      forall k | 0 <= k < |s| ensures IsSpace(s[k]) {
        if k < i { assert s[..i][k] == s[k]; } else { assert s[j..][k - j] == s[k]; }
      }
    } else {
      assert s[i] == r[0];
    }
  }

  /** Python's `s.startswith(p)`. */
  predicate StartsWith(s: string, p: string)
  {
    p <= s
  }

  /** Python's `p in s` on strings: `p` occurs in `s` at some offset. */
  predicate Contains(s: string, p: string)
  {
    exists i | 0 <= i <= |s| - |p| :: p <= s[i..]
  }

  /** A text occurs in any text built around it. */
  lemma ContainsMiddle(a: string, p: string, b: string)
    ensures Contains(a + p + b, p)
  {
    assert p <= (a + p + b)[|a|..];
  }

  /** An occurrence survives putting text in front. */
  lemma ContainsPrepend(w: string, s: string, p: string)
    requires Contains(s, p)
    ensures Contains(w + s, p)
  {
    var i :| 0 <= i <= |s| - |p| && p <= s[i..];
    assert (w + s)[|w| + i..] == s[i..];
  }
}
