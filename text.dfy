/**
 * The parts of Go's `strings` and `strconv` packages that the application relies on:
 * `TrimSpace`, `Index`, `Contains`, `LastIndex` of a character, `%d` formatting and
 * decimal parsing. A Go string is modelled as a sequence of characters (code points).
 */
module Text {
  import opened Wrappers

  /** Go's `unicode.IsSpace`: the Unicode White_Space characters. */
  predicate IsSpace(c: char) {
    c == ' ' || c == '\t' || c == '\n' || c == '\r' || c == '\U{000B}' || c == '\U{000C}'
    || c == '\U{0085}' || c == '\U{00A0}' || c == '\U{1680}'
    || ('\U{2000}' <= c <= '\U{200A}')
    || c == '\U{2028}' || c == '\U{2029}' || c == '\U{202F}' || c == '\U{205F}' || c == '\U{3000}'
  }

  /** Empty or made only of white space. */
  predicate IsBlank(s: string) {
    forall i :: 0 <= i < |s| ==> IsSpace(s[i])
  }

  /** Neither starts nor ends with white space. */
  predicate IsTrimmed(s: string) {
    s == [] || (!IsSpace(s[0]) && !IsSpace(s[|s| - 1]))
  }

  /** Number of white-space characters at the start of `s`. */
  function LeadingSpaces(s: string): (n: nat)
    ensures n <= |s|
    ensures forall i :: 0 <= i < n ==> IsSpace(s[i])
    ensures n < |s| ==> !IsSpace(s[n])
  {
    if |s| == 0 || !IsSpace(s[0]) then 0
    else 1 + LeadingSpaces(s[1..])
  }

  /** Number of white-space characters at the end of `s`. */
  function TrailingSpaces(s: string): (n: nat)
    ensures n <= |s|
    ensures forall i :: |s| - n <= i < |s| ==> IsSpace(s[i])
    ensures n < |s| ==> !IsSpace(s[|s| - n - 1])
  {
    if |s| == 0 || !IsSpace(s[|s| - 1]) then 0
    else 1 + TrailingSpaces(s[..|s| - 1])
  }

  /** Go's `strings.TrimSpace`: `s` without its leading and trailing white space. */
  function TrimSpace(s: string): (r: string)
    ensures IsTrimmed(r)
    ensures r == [] <==> IsBlank(s)
    ensures |r| <= |s|
  {
    var a := LeadingSpaces(s);
    var t := s[a..];
    var r := t[..|t| - TrailingSpaces(t)];
    assert a < |s| ==> t[0] == s[a];
    r
  }

  /** The white space counted by `LeadingSpaces` is a blank prefix. */
  lemma LeadingBlank(s: string)
    ensures IsBlank(s[..LeadingSpaces(s)])
  {
    var a := LeadingSpaces(s);
    assert forall i :: 0 <= i < a ==> s[..a][i] == s[i];
  }

  /** The white space counted by `TrailingSpaces` is a blank suffix. */
  lemma TrailingBlank(t: string)
    ensures IsBlank(t[|t| - TrailingSpaces(t)..])
  {
    var b := TrailingSpaces(t);
    var u := t[|t| - b..];
    assert forall i :: 0 <= i < |u| ==> u[i] == t[|t| - b + i];
  }

  /** What trimming removes is white space on either side of the result. */
  lemma TrimSpaceDecomposes(s: string)
    ensures var r := TrimSpace(s); var a := LeadingSpaces(s);
      a + |r| <= |s| && s == s[..a] + r + s[a + |r|..] && IsBlank(s[..a]) && IsBlank(s[a + |r|..])
  {
    var a := LeadingSpaces(s);
    var t := s[a..];
    var b := TrailingSpaces(t);
    var r := t[..|t| - b];
    assert r == TrimSpace(s);
    Split3(s, a, a + |r|);
    assert s[a..a + |r|] == r;
    assert s[a + |r|..] == t[|t| - b..];
    LeadingBlank(s);
    TrailingBlank(t);
  }

  /** A sequence is its three consecutive slices joined. */
  lemma Split3<T>(s: seq<T>, i: nat, j: nat)
    requires i <= j <= |s|
    ensures s == s[..i] + s[i..j] + s[j..]
  {
  }

  /** Trimming is determined by the decomposition: blank padding around a trimmed core. */
  lemma {:induction false} TrimSpacePadded(p: string, x: string, q: string)
    requires IsBlank(p) && IsBlank(q) && IsTrimmed(x)
    ensures TrimSpace(p + x + q) == x
  {
    var s := p + x + q;
    if x == [] {
      assert IsBlank(s);
    } else {
      var a := LeadingSpaces(s);
      assert s[|p|] == x[0];
      assert forall i :: 0 <= i < |p| ==> s[i] == p[i];
      assert a == |p|;
      var t := s[a..];
      assert t == x + q;
      var b := TrailingSpaces(t);
      assert t[|t| - 1 - |q|] == x[|x| - 1];
      assert forall i :: |x| <= i < |t| ==> t[i] == q[i - |x|];
      assert b == |q|;
      assert t[..|t| - b] == x;
    }
  }

  /** Appending white space does not change the trimmed string. */
  lemma TrimSpaceTrailingBlank(s: string, q: string)
    requires IsBlank(q)
    ensures TrimSpace(s + q) == TrimSpace(s)
  {
    TrimSpaceDecomposes(s);
    var a := LeadingSpaces(s);
    var r := TrimSpace(s);
    var tail := s[a + |r|..];
    assert s + q == s[..a] + r + (tail + q);
    TrimSpacePadded(s[..a], r, tail + q);
  }

  /** Trimming twice is trimming once. */
  lemma TrimSpaceIdempotent(s: string)
    ensures TrimSpace(TrimSpace(s)) == TrimSpace(s)
  {
    var r := TrimSpace(s);
    TrimSpacePadded([], r, []);
    assert [] + r + [] == r;
  }

  /** `pat` occurs in `s` starting at position `i`. */
  predicate OccursAt(s: string, pat: string, i: nat) {
    i + |pat| <= |s| && s[i..i + |pat|] == pat
  }

  /** The first occurrence of `pat` in `s` at or after `i`. */
  function IndexFrom(s: string, pat: string, i: nat): (r: Option<nat>)
    requires i <= |s|
    decreases |s| - i
    ensures r.Some? ==> i <= r.value && OccursAt(s, pat, r.value)
    ensures r.Some? ==> forall j: nat :: i <= j < r.value ==> !OccursAt(s, pat, j)
    ensures r.None? ==> forall j: nat :: i <= j ==> !OccursAt(s, pat, j)
  {
    if OccursAt(s, pat, i) then Some(i)
    else if i == |s| then None
    else IndexFrom(s, pat, i + 1)
  }

  /** Go's `strings.Index`, with `None` for -1. */
  function IndexOf(s: string, pat: string): (r: Option<nat>)
    ensures r.Some? ==> OccursAt(s, pat, r.value)
    ensures r.Some? ==> forall j: nat :: j < r.value ==> !OccursAt(s, pat, j)
    ensures r.None? ==> forall j: nat :: !OccursAt(s, pat, j)
  {
    IndexFrom(s, pat, 0)
  }

  /** Go's `strings.Contains`. */
  predicate Contains(s: string, pat: string) {
    IndexOf(s, pat).Some?
  }

  /** An occurrence with none before it is the one `IndexOf` reports. */
  lemma IndexOfIs(s: string, pat: string, k: nat)
    requires OccursAt(s, pat, k)
    requires forall j: nat :: j < k ==> !OccursAt(s, pat, j)
    ensures IndexOf(s, pat) == Some(k)
  {
  }

  /** `Contains` holds exactly when there is an occurrence somewhere. */
  lemma ContainsIff(s: string, pat: string, k: nat)
    requires OccursAt(s, pat, k)
    ensures Contains(s, pat)
  {
  }

  /** An occurrence inside a slice is an occurrence in the whole string. */
  lemma OccursInSlice(s: string, lo: nat, hi: nat, pat: string, j: nat)
    requires lo <= hi <= |s|
    requires OccursAt(s[lo..hi], pat, j)
    ensures OccursAt(s, pat, lo + j)
  {
    var t := s[lo..hi];
    assert t[j..j + |pat|] == pat;
    assert forall k :: 0 <= k < |pat| ==> pat[k] == t[j + k] == s[lo + j + k];
    assert s[lo + j..lo + j + |pat|] == pat;
  }

  /** A string that does not contain `pat` has no slice that does. */
  lemma ContainsSlice(s: string, lo: nat, hi: nat, pat: string)
    requires lo <= hi <= |s|
    requires !Contains(s, pat)
    ensures !Contains(s[lo..hi], pat)
  {
    if Contains(s[lo..hi], pat) {
      OccursInSlice(s, lo, hi, pat, IndexOf(s[lo..hi], pat).value);
    }
  }

  /** An occurrence that ends within the first `n` characters is one of the prefix `s[..n]`. */
  lemma OccursAtPrefix(s: string, pat: string, j: nat, n: nat)
    requires j + |pat| <= n <= |s|
    ensures OccursAt(s, pat, j) <==> OccursAt(s[..n], pat, j)
  {
    assert s[..n][j..j + |pat|] == s[j..j + |pat|];
  }

  /** Occurrences in a suffix are occurrences in the whole string, shifted. */
  lemma OccursShift(s: string, a: nat, pat: string, j: nat)
    requires a <= |s|
    ensures OccursAt(s[a..], pat, j) <==> OccursAt(s, pat, a + j)
  {
    if a + j + |pat| <= |s| {
      assert s[a..][j..j + |pat|] == s[a + j..a + j + |pat|];
    }
  }

  /** An occurrence at `k` is the first one when the text just before its last character is free of `pat`. */
  lemma FirstAt(s: string, pat: string, k: nat)
    requires |pat| > 0 && OccursAt(s, pat, k)
    requires !Contains(s[..k + |pat| - 1], pat)
    ensures IndexOf(s, pat) == Some(k)
  {
    forall j: nat | j < k
      ensures !OccursAt(s, pat, j)
    {
      OccursAtPrefix(s, pat, j, k + |pat| - 1);
    }
    IndexOfIs(s, pat, k);
  }

  /** A string that starts with `pat`, after text free of `pat` (even with a cut `pat` appended), has it first at the join. */
  lemma FirstAtJoin(x: string, y: string, pat: string)
    requires |pat| > 0 && |pat| <= |y| && y[..|pat|] == pat
    requires !Contains(x + pat[..|pat| - 1], pat)
    ensures IndexOf(x + y, pat) == Some(|x|)
  {
    var s := x + y;
    assert s[|x|..|x| + |pat|] == pat;
    assert s[..|x| + |pat| - 1] == x + pat[..|pat| - 1];
    FirstAt(s, pat, |x|);
  }

  /** Nothing before the first occurrence of a non-empty pattern contains it. */
  lemma NoneBeforeFirst(s: string, pat: string, e: nat)
    requires |pat| > 0 && IndexOf(s, pat) == Some(e)
    ensures !Contains(s[..e], pat)
  {
    forall j: nat
      ensures !OccursAt(s[..e], pat, j)
    {
      if j + |pat| <= e {
        OccursAtPrefix(s, pat, j, e);
      }
    }
  }

  /** No character of `s` starts `pat`, and `extra` is too short to hold it: `s + extra` lacks `pat`. */
  lemma NoPatternStart(s: string, extra: string, pat: string)
    requires |pat| > |extra|
    requires forall i :: 0 <= i < |s| ==> s[i] != pat[0]
    ensures !Contains(s + extra, pat)
  {
    forall j: nat
      ensures !OccursAt(s + extra, pat, j)
    {
      if j + |pat| <= |s + extra| {
        assert (s + extra)[j..j + |pat|][0] == s[j];
      }
    }
  }

  /** The trimmed string is the slice of `s` that starts after the leading white space. */
  lemma TrimSpaceIsSlice(s: string)
    ensures LeadingSpaces(s) + |TrimSpace(s)| <= |s|
    ensures TrimSpace(s) == s[LeadingSpaces(s)..LeadingSpaces(s) + |TrimSpace(s)|]
  {
  }

  /** Trimming cannot create an occurrence of a pattern. */
  lemma TrimSpaceKeepsAbsence(s: string, pat: string)
    requires !Contains(s, pat)
    ensures !Contains(TrimSpace(s), pat)
  {
    TrimSpaceIsSlice(s);
    ContainsSlice(s, LeadingSpaces(s), LeadingSpaces(s) + |TrimSpace(s)|, pat);
  }

  /** Go's `strings.LastIndex(s, string(c))` for one character. */
  function LastIndexOfChar(s: string, c: char): (r: Option<nat>)
    ensures r.Some? ==> r.value < |s| && s[r.value] == c
    ensures r.Some? ==> forall j :: r.value < j < |s| ==> s[j] != c
    ensures r.None? ==> forall j :: 0 <= j < |s| ==> s[j] != c
  {
    if |s| == 0 then None
    else if s[|s| - 1] == c then Some(|s| - 1)
    else LastIndexOfChar(s[..|s| - 1], c)
  }

  predicate IsDigit(c: char) {
    '0' <= c <= '9'
  }

  predicate AllDigits(s: string) {
    forall i :: 0 <= i < |s| ==> IsDigit(s[i])
  }

  function DigitChar(d: nat): (c: char)
    requires d < 10
    ensures IsDigit(c) && c as int - '0' as int == d
  {
    ('0' as int + d) as char
  }

  /** Go's `%d` formatting of a non-negative integer. */
  function NatToString(n: nat): (s: string)
    ensures |s| >= 1 && AllDigits(s)
  {
    if n < 10 then [DigitChar(n)]
    else NatToString(n / 10) + [DigitChar(n % 10)]
  }

  /** Go's `%d` formatting of an integer. */
  function IntToString(i: int): string {
    if i < 0 then "-" + NatToString(-i) else NatToString(i)
  }

  /** The value of a string of decimal digits (Go's `strconv.Atoi` without a range limit). */
  function ParseDecimal(s: string): nat
    requires AllDigits(s)
  {
    if s == [] then 0
    else ParseDecimal(s[..|s| - 1]) * 10 + (s[|s| - 1] as int - '0' as int)
  }

  /** Parsing undoes formatting. */
  lemma {:induction false} ParseNatToString(n: nat)
    ensures ParseDecimal(NatToString(n)) == n
  {
    if n >= 10 {
      var s := NatToString(n);
      assert s[..|s| - 1] == NatToString(n / 10);
      ParseNatToString(n / 10);
    }
  }

  /** Formatting is one-to-one. */
  lemma NatToStringInjective(i: nat, j: nat)
    requires NatToString(i) == NatToString(j)
    ensures i == j
  {
    ParseNatToString(i);
    ParseNatToString(j);
  }
}
