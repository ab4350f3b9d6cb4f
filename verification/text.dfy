/**
 * The handful of Python string operations the core relies on:
 * `str.lower()` (restricted to ASCII letters), the substring test `a in b`,
 * `str.strip()` and the prefix slice `s[:n]`.
 */
module Text {

  /** One character of `str.lower()`, for ASCII letters only. */
  function LowerChar(c: char): char {
    if 'A' <= c <= 'Z' then (c as int + 32) as char else c
  }

  /** `s.lower()`, ASCII letters only. */
  function Lower(s: string): (r: string)
    ensures |r| == |s|
    ensures forall i :: 0 <= i < |s| ==> r[i] == LowerChar(s[i])
  {
    seq(|s|, i requires 0 <= i < |s| => LowerChar(s[i]))
  }

  /** `needle` occurs in `hay` starting at index `i`. */
  ghost predicate OccursAt(needle: string, hay: string, i: int) {
    0 <= i && i + |needle| <= |hay| && hay[i..i + |needle|] == needle
  }

  /** `needle` is a contiguous substring of `hay`. */
  ghost predicate IsInfix(needle: string, hay: string) {
    exists i :: OccursAt(needle, hay, i)
  }

  /** Python's `needle in hay` on two strings. */
  function Contains(needle: string, hay: string): (r: bool)
    ensures r <==> IsInfix(needle, hay)
    decreases |hay|
  {
    if |needle| > |hay| then false
    else if hay[..|needle|] == needle then
      assert OccursAt(needle, hay, 0);
      true
    else
      var rest := Contains(needle, hay[1..]);
      ShiftOccurrence(needle, hay);
      rest
  }

  /** Occurrences in `hay[1..]` are the occurrences in `hay` past index 0. */
  lemma ShiftOccurrence(needle: string, hay: string)
    requires |needle| <= |hay| && hay[..|needle|] != needle
    ensures IsInfix(needle, hay) <==> IsInfix(needle, hay[1..])
  {
    if IsInfix(needle, hay) {
      var i :| OccursAt(needle, hay, i);
      assert i != 0;
      assert hay[1..][i - 1..i - 1 + |needle|] == hay[i..i + |needle|];
      assert OccursAt(needle, hay[1..], i - 1);
    }
    if IsInfix(needle, hay[1..]) {
      var i :| OccursAt(needle, hay[1..], i);
      assert hay[1..][i..i + |needle|] == hay[i + 1..i + 1 + |needle|];
      assert OccursAt(needle, hay, i + 1);
    }
  }

  /** Infix is transitive: a substring of a substring is a substring. */
  lemma InfixTransitive(a: string, b: string, c: string)
    requires IsInfix(a, b) && IsInfix(b, c)
    ensures IsInfix(a, c)
  {
    var i :| OccursAt(a, b, i);
    var j :| OccursAt(b, c, j);
    forall k | 0 <= k < |a| ensures c[j + i + k] == a[k] {
      assert a[k] == b[i..i + |a|][k] == b[i + k];
      assert b[i + k] == c[j..j + |b|][i + k] == c[j + i + k];
    }
    assert c[j + i..j + i + |a|] == a;
    assert OccursAt(a, c, j + i);
  }

  /** Lower-casing commutes with slicing. */
  lemma LowerSlice(s: string, i: int, j: int)
    requires 0 <= i <= j <= |s|
    ensures Lower(s[i..j]) == Lower(s)[i..j]
  {
  }

  /** An occurrence survives lower-casing both strings. */
  lemma LowerKeepsInfix(needle: string, hay: string)
    requires IsInfix(needle, hay)
    ensures IsInfix(Lower(needle), Lower(hay))
  {
    var i :| OccursAt(needle, hay, i);
    LowerSlice(hay, i, i + |needle|);
    assert OccursAt(Lower(needle), Lower(hay), i);
  }

  /** The characters `str.isspace()` accepts, which `str.strip()` removes. */
  predicate IsSpace(c: char): (b: bool)
    ensures c == ' ' || c == '\t' || c == '\n' || c == '\r' ==> b
    ensures '!' <= c <= '~' ==> !b
  {
    || c == ' ' || '\t' <= c <= '\r' || '\U{1C}' <= c <= '\U{1F}'
    || c == '\U{85}' || c == '\U{A0}' || c == '\U{1680}'
    || '\U{2000}' <= c <= '\U{200A}' || c == '\U{2028}' || c == '\U{2029}'
    || c == '\U{202F}' || c == '\U{205F}' || c == '\U{3000}'
  }

  /** All characters of `s` are whitespace (the empty string included). */
  predicate IsBlank(s: string) {
    forall i :: 0 <= i < |s| ==> IsSpace(s[i])
  }

  /** The number of whitespace characters `s` starts with. */
  function LeadingSpaces(s: string): (n: nat)
    ensures n <= |s| && (n < |s| ==> !IsSpace(s[n]))
    ensures forall i :: 0 <= i < n ==> IsSpace(s[i])
  {
    if s != [] && IsSpace(s[0]) then 1 + LeadingSpaces(s[1..]) else 0
  }

  /** The number of whitespace characters `s` ends with. */
  function TrailingSpaces(s: string): (n: nat)
    ensures n <= |s| && (n < |s| ==> !IsSpace(s[|s| - 1 - n]))
    ensures forall i :: |s| - n <= i < |s| ==> IsSpace(s[i])
  {
    if s != [] && IsSpace(s[|s| - 1]) then 1 + TrailingSpaces(s[..|s| - 1]) else 0
  }

  /** `s.lstrip()`. */
  function TrimStart(s: string): (r: string)
    ensures |r| <= |s| && r == s[|s| - |r|..]
    ensures r != [] ==> !IsSpace(r[0])
    ensures IsBlank(s[..|s| - |r|])
  {
    s[LeadingSpaces(s)..]
  }

  /** `s.rstrip()`. */
  function TrimEnd(s: string): (r: string)
    ensures |r| <= |s| && r == s[..|r|]
    ensures r != [] ==> !IsSpace(r[|r| - 1])
    ensures IsBlank(s[|r|..])
  {
    s[..|s| - TrailingSpaces(s)]
  }

  /** `r` sits at index `i` of `s`, with only whitespace before and after it. */
  ghost predicate StrippedAt(r: string, s: string, i: int) {
    OccursAt(r, s, i) && IsBlank(s[..i]) && IsBlank(s[i + |r|..])
  }

  /** `s.strip()`: the substring left once leading and trailing whitespace is removed. */
  function Strip(s: string): (r: string)
    ensures exists i :: StrippedAt(r, s, i)
    ensures IsInfix(r, s)
    ensures r != [] ==> !IsSpace(r[0]) && !IsSpace(r[|r| - 1])
    ensures r == [] <==> IsBlank(s)
  {
    StripIsInfix(s);
    StripEmptyOnlyIfBlank(s);
    TrimEnd(TrimStart(s))
  }

  /** Stripping removes a blank prefix and a blank suffix and keeps what lies between. */
  lemma {:induction false} StripIsInfix(s: string)
    ensures StrippedAt(TrimEnd(TrimStart(s)), s, |s| - |TrimStart(s)|)
    ensures IsInfix(TrimEnd(TrimStart(s)), s)
  {
    var t := TrimStart(s);
    var r := TrimEnd(t);
    var n := |s| - |t|;
    SuffixOfSuffix(s, n, |r|);
    assert OccursAt(r, s, n);
    assert IsBlank(s[..n]);
    assert IsBlank(s[n + |r|..]) by {
      assert s[n + |r|..] == t[|r|..];
    }
  }

  /** Slicing a suffix of `s` again is slicing `s`. */
  lemma SuffixOfSuffix(s: string, n: nat, m: nat)
    requires n + m <= |s|
    ensures s[n..][..m] == s[n..n + m] && s[n..][m..] == s[n + m..]
  {
  }

  lemma {:induction false} StripEmptyOnlyIfBlank(s: string)
    ensures TrimEnd(TrimStart(s)) == [] ==> IsBlank(s)
  {
    var t := TrimStart(s);
    var r := TrimEnd(t);
    var n := |s| - |t|;
    if r == [] {
      assert t[|r|..] == t;
      BlankJoin(s[..n], t);
      assert s == s[..n] + t;
    }
  }

  lemma {:induction false} BlankJoin(a: string, b: string)
    requires IsBlank(a) && IsBlank(b)
    ensures IsBlank(a + b)
  {
    forall i | 0 <= i < |a + b| ensures IsSpace((a + b)[i]) {
      if i < |a| { assert (a + b)[i] == a[i]; } else { assert (a + b)[i] == b[i - |a|]; }
    }
  }

  /** The slice `s[:n]`. */
  function Prefix(s: string, n: nat): (r: string)
    ensures |r| == if |s| <= n then |s| else n
    ensures r == s[..|r|]
  {
    if |s| <= n then s else s[..n]
  }
}
