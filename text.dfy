/**
 * The two string operations the classifier applies to the model's raw answer:
 * Python's `str.strip()` and `str.lower()`, restricted to ASCII.
 */
module Text {

  /** `str.isspace()` on ASCII: tab, line feed, vertical tab, form feed,
      carriage return, the separators 0x1C-0x1F, and space. */
  predicate IsSpace(c: char) {
    c == ' ' || 9 <= c as int <= 13 || 28 <= c as int <= 31
  }

  predicate AllSpace(s: string) {
    forall i :: 0 <= i < |s| ==> IsSpace(s[i])
  }

  /** Neither starts nor ends with whitespace. */
  predicate IsStripped(s: string) {
    s == [] || (!IsSpace(s[0]) && !IsSpace(s[|s| - 1]))
  }

  predicate IsUpper(c: char) {
    'A' <= c <= 'Z'
  }

  /** No ASCII upper-case letter anywhere. */
  predicate IsLowered(s: string) {
    forall i :: 0 <= i < |s| ==> !IsUpper(s[i])
  }

  /** The end of the run of whitespace that starts at `i`. */
  function SpaceRunEnd(s: string, i: nat): (j: nat)
    requires i <= |s|
    ensures i <= j <= |s|
    ensures forall k :: i <= k < j ==> IsSpace(s[k])
    ensures j < |s| ==> !IsSpace(s[j])
    decreases |s| - i
  {
    if i < |s| && IsSpace(s[i]) then SpaceRunEnd(s, i + 1) else i
  }

  /** The start of the run of whitespace that ends at `j`. */
  function SpaceRunStart(s: string, j: nat): (i: nat)
    requires j <= |s|
    ensures i <= j
    ensures forall k :: i <= k < j ==> IsSpace(s[k])
    ensures 0 < i ==> !IsSpace(s[i - 1])
  {
    if 0 < j && IsSpace(s[j - 1]) then SpaceRunStart(s, j - 1) else j
  }

  /** The length of the longest all-whitespace prefix of `s`. */
  function LeadingSpace(s: string): (n: nat)
    ensures n <= |s|
    ensures forall i :: 0 <= i < n ==> IsSpace(s[i])
    ensures n < |s| ==> !IsSpace(s[n])
  {
    SpaceRunEnd(s, 0)
  }

  /** The length of the longest all-whitespace suffix of `s`. */
  function TrailingSpace(s: string): (n: nat)
    ensures n <= |s|
    ensures forall i :: |s| - n <= i < |s| ==> IsSpace(s[i])
    ensures n < |s| ==> !IsSpace(s[|s| - n - 1])
  {
    |s| - SpaceRunStart(s, |s|)
  }

  /** The whitespace prefix is determined by the characters: any `n` with
      whitespace before it and none at it is `LeadingSpace(s)`. */
  lemma LeadingSpaceIs(s: string, n: nat)
    requires n <= |s| && forall i :: 0 <= i < n ==> IsSpace(s[i])
    requires n < |s| ==> !IsSpace(s[n])
    ensures LeadingSpace(s) == n
  {
  }

  /** The whitespace suffix is determined by the characters. */
  lemma TrailingSpaceIs(s: string, n: nat)
    requires n <= |s| && forall i :: |s| - n <= i < |s| ==> IsSpace(s[i])
    requires n < |s| ==> !IsSpace(s[|s| - n - 1])
    ensures TrailingSpace(s) == n
  {
  }

  /** `str.lstrip()`: drops the longest all-whitespace prefix. */
  function TrimStart(s: string): string {
    s[LeadingSpace(s)..]
  }

  /** `str.rstrip()`: drops the longest all-whitespace suffix. */
  function TrimEnd(s: string): string {
    s[..|s| - TrailingSpace(s)]
  }

  /** `str.strip()`: removes whitespace on both ends. */
  function Strip(s: string): (r: string)
    ensures IsStripped(r)
  {
    TrimEnd(TrimStart(s))
  }

  /** What `strip()` leaves is an infix of `s`, and what it removes before and
      after that infix is whitespace only. */
  lemma StripRemovesOnlySpace(s: string)
    ensures var r := Strip(s);
      exists k :: 0 <= k && k + |r| <= |s| && r == s[k..k + |r|] && AllSpace(s[..k]) && AllSpace(s[k + |r|..])
  {
    var k := LeadingSpace(s);
    var t := s[k..];
    var r := t[..|t| - TrailingSpace(t)];
    assert r == s[k..k + |r|];
    assert AllSpace(s[..k]);
    assert forall i :: k + |r| <= i < |s| ==> s[i] == t[i - k];
  }

  /** `strip()` leaves nothing exactly when `s` is all whitespace. */
  lemma StripEmpty(s: string)
    ensures Strip(s) == [] <==> AllSpace(s)
  {
    var k := LeadingSpace(s);
    var t := s[k..];
    if AllSpace(s) {
      LeadingSpaceIs(s, |s|);
    }
    if Strip(s) == [] {
      assert TrailingSpace(t) == |t|;
      assert |t| == 0;
    }
  }

  function LowerChar(c: char): (d: char)
    ensures !IsUpper(d)
    ensures IsSpace(d) <==> IsSpace(c)
    ensures !IsUpper(c) ==> d == c
    ensures IsUpper(c) ==> d as int == c as int - 'A' as int + 'a' as int
  {
    if IsUpper(c) then (c as int - 'A' as int + 'a' as int) as char else c
  }

  /** `str.lower()` on ASCII: maps every letter A-Z to a-z, keeps the rest. */
  function Lower(s: string): (r: string)
    ensures |r| == |s|
    ensures forall i :: 0 <= i < |s| ==> r[i] == LowerChar(s[i])
  {
    seq(|s|, i requires 0 <= i < |s| => LowerChar(s[i]))
  }

  /** A stripped string is left alone by `strip()`. */
  lemma StripStripped(s: string)
    requires IsStripped(s)
    ensures Strip(s) == s
  {
    LeadingSpaceIs(s, 0);
    TrailingSpaceIs(s, 0);
  }

  /** `lower()` leaves no upper-case letter. */
  lemma LowerIsLowered(s: string)
    ensures IsLowered(Lower(s))
  {
  }

  /** A string without upper-case letters is left alone by `lower()`. */
  lemma LowerLowered(s: string)
    requires IsLowered(s)
    ensures Lower(s) == s
  {
  }

  /** Lower-casing neither adds nor removes whitespace at the ends. */
  lemma LowerKeepsStripped(s: string)
    requires IsStripped(s)
    ensures IsStripped(Lower(s))
  {
  }

  /** Whitespace in front of `s` adds to its whitespace prefix. */
  lemma LeadingSpaceAfterPadding(p: string, s: string)
    requires AllSpace(p)
    ensures LeadingSpace(p + s) == |p| + LeadingSpace(s)
  {
    var n := LeadingSpace(s);
    assert forall i :: |p| <= i < |p| + |s| ==> (p + s)[i] == s[i - |p|];
    LeadingSpaceIs(p + s, |p| + n);
  }

  /** Whitespace after `s` adds to its whitespace suffix. */
  lemma TrailingSpaceBeforePadding(s: string, q: string)
    requires AllSpace(q)
    ensures TrailingSpace(s + q) == TrailingSpace(s) + |q|
  {
    var n := TrailingSpace(s);
    assert forall i :: 0 <= i < |s| ==> (s + q)[i] == s[i];
    TrailingSpaceIs(s + q, n + |q|);
  }

  /** Text after a string that is not all whitespace leaves its whitespace
      prefix alone. */
  lemma LeadingSpaceBeforeText(s: string, q: string)
    requires !AllSpace(s)
    ensures LeadingSpace(s + q) == LeadingSpace(s)
  {
    var n := LeadingSpace(s);
    assert forall i :: 0 <= i < |s| ==> (s + q)[i] == s[i];
    LeadingSpaceIs(s + q, n);
  }

  /** Cutting `t + q` no further than the end of `t` cuts `t`. */
  lemma SliceOfAppend(t: string, q: string, m: nat)
    requires m <= |t|
    ensures (t + q)[..m] == t[..m]
  {
  }

  /** `lstrip()` on a padded answer that is not all whitespace. */
  lemma TrimStartPadded(p: string, s: string, q: string)
    requires AllSpace(p) && !AllSpace(s)
    ensures TrimStart(p + (s + q)) == TrimStart(s) + q
  {
    LeadingSpaceAfterPadding(p, s + q);
    LeadingSpaceBeforeText(s, q);
    var k := LeadingSpace(s);
    assert (p + (s + q))[|p| + k..] == s[k..] + q;
  }

  /** `rstrip()` ignores whitespace appended to its argument. */
  lemma TrimEndPadded(t: string, q: string)
    requires AllSpace(q)
    ensures TrimEnd(t + q) == TrimEnd(t)
  {
    TrailingSpaceBeforePadding(t, q);
    SliceOfAppend(t, q, |t| - TrailingSpace(t));
  }

  /** Whitespace added on either side of the model's answer does not change
      what `strip()` leaves. */
  lemma StripIgnoresPadding(p: string, s: string, q: string)
    requires AllSpace(p) && AllSpace(q)
    ensures Strip(p + s + q) == Strip(s)
  {
    assert p + s + q == p + (s + q);
    if AllSpace(s) {
      StripEmpty(s);
      assert AllSpace(p + s + q);
      StripEmpty(p + s + q);
    } else {
      TrimStartPadded(p, s, q);
      TrimEndPadded(TrimStart(s), q);
    }
  }

  /** Lower-casing keeps every character's whitespace class, so it keeps the
      whitespace prefix and suffix. */
  lemma LowerKeepsSpace(s: string)
    ensures LeadingSpace(Lower(s)) == LeadingSpace(s)
    ensures TrailingSpace(Lower(s)) == TrailingSpace(s)
  {
    LeadingSpaceIs(Lower(s), LeadingSpace(s));
    TrailingSpaceIs(Lower(s), TrailingSpace(s));
  }

  /** `lower()` commutes with dropping a prefix and with keeping one. */
  lemma LowerSlices(s: string, k: nat)
    requires k <= |s|
    ensures Lower(s)[k..] == Lower(s[k..])
    ensures Lower(s)[..k] == Lower(s[..k])
  {
  }

  /** `lstrip()` and `lower()` commute. */
  lemma TrimStartLower(s: string)
    ensures TrimStart(Lower(s)) == Lower(TrimStart(s))
  {
    LowerKeepsSpace(s);
    LowerSlices(s, LeadingSpace(s));
  }

  /** `rstrip()` and `lower()` commute. */
  lemma TrimEndLower(s: string)
    ensures TrimEnd(Lower(s)) == Lower(TrimEnd(s))
  {
    LowerKeepsSpace(s);
    LowerSlices(s, |s| - TrailingSpace(s));
  }

  /** Stripping and lower-casing commute. */
  lemma StripLower(s: string)
    ensures Strip(Lower(s)) == Lower(Strip(s))
  {
    TrimStartLower(s);
    TrimEndLower(TrimStart(s));
  }
}
