/**
 * Python's notion of whitespace and `str.strip()`, which every handler
 * uses to reject blank input (`not text or text.strip() == ''`).
 */
module Text {
  import opened Wrappers

  /** The 29 code points Python's `str.isspace()` accepts, listed one by one. */
  const SpaceCodePoints: set<char> := {
    '\t', '\n', '\U{0B}', '\U{0C}', '\r', '\U{1C}', '\U{1D}', '\U{1E}', '\U{1F}', ' ',
    '\U{85}', '\U{A0}', '\U{1680}',
    '\U{2000}', '\U{2001}', '\U{2002}', '\U{2003}', '\U{2004}', '\U{2005}',
    '\U{2006}', '\U{2007}', '\U{2008}', '\U{2009}', '\U{200A}',
    '\U{2028}', '\U{2029}', '\U{202F}', '\U{205F}', '\U{3000}'
  }

  /** Python's `str.isspace()` for one code point. */
  predicate IsSpace(c: char)
    ensures IsSpace(c) <==> c in SpaceCodePoints
  {
    || ('\t' <= c <= '\r')               // \t \n \v \f \r
    || ('\U{1C}' <= c <= '\U{1F}')       // file, group, record and unit separators
    || c == ' '
    || c == '\U{85}' || c == '\U{A0}' || c == '\U{1680}'
    || ('\U{2000}' <= c <= '\U{200A}')
    || c == '\U{2028}' || c == '\U{2029}' || c == '\U{202F}' || c == '\U{205F}' || c == '\U{3000}'
  }

  /** Every code point of `s` is whitespace (vacuously so for the empty string). */
  predicate AllSpace(s: string) {
    forall k :: 0 <= k < |s| ==> IsSpace(s[k])
  }

  /** Index of the first code point at or after `i` that is not whitespace (`|s|` if there is none): where `s.lstrip()` starts. */
  function SkipSpace(s: string, i: nat): (n: nat)
    requires i <= |s|
    ensures i <= n <= |s|
    ensures forall k :: i <= k < n ==> IsSpace(s[k])
    ensures n == |s| || !IsSpace(s[n])
    decreases |s| - i
  {
    if i < |s| && IsSpace(s[i]) then SkipSpace(s, i + 1) else i
  }

  /** Index just past the last code point of `s[lo..j]` that is not whitespace (`lo` if there is none): where `s.rstrip()` ends. */
  function SkipSpaceBack(s: string, lo: nat, j: nat): (n: nat)
    requires lo <= j <= |s|
    ensures lo <= n <= j
    ensures forall k :: n <= k < j ==> IsSpace(s[k])
    ensures n == lo || !IsSpace(s[n - 1])
  {
    if lo < j && IsSpace(s[j - 1]) then SkipSpaceBack(s, lo, j - 1) else j
  }

  /**
   * `s.strip()`: the middle `s[i..j]` of the input, where everything before `i`
   * and from `j` on is whitespace and the middle neither starts nor ends with it.
   */
  function Strip(s: string): (r: string)
    ensures |r| <= |s|
    ensures var i := SkipSpace(s, 0); var j := SkipSpaceBack(s, i, |s|);
      && r == s[i..j]
      && AllSpace(s[..i])
      && AllSpace(s[j..])
    ensures r == [] || (!IsSpace(r[0]) && !IsSpace(r[|r| - 1]))
  {
    var i := SkipSpace(s, 0);
    s[i..SkipSpaceBack(s, i, |s|)]
  }

  /**
   * Any middle slice with only whitespace around it and no whitespace at its
   * own ends is what `strip()` returns: the contract of `Strip` pins it down.
   */
  lemma StripUnique(s: string, i: nat, j: nat)
    requires i <= j <= |s|
    requires AllSpace(s[..i]) && AllSpace(s[j..])
    requires i == j || (!IsSpace(s[i]) && !IsSpace(s[j - 1]))
    ensures Strip(s) == s[i..j]
  {
    var i' := SkipSpace(s, 0);
    assert i < j ==> i' == i;
  }

  /** Stripping leaves nothing exactly when the string is all whitespace. */
  lemma StripEmptyIffAllSpace(s: string)
    ensures Strip(s) == [] <==> AllSpace(s)
  {
    var i := SkipSpace(s, 0);
    var j := SkipSpaceBack(s, i, |s|);
    if Strip(s) == [] {
      assert i == |s|;
      forall k | 0 <= k < |s| ensures IsSpace(s[k]) {
        assert s[..i][k] == s[k];
      }
    }
  }

  /** The handlers' blank-input test `not text or text.strip() == ''` on an optional string. */
  predicate Blank(text: Option<string>)
    ensures Blank(text) <==> text.None? || AllSpace(text.value)
  {
    match text
    case None => true
    case Some(s) =>
      StripEmptyIffAllSpace(s);
      s == [] || Strip(s) == []
  }
}
