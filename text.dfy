/** JavaScript's `String.prototype.trim`, which the controller's guards use to
    decide whether the article or the refinement prompt is blank. */
module Text {

  /** The characters `trim` removes: ECMAScript's WhiteSpace (tab, vertical tab,
      form feed, space, no-break space, byte order mark and every other Zs
      character) and LineTerminator (line feed, carriage return, line and
      paragraph separators). All of them lie in the Basic Multilingual Plane, so
      treating a string as a sequence of code points instead of UTF-16 code
      units changes nothing here. */
  predicate IsWhitespace(c: char) {
    || c == '\t' || c == '\n' || c == '\U{000B}' || c == '\U{000C}' || c == '\r'
    || c == ' ' || c == '\U{00A0}' || c == '\U{1680}'
    || ('\U{2000}' <= c <= '\U{200A}')
    || c == '\U{2028}' || c == '\U{2029}' || c == '\U{202F}' || c == '\U{205F}'
    || c == '\U{3000}' || c == '\U{FEFF}'
  }

  /** Every character is whitespace. Trim's contract shows this is exactly when
      `s.trim()` is the empty string, which is falsy: the guard `!s.trim()`. */
  predicate IsBlank(s: string) {
    forall i :: 0 <= i < |s| ==> IsWhitespace(s[i])
  }

  /** Drops the leading whitespace: the result is the suffix of `s` that starts
      at its first non-whitespace character. */
  function TrimStart(s: string): (r: string)
    ensures |r| <= |s| && r == s[|s| - |r|..]
    ensures IsBlank(s[..|s| - |r|])
    ensures r != [] ==> !IsWhitespace(r[0])
  {
    if s == [] || !IsWhitespace(s[0]) then s else TrimStart(s[1..])
  }

  /** Drops the trailing whitespace: the result is the prefix of `s` that ends
      at its last non-whitespace character. */
  function TrimEnd(s: string): (r: string)
    ensures |r| <= |s| && r == s[..|r|]
    ensures IsBlank(s[|r|..])
    ensures r != [] ==> !IsWhitespace(r[|r| - 1])
  {
    if s == [] || !IsWhitespace(s[|s| - 1]) then s else TrimEnd(s[..|s| - 1])
  }

  /** `s.trim()`: the middle of `s` with whitespace cut off on both sides, so
      that the result is empty exactly when `s` holds only whitespace, and
      otherwise begins and ends with a character that is not whitespace. */
  function Trim(s: string): (r: string)
    ensures exists i, j :: 0 <= i <= j <= |s| && r == s[i..j] && IsBlank(s[..i]) && IsBlank(s[j..])
    ensures r == [] <==> IsBlank(s)
    ensures r != [] ==> !IsWhitespace(r[0]) && !IsWhitespace(r[|r| - 1])
  {
    var t := TrimStart(s);
    var r := TrimEnd(t);
    TrimmedIsMiddle(s, |s| - |t|, |r|);
    r
  }

  /** A middle slice `s[i..i + k]` with whitespace before it and after it,
      that does not itself start with whitespace: it is empty exactly when `s`
      is whitespace throughout. */
  lemma TrimmedIsMiddle(s: string, i: nat, k: nat)
    requires i + k <= |s| && IsBlank(s[..i]) && IsBlank(s[i..][k..])
    requires k > 0 ==> !IsWhitespace(s[i])
    ensures exists i', j :: 0 <= i' <= j <= |s| && s[i..][..k] == s[i'..j] && IsBlank(s[..i']) && IsBlank(s[j..])
    ensures s[i..][..k] == [] <==> IsBlank(s)
  {
    assert s[i..][..k] == s[i..i + k] && s[i..][k..] == s[i + k..];
    WhitespaceSplit(s, i);
    WhitespaceSplit(s[i..], k);
  }

  /** Whitespace on both sides of a cut is whitespace throughout, and a
      whitespace string has only whitespace suffixes. */
  lemma WhitespaceSplit(s: string, i: nat)
    requires i <= |s|
    ensures IsBlank(s) <==> IsBlank(s[..i]) && IsBlank(s[i..])
  {
    if IsBlank(s[..i]) && IsBlank(s[i..]) {
      forall k | 0 <= k < |s| ensures IsWhitespace(s[k]) {
        if k < i { assert s[k] == s[..i][k]; } else { assert s[k] == s[i..][k - i]; }
      }
    }
  }
}
