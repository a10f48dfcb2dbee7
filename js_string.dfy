/** The part of ECMAScript's String.prototype.trim that the SQL Table validator relies on.
    `trim` removes every leading and trailing character that is WhiteSpace (section 12.2 of
    ECMA-262) or a LineTerminator (section 12.3 of ECMA-262). */
module JsString {

  /** WhiteSpace or LineTerminator in the sense of ECMA-262: TAB, VT, FF, ZWNBSP, the Unicode
      space separators (category Zs), LF, CR, LINE SEPARATOR and PARAGRAPH SEPARATOR. */
  predicate IsWhitespace(c: char) {
    // WhiteSpace: TAB, VT, FF, ZWNBSP
    c == '\t' || c == '\U{000B}' || c == '\U{000C}' || c == '\U{FEFF}' ||
    // WhiteSpace: category Zs
    c == ' ' || c == '\U{00A0}' || c == '\U{1680}' ||
    ('\U{2000}' <= c <= '\U{200A}') ||
    c == '\U{202F}' || c == '\U{205F}' || c == '\U{3000}' ||
    // LineTerminator: LF, CR, LS, PS
    c == '\n' || c == '\r' || c == '\U{2028}' || c == '\U{2029}'
  }

  /** `s` holds at least one character that `trim` keeps. */
  ghost predicate NonBlank(s: string) {
    exists i :: 0 <= i < |s| && !IsWhitespace(s[i])
  }

  /** Every character of `s` is whitespace. */
  ghost predicate AllWhitespace(s: string) {
    forall k :: 0 <= k < |s| ==> IsWhitespace(s[k])
  }

  /** `r` is `s` with its leading and trailing whitespace removed: `s` is `r` with
      whitespace-only text on either side, and `r` neither starts nor ends with whitespace. */
  ghost predicate IsTrimOf(r: string, s: string) {
    (exists pre, post :: s == pre + r + post && AllWhitespace(pre) && AllWhitespace(post)) &&
    (r != [] ==> !IsWhitespace(r[0]) && !IsWhitespace(r[|r| - 1]))
  }

  /** Drops the leading whitespace: the result is the suffix of `s` that starts at its first
      non-whitespace character (or is empty). */
  function TrimStart(s: string): (r: string)
    ensures |r| <= |s| && r == s[|s| - |r|..]
    ensures forall k :: 0 <= k < |s| - |r| ==> IsWhitespace(s[k])
    ensures r != [] ==> !IsWhitespace(r[0])
    decreases |s|
  {
    if |s| > 0 && IsWhitespace(s[0]) then TrimStart(s[1..]) else s
  }

  /** Drops the trailing whitespace: the result is the prefix of `s` that ends at its last
      non-whitespace character (or is empty). */
  function TrimEnd(s: string): (r: string)
    ensures |r| <= |s| && r == s[..|r|]
    ensures forall k :: |r| <= k < |s| ==> IsWhitespace(s[k])
    ensures r != [] ==> !IsWhitespace(r[|r| - 1])
    decreases |s|
  {
    if |s| > 0 && IsWhitespace(s[|s| - 1]) then TrimEnd(s[..|s| - 1]) else s
  }

  /** `s.trim()`. */
  function Trim(s: string): (r: string)
    ensures IsTrimOf(r, s)
  {
    var t := TrimStart(s);
    var r := TrimEnd(t);
    SplitTrimmed(s, t, r);
    r
  }

  /** The pieces that TrimStart and TrimEnd cut off are whitespace and put `s` back together,
      and what is left neither starts nor ends with whitespace. */
  lemma SplitTrimmed(s: string, t: string, r: string)
    requires |t| <= |s| && t == s[|s| - |t|..] && forall k :: 0 <= k < |s| - |t| ==> IsWhitespace(s[k])
    requires t != [] ==> !IsWhitespace(t[0])
    requires |r| <= |t| && r == t[..|r|] && forall k :: |r| <= k < |t| ==> IsWhitespace(t[k])
    requires r != [] ==> !IsWhitespace(r[|r| - 1])
    ensures IsTrimOf(r, s)
  {
    var n := |s| - |t|;
    var pre, post := s[..n], t[|r|..];
    forall k | 0 <= k < n ensures IsWhitespace(pre[k]) {
      assert pre[k] == s[k];
    }
    forall k | 0 <= k < |t| - |r| ensures IsWhitespace(post[k]) {
      assert post[k] == t[|r| + k];
    }
    calc {
      s;
      s[..n] + s[n..];
      pre + t;
      pre + (t[..|r|] + t[|r|..]);
      pre + r + post;
    }
    assert AllWhitespace(pre) && AllWhitespace(post) && s == pre + r + post;
    if r != [] {
      assert r[0] == t[0];
    }
  }

  /** The characterisation the validator depends on: after trimming, something is left exactly
      when the string holds a non-whitespace character. */
  lemma TrimEmptyIff()
    ensures forall s :: |Trim(s)| > 0 <==> NonBlank(s)
  {
    forall s ensures |Trim(s)| > 0 <==> NonBlank(s) {
      var r := Trim(s);
      var pre, post :| s == pre + r + post && AllWhitespace(pre) && AllWhitespace(post);
      if |r| > 0 {
        assert s[|pre|] == r[0];
      }
    }
  }
}
