/** `String.prototype.trim`: removal of leading and trailing white space and line terminators. */
module TrimText {

  /** The characters ECMAScript counts as WhiteSpace or LineTerminator, which `trim` removes:
      TAB, VT, FF, SP, NBSP, ZWNBSP, the Unicode space separators (category Zs), LF, CR, LS and PS. */
  predicate IsWhitespace(c: char) {
    || '\t' <= c <= '\r'               // TAB, LF, VT, FF, CR
    || c == ' ' || c == '\U{00A0}' || c == '\U{1680}'
    || '\U{2000}' <= c <= '\U{200A}'
    || c == '\U{2028}' || c == '\U{2029}' || c == '\U{202F}' || c == '\U{205F}'
    || c == '\U{3000}' || c == '\U{FEFF}'
  }

  predicate AllWhitespace(s: string) {
    forall i :: 0 <= i < |s| ==> IsWhitespace(s[i])
  }

  /** Neither the first nor the last character of `s`, if any, is white space. */
  predicate Trimmed(s: string) {
    s == [] || (!IsWhitespace(s[0]) && !IsWhitespace(s[|s| - 1]))
  }

  /** `s` with its leading white space removed: a suffix of `s` that is empty or does not
      start with white space. */
  function TrimStart(s: string): (r: string)
    ensures |r| <= |s|
    ensures r == [] || !IsWhitespace(r[0])
  {
    if s != [] && IsWhitespace(s[0]) then TrimStart(s[1..]) else s
  }

  /** `s` with its trailing white space removed: a prefix of `s` that is empty or does not
      end with white space. */
  function TrimEnd(s: string): (r: string)
    ensures |r| <= |s|
    ensures r == [] || !IsWhitespace(r[|r| - 1])
  {
    if s != [] && IsWhitespace(s[|s| - 1]) then TrimEnd(s[..|s| - 1]) else s
  }

  /** `s.trim()`: the part of `s` left between its leading and its trailing white space. */
  function Trim(s: string): (r: string)
    ensures |r| <= |s|
    ensures Trimmed(r)
  {
    var t := TrimStart(s);
    TrimEndIsPrefix(t);
    TrimEnd(t)
  }

  /** `TrimStart` keeps a suffix. */
  lemma {:induction false} TrimStartIsSuffix(s: string)
    ensures TrimStart(s) == s[|s| - |TrimStart(s)|..]
  {
    if s != [] && IsWhitespace(s[0]) {
      TrimStartIsSuffix(s[1..]);
    }
  }

  /** `TrimEnd` keeps a prefix. */
  lemma {:induction false} TrimEndIsPrefix(s: string)
    ensures TrimEnd(s) == s[..|TrimEnd(s)|]
  {
    if s != [] && IsWhitespace(s[|s| - 1]) {
      TrimEndIsPrefix(s[..|s| - 1]);
    }
  }

  /** What `TrimStart` removes is all white space. */
  lemma {:induction false} TrimStartRemovesWhitespace(s: string)
    ensures AllWhitespace(s[..|s| - |TrimStart(s)|])
  {
    if s != [] && IsWhitespace(s[0]) {
      TrimStartRemovesWhitespace(s[1..]);
      TrimStartIsSuffix(s[1..]);
      var k := |s| - |TrimStart(s)|;
      assert s[..k] == [s[0]] + s[1..][..k - 1];
    }
  }

  /** What `TrimEnd` removes is all white space. */
  lemma {:induction false} TrimEndRemovesWhitespace(s: string)
    ensures AllWhitespace(s[|TrimEnd(s)|..])
  {
    if s != [] && IsWhitespace(s[|s| - 1]) {
      var u := s[..|s| - 1];
      TrimEndRemovesWhitespace(u);
      TrimEndIsPrefix(u);
      assert s[|TrimEnd(s)|..] == u[|TrimEnd(u)|..] + [s[|s| - 1]];
    }
  }

  /** `s.trim()` is empty, and so falsy, exactly when `s` is all white space. */
  lemma TrimEmptyIff(s: string)
    ensures Trim(s) == [] <==> AllWhitespace(s)
  {
    var t := TrimStart(s);
    TrimStartIsSuffix(s);
    TrimStartRemovesWhitespace(s);
    TrimEndRemovesWhitespace(t);
    assert s == s[..|s| - |t|] + t;
  }

  /** `trim` cuts `s` into white space, the result, and white space again: nothing else is dropped. */
  lemma TrimSplits(s: string)
    ensures exists k :: (0 <= k && k + |Trim(s)| <= |s| && s[k..k + |Trim(s)|] == Trim(s)
                         && AllWhitespace(s[..k]) && AllWhitespace(s[k + |Trim(s)|..]))
  {
    var t := TrimStart(s);
    var r := Trim(s);
    var k := |s| - |t|;
    TrimStartIsSuffix(s);
    TrimEndIsPrefix(t);
    TrimStartRemovesWhitespace(s);
    TrimEndRemovesWhitespace(t);
    assert t == s[k..];
    assert r == t[..|r|];
    assert s[k..k + |r|] == r;
    assert s[k + |r|..] == t[|r|..];
  }

  /** A string without white space at either end is left alone by `trim`. */
  lemma TrimOfTrimmed(s: string)
    requires Trimmed(s)
    ensures Trim(s) == s
  {
  }

  /** Trimming twice is trimming once. */
  lemma TrimIdempotent(s: string)
    ensures Trim(Trim(s)) == Trim(s)
  {
    TrimOfTrimmed(Trim(s));
  }
}
