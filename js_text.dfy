/** JavaScript's String.prototype.trim, as far as the blank-submission guard
    of the chat form needs it. JavaScript strings are sequences of UTF-16 code
    units; here a string is a sequence of Unicode scalar values, which agrees
    with JavaScript on every character the whitespace set below mentions. */
module JsText {

  /** The characters trim removes: WhiteSpace (section 12.2 of ECMA-262:
      TAB, VT, FF, ZWNBSP and the Unicode Zs category) together with
      LineTerminator (section 12.3: LF, CR, LS, PS). */
  predicate IsWhitespace(c: char) {
    c == '\t' || c == '\n' || c == '\U{000B}' || c == '\U{000C}' || c == '\r'
    || c == ' ' || c == '\U{00A0}' || c == '\U{1680}'
    || ('\U{2000}' <= c <= '\U{200A}')
    || c == '\U{2028}' || c == '\U{2029}' || c == '\U{202F}' || c == '\U{205F}'
    || c == '\U{3000}' || c == '\U{FEFF}'
  }

  /** Every character of s is whitespace (the empty string included). */
  predicate IsBlank(s: string) {
    forall k :: 0 <= k < |s| ==> IsWhitespace(s[k])
  }

  /** s without its leading whitespace: the longest suffix of s that does not
      start with whitespace. */
  function TrimStart(s: string): (r: string)
    ensures |r| <= |s| && r == s[|s| - |r|..]
    ensures forall k :: 0 <= k < |s| - |r| ==> IsWhitespace(s[k])
    ensures r != [] ==> !IsWhitespace(r[0])
  {
    if s != [] && IsWhitespace(s[0]) then
      var r := TrimStart(s[1..]);
      assert s[1..][|s[1..]| - |r|..] == s[|s| - |r|..];
      r
    else
      s
  }

  /** s without its trailing whitespace: the longest prefix of s that does not
      end with whitespace. */
  function TrimEnd(s: string): (r: string)
    ensures |r| <= |s| && r == s[..|r|]
    ensures forall k :: |r| <= k < |s| ==> IsWhitespace(s[k])
    ensures r != [] ==> !IsWhitespace(r[|r| - 1])
  {
    if s != [] && IsWhitespace(s[|s| - 1]) then
      var r := TrimEnd(s[..|s| - 1]);
      assert s[..|s| - 1][..|r|] == s[..|r|];
      r
    else
      s
  }

  /** s neither starts nor ends with whitespace (vacuous on ""). */
  predicate Unpadded(s: string) {
    s != "" ==> !IsWhitespace(s[0]) && !IsWhitespace(s[|s| - 1])
  }

  /** The facts TrimStart and TrimEnd state about t = TrimStart(s) and
      r = TrimEnd(t): t is a suffix of s after a run of whitespace, and r is
      a prefix of t before a run of whitespace, neither starting nor ending
      with whitespace. */
  predicate TrimmedParts(s: string, t: string, r: string) {
    |t| <= |s| && t == s[|s| - |t|..]
    && (forall k :: 0 <= k < |s| - |t| ==> IsWhitespace(s[k]))
    && (t != [] ==> !IsWhitespace(t[0]))
    && |r| <= |t| && r == t[..|r|]
    && (forall k :: |r| <= k < |t| ==> IsWhitespace(t[k]))
    && (r != [] ==> !IsWhitespace(r[|r| - 1]))
  }

  /** Trimming both ends leaves r, the infix of s between a blank prefix
      and a blank suffix. */
  lemma {:induction false} TrimIsInfix(s: string, t: string, r: string)
    requires TrimmedParts(s, t, r)
    ensures exists a, b :: 0 <= a <= b <= |s| && r == s[a..b] && IsBlank(s[..a]) && IsBlank(s[b..])
  {
    var a := |s| - |t|;
    var b := a + |r|;
    assert s[a..][..|r|] == s[a..b];
    var prefix := s[..a];
    forall k | 0 <= k < |prefix|
      ensures IsWhitespace(prefix[k])
    {
      assert prefix[k] == s[k];
    }
    var suffix := s[b..];
    forall k | 0 <= k < |suffix|
      ensures IsWhitespace(suffix[k])
    {
      assert suffix[k] == t[|r| + k];
    }
    assert r == s[a..b] && IsBlank(s[..a]) && IsBlank(s[b..]);
  }

  /** Trimming both ends gives the empty string exactly on a blank input,
      and otherwise leaves no whitespace at either end. */
  lemma {:induction false} TrimEnds(s: string, t: string, r: string)
    requires TrimmedParts(s, t, r)
    ensures r == "" <==> IsBlank(s)
    ensures Unpadded(r)
  {
    if r != "" {
      assert r[0] == t[0];
    }
  }

  /** String.prototype.trim: whitespace removed from both ends. The result
      is the infix of s between a blank prefix and a blank suffix; it is
      empty exactly when the input is blank, and otherwise neither starts
      nor ends with whitespace. */
  function Trim(s: string): (r: string)
    ensures exists a, b :: 0 <= a <= b <= |s| && r == s[a..b] && IsBlank(s[..a]) && IsBlank(s[b..])
    ensures r == "" <==> IsBlank(s)
    ensures Unpadded(r)
  {
    var t := TrimStart(s);
    var r := TrimEnd(t);
    TrimIsInfix(s, t, r);
    TrimEnds(s, t, r);
    r
  }

  /** The guard `s.trim() === ""`: true exactly on blank strings. */
  function TrimsToEmpty(s: string): (b: bool)
    ensures b <==> IsBlank(s)
  {
    Trim(s) == ""
  }
}
