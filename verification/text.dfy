/** String helpers with JavaScript semantics: `String.prototype.trim` and
    `String.prototype.endsWith`. A string is a sequence of characters, one
    per UTF-16 code unit for text within the Basic Multilingual Plane. */
module Text {

  /** ECMAScript WhiteSpace and LineTerminator code points, the set `trim`
      removes: tab, vertical tab, form feed, space, no-break space, the
      byte-order mark, the other space separators of category Zs, line feed,
      carriage return, line separator and paragraph separator. */
  predicate IsWhitespace(c: char) {
    || c == '\t' || c == '\U{000B}' || c == '\U{000C}' || c == ' '
    || c == '\U{00A0}' || c == '\U{FEFF}' || c == '\U{1680}'
    || ('\U{2000}' <= c <= '\U{200A}')
    || c == '\U{202F}' || c == '\U{205F}' || c == '\U{3000}'
    || c == '\n' || c == '\r' || c == '\U{2028}' || c == '\U{2029}'
  }

  predicate AllWhitespace(s: string) {
    forall i :: 0 <= i < |s| ==> IsWhitespace(s[i])
  }

  /** Neither end of `s` is whitespace. */
  predicate Trimmed(s: string) {
    s == [] || (!IsWhitespace(s[0]) && !IsWhitespace(s[|s| - 1]))
  }

  /** `s.endsWith(suffix)`. */
  predicate EndsWith(s: string, suffix: string) {
    |suffix| <= |s| && s[|s| - |suffix|..] == suffix
  }

  lemma EndsWithOwnTail(s: string, tail: string)
    ensures EndsWith(s + tail, tail)
  {
    assert (s + tail)[|s|..] == tail;
  }

  /** Appending the same text to a string and to one of its suffixes keeps
      the suffix relation. */
  lemma EndsWithAppend(s: string, suffix: string, tail: string)
    requires EndsWith(s, suffix)
    ensures EndsWith(s + tail, suffix + tail)
  {
    assert (s + tail)[|s + tail| - |suffix + tail|..] == s[|s| - |suffix|..] + tail;
  }

  /** Drops the leading whitespace of `s`. */
  function TrimStart(s: string): (r: string)
    ensures |r| <= |s| && r == s[|s| - |r|..]
    ensures forall i :: 0 <= i < |s| - |r| ==> IsWhitespace(s[i])
    ensures r == [] || !IsWhitespace(r[0])
  {
    if |s| > 0 && IsWhitespace(s[0]) then
      var r := TrimStart(s[1..]);
      assert forall i :: 1 <= i < |s| ==> s[i] == s[1..][i - 1];
      r
    else
      s
  }

  /** Drops the trailing whitespace of `s`. */
  function TrimEnd(s: string): (r: string)
    ensures |r| <= |s| && r == s[..|r|]
    ensures forall i :: |r| <= i < |s| ==> IsWhitespace(s[i])
    ensures r == [] || !IsWhitespace(r[|r| - 1])
  {
    if |s| > 0 && IsWhitespace(s[|s| - 1]) then
      var r := TrimEnd(s[..|s| - 1]);
      assert forall i :: 0 <= i < |s| - 1 ==> s[i] == s[..|s| - 1][i];
      r
    else
      s
  }

  /** `s.trim()`: `s` without its leading and trailing whitespace. */
  function Trim(s: string): (r: string)
    ensures Trimmed(r) && |r| <= |s|
  {
    TrimEnd(TrimStart(s))
  }

  /** What `trim` keeps is an infix of `s`, and everything it removes from
      either end is whitespace. */
  lemma TrimIsInfix(s: string) returns (i: nat)
    ensures i + |Trim(s)| <= |s| && Trim(s) == s[i..i + |Trim(s)|]
    ensures AllWhitespace(s[..i]) && AllWhitespace(s[i + |Trim(s)|..])
  {
    var t := TrimStart(s);
    var r := TrimEnd(t);
    assert r == Trim(s);
    i := |s| - |t|;
    assert s[..i] == s[..|s| - |t|];
    assert r == t[..|r|];
    assert t[|r|..] == s[i + |r|..];
  }

  lemma TrimmedConcat(a: string, b: string)
    requires Trimmed(a) && Trimmed(b) && a != [] && b != []
    ensures Trimmed(a + b)
  {
    assert (a + b)[0] == a[0];
    assert (a + b)[|a + b| - 1] == b[|b| - 1];
  }

  /** A string whose ends are not whitespace is left as it is by `trim`. */
  lemma TrimKeepsTrimmed(s: string)
    requires Trimmed(s)
    ensures Trim(s) == s
  {
  }

  /** `trim` is idempotent. */
  lemma TrimIdempotent(s: string)
    ensures Trim(Trim(s)) == Trim(s)
  {
    TrimKeepsTrimmed(Trim(s));
  }

  /** `trim` is the unique whitespace-bordered infix: any way of writing `s`
      as whitespace, then a trimmed core, then whitespace, yields that core. */
  lemma TrimUnique(pre: string, core: string, post: string)
    requires AllWhitespace(pre) && AllWhitespace(post) && Trimmed(core)
    ensures Trim(pre + core + post) == core
  {
    if core == [] {
      AllWhitespaceConcat(pre, post);
      assert pre + core + post == pre + post;
      TrimAllWhitespace(pre + post);
    } else {
      TrimNonEmptyCore(pre, core, post);
    }
  }

  /** A string of whitespace only trims to the empty string. */
  lemma TrimAllWhitespace(s: string)
    requires AllWhitespace(s)
    ensures Trim(s) == []
  {
    StartOfWhitespacePrefix(s, []);
    assert s + [] == s;
  }

  lemma TrimNonEmptyCore(pre: string, core: string, post: string)
    requires AllWhitespace(pre) && AllWhitespace(post) && Trimmed(core) && core != []
    ensures Trim(pre + core + post) == core
  {
    StartOfWhitespacePrefix(pre, core + post);
    assert pre + core + post == pre + (core + post);
    EndOfWhitespaceSuffix(core, post);
  }

  /** Whitespace added around a string does not change its trimmed form. */
  lemma TrimAround(pre: string, s: string, post: string)
    requires AllWhitespace(pre) && AllWhitespace(post)
    ensures Trim(pre + s + post) == Trim(s)
  {
    var i := TrimIsInfix(s);
    var t := Trim(s);
    assert s == s[..i] + t + s[i + |t|..];
    WhitespaceAroundCore(pre, s[..i], t, s[i + |t|..], post);
  }

  /** Two layers of whitespace around a trimmed core still trim to it. */
  lemma WhitespaceAroundCore(pre: string, lead: string, core: string, trail: string, post: string)
    requires AllWhitespace(pre) && AllWhitespace(lead) && AllWhitespace(trail) && AllWhitespace(post)
    requires Trimmed(core)
    ensures Trim(pre + (lead + core + trail) + post) == core
  {
    AllWhitespaceConcat(pre, lead);
    AllWhitespaceConcat(trail, post);
    assert pre + (lead + core + trail) + post == (pre + lead) + core + (trail + post);
    TrimUnique(pre + lead, core, trail + post);
  }

  lemma AllWhitespaceConcat(a: string, b: string)
    requires AllWhitespace(a) && AllWhitespace(b)
    ensures AllWhitespace(a + b)
  {
    forall k | 0 <= k < |a + b| ensures IsWhitespace((a + b)[k]) {
      if k >= |a| { assert (a + b)[k] == b[k - |a|]; }
    }
  }

  lemma {:induction false} StartOfWhitespacePrefix(pre: string, rest: string)
    requires AllWhitespace(pre)
    requires rest == [] || !IsWhitespace(rest[0])
    ensures TrimStart(pre + rest) == rest
    decreases |pre|
  {
    if pre != [] {
      assert (pre + rest)[1..] == pre[1..] + rest;
      StartOfWhitespacePrefix(pre[1..], rest);
    }
  }

  lemma {:induction false} EndOfWhitespaceSuffix(rest: string, post: string)
    requires AllWhitespace(post)
    requires rest == [] || !IsWhitespace(rest[|rest| - 1])
    ensures TrimEnd(rest + post) == rest
    decreases |post|
  {
    if post != [] {
      assert (rest + post)[..|rest + post| - 1] == rest + post[..|post| - 1];
      EndOfWhitespaceSuffix(rest, post[..|post| - 1]);
    }
  }
}
