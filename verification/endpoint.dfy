/** Resolution of the completions endpoint from the configured proxy base
    URL: trim, make slash-terminated, then append `completions` when the
    base already names the `/v1/` API version and `v1/completions`
    otherwise. */
module Endpoint {
  import opened Text

  const Slash := "/"
  const V1 := "v1"
  /** The API version segment without its closing slash, `/v1`. */
  const VersionSegment := Slash + V1
  /** The API version segment, `/v1/`. */
  const Version := VersionSegment + Slash
  const Completions := "completions"
  /** What is appended to a base that lacks the version segment,
      `v1/completions`. */
  const VersionedCompletions := V1 + Slash + Completions
  /** The tail of every endpoint, `/v1/completions`. */
  const EndpointSuffix := Version + Completions

  /** `/` followed by `v1/completions` is `/v1/completions`. */
  lemma SuffixParts()
    ensures Slash + VersionedCompletions == EndpointSuffix
  {
    assert Slash + (V1 + Slash + Completions) == Slash + V1 + Slash + Completions;
  }

  /** The (trimmed) base with a `/` appended unless it already ends in one. */
  function SlashTerminated(t: string): (b: string)
    ensures EndsWith(b, Slash)
    ensures b == t || (b == t + Slash && !EndsWith(t, Slash))
  {
    if EndsWith(t, Slash) then t else t + Slash
  }

  /** The endpoint under a slash-terminated base: `completions` when the
      base already ends in the version segment, `v1/completions` otherwise.
      Either way it ends in `/v1/completions`. */
  function CompletionsUnder(b: string): (url: string)
    requires EndsWith(b, Slash)
    ensures EndsWith(url, EndpointSuffix)
  {
    if EndsWith(b, Version) then
      assert EndsWith(b + Completions, EndpointSuffix) by {
        EndsWithAppend(b, Version, Completions);
      }
      b + Completions
    else
      assert EndsWith(b + VersionedCompletions, EndpointSuffix) by {
        EndsWithAppend(b, Slash, VersionedCompletions);
        SuffixParts();
      }
      b + VersionedCompletions
  }

  /** The URL the completion request is posted to. Whatever the base (the
      empty string included) it ends in `/v1/completions`. */
  function Resolve(base: string): (url: string)
    ensures EndsWith(url, EndpointSuffix)
  {
    CompletionsUnder(SlashTerminated(Trim(base)))
  }

  /** `t` is one of the four ways of writing the API root `root`: bare, with
      a trailing slash, with the version segment, or with both. */
  predicate SpellingOf(t: string, root: string) {
    || t == root
    || t == root + Slash
    || t == root + VersionSegment
    || t == root + Version
  }

  /** A root that cannot be confused with one of its own spellings. */
  predicate Canonical(root: string) {
    !EndsWith(root, Slash) && !EndsWith(root, VersionSegment)
  }

  /** Every endpoint is some API root followed by exactly one
      `/v1/completions`, where the trimmed base is a spelling of that root.
      Once the trimmed base is slash-terminated, one ending in `/v1/` only
      gets `completions` appended, so the version segment is never doubled;
      any other gets `v1/completions`. */
  lemma EndpointHasRoot(base: string)
    ensures exists root :: Resolve(base) == root + EndpointSuffix && SpellingOf(Trim(base), root)
    ensures EndsWith(SlashTerminated(Trim(base)), Version) ==>
              Resolve(base) == SlashTerminated(Trim(base)) + Completions
    ensures !EndsWith(SlashTerminated(Trim(base)), Version) ==>
              Resolve(base) == SlashTerminated(Trim(base)) + VersionedCompletions
  {
    var root := RootOfSpelling(Trim(base));
  }

  lemma RootOfSpelling(t: string) returns (root: string)
    ensures CompletionsUnder(SlashTerminated(t)) == root + EndpointSuffix && SpellingOf(t, root)
  {
    var b := SlashTerminated(t);
    root := RootUnder(b);
    if b != t {
      assert b == t + Slash;
      if EndsWith(b, Version) {
        assert t == b[..|b| - 1];
        assert b[..|b| - 1] == root + VersionSegment;
      } else {
        assert t == root;
      }
    }
  }

  /** Splits a slash-terminated base into its API root and the spelling
      suffix, `/` or `/v1/`, that the resolved endpoint replaces. */
  lemma RootUnder(b: string) returns (root: string)
    requires EndsWith(b, Slash)
    ensures CompletionsUnder(b) == root + EndpointSuffix
    ensures if EndsWith(b, Version) then b == root + Version else b == root + Slash
  {
    if EndsWith(b, Version) {
      root := b[..|b| - |Version|];
      assert b == root + Version;
    } else {
      root := b[..|b| - 1];
      assert b == root + Slash;
      SuffixParts();
    }
  }

  /** All four spellings of a canonical root resolve to the same endpoint,
      the root followed by `/v1/completions`. */
  lemma SpellingsAgree(base: string, root: string)
    requires Canonical(root)
    requires SpellingOf(Trim(base), root)
    ensures Resolve(base) == root + EndpointSuffix
  {
    SpellingAgrees(Trim(base), root);
  }

  lemma SpellingAgrees(t: string, root: string)
    requires Canonical(root) && SpellingOf(t, root)
    ensures CompletionsUnder(SlashTerminated(t)) == root + EndpointSuffix
  {
    if t == root || t == root + Slash {
      EndsWithOwnTail(root, Slash);
      assert SlashTerminated(t) == root + Slash;
      UnderBareRoot(root);
    } else {
      if t == root + VersionSegment {
        assert t[|t| - 1] == VersionSegment[2] != Slash[0];
        assert !EndsWith(t, Slash);
      } else {
        EndsWithOwnTail(root + VersionSegment, Slash);
      }
      assert SlashTerminated(t) == root + Version;
      UnderVersionedRoot(root);
    }
  }

  lemma UnderBareRoot(root: string)
    requires Canonical(root)
    ensures CompletionsUnder(root + Slash) == root + EndpointSuffix
  {
    var b := root + Slash;
    EndsWithOwnTail(root, Slash);
    if EndsWith(b, Version) {
      assert false;
    }
    SuffixParts();
  }

  lemma UnderVersionedRoot(root: string)
    ensures CompletionsUnder(root + Version) == root + EndpointSuffix
  {
    EndsWithOwnTail(root, Version);
    assert root + Version == (root + VersionSegment) + Slash;
    EndsWithOwnTail(root + VersionSegment, Slash);
  }

  const Host := "http://host"

  /** The resolutions the configuration is designed around: a bare host,
      with a trailing slash, with the version segment, and with both all
      reach `http://host/v1/completions`. */
  lemma ResolveExamples()
    ensures Resolve(Host) == Host + EndpointSuffix
    ensures Resolve(Host + Slash) == Host + EndpointSuffix
    ensures Resolve(Host + VersionSegment) == Host + EndpointSuffix
    ensures Resolve(Host + Version) == Host + EndpointSuffix
  {
    HostIsCanonical();
    ResolveExample(Host, Host);
    ResolveExample(Host, Host + Slash);
    ResolveExample(Host, Host + VersionSegment);
    ResolveExample(Host, Host + Version);
  }

  /** Whitespace around the configured base is ignored: any whitespace
      before and after it leaves the endpoint unchanged. */
  lemma ResolveIgnoresSurroundingWhitespace(pre: string, base: string, post: string)
    requires AllWhitespace(pre) && AllWhitespace(post)
    ensures Resolve(pre + base + post) == Resolve(base)
  {
    TrimAround(pre, base, post);
  }

  lemma HostIsCanonical()
    ensures Canonical(Host)
    ensures Trimmed(Host + Slash) && Trimmed(Host + VersionSegment) && Trimmed(Host + Version)
  {
    TrimmedConcat(Host, Slash);
    TrimmedConcat(Host, VersionSegment);
    TrimmedConcat(Host, Version);
  }

  lemma ResolveExample(root: string, base: string)
    requires Canonical(root) && Trimmed(base) && SpellingOf(base, root)
    ensures Resolve(base) == root + EndpointSuffix
  {
    TrimKeepsTrimmed(base);
    SpellingsAgree(base, root);
  }

  /** An empty base URL is not rejected: it resolves to the bare path. */
  lemma ResolveEmpty()
    ensures Resolve("") == EndpointSuffix
  {
    SpellingsAgree("", "");
  }
}
