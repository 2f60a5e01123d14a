/** Prompt truncation: the request carries `prefix.slice(-context_length)`,
    the last `context_length` characters of the text before the cursor. */
module Truncation {
  import opened Text
  import opened ModelSettings

  function Min(a: int, b: int): int {
    if a <= b then a else b
  }

  /** `s.slice(start)` with the end omitted: a negative start counts from
      the end and is clamped to the beginning, a non-negative one is clamped
      to the length. The result is always a suffix of `s`. */
  function Slice(s: string, start: int): (r: string)
    ensures EndsWith(s, r)
    ensures start < 0 ==> |r| == Min(-start, |s|)
    ensures start >= 0 ==> |r| == |s| - Min(start, |s|)
  {
    var from := if start < 0 then (if |s| + start < 0 then 0 else |s| + start) else Min(start, |s|);
    s[from..]
  }

  /** The prompt sent for a prefix under a positive context length: the
      suffix of `prefix` of length `min(contextLength, |prefix|)`, so a prefix
      that fits is sent unchanged. */
  function Prompt(prefix: string, contextLength: PositiveInt): (r: string)
    ensures EndsWith(prefix, r)
    ensures |r| == Min(contextLength, |prefix|)
    ensures |prefix| <= contextLength ==> r == prefix
  {
    Slice(prefix, -(contextLength as int))
  }

  /** The prompt keeps the most recent context: every suffix of the prefix
      that fits in the context length is a suffix of the prompt. */
  lemma PromptKeepsRecentContext(prefix: string, contextLength: PositiveInt, tail: string)
    requires EndsWith(prefix, tail) && |tail| <= contextLength
    ensures EndsWith(Prompt(prefix, contextLength), tail)
  {
    var r := Prompt(prefix, contextLength);
    assert r[|r| - |tail|..] == prefix[|prefix| - |tail|..];
  }

  /** Five characters of context over `abcdefgh` send `defgh`. */
  lemma PromptExample()
    ensures Prompt("abcdefgh", 5) == "defgh"
  {
    assert "abcdefgh"[3..] == "defgh";
  }
}
