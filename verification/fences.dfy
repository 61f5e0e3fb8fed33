// The clean-up every reply path applies to the model's raw text before it is
// shown: `.replace(/^```html\s*/, '')`, then `.replace(/```$/, '')`, then
// `.trim()`. The anchored regular expressions become prefix and suffix tests;
// without the `m` flag `$` is the absolute end of the text, so a fence followed
// by a newline is not removed by the second step. The fence-plus-whitespace
// variants used inside diagram blocks are defined here too.
module Fences {
  import opened Text

  const HtmlFence: string := "```html"
  const Fence: string := "```"

  // `s.replace(/^OPEN\s*/, '')`: the opening fence and all whitespace after it go,
  // only when `s` starts with it.
  function StripOpeningFence(s: string, open: string): (r: string)
    ensures StartsWith(s, open) ==>
      && |open| + |r| <= |s| && r == s[|s| - |r|..]
      && AllWhitespace(s[|open|..|s| - |r|])
      && (r == [] || !IsWhitespace(r[0]))
    ensures !StartsWith(s, open) ==> r == s
  {
    if StartsWith(s, open) then
      var rest := s[|open|..];
      var r := TrimStart(rest);
      assert s[|open|..|s| - |r|] == rest[..|rest| - |r|];
      r
    else s
  }

  /** `s.replace(/```$/, '')`: a fence is removed only when it is the very last three characters. */
  function StripClosingFence(s: string): (r: string)
    ensures EndsWith(s, Fence) ==> s == r + Fence
    ensures !EndsWith(s, Fence) ==> r == s
  {
    if EndsWith(s, Fence) then s[..|s| - |Fence|] else s
  }

  // `s.replace(/```\s*$/, '')`: a fence followed only by whitespace up to the end is removed
  // together with that whitespace. Because a backtick is not whitespace, the match, when
  // there is one, starts where the trailing whitespace run is preceded by the fence.
  function StripClosingFenceAndSpace(s: string): (r: string)
    ensures r == s || (|r| + |Fence| <= |s| && s[..|r| + |Fence|] == r + Fence && AllWhitespace(s[|r| + |Fence|..]))
  {
    var t := TrimEnd(s);
    if EndsWith(t, Fence) then
      assert s[..|t|] == t[..|t| - |Fence|] + Fence;
      t[..|t| - |Fence|]
    else s
  }

  /** For any text `p`, a closing fence and trailing whitespace after `p` leave exactly `p`. */
  lemma {:induction false} ClosingFenceAndSpaceRemoved(p: string, w: string)
    requires AllWhitespace(w)
    ensures StripClosingFenceAndSpace(p + Fence + w) == p
  {
    assert !IsWhitespace((p + Fence)[|p + Fence| - 1]);
    TrimEndBeforeWhitespace(p + Fence, w);
    assert p + Fence + w == (p + Fence) + w;
    assert (p + Fence)[|p + Fence| - |Fence|..] == Fence;
    assert (p + Fence)[..|p + Fence| - |Fence|] == p;
  }

  /** The clean-up chain applied to a model reply (aiService and geminiService alike). */
  function CleanReply(raw: string): (r: string)
    ensures Trimmed(r) && |r| <= |raw|
  {
    Trim(StripClosingFence(StripOpeningFence(raw, HtmlFence)))
  }

  /** A reply with neither fence is only trimmed. */
  lemma {:induction false} UnfencedReplyIsOnlyTrimmed(raw: string)
    requires !StartsWith(raw, HtmlFence) && !EndsWith(raw, Fence)
    ensures CleanReply(raw) == Trim(raw)
  {
  }

  /** Unwrapping: a trimmed document wrapped in an html fence (any whitespace after the opening) comes back unchanged. */
  lemma {:induction false} CleanReplyUnwrapsFence(w: string, doc: string)
    requires AllWhitespace(w) && Trimmed(doc)
    ensures CleanReply(HtmlFence + w + doc + Fence) == doc
  {
    var s := HtmlFence + w + doc + Fence;
    assert StartsWith(s, HtmlFence);
    assert s[|HtmlFence|..] == w + (doc + Fence);
    assert (doc + Fence)[0] == if doc == [] then '`' else doc[0];
    TrimStartAfterWhitespace(w, doc + Fence);
    assert StripOpeningFence(s, HtmlFence) == doc + Fence;
    assert StripClosingFence(doc + Fence) == doc by {
      assert EndsWith(doc + Fence, Fence);
    }
    TrimOfTrimmed(doc);
  }

  /** `$` is the end of the text: a fence followed by a newline survives the fence step and only loses the newline to `trim()`. */
  lemma {:induction false} FenceBeforeNewlineSurvives(doc: string)
    requires Trimmed(doc) && doc != [] && !StartsWith(doc + Fence + "\n", HtmlFence)
    ensures CleanReply(doc + Fence + "\n") == doc + Fence
  {
    var kept := doc + Fence;
    var s := kept + "\n";
    assert !EndsWith(s, Fence) by {
      assert s[|s| - 1] == '\n';
    }
    assert StripOpeningFence(s, HtmlFence) == s;
    assert StripClosingFence(s) == s;
    assert Trimmed(kept) by {
      assert kept[0] == doc[0];
      assert kept[|kept| - 1] == '`';
    }
    assert [] + s == s;
    TrimStartAfterWhitespace([], s);
    assert TrimStart(s) == s;
    TrimEndBeforeWhitespace(kept, "\n");
    assert TrimEnd(s) == kept;
  }
}
