// The OpenRouter path's diagram clean-up (services/aiService.ts, lines 254-261):
// `html.replace(/(<pre class="mermaid">)([\s\S]*?)(<\/pre>)/g, ...)`. The global,
// lazy replacement is a left-to-right scan: each block starts at the leftmost
// start tag and ends at the first end tag after it; scanning resumes after that
// end tag. The body between the tags loses its code fences and is trimmed; the
// tags and everything outside the blocks are kept.
module MermaidBlocks {
  import opened Text
  import opened Fences
  import opened BlockScan

  const StartTag: string := "<pre class=\"mermaid\">"
  const EndTag: string := "</pre>"
  const MermaidFence: string := "```mermaid"

  // The callback's four steps: `/^```mermaid\s*/`, `/^```\s*/`, `/```\s*$/`, then `trim()`.
  function CleanBody(body: string): (r: string)
    ensures Trimmed(r) && |r| <= |body|
  {
    Trim(StripClosingFenceAndSpace(StripOpeningFence(StripOpeningFence(body, MermaidFence), Fence)))
  }

  /** A body that has no fence at either end is only trimmed. */
  lemma {:induction false} UnfencedBodyIsOnlyTrimmed(body: string)
    requires !StartsWith(body, Fence)
    requires !EndsWith(TrimEnd(body), Fence)
    ensures CleanBody(body) == Trim(body)
  {
    assert StartsWith(MermaidFence, Fence);
    PrefixOfPrefix(body, MermaidFence, Fence);
  }

  /** Unwrapping: a diagram wrapped in a ```mermaid fence, with any whitespace around, comes back as the diagram. */
  lemma {:induction false} CleanBodyUnwrapsFence(w1: string, diagram: string, w2: string)
    requires AllWhitespace(w1) && AllWhitespace(w2) && Trimmed(diagram)
    requires diagram != [] && diagram[0] != '`'
    ensures CleanBody(MermaidFence + w1 + diagram + Fence + w2) == diagram
  {
    var body := MermaidFence + w1 + diagram + Fence + w2;
    var rest := diagram + Fence + w2;
    assert StartsWith(body, MermaidFence);
    assert body[|MermaidFence|..] == w1 + rest;
    TrimStartAfterWhitespace(w1, rest);
    var step1 := StripOpeningFence(body, MermaidFence);
    assert step1 == rest;
    assert !StartsWith(rest, Fence) by {
      assert rest[0] == diagram[0];
    }
    assert StripOpeningFence(step1, Fence) == rest;
    ClosingFenceAndSpaceRemoved(diagram, w2);
    TrimOfTrimmed(diagram);
  }

  /** A text framed by a head and a tail: the three pieces cut back out at their lengths. */
  lemma {:induction false} FramePieces(head: string, middle: string, tail: string)
    ensures var r := head + middle + tail;
      && r[..|head|] == head && r[|r| - |tail|..] == tail
      && r[|head|..|r| - |tail|] == middle
  {
    var r := head + middle + tail;
    assert r[..|head|] == head;
    assert r[|r| - |tail|..] == tail;
    assert r[|head|..|r| - |tail|] == middle;
  }

  /** The callback's result: the captured start tag, the cleaned body, the captured end tag. */
  function MermaidReplacement(body: string): (r: string)
    ensures |StartTag| + |EndTag| <= |r|
    ensures r[..|StartTag|] == StartTag && r[|r| - |EndTag|..] == EndTag
    ensures r[|StartTag|..|r| - |EndTag|] == CleanBody(body)
  {
    FramePieces(StartTag, CleanBody(body), EndTag);
    StartTag + CleanBody(body) + EndTag
  }

  /** Every replacement is non-empty, starts like the start tag and ends like the end tag. */
  lemma {:induction false} ReplacementEnds()
    ensures forall body :: |MermaidReplacement(body)| > 0
    ensures forall body :: MermaidReplacement(body)[0] == StartTag[0]
    ensures forall body :: MermaidReplacement(body)[|MermaidReplacement(body)| - 1] == EndTag[|EndTag| - 1]
  {
    forall body
      ensures |MermaidReplacement(body)| > 0 && MermaidReplacement(body)[0] == StartTag[0]
      ensures MermaidReplacement(body)[|MermaidReplacement(body)| - 1] == EndTag[|EndTag| - 1]
    {
      var r := MermaidReplacement(body);
      assert r[0] == r[..|StartTag|][0];
      assert r[|r| - 1] == r[|r| - |EndTag|..][|EndTag| - 1];
    }
  }

  /**
   * The OpenRouter reply's diagram clean-up. A reply in which no start tag has a later end
   * tag is left as it is; otherwise the result still starts and ends with the reply's first
   * and last characters.
   */
  function CleanMermaidBlocks(html: string): (r: string)
    ensures NoBlockIn(html, StartTag, EndTag) ==> r == html
    ensures SameEnds(r, html)
  {
    ReplacementEnds();
    NoBlockUnchanged(html, StartTag, EndTag, MermaidReplacement);
    ReplaceKeepsEnds(html, StartTag, EndTag, MermaidReplacement);
    ReplaceBlocks(html, StartTag, EndTag, MermaidReplacement)
  }

  /** The diagram clean-up keeps a trimmed reply trimmed. */
  lemma {:induction false} CleanMermaidBlocksKeepsTrimmed(html: string)
    requires Trimmed(html)
    ensures Trimmed(CleanMermaidBlocks(html))
  {
    var r := CleanMermaidBlocks(html);
    assert SameEnds(r, html);
  }

  /**
   * The diagram clean-up as the source states it: for the split the regular expression finds,
   * the text outside the blocks and each block's tags are kept and each body is cleaned.
   */
  lemma {:induction false} CleanMermaidBlocksSpec(blocks: seq<Block>, tail: string)
    requires RegexSplit(blocks, tail, StartTag, EndTag)
    ensures CleanMermaidBlocks(Original(blocks, tail, StartTag, EndTag)) == Replaced(blocks, tail, MermaidReplacement)
  {
    ReplaceFollowsSplit(blocks, tail, StartTag, EndTag, MermaidReplacement);
  }
}
