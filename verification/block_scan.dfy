// `s.replace(/(OPEN)([\s\S]*?)(CLOSE)/g, callback)` for literal tags OPEN and CLOSE: the
// global, lazy replacement JavaScript performs. The scan goes left to right; each match starts
// at the leftmost OPEN that is followed by a CLOSE and ends at the first CLOSE after that OPEN;
// the whole match is replaced by the callback's result for the body between the tags, and the
// scan resumes after the CLOSE. Text outside the matches is kept.
module BlockScan {
  import opened Text

  /** Where the scan finds its next match: OPEN starts at `start`, CLOSE at `end`. */
  datatype Found = NoBlock | BlockAt(start: nat, end: nat)

  /** No OPEN in the text is followed by a CLOSE, so the text holds no match. */
  ghost predicate NoBlockIn(s: string, open: string, close: string) {
    forall k: nat, m: nat :: OccursAt(s, open, k) && k + |open| <= m ==> !OccursAt(s, close, m)
  }

  /**
   * `start`..`end` is the match the regular expression finds: OPEN at `start` and no OPEN
   * before it, CLOSE at `end` and no CLOSE between the end of OPEN and `end`.
   */
  ghost predicate IsFirstBlock(s: string, open: string, close: string, start: nat, end: nat) {
    && OccursAt(s, open, start) && start + |open| <= end && OccursAt(s, close, end)
    && (forall k :: 0 <= k < start ==> !OccursAt(s, open, k))
    && (forall k :: start + |open| <= k < end ==> !OccursAt(s, close, k))
  }

  /**
   * The first match: the leftmost OPEN, then the first CLOSE after it. If that OPEN has no CLOSE
   * after it, no later OPEN has one either.
   */
  function FindBlock(s: string, open: string, close: string): (f: Found)
    ensures f.BlockAt? ==> IsFirstBlock(s, open, close, f.start, f.end)
    ensures f.NoBlock? ==> NoBlockIn(s, open, close)
  {
    var i := IndexOf(s, open, 0);
    if i < 0 then NoBlock
    else
      var j := IndexOf(s, close, i + |open|);
      if j < 0 then NoBlock else BlockAt(i, j)
  }

  /** The match is determined by its defining properties. */
  lemma {:induction false} FindBlockIs(s: string, open: string, close: string, start: nat, end: nat)
    requires IsFirstBlock(s, open, close, start, end)
    ensures FindBlock(s, open, close) == BlockAt(start, end)
  {
  }

  /** The global replacement: every match replaced by `callback` of its body, the rest kept. */
  function ReplaceBlocks(s: string, open: string, close: string, callback: string -> string): (r: string)
    requires close != []
    ensures |s| < |open| ==> r == s
    decreases |s|
  {
    match FindBlock(s, open, close)
    case NoBlock => s
    case BlockAt(i, j) =>
      s[..i] + callback(s[i + |open|..j]) + ReplaceBlocks(s[j + |close|..], open, close, callback)
  }

  /** One step of the scan: the first match is replaced and the scan goes on after it. */
  lemma {:induction false} ReplaceStep(s: string, open: string, close: string, callback: string -> string, i: nat, j: nat)
    requires close != [] && FindBlock(s, open, close) == BlockAt(i, j)
    ensures ReplaceBlocks(s, open, close, callback)
         == s[..i] + callback(s[i + |open|..j]) + ReplaceBlocks(s[j + |close|..], open, close, callback)
  {
    assert IsFirstBlock(s, open, close, i, j);
  }

  /** A text in which no OPEN has a CLOSE after it is left as it is. */
  lemma {:induction false} NoBlockUnchanged(s: string, open: string, close: string, callback: string -> string)
    requires close != []
    ensures NoBlockIn(s, open, close) ==> ReplaceBlocks(s, open, close, callback) == s
  {
    if NoBlockIn(s, open, close) {
      NoBlockFound(s, open, close);
    }
  }

  /** The text before a match and the match's body. */
  datatype Block = Block(before: string, body: string)

  /** The text a split stands for: each block's text, OPEN, body and CLOSE; then the tail. */
  function Original(blocks: seq<Block>, tail: string, open: string, close: string): string
  {
    if blocks == [] then tail
    else blocks[0].before + open + blocks[0].body + close + Original(blocks[1..], tail, open, close)
  }

  /** The same split with every match (tags included) replaced by `callback` of its body. */
  function Replaced(blocks: seq<Block>, tail: string, callback: string -> string): string
  {
    if blocks == [] then tail
    else blocks[0].before + callback(blocks[0].body) + Replaced(blocks[1..], tail, callback)
  }

  /** No OPEN begins in the text before the block (the block's own OPEN is the leftmost one). */
  ghost predicate LeftmostOpen(b: Block, open: string) {
    forall k :: 0 <= k < |b.before| ==> !OccursAt(b.before + open, open, k)
  }

  /** No CLOSE begins inside the body (the block ends at the first CLOSE after its OPEN). */
  ghost predicate LazyBody(b: Block, close: string) {
    forall k :: 0 <= k < |b.body| ==> !OccursAt(b.body + close, close, k)
  }

  /** A split of a text into blocks the way the global lazy regular expression finds them. */
  ghost predicate RegexSplit(blocks: seq<Block>, tail: string, open: string, close: string) {
    && (forall i :: 0 <= i < |blocks| ==> LeftmostOpen(blocks[i], open) && LazyBody(blocks[i], close))
    && NoBlockIn(tail, open, close)
  }

  /** OPEN right after a text without OPEN is the leftmost OPEN, whatever follows. */
  lemma {:induction false} OpenAfter(before: string, open: string, after: string)
    requires LeftmostOpen(Block(before, []), open)
    ensures var s := before + open + after;
      OccursAt(s, open, |before|) && forall k :: 0 <= k < |before| ==> !OccursAt(s, open, k)
  {
    var head := before + open;
    var s := head + after;
    assert s[|before|..|before| + |open|] == open;
    forall k | 0 <= k < |before|
      ensures !OccursAt(s, open, k)
    {
      OccursInPrefix(head, after, open, k);
    }
  }

  /** CLOSE right after a body without CLOSE is the first CLOSE after the body's start. */
  lemma {:induction false} CloseAfter(head: string, body: string, close: string, rest: string)
    requires LazyBody(Block([], body), close)
    ensures var s := head + body + close + rest;
      && OccursAt(s, close, |head| + |body|)
      && forall k :: |head| <= k < |head| + |body| ==> !OccursAt(s, close, k)
  {
    var s := head + body + close + rest;
    var after := body + close + rest;
    assert s == head + after;
    OccursInSuffix(head, after, close, |body|);
    assert after[|body|..|body| + |close|] == close;
    assert after == (body + close) + rest;
    forall k | |head| <= k < |head| + |body|
      ensures !OccursAt(s, close, k)
    {
      OccursInSuffix(head, after, close, k - |head|);
      OccursInPrefix(body + close, rest, close, k - |head|);
    }
  }

  /** The scan finds the first block of a split where the split says it is. */
  lemma {:induction false} FirstBlock(b: Block, rest: string, open: string, close: string)
    requires LeftmostOpen(b, open) && LazyBody(b, close)
    ensures FindBlock(b.before + open + b.body + close + rest, open, close)
         == BlockAt(|b.before|, |b.before| + |open| + |b.body|)
  {
    var s := b.before + open + b.body + close + rest;
    assert LeftmostOpen(Block(b.before, []), open);
    assert LazyBody(Block([], b.body), close);
    OpenAfter(b.before, open, b.body + close + rest);
    CloseAfter(b.before + open, b.body, close, rest);
    assert s == b.before + open + (b.body + close + rest);
    FindBlockIs(s, open, close, |b.before|, |b.before| + |open| + |b.body|);
  }

  /** The pieces of a text made of five pieces, cut back out at their lengths. */
  lemma {:induction false} FivePieces(a: string, b: string, c: string, d: string, e: string)
    ensures var s := a + b + c + d + e;
      var i := |a|;
      var j := i + |b| + |c|;
      s[..i] == a && s[i + |b|..j] == c && s[j + |d|..] == e
  {
    var s := a + b + c + d + e;
    assert s[..|a|] == a;
    assert s[|a| + |b|..|a| + |b| + |c|] == c;
    assert s[|a| + |b| + |c| + |d|..] == e;
  }

  /** A text with no match has none for the scan to find. */
  lemma {:induction false} NoBlockFound(s: string, open: string, close: string)
    requires NoBlockIn(s, open, close)
    ensures FindBlock(s, open, close) == NoBlock
  {
  }

  /** Splitting off the first block of a split: the rest is a split of the rest of the text. */
  lemma {:induction false} SplitCons(b: Block, more: seq<Block>, tail: string, open: string, close: string)
    ensures Original([b] + more, tail, open, close) == b.before + open + b.body + close + Original(more, tail, open, close)
    ensures RegexSplit([b] + more, tail, open, close)
        <==> LeftmostOpen(b, open) && LazyBody(b, close) && RegexSplit(more, tail, open, close)
  {
    var blocks := [b] + more;
    assert blocks[0] == b && blocks[1..] == more;
    if LeftmostOpen(b, open) && LazyBody(b, close) && RegexSplit(more, tail, open, close) {
      forall i | 0 <= i < |blocks|
        ensures LeftmostOpen(blocks[i], open) && LazyBody(blocks[i], close)
      {
        if i > 0 {
          assert blocks[i] == more[i - 1];
        }
      }
    }
    if RegexSplit(blocks, tail, open, close) {
      forall i | 0 <= i < |more|
        ensures LeftmostOpen(more[i], open) && LazyBody(more[i], close)
      {
        assert more[i] == blocks[i + 1];
      }
    }
  }

  /** The scan replaces the first block of a split and goes on with the rest of the split. */
  lemma {:induction false} ReplaceFirstOfSplit(b: Block, rest: string, open: string, close: string,
                                               callback: string -> string)
    requires close != [] && LeftmostOpen(b, open) && LazyBody(b, close)
    ensures ReplaceBlocks(b.before + open + b.body + close + rest, open, close, callback)
         == b.before + callback(b.body) + ReplaceBlocks(rest, open, close, callback)
  {
    var s := b.before + open + b.body + close + rest;
    FirstBlock(b, rest, open, close);
    FivePieces(b.before, open, b.body, close, rest);
    ReplaceStep(s, open, close, callback, |b.before|, |b.before| + |open| + |b.body|);
  }

  /**
   * The replacement touches nothing but the matches: for every split of the text into blocks
   * the way the regular expression matches them, the result is that split with each block
   * replaced.
   */
  lemma {:induction false} ReplaceFollowsSplit(blocks: seq<Block>, tail: string, open: string, close: string,
                                               callback: string -> string)
    requires close != [] && RegexSplit(blocks, tail, open, close)
    ensures ReplaceBlocks(Original(blocks, tail, open, close), open, close, callback)
         == Replaced(blocks, tail, callback)
    decreases |blocks|
  {
    if blocks == [] {
      NoBlockFound(tail, open, close);
    } else {
      var b, more := blocks[0], blocks[1..];
      assert blocks == [b] + more;
      SplitCons(b, more, tail, open, close);
      ReplaceFirstOfSplit(b, Original(more, tail, open, close), open, close, callback);
      ReplaceFollowsSplit(more, tail, open, close, callback);
    }
  }

  /** The text before the first match has no OPEN of its own. */
  lemma {:induction false} HeadIsLeftmost(s: string, open: string, close: string, i: nat, j: nat)
    requires IsFirstBlock(s, open, close, i, j)
    ensures LeftmostOpen(Block(s[..i], s[i + |open|..j]), open)
  {
    var a := i + |open|;
    assert s[..a] == s[..i] + open;
    assert s == s[..a] + s[a..];
    forall k | 0 <= k < i
      ensures !OccursAt(s[..i] + open, open, k)
    {
      OccursInPrefix(s[..a], s[a..], open, k);
    }
  }

  /** The body of the first match has no CLOSE inside it. */
  lemma {:induction false} HeadIsLazy(s: string, open: string, close: string, i: nat, j: nat)
    requires IsFirstBlock(s, open, close, i, j)
    ensures LazyBody(Block(s[..i], s[i + |open|..j]), close)
  {
    var a := i + |open|;
    var e := j + |close|;
    var body := s[a..j];
    assert s[a..e] == body + close;
    assert s == s[..a] + (s[a..e] + s[e..]);
    forall k | 0 <= k < |body|
      ensures !OccursAt(body + close, close, k)
    {
      OccursInSuffix(s[..a], s[a..e] + s[e..], close, k);
      OccursInPrefix(s[a..e], s[e..], close, k);
    }
  }

  /** The text is the text before the first match, the match and the text after it. */
  lemma {:induction false} HeadSplits(s: string, open: string, close: string, i: nat, j: nat)
    requires IsFirstBlock(s, open, close, i, j)
    ensures s == s[..i] + open + s[i + |open|..j] + close + s[j + |close|..]
  {
    assert s == s[..i] + s[i..i + |open|] + s[i + |open|..j] + s[j..j + |close|] + s[j + |close|..];
  }

  /** Every text has a split of the kind the scan follows, so the lemma above covers every input. */
  lemma {:induction false} RegexSplitExists(s: string, open: string, close: string)
    returns (blocks: seq<Block>, tail: string)
    requires close != []
    ensures RegexSplit(blocks, tail, open, close) && Original(blocks, tail, open, close) == s
    decreases |s|
  {
    match FindBlock(s, open, close)
    case NoBlock =>
      blocks, tail := [], s;
    case BlockAt(i, j) =>
      var b := Block(s[..i], s[i + |open|..j]);
      var rest := s[j + |close|..];
      HeadIsLeftmost(s, open, close, i, j);
      HeadIsLazy(s, open, close, i, j);
      HeadSplits(s, open, close, i, j);
      var more, tail' := RegexSplitExists(rest, open, close);
      SplitCons(b, more, tail', open, close);
      blocks, tail := [b] + more, tail';
  }

  /** Two texts that are both empty or both non-empty with the same first and last character. */
  predicate SameEnds(r: string, s: string) {
    (r == []) == (s == []) && (s != [] ==> r[0] == s[0] && r[|r| - 1] == s[|s| - 1])
  }

  /** Joining texts with the same ends gives texts with the same ends. */
  lemma {:induction false} ConcatEnds(f: string, t: string, a: string, b: string)
    requires SameEnds(f, a) && SameEnds(t, b) && f != []
    ensures SameEnds(f + t, a + b)
  {
    if t == [] {
      assert f + t == f && a + b == a;
    } else {
      assert (f + t)[|f + t| - 1] == t[|t| - 1];
      assert (a + b)[|a + b| - 1] == b[|b| - 1];
    }
  }

  /** The text up to the first match, with the match replaced, keeps the ends of the text it replaces. */
  lemma {:induction false} FrontEnds(s: string, open: string, close: string, i: nat, j: nat, c: string)
    requires open != [] && close != [] && IsFirstBlock(s, open, close, i, j)
    requires c != [] && c[0] == open[0] && c[|c| - 1] == close[|close| - 1]
    ensures SameEnds(s[..i] + c, s[..j + |close|])
  {
    assert s[i] == open[0] by {
      assert s[i..i + |open|][0] == s[i];
    }
    assert s[j + |close| - 1] == close[|close| - 1] by {
      assert s[j..j + |close|][|close| - 1] == s[j + |close| - 1];
    }
    if i == 0 {
      assert (s[..i] + c)[0] == c[0];
    } else {
      assert (s[..i] + c)[0] == s[0];
    }
  }

  /**
   * When every replacement is non-empty, begins like OPEN and ends like CLOSE, the replacement
   * keeps the first and the last character of the text.
   */
  lemma {:induction false} ReplaceKeepsEnds(s: string, open: string, close: string, callback: string -> string)
    requires open != [] && close != []
    requires forall body :: |callback(body)| > 0
    requires forall body :: callback(body)[0] == open[0]
    requires forall body :: callback(body)[|callback(body)| - 1] == close[|close| - 1]
    ensures SameEnds(ReplaceBlocks(s, open, close, callback), s)
    decreases |s|
  {
    match FindBlock(s, open, close)
    case NoBlock =>
    case BlockAt(i, j) =>
      var rest := s[j + |close|..];
      var c := callback(s[i + |open|..j]);
      ReplaceStep(s, open, close, callback, i, j);
      ReplaceKeepsEnds(rest, open, close, callback);
      FrontEnds(s, open, close, i, j, c);
      ConcatEnds(s[..i] + c, ReplaceBlocks(rest, open, close, callback), s[..j + |close|], rest);
      assert s[..j + |close|] + rest == s;
  }
}
