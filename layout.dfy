/** Line placement for the three anchoring strategies of process_image (main.py:127-242).
    Instead of rendering, the model records each draw.text call as a Placement. */
module Layout {
  import opened Fonts
  import opened Text
  import opened Wrap
  import opened Sizes
  import opened Tables

  /** One draw.text((x, y), line, font=font) call; the fill is always white. */
  datatype Placement = Placement(x: int, y: int, line: string, font: Font)

  /** How a line's x follows from its measured width: centred in a column, or right-aligned
      against an edge. */
  datatype Align = Centered(left: int, width: int) | RightEdge(right: int)

  /** The x of a line of width w; Python's // by 2 is Dafny's / by 2 (both round down). */
  function X(align: Align, w: int): int {
    match align
    case Centered(left, width) => left + (width - w) / 2
    case RightEdge(right) => right - w
  }

  /** The sum of the lines' measured heights. */
  function SumHeights(m: Measure, lines: seq<string>, font: Font): int {
    if lines == [] then 0
    else SumHeights(m, lines[..|lines| - 1], font) + m(lines[|lines| - 1], font).h
  }

  /** A block's height as main.py:143, 199 and 236 compute it: the line heights plus the
      spacing between lines. A block of no lines comes out at minus one spacing. */
  function BlockHeight(m: Measure, lines: seq<string>, font: Font, spacing: int): (h: int)
    ensures lines == [] ==> h == -spacing
  {
    SumHeights(m, lines, font) + (|lines| - 1) * spacing
  }

  /** How far the line loop moves y: nothing for no lines, the block's height otherwise. */
  function Advance(m: Measure, lines: seq<string>, font: Font, spacing: int): int {
    if lines == [] then 0 else BlockHeight(m, lines, font, spacing)
  }

  /** The y of line k of a block whose first line is at y0. */
  function LineTop(m: Measure, lines: seq<string>, font: Font, spacing: int, y0: int, k: nat): int
    requires k <= |lines|
  {
    y0 + SumHeights(m, lines[..k], font) + k * spacing
  }

  /** The draw calls for one block's lines, starting at y0. */
  function BlockPlacements(m: Measure, lines: seq<string>, font: Font, spacing: int, y0: int, align: Align): seq<Placement> {
    seq(|lines|, k requires 0 <= k < |lines| =>
      Placement(X(align, m(lines[k], font).w), LineTop(m, lines, font, spacing, y0, k), lines[k], font))
  }

  /** The per-line loop shared by every block (main.py:157-164, 175-182, 187-194, 201-205,
      212-219, 225-232, 238-242): measure, place, then move y down by the line's height and,
      between lines, the spacing. The disclaimer loops also add the spacing after the last
      line, but never read y again, so their draw calls are the same. */
  method PlaceLines(m: Measure, lines: seq<string>, font: Font, spacing: int, y0: int, align: Align)
    returns (ps: seq<Placement>, y: int)
    ensures ps == BlockPlacements(m, lines, font, spacing, y0, align)
    ensures y == y0 + Advance(m, lines, font, spacing)
  {
    ps := [];
    y := y0;
    for k := 0 to |lines|
      invariant |ps| == k
      invariant forall j :: 0 <= j < k ==> ps[j] == BlockPlacements(m, lines, font, spacing, y0, align)[j]
      invariant y == LineTop(m, lines, font, spacing, y0, k) - (if k == |lines| && k > 0 then spacing else 0)
    {
      assert lines[..k + 1][..k] == lines[..k];
      var box := m(lines[k], font);
      var x := X(align, box.w);
      ps := ps + [Placement(x, y, lines[k], font)];
      if k < |lines| - 1 {
        y := y + box.h + spacing;
      } else {
        y := y + box.h;
      }
    }
    assert lines[..|lines|] == lines;
  }

  /** The last line of a block ends exactly one block height below the block's top. */
  lemma LastLineBottom(m: Measure, lines: seq<string>, font: Font, spacing: int, y0: int)
    requires lines != []
    ensures LineTop(m, lines, font, spacing, y0, |lines| - 1) + m(lines[|lines| - 1], font).h
      == y0 + BlockHeight(m, lines, font, spacing)
  {
  }

  // ---------------------------------------------------------------------------------------
  // Bottom stack: 1200x1200, 1200x1500 and 1080x1920 (main.py:128-166)
  // ---------------------------------------------------------------------------------------

  /** A present text block: its wrapped lines, its font and its kind. */
  datatype Block = Block(lines: seq<string>, font: Font, kind: Kind)

  /** get_line_spacing for a block. */
  function BlockSpacing(b: Block): int {
    LineSpacing(b.kind, b.font.size)
  }

  /** The block of kind k, if its text is non-empty (main.py:130-138). */
  function OptionalBlock(m: Measure, t: Texts, f: FontSet, maxWidth: int, k: Kind): seq<Block> {
    if t.Of(k) == "" then [] else [Block(Wrap.Wrap(m, f.For(k), maxWidth, t.Of(k)), f.For(k), k)]
  }

  /** The list `blocks` of main.py:129-138. */
  function PresentBlocks(m: Measure, t: Texts, f: FontSet, maxWidth: int): seq<Block> {
    OptionalBlock(m, t, f, maxWidth, Headline) + OptionalBlock(m, t, f, maxWidth, Subheadline)
      + OptionalBlock(m, t, f, maxWidth, Disclaimer)
  }

  /** The space between two adjacent blocks (main.py:148-151). */
  function Gap(out: Size, above: Kind, below: Kind): int {
    if out == Story && above == Subheadline && below == Disclaimer then 164 else 24
  }

  /** The list `spacings` of main.py:146-151: one entry per adjacent pair of blocks, each 24
      or 164. */
  function Gaps(out: Size, blocks: seq<Block>): (gaps: seq<int>)
    ensures |gaps| == if blocks == [] then 0 else |blocks| - 1
    ensures forall i :: 0 <= i < |gaps| ==> gaps[i] == 24 || gaps[i] == 164
  {
    seq(if blocks == [] then 0 else |blocks| - 1, i requires 0 <= i < |blocks| - 1 =>
      Gap(out, blocks[i].kind, blocks[i + 1].kind))
  }

  function Sum(xs: seq<int>): int {
    if xs == [] then 0 else Sum(xs[..|xs| - 1]) + xs[|xs| - 1]
  }

  /** sum(block_heights): the blocks' heights as main.py:143 computes them. */
  function TotalHeight(m: Measure, blocks: seq<Block>): int {
    if blocks == [] then 0
    else
      var b := blocks[|blocks| - 1];
      TotalHeight(m, blocks[..|blocks| - 1]) + BlockHeight(m, b.lines, b.font, BlockSpacing(b))
  }

  /** What main.py:143 gets wrong for a block of no lines: one line spacing per such block. */
  function Slack(blocks: seq<Block>): int {
    if blocks == [] then 0
    else
      var b := blocks[|blocks| - 1];
      Slack(blocks[..|blocks| - 1]) + (if b.lines == [] then BlockSpacing(b) else 0)
  }

  /** y after the first b blocks and the spacings that follow them (main.py:155-166). */
  function Cursor(m: Measure, blocks: seq<Block>, gaps: seq<int>, y0: int, b: nat): int
    requires b <= |blocks|
  {
    if b == 0 then y0
    else
      var blk := blocks[b - 1];
      Cursor(m, blocks, gaps, y0, b - 1) + Advance(m, blk.lines, blk.font, BlockSpacing(blk))
        + (if b - 1 < |gaps| then gaps[b - 1] else 0)
  }

  /** The draw calls for the first b blocks, each line centred in the full width. */
  function StackPlacements(m: Measure, blocks: seq<Block>, gaps: seq<int>, y0: int, width: int, b: nat): seq<Placement>
    requires b <= |blocks|
  {
    if b == 0 then []
    else
      var blk := blocks[b - 1];
      StackPlacements(m, blocks, gaps, y0, width, b - 1)
        + BlockPlacements(m, blk.lines, blk.font, BlockSpacing(blk), Cursor(m, blocks, gaps, y0, b - 1), Centered(0, width))
  }

  /** The starting y of main.py:154: the stack's height above a 50-pixel bottom margin. */
  function StackTop(m: Measure, out: Size, blocks: seq<Block>): int {
    out.h - 50 - (TotalHeight(m, blocks) + Sum(Gaps(out, blocks)))
  }

  /** The bottom-stack draw calls for a request. */
  function BottomStackPlacements(m: Measure, out: Size, t: Texts, f: FontSet, maxWidth: int): seq<Placement> {
    var blocks := PresentBlocks(m, t, f, maxWidth);
    StackPlacements(m, blocks, Gaps(out, blocks), StackTop(m, out, blocks), out.w, |blocks|)
  }

  /** y after the bottom stack's last line. */
  function BottomStackEnd(m: Measure, out: Size, t: Texts, f: FontSet, maxWidth: int): int {
    var blocks := PresentBlocks(m, t, f, maxWidth);
    Cursor(m, blocks, Gaps(out, blocks), StackTop(m, out, blocks), |blocks|)
  }

  /** The block of kind k of main.py:130-138, wrapped by wrap_text, if its text is non-empty. */
  method MakeBlock(m: Measure, t: Texts, f: FontSet, maxWidth: int, k: Kind) returns (bs: seq<Block>)
    ensures bs == OptionalBlock(m, t, f, maxWidth, k)
  {
    bs := [];
    if t.Of(k) != "" {
      var lines := WrapText(t.Of(k), f.For(k), m, maxWidth);
      bs := [Block(lines, f.For(k), k)];
    }
  }

  /** sum(block_heights) of main.py:140-143. */
  method StackHeight(m: Measure, blocks: seq<Block>) returns (total: int)
    ensures total == TotalHeight(m, blocks)
  {
    var heights: seq<int> := [];
    for i := 0 to |blocks|
      invariant |heights| == i
      invariant Sum(heights) == TotalHeight(m, blocks[..i])
    {
      var b := blocks[i];
      var h := BlockHeight(m, b.lines, b.font, BlockSpacing(b));
      assert blocks[..i + 1][..i] == blocks[..i];
      assert (heights + [h])[..i] == heights;
      heights := heights + [h];
    }
    assert blocks[..|blocks|] == blocks;
    total := Sum(heights);
  }

  /** The spacings list of main.py:146-151. */
  method StackGaps(out: Size, blocks: seq<Block>) returns (gaps: seq<int>)
    ensures gaps == Gaps(out, blocks)
  {
    gaps := [];
    var pairs := if blocks == [] then 0 else |blocks| - 1;
    for i := 0 to pairs
      invariant |gaps| == i
      invariant forall j :: 0 <= j < i ==> gaps[j] == Gap(out, blocks[j].kind, blocks[j + 1].kind)
    {
      if out == Story && blocks[i].kind == Subheadline && blocks[i + 1].kind == Disclaimer {
        gaps := gaps + [164];
      } else {
        gaps := gaps + [24];
      }
    }
  }

  /** The drawing loop of main.py:155-166. */
  method DrawStack(m: Measure, blocks: seq<Block>, gaps: seq<int>, y0: int, width: int) returns (ps: seq<Placement>, y: int)
    ensures ps == StackPlacements(m, blocks, gaps, y0, width, |blocks|)
    ensures y == Cursor(m, blocks, gaps, y0, |blocks|)
  {
    y := y0;
    ps := [];
    for idx := 0 to |blocks|
      invariant ps == StackPlacements(m, blocks, gaps, y0, width, idx)
      invariant y == Cursor(m, blocks, gaps, y0, idx)
    {
      var b := blocks[idx];
      var placed, y' := PlaceLines(m, b.lines, b.font, BlockSpacing(b), y, Centered(0, width));
      ps := ps + placed;
      y := y';
      if idx < |gaps| {
        y := y + gaps[idx];
      }
    }
  }

  /** main.py:129-166. */
  method BottomStack(m: Measure, out: Size, t: Texts, f: FontSet, maxWidth: int) returns (ps: seq<Placement>, y: int)
    ensures ps == BottomStackPlacements(m, out, t, f, maxWidth)
    ensures y == BottomStackEnd(m, out, t, f, maxWidth)
  {
    var hb := MakeBlock(m, t, f, maxWidth, Headline);
    var sb := MakeBlock(m, t, f, maxWidth, Subheadline);
    var db := MakeBlock(m, t, f, maxWidth, Disclaimer);
    var blocks := hb + sb + db;
    assert blocks == PresentBlocks(m, t, f, maxWidth);
    var total := StackHeight(m, blocks);
    var gaps := StackGaps(out, blocks);
    var y0 := out.h - 50 - (total + Sum(gaps));
    assert y0 == StackTop(m, out, blocks);
    ps, y := DrawStack(m, blocks, gaps, y0, out.w);
  }

  function Min(a: int, b: int): int {
    if a <= b then a else b
  }

  /** The cursor after b blocks is the start plus their heights, the spacings passed so far and
      one line spacing for every block that wrapped to no lines. */
  lemma {:induction false} CursorSum(m: Measure, blocks: seq<Block>, gaps: seq<int>, y0: int, b: nat)
    requires b <= |blocks|
    ensures Cursor(m, blocks, gaps, y0, b)
      == y0 + TotalHeight(m, blocks[..b]) + Slack(blocks[..b]) + Sum(gaps[..Min(b, |gaps|)])
  {
    if b > 0 {
      CursorSum(m, blocks, gaps, y0, b - 1);
      assert blocks[..b][..b - 1] == blocks[..b - 1];
      if b - 1 < |gaps| {
        assert gaps[..b][..b - 1] == gaps[..b - 1];
      }
    }
  }

  /** Every block has at least one line. */
  predicate AllDrawn(blocks: seq<Block>) {
    forall i :: 0 <= i < |blocks| ==> blocks[i].lines != []
  }

  lemma {:induction false} SlackOfDrawn(blocks: seq<Block>)
    requires AllDrawn(blocks)
    ensures Slack(blocks) == 0
  {
    if blocks != [] {
      SlackOfDrawn(blocks[..|blocks| - 1]);
    }
  }

  /** Each text is either empty (its block is left out) or holds a non-whitespace character. */
  predicate NoBlankText(t: Texts) {
    forall k: Kind :: AllSpace(t.Of(k)) ==> t.Of(k) == ""
  }

  /** The optional block of kind k is there exactly when its text is non-empty, and holds that
      text wrapped with the font of its kind. */
  lemma OptionalBlockShape(m: Measure, t: Texts, f: FontSet, maxWidth: int, k: Kind)
    ensures |OptionalBlock(m, t, f, maxWidth, k)| == if t.Of(k) != "" then 1 else 0
    ensures forall b <- OptionalBlock(m, t, f, maxWidth, k) ::
      b.kind == k && b.font == f.For(k) && b.lines == Wrap.Wrap(m, f.For(k), maxWidth, t.Of(k))
  {
  }

  /** At most one block of each kind, concatenated in rank order, is in order. */
  lemma ConcatOrdered(h: seq<Block>, s: seq<Block>, d: seq<Block>)
    requires |h| <= 1 && |s| <= 1 && |d| <= 1
    requires forall b <- h :: b.kind == Headline
    requires forall b <- s :: b.kind == Subheadline
    requires forall b <- d :: b.kind == Disclaimer
    ensures Ordered(h + s + d)
  {
    var all := h + s + d;
    forall i | 0 <= i < |all|
      ensures KindRank(all[i].kind) == if i < |h| then 0 else if i < |h| + |s| then 1 else 2
    {
      if i < |h| {
        assert all[i] == h[i];
      } else if i < |h| + |s| {
        assert all[i] == s[i - |h|];
      } else {
        assert all[i] == d[i - |h| - |s|];
      }
    }
  }

  /** The blocks are the non-empty texts, in the order headline, subheadline, disclaimer, each
      wrapped with its own font. */
  lemma PresentBlocksShape(m: Measure, t: Texts, f: FontSet, maxWidth: int)
    ensures |PresentBlocks(m, t, f, maxWidth)| == (if t.headline != "" then 1 else 0)
      + (if t.subtitle != "" then 1 else 0) + (if t.disclaimer != "" then 1 else 0)
    ensures Ordered(PresentBlocks(m, t, f, maxWidth))
    ensures forall b <- PresentBlocks(m, t, f, maxWidth) ::
      t.Of(b.kind) != "" && b.font == f.For(b.kind) && b.lines == Wrap.Wrap(m, f.For(b.kind), maxWidth, t.Of(b.kind))
  {
    var h := OptionalBlock(m, t, f, maxWidth, Headline);
    var s := OptionalBlock(m, t, f, maxWidth, Subheadline);
    var d := OptionalBlock(m, t, f, maxWidth, Disclaimer);
    OptionalBlockShape(m, t, f, maxWidth, Headline);
    OptionalBlockShape(m, t, f, maxWidth, Subheadline);
    OptionalBlockShape(m, t, f, maxWidth, Disclaimer);
    ConcatOrdered(h, s, d);
    var blocks := h + s + d;
    forall b: Block | b in blocks
      ensures t.Of(b.kind) != "" && b.font == f.For(b.kind) && b.lines == Wrap.Wrap(m, f.For(b.kind), maxWidth, t.Of(b.kind))
    {
      assert b in h || b in s || b in d;
    }
  }

  /** A block of kind k is present exactly when the text of kind k is non-empty. */
  lemma PresentKinds(m: Measure, t: Texts, f: FontSet, maxWidth: int, k: Kind)
    ensures HasKind(PresentBlocks(m, t, f, maxWidth), k) <==> t.Of(k) != ""
  {
    var h := OptionalBlock(m, t, f, maxWidth, Headline);
    var s := OptionalBlock(m, t, f, maxWidth, Subheadline);
    var d := OptionalBlock(m, t, f, maxWidth, Disclaimer);
    var blocks := h + s + d;
    OptionalBlockShape(m, t, f, maxWidth, Headline);
    OptionalBlockShape(m, t, f, maxWidth, Subheadline);
    OptionalBlockShape(m, t, f, maxWidth, Disclaimer);
    var ob := OptionalBlock(m, t, f, maxWidth, k);
    if t.Of(k) != "" {
      assert ob[0] in blocks;
    } else {
      forall j | 0 <= j < |blocks|
        ensures blocks[j].kind != k
      {
        assert blocks[j] in h || blocks[j] in s || blocks[j] in d;
      }
    }
  }

  /** The blocks' kinds strictly increase in drawing order. */
  predicate Ordered(blocks: seq<Block>) {
    forall a, b :: 0 <= a < b < |blocks| ==> KindRank(blocks[a].kind) < KindRank(blocks[b].kind)
  }

  /** Some block is of kind k. */
  predicate HasKind(blocks: seq<Block>, k: Kind) {
    exists j :: 0 <= j < |blocks| && blocks[j].kind == k
  }

  /** The drawing order of the kinds. */
  function KindRank(k: Kind): nat {
    match k
    case Headline => 0
    case Subheadline => 1
    case Disclaimer => 2
  }

  /** A block of a non-blank text has lines. */
  lemma PresentBlocksDrawn(m: Measure, t: Texts, f: FontSet, maxWidth: int)
    requires NoBlankText(t)
    ensures AllDrawn(PresentBlocks(m, t, f, maxWidth))
  {
    var blocks := PresentBlocks(m, t, f, maxWidth);
    PresentBlocksShape(m, t, f, maxWidth);
    forall i | 0 <= i < |blocks|
      ensures blocks[i].lines != []
    {
      var b := blocks[i];
      WrapCounts(m, f.For(b.kind), maxWidth, t.Of(b.kind));
    }
  }

  /** The stack ends where it was meant to, 50 pixels above the bottom edge, apart from one
      line spacing for every whitespace-only text. */
  lemma BottomStackEndsAtMargin(m: Measure, out: Size, t: Texts, f: FontSet, maxWidth: int)
    ensures BottomStackEnd(m, out, t, f, maxWidth) == out.h - 50 + Slack(PresentBlocks(m, t, f, maxWidth))
    ensures NoBlankText(t) ==> BottomStackEnd(m, out, t, f, maxWidth) == out.h - 50
  {
    var blocks := PresentBlocks(m, t, f, maxWidth);
    var gaps := Gaps(out, blocks);
    CursorSum(m, blocks, gaps, StackTop(m, out, blocks), |blocks|);
    assert blocks[..|blocks|] == blocks;
    assert gaps[..Min(|blocks|, |gaps|)] == gaps;
    if NoBlankText(t) {
      PresentBlocksDrawn(m, t, f, maxWidth);
      SlackOfDrawn(blocks);
    }
  }

  // ---------------------------------------------------------------------------------------
  // Geometry of the placements: lines run downwards without overlapping
  // ---------------------------------------------------------------------------------------

  /** The y one pixel below a drawn line's box. */
  function Bottom(m: Measure, p: Placement): int {
    p.y + m(p.line, p.font).h
  }

  /** Each line starts at or below the bottom of the line drawn before it. */
  predicate Stacked(m: Measure, ps: seq<Placement>) {
    forall i :: 0 <= i < |ps| - 1 ==> Bottom(m, ps[i]) <= ps[i + 1].y
  }

  /** The texts of the draw calls, in drawing order. */
  function Drawn(ps: seq<Placement>): seq<string> {
    seq(|ps|, i requires 0 <= i < |ps| => ps[i].line)
  }

  lemma LineTopStep(m: Measure, lines: seq<string>, font: Font, spacing: int, y0: int, k: nat)
    requires k < |lines|
    ensures LineTop(m, lines, font, spacing, y0, k + 1)
      == LineTop(m, lines, font, spacing, y0, k) + m(lines[k], font).h + spacing
  {
    assert lines[..k + 1][..k] == lines[..k];
  }

  /** Within a block, with a non-negative line spacing, lines run downwards without overlapping;
      the first starts at y0 and the last ends where the line loop leaves y. */
  lemma BlockStacked(m: Measure, lines: seq<string>, font: Font, spacing: int, y0: int, align: Align)
    requires spacing >= 0
    ensures Stacked(m, BlockPlacements(m, lines, font, spacing, y0, align))
    ensures lines != [] ==> BlockPlacements(m, lines, font, spacing, y0, align)[0].y == y0
    ensures lines != [] ==>
      (Bottom(m, BlockPlacements(m, lines, font, spacing, y0, align)[|lines| - 1]) == y0 + Advance(m, lines, font, spacing))
  {
    var ps := BlockPlacements(m, lines, font, spacing, y0, align);
    forall i | 0 <= i < |ps| - 1
      ensures Bottom(m, ps[i]) <= ps[i + 1].y
    {
      LineTopStep(m, lines, font, spacing, y0, i);
    }
    if lines != [] {
      assert lines[..0] == [];
      assert SumHeights(m, lines[..0], font) == 0;
      assert ps[0].y == LineTop(m, lines, font, spacing, y0, 0);
      LastLineBottom(m, lines, font, spacing, y0);
    }
  }

  lemma StackedConcat(m: Measure, a: seq<Placement>, b: seq<Placement>)
    requires Stacked(m, a) && Stacked(m, b)
    requires a != [] && b != [] ==> Bottom(m, a[|a| - 1]) <= b[0].y
    ensures Stacked(m, a + b)
  {
    var c := a + b;
    forall i | 0 <= i < |c| - 1
      ensures Bottom(m, c[i]) <= c[i + 1].y
    {
      if i < |a| - 1 {
        assert c[i] == a[i] && c[i + 1] == a[i + 1];
      } else if i == |a| - 1 {
        assert c[i] == a[i] && c[i + 1] == b[0];
      } else {
        assert c[i] == b[i - |a|] && c[i + 1] == b[i - |a| + 1];
      }
    }
  }

  lemma SpacingNonNegative(b: Block)
    ensures BlockSpacing(b) >= 0
  {
    LineSpacingInIntegers(b.font.size);
  }

  /** Appending a block whose first line starts at the cursor keeps the lines stacked. */
  lemma StackStep(m: Measure, before: seq<Placement>, block: seq<Placement>, top: int, after: int)
    requires Stacked(m, before) && Stacked(m, block)
    requires before != [] ==> Bottom(m, before[|before| - 1]) <= top
    requires block != [] ==> block[0].y == top && Bottom(m, block[|block| - 1]) <= after
    requires block == [] ==> top <= after
    ensures Stacked(m, before + block)
    ensures before + block != [] ==> Bottom(m, (before + block)[|before + block| - 1]) <= after
  {
    StackedConcat(m, before, block);
    if block != [] {
      assert (before + block)[|before + block| - 1] == block[|block| - 1];
    } else {
      assert before + block == before;
    }
  }

  /** With non-negative spacings between blocks, the whole stack runs downwards without
      overlapping and ends at or above the cursor. */
  lemma {:induction false} StackStacked(m: Measure, blocks: seq<Block>, gaps: seq<int>, y0: int, width: int, b: nat)
    requires b <= |blocks|
    requires forall i :: 0 <= i < |gaps| ==> gaps[i] >= 0
    ensures Stacked(m, StackPlacements(m, blocks, gaps, y0, width, b))
    ensures StackPlacements(m, blocks, gaps, y0, width, b) != [] ==>
      Bottom(m, StackPlacements(m, blocks, gaps, y0, width, b)[|StackPlacements(m, blocks, gaps, y0, width, b)| - 1])
        <= Cursor(m, blocks, gaps, y0, b)
  {
    if b > 0 {
      StackStacked(m, blocks, gaps, y0, width, b - 1);
      var blk := blocks[b - 1];
      var top := Cursor(m, blocks, gaps, y0, b - 1);
      SpacingNonNegative(blk);
      BlockStacked(m, blk.lines, blk.font, BlockSpacing(blk), top, Centered(0, width));
      StackStep(m, StackPlacements(m, blocks, gaps, y0, width, b - 1),
        BlockPlacements(m, blk.lines, blk.font, BlockSpacing(blk), top, Centered(0, width)),
        top, Cursor(m, blocks, gaps, y0, b));
    }
  }

  /** When the last block has lines and no spacing follows it, its last line ends exactly at the
      final cursor. */
  lemma StackLastBottom(m: Measure, blocks: seq<Block>, gaps: seq<int>, y0: int, width: int)
    requires blocks != [] && blocks[|blocks| - 1].lines != [] && |gaps| < |blocks|
    ensures var ps := StackPlacements(m, blocks, gaps, y0, width, |blocks|);
      ps != [] && Bottom(m, ps[|ps| - 1]) == Cursor(m, blocks, gaps, y0, |blocks|)
  {
    var blk := blocks[|blocks| - 1];
    var top := Cursor(m, blocks, gaps, y0, |blocks| - 1);
    var block := BlockPlacements(m, blk.lines, blk.font, BlockSpacing(blk), top, Centered(0, width));
    SpacingNonNegative(blk);
    BlockStacked(m, blk.lines, blk.font, BlockSpacing(blk), top, Centered(0, width));
    var ps := StackPlacements(m, blocks, gaps, y0, width, |blocks|);
    assert ps[|ps| - 1] == block[|block| - 1];
  }

  /** When the last block has no lines and the one before it has, the last line drawn is that
      block's, and it ends the spacing after it above the final cursor: main.py:165-166 still
      passes that spacing, and the empty block adds nothing. */
  lemma StackBlankTail(m: Measure, blocks: seq<Block>, gaps: seq<int>, y0: int, width: int)
    requires |blocks| >= 2 && |gaps| == |blocks| - 1
    requires blocks[|blocks| - 1].lines == [] && blocks[|blocks| - 2].lines != []
    ensures StackPlacements(m, blocks, gaps, y0, width, |blocks|) != []
    ensures Bottom(m, Last(StackPlacements(m, blocks, gaps, y0, width, |blocks|)))
      == Cursor(m, blocks, gaps, y0, |blocks|) - gaps[|blocks| - 2]
  {
    var n := |blocks|;
    var blk := blocks[n - 2];
    var top := Cursor(m, blocks, gaps, y0, n - 2);
    var block := BlockPlacements(m, blk.lines, blk.font, BlockSpacing(blk), top, Centered(0, width));
    SpacingNonNegative(blk);
    BlockStacked(m, blk.lines, blk.font, BlockSpacing(blk), top, Centered(0, width));
    var before := StackPlacements(m, blocks, gaps, y0, width, n - 1);
    assert before == StackPlacements(m, blocks, gaps, y0, width, n - 2) + block;
    assert Last(before) == block[|block| - 1];
    var empty := blocks[n - 1];
    assert BlockPlacements(m, empty.lines, empty.font, BlockSpacing(empty), Cursor(m, blocks, gaps, y0, n - 1), Centered(0, width)) == [];
    assert StackPlacements(m, blocks, gaps, y0, width, n) == before + [];
  }

  /** Every line of the stack is centred in the full width. */
  predicate CenteredIn(m: Measure, ps: seq<Placement>, left: int, width: int) {
    forall i :: 0 <= i < |ps| ==> ps[i].x == left + (width - m(ps[i].line, ps[i].font).w) / 2
  }

  /** The lines of blocks, concatenated in order. */
  function BlockLines(blocks: seq<Block>): seq<string> {
    if blocks == [] then [] else BlockLines(blocks[..|blocks| - 1]) + blocks[|blocks| - 1].lines
  }

  lemma {:induction false} StackLinesCentered(m: Measure, blocks: seq<Block>, gaps: seq<int>, y0: int, width: int, b: nat)
    requires b <= |blocks|
    ensures Drawn(StackPlacements(m, blocks, gaps, y0, width, b)) == BlockLines(blocks[..b])
    ensures CenteredIn(m, StackPlacements(m, blocks, gaps, y0, width, b), 0, width)
  {
    if b > 0 {
      StackLinesCentered(m, blocks, gaps, y0, width, b - 1);
      assert blocks[..b][..b - 1] == blocks[..b - 1];
      var blk := blocks[b - 1];
      var before := StackPlacements(m, blocks, gaps, y0, width, b - 1);
      var block := BlockPlacements(m, blk.lines, blk.font, BlockSpacing(blk), Cursor(m, blocks, gaps, y0, b - 1), Centered(0, width));
      assert Drawn(before + block) == Drawn(before) + blk.lines;
    }
  }

  lemma BlockLinesOptional(a: seq<Block>, ob: seq<Block>)
    requires |ob| <= 1
    ensures BlockLines(a + ob) == BlockLines(a) + (if ob == [] then [] else ob[0].lines)
  {
    if ob != [] {
      assert (a + ob)[..|a|] == a;
    } else {
      assert a + ob == a;
    }
  }

  /** An absent block stands for no lines: an empty text wraps to none. */
  lemma OptionalLines(m: Measure, t: Texts, f: FontSet, maxWidth: int, k: Kind)
    ensures |OptionalBlock(m, t, f, maxWidth, k)| <= 1
    ensures (if OptionalBlock(m, t, f, maxWidth, k) == [] then [] else OptionalBlock(m, t, f, maxWidth, k)[0].lines)
      == Wrap.Wrap(m, f.For(k), maxWidth, t.Of(k))
  {
    WrapCounts(m, f.For(k), maxWidth, t.Of(k));
  }

  /** The wrapped lines of every non-empty text, in the order headline, subheadline,
      disclaimer (an empty text wraps to no lines). */
  lemma PresentBlockLines(m: Measure, t: Texts, f: FontSet, maxWidth: int)
    ensures BlockLines(PresentBlocks(m, t, f, maxWidth))
      == Wrap.Wrap(m, f.headline, maxWidth, t.headline) + Wrap.Wrap(m, f.subheadline, maxWidth, t.subtitle)
        + Wrap.Wrap(m, f.disclaimer, maxWidth, t.disclaimer)
  {
    var h := OptionalBlock(m, t, f, maxWidth, Headline);
    var s := OptionalBlock(m, t, f, maxWidth, Subheadline);
    var d := OptionalBlock(m, t, f, maxWidth, Disclaimer);
    OptionalLines(m, t, f, maxWidth, Headline);
    OptionalLines(m, t, f, maxWidth, Subheadline);
    OptionalLines(m, t, f, maxWidth, Disclaimer);
    var hl := if h == [] then [] else h[0].lines;
    var sl := if s == [] then [] else s[0].lines;
    var dl := if d == [] then [] else d[0].lines;
    assert [] + h == h;
    BlockLinesOptional([], h);
    assert BlockLines(h) == hl;
    BlockLinesOptional(h, s);
    assert BlockLines(h + s) == hl + sl;
    BlockLinesOptional(h + s, d);
    assert BlockLines(h + s + d) == hl + sl + dl;
  }

  /** The bottom stack draws every line of the wrapped headline, subheadline and disclaimer in
      that order, each centred across the banner. */
  lemma BottomStackLines(m: Measure, out: Size, t: Texts, f: FontSet, maxWidth: int)
    ensures Drawn(BottomStackPlacements(m, out, t, f, maxWidth))
      == Wrap.Wrap(m, f.headline, maxWidth, t.headline) + Wrap.Wrap(m, f.subheadline, maxWidth, t.subtitle)
        + Wrap.Wrap(m, f.disclaimer, maxWidth, t.disclaimer)
    ensures CenteredIn(m, BottomStackPlacements(m, out, t, f, maxWidth), 0, out.w)
  {
    var blocks := PresentBlocks(m, t, f, maxWidth);
    StackLinesCentered(m, blocks, Gaps(out, blocks), StackTop(m, out, blocks), out.w, |blocks|);
    assert blocks[..|blocks|] == blocks;
    PresentBlockLines(m, t, f, maxWidth);
  }

  /** The spacings between blocks are 24 or 164 pixels. */
  lemma GapsPositive(out: Size, blocks: seq<Block>)
    ensures forall i :: 0 <= i < |Gaps(out, blocks)| ==> Gaps(out, blocks)[i] >= 24
  {
  }

  /** The bottom stack's lines run downwards without overlap; when no text is whitespace only,
      the last line ends 50 pixels above the bottom edge. */
  lemma BottomStackStacked(m: Measure, out: Size, t: Texts, f: FontSet, maxWidth: int)
    ensures Stacked(m, BottomStackPlacements(m, out, t, f, maxWidth))
    ensures NoBlankText(t) && BottomStackPlacements(m, out, t, f, maxWidth) != [] ==>
      Bottom(m, Last(BottomStackPlacements(m, out, t, f, maxWidth))) == out.h - 50
  {
    var blocks := PresentBlocks(m, t, f, maxWidth);
    var gaps := Gaps(out, blocks);
    var y0 := StackTop(m, out, blocks);
    GapsPositive(out, blocks);
    StackStacked(m, blocks, gaps, y0, out.w, |blocks|);
    var ps := BottomStackPlacements(m, out, t, f, maxWidth);
    assert ps == StackPlacements(m, blocks, gaps, y0, out.w, |blocks|);
    if NoBlankText(t) && ps != [] {
      PresentBlocksDrawn(m, t, f, maxWidth);
      BottomStackEndsAtMargin(m, out, t, f, maxWidth);
      StackLastBottom(m, blocks, gaps, y0, out.w);
    }
  }

  /** The blocks of a request whose disclaimer is whitespace only and whose other present texts
      are not: the disclaimer's block comes last with no lines, the block before it has lines
      and is the subheadline's exactly when there is a subtitle, and only the disclaimer's
      line spacing of 10 is lost. */
  lemma BlankDisclaimerBlocks(m: Measure, t: Texts, f: FontSet, maxWidth: int)
    requires t.disclaimer != "" && AllSpace(t.disclaimer)
    requires t.headline != "" || t.subtitle != ""
    requires t.headline == "" || !AllSpace(t.headline)
    requires t.subtitle == "" || !AllSpace(t.subtitle)
    ensures |PresentBlocks(m, t, f, maxWidth)| >= 2
    ensures PresentBlocks(m, t, f, maxWidth)[|PresentBlocks(m, t, f, maxWidth)| - 1].lines == []
    ensures PresentBlocks(m, t, f, maxWidth)[|PresentBlocks(m, t, f, maxWidth)| - 1].kind == Disclaimer
    ensures PresentBlocks(m, t, f, maxWidth)[|PresentBlocks(m, t, f, maxWidth)| - 2].lines != []
    ensures PresentBlocks(m, t, f, maxWidth)[|PresentBlocks(m, t, f, maxWidth)| - 2].kind == Subheadline
      <==> t.subtitle != ""
    ensures Slack(PresentBlocks(m, t, f, maxWidth)) == 10
  {
    var front := OptionalBlock(m, t, f, maxWidth, Headline) + OptionalBlock(m, t, f, maxWidth, Subheadline);
    var blocks := PresentBlocks(m, t, f, maxWidth);
    FrontBlocks(m, t, f, maxWidth);
    OptionalBlockShape(m, t, f, maxWidth, Disclaimer);
    WrapCounts(m, f.For(Disclaimer), maxWidth, t.Of(Disclaimer));
    var d := OptionalBlock(m, t, f, maxWidth, Disclaimer);
    assert d == [Block([], f.For(Disclaimer), Disclaimer)];
    assert blocks == front + d;
    var n := |blocks|;
    SlackOfDrawn(front);
    assert blocks[..n - 1] == front;
    assert blocks[n - 2] == front[|front| - 1];
  }

  /** The headline and subheadline blocks of a request with at least one of those texts and
      neither whitespace only: every block has lines, and the last is the subheadline's
      exactly when there is a subtitle. */
  lemma FrontBlocks(m: Measure, t: Texts, f: FontSet, maxWidth: int)
    requires t.headline != "" || t.subtitle != ""
    requires t.headline == "" || !AllSpace(t.headline)
    requires t.subtitle == "" || !AllSpace(t.subtitle)
    ensures OptionalBlock(m, t, f, maxWidth, Headline) + OptionalBlock(m, t, f, maxWidth, Subheadline) != []
    ensures AllDrawn(OptionalBlock(m, t, f, maxWidth, Headline) + OptionalBlock(m, t, f, maxWidth, Subheadline))
    ensures LastKind(OptionalBlock(m, t, f, maxWidth, Headline) + OptionalBlock(m, t, f, maxWidth, Subheadline))
      == if t.subtitle != "" then Subheadline else Headline
  {
    var h := OptionalBlock(m, t, f, maxWidth, Headline);
    var s := OptionalBlock(m, t, f, maxWidth, Subheadline);
    OptionalBlockShape(m, t, f, maxWidth, Headline);
    OptionalBlockShape(m, t, f, maxWidth, Subheadline);
    WrapCounts(m, f.For(Headline), maxWidth, t.Of(Headline));
    WrapCounts(m, f.For(Subheadline), maxWidth, t.Of(Subheadline));
    var front := h + s;
    forall i | 0 <= i < |front|
      ensures front[i].lines != []
    {
      assert front[i] in h || front[i] in s;
    }
  }

  /** The kind of the last of a non-empty run of blocks. */
  function LastKind(blocks: seq<Block>): Kind
    requires blocks != []
  {
    blocks[|blocks| - 1].kind
  }

  /** A whitespace-only disclaimer after a present headline or subtitle that is not blank: the
      stack's final y is 10 below `out_h - 50`, but the last line drawn, the one before the
      disclaimer, ends 24 pixels (164 at 1080x1920 after a subtitle) above that y, so the
      text sits higher than the 50-pixel margin instead of lower. */
  lemma BottomStackBlankDisclaimer(m: Measure, out: Size, t: Texts, f: FontSet, maxWidth: int)
    requires t.disclaimer != "" && AllSpace(t.disclaimer)
    requires t.headline != "" || t.subtitle != ""
    requires t.headline == "" || !AllSpace(t.headline)
    requires t.subtitle == "" || !AllSpace(t.subtitle)
    ensures BottomStackEnd(m, out, t, f, maxWidth) == out.h - 40
    ensures BottomStackPlacements(m, out, t, f, maxWidth) != []
    ensures Bottom(m, Last(BottomStackPlacements(m, out, t, f, maxWidth)))
      == out.h - 40 - (if out == Story && t.subtitle != "" then 164 else 24)
  {
    var blocks := PresentBlocks(m, t, f, maxWidth);
    var n := |blocks|;
    BlankDisclaimerBlocks(m, t, f, maxWidth);
    BottomStackEndsAtMargin(m, out, t, f, maxWidth);
    var gaps := Gaps(out, blocks);
    assert gaps[n - 2] == Gap(out, blocks[n - 2].kind, blocks[n - 1].kind);
    StackBlankTail(m, blocks, gaps, StackTop(m, out, blocks), out.w);
  }

  function Last(ps: seq<Placement>): Placement
    requires ps != []
  {
    ps[|ps| - 1]
  }

  /** For blocks in drawing order, the spacing after block i is 164 pixels exactly when the
      banner is 1080x1920, there is both a subheadline and a disclaimer, and i is the last
      spacing; every other spacing is 24. */
  lemma OrderedGaps(out: Size, blocks: seq<Block>)
    requires Ordered(blocks)
    ensures forall i :: 0 <= i < |Gaps(out, blocks)| ==>
      (Gaps(out, blocks)[i] == 164 <==>
        out == Story && i == |Gaps(out, blocks)| - 1 && HasKind(blocks, Subheadline) && HasKind(blocks, Disclaimer))
    ensures forall i :: 0 <= i < |Gaps(out, blocks)| ==> Gaps(out, blocks)[i] in {24, 164}
  {
    var gaps := Gaps(out, blocks);
    forall i | 0 <= i < |gaps|
      ensures gaps[i] == 164 <==> out == Story && i == |gaps| - 1 && HasKind(blocks, Subheadline) && HasKind(blocks, Disclaimer)
    {
      if out == Story && blocks[i].kind == Subheadline && blocks[i + 1].kind == Disclaimer {
        RankRoom(blocks, i + 1);
      }
      if out == Story && i == |gaps| - 1 && HasKind(blocks, Subheadline) && HasKind(blocks, Disclaimer) {
        var d :| 0 <= d < |blocks| && blocks[d].kind == Disclaimer;
        var s :| 0 <= s < |blocks| && blocks[s].kind == Subheadline;
        RankRoom(blocks, d);
        RankRoom(blocks, s);
      }
    }
  }

  /** Blocks are 24 pixels apart, except that at 1080x1920 a disclaimer sits 164 pixels below a
      subheadline; that wider spacing can only be the last one. */
  lemma GapsRule(m: Measure, out: Size, t: Texts, f: FontSet, maxWidth: int)
    ensures forall i :: 0 <= i < |Gaps(out, PresentBlocks(m, t, f, maxWidth))| ==>
      (Gaps(out, PresentBlocks(m, t, f, maxWidth))[i] == 164 <==>
        out == Story && i == |Gaps(out, PresentBlocks(m, t, f, maxWidth))| - 1 && t.subtitle != "" && t.disclaimer != "")
  {
    PresentBlocksShape(m, t, f, maxWidth);
    PresentKinds(m, t, f, maxWidth, Subheadline);
    PresentKinds(m, t, f, maxWidth, Disclaimer);
    OrderedGaps(out, PresentBlocks(m, t, f, maxWidth));
    assert t.subtitle == t.Of(Subheadline) && t.disclaimer == t.Of(Disclaimer);
  }

  /** Blocks in strictly increasing rank order leave room after block j for at most as many
      blocks as there are ranks above its own. */
  lemma {:induction false} RankRoom(blocks: seq<Block>, j: nat)
    requires Ordered(blocks) && j < |blocks|
    ensures KindRank(blocks[j].kind) + (|blocks| - 1 - j) <= 2
    decreases |blocks| - j
  {
    if j + 1 < |blocks| {
      RankRoom(blocks, j + 1);
      assert KindRank(blocks[j].kind) < KindRank(blocks[j + 1].kind);
    }
  }

  // ---------------------------------------------------------------------------------------
  // Top pinned: 1200x628 (main.py:167-205)
  // ---------------------------------------------------------------------------------------

  /** The text column of the 1200x628 banner: x from 40, 540 pixels wide, starting at y = 40. */
  const ColumnLeft := 40
  const ColumnWidth := 540
  const ColumnTop := 40
  /** The space below the headline and below the subheadline. */
  const ColumnGap := 28
  /** The disclaimer's margin from the right and the bottom edge, and its line spacing. */
  const DisclaimerMargin := 40
  const DisclaimerSpacing := 10

  /** The wrapped lines of the text of kind k. */
  function LinesOf(m: Measure, t: Texts, f: FontSet, maxWidth: int, k: Kind): seq<string> {
    Wrap.Wrap(m, f.For(k), maxWidth, t.Of(k))
  }

  /** The draw calls for the headline or the subheadline in the column, first line at y0. */
  function ColumnBlock(m: Measure, t: Texts, f: FontSet, maxWidth: int, k: Kind, y0: int): seq<Placement> {
    if t.Of(k) == "" then []
    else BlockPlacements(m, LinesOf(m, t, f, maxWidth, k), f.For(k), LineSpacing(k, f.For(k).size), y0,
      Centered(ColumnLeft, ColumnWidth))
  }

  /** y after the column block of kind k: its height and 28 pixels, or y0 when the text is empty. */
  function ColumnNext(m: Measure, t: Texts, f: FontSet, maxWidth: int, k: Kind, y0: int): int {
    if t.Of(k) == "" then y0
    else y0 + Advance(m, LinesOf(m, t, f, maxWidth, k), f.For(k), LineSpacing(k, f.For(k).size)) + ColumnGap
  }

  /** The y of the disclaimer's first line: its block ends 40 pixels above the bottom edge. */
  function SideDisclaimerTop(m: Measure, out: Size, t: Texts, f: FontSet, maxWidth: int): int {
    out.h - DisclaimerMargin - BlockHeight(m, LinesOf(m, t, f, maxWidth, Disclaimer), f.disclaimer, DisclaimerSpacing)
  }

  /** The disclaimer, right-aligned 40 pixels from the right edge. */
  function SideDisclaimer(m: Measure, out: Size, t: Texts, f: FontSet, maxWidth: int): seq<Placement> {
    if t.disclaimer == "" then []
    else BlockPlacements(m, LinesOf(m, t, f, maxWidth, Disclaimer), f.disclaimer, DisclaimerSpacing,
      SideDisclaimerTop(m, out, t, f, maxWidth), RightEdge(out.w - DisclaimerMargin))
  }

  /** The headline and the subheadline in the column. */
  function ColumnPlacements(m: Measure, t: Texts, f: FontSet, maxWidth: int): seq<Placement> {
    ColumnBlock(m, t, f, maxWidth, Headline, ColumnTop)
      + ColumnBlock(m, t, f, maxWidth, Subheadline, ColumnNext(m, t, f, maxWidth, Headline, ColumnTop))
  }

  /** The top-pinned draw calls for a request. */
  function TopPinnedPlacements(m: Measure, out: Size, t: Texts, f: FontSet, maxWidth: int): seq<Placement> {
    ColumnPlacements(m, t, f, maxWidth) + SideDisclaimer(m, out, t, f, maxWidth)
  }

  /** One column block of main.py:172-194. */
  method PlaceColumnBlock(m: Measure, t: Texts, f: FontSet, maxWidth: int, k: Kind, y0: int)
    returns (ps: seq<Placement>, y: int)
    ensures ps == ColumnBlock(m, t, f, maxWidth, k, y0)
    ensures y == ColumnNext(m, t, f, maxWidth, k, y0)
  {
    ps, y := [], y0;
    if t.Of(k) != "" {
      var lines := WrapText(t.Of(k), f.For(k), m, maxWidth);
      ps, y := PlaceLines(m, lines, f.For(k), LineSpacing(k, f.For(k).size), y, Centered(ColumnLeft, ColumnWidth));
      y := y + ColumnGap;
    }
  }

  /** The disclaimer of main.py:195-205. */
  method PlaceSideDisclaimer(m: Measure, out: Size, t: Texts, f: FontSet, maxWidth: int)
    returns (ps: seq<Placement>)
    ensures ps == SideDisclaimer(m, out, t, f, maxWidth)
  {
    ps := [];
    if t.disclaimer != "" {
      var lines := WrapText(t.disclaimer, f.disclaimer, m, maxWidth);
      var total := BlockHeight(m, lines, f.disclaimer, DisclaimerSpacing);
      var yDisclaimer := out.h - DisclaimerMargin - total;
      var yAfter;
      ps, yAfter := PlaceLines(m, lines, f.disclaimer, DisclaimerSpacing, yDisclaimer, RightEdge(out.w - DisclaimerMargin));
    }
  }

  /** main.py:169-205. */
  method TopPinned(m: Measure, out: Size, t: Texts, f: FontSet, maxWidth: int) returns (ps: seq<Placement>)
    ensures ps == TopPinnedPlacements(m, out, t, f, maxWidth)
  {
    var y := ColumnTop;
    var head, sub, side;
    head, y := PlaceColumnBlock(m, t, f, maxWidth, Headline, y);
    sub, y := PlaceColumnBlock(m, t, f, maxWidth, Subheadline, y);
    side := PlaceSideDisclaimer(m, out, t, f, maxWidth);
    ps := head + sub + side;
  }

  /** The lines of the text of kind k, or none when it is empty (an empty text wraps to none). */
  lemma EmptyWrapsToNothing(m: Measure, t: Texts, f: FontSet, maxWidth: int, k: Kind)
    ensures t.Of(k) == "" ==> LinesOf(m, t, f, maxWidth, k) == []
  {
    WrapCounts(m, f.For(k), maxWidth, t.Of(k));
  }

  /** Any block of wrapped lines draws exactly those lines, with the given alignment. */
  lemma BlockDrawn(m: Measure, lines: seq<string>, font: Font, spacing: int, y0: int, align: Align)
    ensures Drawn(BlockPlacements(m, lines, font, spacing, y0, align)) == lines
    ensures forall p <- BlockPlacements(m, lines, font, spacing, y0, align) :: p.x == X(align, m(p.line, p.font).w)
  {
  }

  /** A column block draws its text's wrapped lines centred in the column, running downwards,
      the first at y0. */
  lemma ColumnBlockLayout(m: Measure, t: Texts, f: FontSet, maxWidth: int, k: Kind, y0: int)
    ensures Drawn(ColumnBlock(m, t, f, maxWidth, k, y0)) == LinesOf(m, t, f, maxWidth, k)
    ensures CenteredIn(m, ColumnBlock(m, t, f, maxWidth, k, y0), ColumnLeft, ColumnWidth)
    ensures Stacked(m, ColumnBlock(m, t, f, maxWidth, k, y0))
    ensures ColumnBlock(m, t, f, maxWidth, k, y0) != [] ==> ColumnBlock(m, t, f, maxWidth, k, y0)[0].y == y0
  {
    var lines := LinesOf(m, t, f, maxWidth, k);
    var spacing := LineSpacing(k, f.For(k).size);
    EmptyWrapsToNothing(m, t, f, maxWidth, k);
    LineSpacingInIntegers(f.For(k).size);
    BlockDrawn(m, lines, f.For(k), spacing, y0, Centered(ColumnLeft, ColumnWidth));
    BlockStacked(m, lines, f.For(k), spacing, y0, Centered(ColumnLeft, ColumnWidth));
  }

  /** Concatenating draw calls concatenates their lines and keeps them centred. */
  lemma ConcatCentred(m: Measure, a: seq<Placement>, b: seq<Placement>, left: int, width: int)
    requires CenteredIn(m, a, left, width) && CenteredIn(m, b, left, width)
    ensures Drawn(a + b) == Drawn(a) + Drawn(b)
    ensures CenteredIn(m, a + b, left, width)
  {
    var all := a + b;
    forall i | 0 <= i < |all|
      ensures all[i].x == left + (width - m(all[i].line, all[i].font).w) / 2
    {
      if i < |a| {
        assert all[i] == a[i];
      } else {
        assert all[i] == b[i - |a|];
      }
    }
  }

  /** The column shows the wrapped headline then the wrapped subheadline, every line centred in
      the column, the headline's first line at y = 40. */
  lemma ColumnLayout(m: Measure, t: Texts, f: FontSet, maxWidth: int)
    ensures Drawn(ColumnPlacements(m, t, f, maxWidth))
      == LinesOf(m, t, f, maxWidth, Headline) + LinesOf(m, t, f, maxWidth, Subheadline)
    ensures CenteredIn(m, ColumnPlacements(m, t, f, maxWidth), ColumnLeft, ColumnWidth)
    ensures LinesOf(m, t, f, maxWidth, Headline) != [] ==> ColumnPlacements(m, t, f, maxWidth)[0].y == ColumnTop
  {
    var y1 := ColumnNext(m, t, f, maxWidth, Headline, ColumnTop);
    var head := ColumnBlock(m, t, f, maxWidth, Headline, ColumnTop);
    var sub := ColumnBlock(m, t, f, maxWidth, Subheadline, y1);
    ColumnBlockLayout(m, t, f, maxWidth, Headline, ColumnTop);
    ColumnBlockLayout(m, t, f, maxWidth, Subheadline, y1);
    ConcatCentred(m, head, sub, ColumnLeft, ColumnWidth);
    if head != [] {
      assert (head + sub)[0] == head[0];
    }
  }

  /** The column's lines run downwards without overlapping. */
  lemma ColumnStacked(m: Measure, t: Texts, f: FontSet, maxWidth: int)
    ensures Stacked(m, ColumnPlacements(m, t, f, maxWidth))
  {
    var hl := LinesOf(m, t, f, maxWidth, Headline);
    var hs := LineSpacing(Headline, f.headline.size);
    var y1 := ColumnNext(m, t, f, maxWidth, Headline, ColumnTop);
    var head := ColumnBlock(m, t, f, maxWidth, Headline, ColumnTop);
    var sub := ColumnBlock(m, t, f, maxWidth, Subheadline, y1);
    ColumnBlockLayout(m, t, f, maxWidth, Headline, ColumnTop);
    ColumnBlockLayout(m, t, f, maxWidth, Subheadline, y1);
    LineSpacingInIntegers(f.headline.size);
    BlockStacked(m, hl, f.headline, hs, ColumnTop, Centered(ColumnLeft, ColumnWidth));
    StackedConcat(m, head, sub);
  }

  /** The disclaimer is right-aligned 40 pixels from the right edge and its last line ends 40
      pixels above the bottom edge. */
  lemma SideDisclaimerLayout(m: Measure, out: Size, t: Texts, f: FontSet, maxWidth: int)
    ensures Drawn(SideDisclaimer(m, out, t, f, maxWidth)) == LinesOf(m, t, f, maxWidth, Disclaimer)
    ensures forall p <- SideDisclaimer(m, out, t, f, maxWidth) :: p.x + m(p.line, p.font).w == out.w - DisclaimerMargin
    ensures Stacked(m, SideDisclaimer(m, out, t, f, maxWidth))
    ensures SideDisclaimer(m, out, t, f, maxWidth) != [] ==>
      Bottom(m, Last(SideDisclaimer(m, out, t, f, maxWidth))) == out.h - DisclaimerMargin
  {
    SideDisclaimerLines(m, out, t, f, maxWidth);
    SideDisclaimerStacked(m, out, t, f, maxWidth);
  }

  lemma SideDisclaimerLines(m: Measure, out: Size, t: Texts, f: FontSet, maxWidth: int)
    ensures Drawn(SideDisclaimer(m, out, t, f, maxWidth)) == LinesOf(m, t, f, maxWidth, Disclaimer)
    ensures forall p <- SideDisclaimer(m, out, t, f, maxWidth) :: p.x + m(p.line, p.font).w == out.w - DisclaimerMargin
  {
    var lines := LinesOf(m, t, f, maxWidth, Disclaimer);
    var y0 := SideDisclaimerTop(m, out, t, f, maxWidth);
    EmptyWrapsToNothing(m, t, f, maxWidth, Disclaimer);
    BlockDrawn(m, lines, f.disclaimer, DisclaimerSpacing, y0, RightEdge(out.w - DisclaimerMargin));
  }

  lemma SideDisclaimerStacked(m: Measure, out: Size, t: Texts, f: FontSet, maxWidth: int)
    ensures Stacked(m, SideDisclaimer(m, out, t, f, maxWidth))
    ensures SideDisclaimer(m, out, t, f, maxWidth) != [] ==>
      Bottom(m, Last(SideDisclaimer(m, out, t, f, maxWidth))) == out.h - DisclaimerMargin
  {
    var lines := LinesOf(m, t, f, maxWidth, Disclaimer);
    var y0 := SideDisclaimerTop(m, out, t, f, maxWidth);
    EmptyWrapsToNothing(m, t, f, maxWidth, Disclaimer);
    BlockStacked(m, lines, f.disclaimer, DisclaimerSpacing, y0, RightEdge(out.w - DisclaimerMargin));
  }

  /** The subheadline's first line starts 28 pixels below the headline's last line, or at
      y = 40 when there is no headline; a whitespace-only headline draws nothing yet still moves
      the subheadline down by 28 pixels. */
  lemma SubtitleBelowHeadline(m: Measure, t: Texts, f: FontSet, maxWidth: int)
    requires LinesOf(m, t, f, maxWidth, Subheadline) != []
    ensures var ps := ColumnPlacements(m, t, f, maxWidth);
      var n := |LinesOf(m, t, f, maxWidth, Headline)|;
      n < |ps|
      && ps[n].y == if n > 0 then Bottom(m, ps[n - 1]) + ColumnGap
                    else if t.headline == "" then ColumnTop
                    else ColumnTop + ColumnGap
  {
    var hl := LinesOf(m, t, f, maxWidth, Headline);
    var head := ColumnBlock(m, t, f, maxWidth, Headline, ColumnTop);
    var y1 := ColumnNext(m, t, f, maxWidth, Headline, ColumnTop);
    var sub := ColumnBlock(m, t, f, maxWidth, Subheadline, y1);
    var hs := LineSpacing(Headline, f.headline.size);
    EmptyWrapsToNothing(m, t, f, maxWidth, Headline);
    EmptyWrapsToNothing(m, t, f, maxWidth, Subheadline);
    LineSpacingInIntegers(f.headline.size);
    LineSpacingInIntegers(f.subheadline.size);
    BlockStacked(m, hl, f.headline, hs, ColumnTop, Centered(ColumnLeft, ColumnWidth));
    BlockStacked(m, LinesOf(m, t, f, maxWidth, Subheadline), f.subheadline, LineSpacing(Subheadline, f.subheadline.size), y1,
      Centered(ColumnLeft, ColumnWidth));
    assert |head| == |hl|;
    assert (head + sub)[|hl|] == sub[0];
    if hl != [] {
      assert (head + sub)[|hl| - 1] == head[|hl| - 1];
    }
  }

  lemma DrawnAppend(a: seq<Placement>, b: seq<Placement>)
    ensures Drawn(a + b) == Drawn(a) + Drawn(b)
  {
  }

  /** The 1200x628 layout draws the wrapped headline, subheadline and disclaimer in that order. */
  lemma TopPinnedLines(m: Measure, out: Size, t: Texts, f: FontSet, maxWidth: int)
    ensures Drawn(TopPinnedPlacements(m, out, t, f, maxWidth))
      == LinesOf(m, t, f, maxWidth, Headline) + LinesOf(m, t, f, maxWidth, Subheadline) + LinesOf(m, t, f, maxWidth, Disclaimer)
  {
    ColumnLayout(m, t, f, maxWidth);
    SideDisclaimerLayout(m, out, t, f, maxWidth);
    DrawnAppend(ColumnPlacements(m, t, f, maxWidth), SideDisclaimer(m, out, t, f, maxWidth));
  }

  // ---------------------------------------------------------------------------------------
  // Fixed offsets: any other size (main.py:206-242)
  // ---------------------------------------------------------------------------------------

  const FixedHeadlineTop := 100
  const FixedSubtitleTop := 200

  /** The y of the fallback disclaimer's first line. */
  function FixedDisclaimerTop(m: Measure, out: Size, t: Texts, f: FontSet, maxWidth: int): int {
    out.h - 100 - BlockHeight(m, LinesOf(m, t, f, maxWidth, Disclaimer), f.disclaimer, DisclaimerSpacing) + 10
  }

  /** The block of kind k centred across the banner with its first line at y0. */
  function CentredBlock(m: Measure, out: Size, t: Texts, f: FontSet, maxWidth: int, k: Kind, spacing: int, y0: int): seq<Placement> {
    if t.Of(k) == "" then []
    else BlockPlacements(m, LinesOf(m, t, f, maxWidth, k), f.For(k), spacing, y0, Centered(0, out.w))
  }

  /** The fixed-offset draw calls for a request. */
  function FixedOffsetPlacements(m: Measure, out: Size, t: Texts, f: FontSet, maxWidth: int): seq<Placement> {
    CentredBlock(m, out, t, f, maxWidth, Headline, LineSpacing(Headline, f.headline.size), FixedHeadlineTop)
      + CentredBlock(m, out, t, f, maxWidth, Subheadline, LineSpacing(Subheadline, f.subheadline.size), FixedSubtitleTop)
      + CentredBlock(m, out, t, f, maxWidth, Disclaimer, DisclaimerSpacing, FixedDisclaimerTop(m, out, t, f, maxWidth))
  }

  /** One centred block of main.py:208-242. */
  method PlaceCentredBlock(m: Measure, out: Size, t: Texts, f: FontSet, maxWidth: int, k: Kind, spacing: int, y0: int)
    returns (ps: seq<Placement>)
    ensures ps == CentredBlock(m, out, t, f, maxWidth, k, spacing, y0)
  {
    ps := [];
    if t.Of(k) != "" {
      var lines := WrapText(t.Of(k), f.For(k), m, maxWidth);
      var yAfter;
      ps, yAfter := PlaceLines(m, lines, f.For(k), spacing, y0, Centered(0, out.w));
    }
  }

  /** main.py:207-242. */
  method FixedOffset(m: Measure, out: Size, t: Texts, f: FontSet, maxWidth: int) returns (ps: seq<Placement>)
    ensures ps == FixedOffsetPlacements(m, out, t, f, maxWidth)
  {
    var head := PlaceCentredBlock(m, out, t, f, maxWidth, Headline, LineSpacing(Headline, f.headline.size), FixedHeadlineTop);
    var sub := PlaceCentredBlock(m, out, t, f, maxWidth, Subheadline, LineSpacing(Subheadline, f.subheadline.size), FixedSubtitleTop);
    var side: seq<Placement> := [];
    if t.disclaimer != "" {
      var lines := WrapText(t.disclaimer, f.disclaimer, m, maxWidth);
      var total := BlockHeight(m, lines, f.disclaimer, DisclaimerSpacing);
      var y := out.h - 100 - total + 10;
      var yAfter;
      side, yAfter := PlaceLines(m, lines, f.disclaimer, DisclaimerSpacing, y, Centered(0, out.w));
    }
    ps := head + sub + side;
  }

  /** Centred blocks draw their text's wrapped lines, centred across the banner, running
      downwards from y0. */
  lemma CentredBlockLayout(m: Measure, out: Size, t: Texts, f: FontSet, maxWidth: int, k: Kind, spacing: int, y0: int)
    requires spacing >= 0
    ensures Drawn(CentredBlock(m, out, t, f, maxWidth, k, spacing, y0)) == LinesOf(m, t, f, maxWidth, k)
    ensures CenteredIn(m, CentredBlock(m, out, t, f, maxWidth, k, spacing, y0), 0, out.w)
    ensures Stacked(m, CentredBlock(m, out, t, f, maxWidth, k, spacing, y0))
    ensures CentredBlock(m, out, t, f, maxWidth, k, spacing, y0) != [] ==>
      CentredBlock(m, out, t, f, maxWidth, k, spacing, y0)[0].y == y0
      && Bottom(m, Last(CentredBlock(m, out, t, f, maxWidth, k, spacing, y0)))
        == y0 + BlockHeight(m, LinesOf(m, t, f, maxWidth, k), f.For(k), spacing)
  {
    var lines := LinesOf(m, t, f, maxWidth, k);
    EmptyWrapsToNothing(m, t, f, maxWidth, k);
    BlockDrawn(m, lines, f.For(k), spacing, y0, Centered(0, out.w));
    BlockStacked(m, lines, f.For(k), spacing, y0, Centered(0, out.w));
  }

  /** Concatenating draw calls concatenates their lines and keeps them centred. */
  lemma ConcatDrawn(m: Measure, a: seq<Placement>, b: seq<Placement>, c: seq<Placement>, left: int, width: int)
    requires CenteredIn(m, a, left, width) && CenteredIn(m, b, left, width) && CenteredIn(m, c, left, width)
    ensures Drawn(a + b + c) == Drawn(a) + Drawn(b) + Drawn(c)
    ensures CenteredIn(m, a + b + c, left, width)
  {
    var all := a + b + c;
    forall i | 0 <= i < |all|
      ensures all[i].x == left + (width - m(all[i].line, all[i].font).w) / 2
    {
      if i < |a| {
        assert all[i] == a[i];
      } else if i < |a| + |b| {
        assert all[i] == b[i - |a|];
      } else {
        assert all[i] == c[i - |a| - |b|];
      }
    }
  }

  /** The fallback draws the wrapped headline, subheadline and disclaimer in that order, all
      centred across the banner. */
  lemma FixedOffsetLines(m: Measure, out: Size, t: Texts, f: FontSet, maxWidth: int)
    ensures Drawn(FixedOffsetPlacements(m, out, t, f, maxWidth))
      == LinesOf(m, t, f, maxWidth, Headline) + LinesOf(m, t, f, maxWidth, Subheadline) + LinesOf(m, t, f, maxWidth, Disclaimer)
    ensures CenteredIn(m, FixedOffsetPlacements(m, out, t, f, maxWidth), 0, out.w)
  {
    var hs, ss := LineSpacing(Headline, f.headline.size), LineSpacing(Subheadline, f.subheadline.size);
    LineSpacingInIntegers(f.headline.size);
    LineSpacingInIntegers(f.subheadline.size);
    var y2 := FixedDisclaimerTop(m, out, t, f, maxWidth);
    CentredBlockLayout(m, out, t, f, maxWidth, Headline, hs, FixedHeadlineTop);
    CentredBlockLayout(m, out, t, f, maxWidth, Subheadline, ss, FixedSubtitleTop);
    CentredBlockLayout(m, out, t, f, maxWidth, Disclaimer, DisclaimerSpacing, y2);
    ConcatDrawn(m, CentredBlock(m, out, t, f, maxWidth, Headline, hs, FixedHeadlineTop),
      CentredBlock(m, out, t, f, maxWidth, Subheadline, ss, FixedSubtitleTop),
      CentredBlock(m, out, t, f, maxWidth, Disclaimer, DisclaimerSpacing, y2), 0, out.w);
  }

  /** In the fallback the headline starts at y = 100, and the disclaimer's last line ends 90
      pixels above the bottom edge: its first line is placed one spacing below the top of a block
      that would end 100 pixels above the edge. */
  lemma FixedOffsetPositions(m: Measure, out: Size, t: Texts, f: FontSet, maxWidth: int)
    ensures LinesOf(m, t, f, maxWidth, Headline) != [] ==> FixedOffsetPlacements(m, out, t, f, maxWidth)[0].y == FixedHeadlineTop
    ensures LinesOf(m, t, f, maxWidth, Disclaimer) != [] ==>
      Bottom(m, Last(FixedOffsetPlacements(m, out, t, f, maxWidth))) == out.h - 90
  {
    var hs, ss := LineSpacing(Headline, f.headline.size), LineSpacing(Subheadline, f.subheadline.size);
    LineSpacingInIntegers(f.headline.size);
    LineSpacingInIntegers(f.subheadline.size);
    var y2 := FixedDisclaimerTop(m, out, t, f, maxWidth);
    var head := CentredBlock(m, out, t, f, maxWidth, Headline, hs, FixedHeadlineTop);
    var sub := CentredBlock(m, out, t, f, maxWidth, Subheadline, ss, FixedSubtitleTop);
    var side := CentredBlock(m, out, t, f, maxWidth, Disclaimer, DisclaimerSpacing, y2);
    EmptyWrapsToNothing(m, t, f, maxWidth, Headline);
    EmptyWrapsToNothing(m, t, f, maxWidth, Disclaimer);
    if LinesOf(m, t, f, maxWidth, Headline) != [] {
      CentredBlockLayout(m, out, t, f, maxWidth, Headline, hs, FixedHeadlineTop);
      assert (head + sub + side)[0] == head[0];
    }
    if LinesOf(m, t, f, maxWidth, Disclaimer) != [] {
      CentredBlockLayout(m, out, t, f, maxWidth, Disclaimer, DisclaimerSpacing, y2);
      assert Last(head + sub + side) == Last(side);
    }
  }

  // ---------------------------------------------------------------------------------------
  // Choosing the strategy (main.py:128, 168, 206)
  // ---------------------------------------------------------------------------------------

  /** The draw calls for a banner of size out, with that size's fonts and maximum width. */
  function LayoutPlacements(m: Measure, out: Size, t: Texts): seq<Placement> {
    var f, maxWidth := FontsFor(out), MaxTextWidth(out);
    match StrategyFor(out)
    case BottomStack => BottomStackPlacements(m, out, t, f, maxWidth)
    case TopPinned => TopPinnedPlacements(m, out, t, f, maxWidth)
    case FixedOffset => FixedOffsetPlacements(m, out, t, f, maxWidth)
  }

  /** The text layer of main.py:92-242. */
  method LayoutText(m: Measure, out: Size, t: Texts) returns (ps: seq<Placement>)
    ensures ps == LayoutPlacements(m, out, t)
  {
    var f := FontsFor(out);
    var maxWidth := MaxTextWidth(out);
    match StrategyFor(out)
    case BottomStack =>
      var y;
      ps, y := BottomStack(m, out, t, f, maxWidth);
    case TopPinned =>
      ps := TopPinned(m, out, t, f, maxWidth);
    case FixedOffset =>
      ps := FixedOffset(m, out, t, f, maxWidth);
  }

  /** Whatever the size, the banner shows exactly the wrapped headline, subheadline and
      disclaimer, in that order, each wrapped with its own font to the size's maximum width. */
  lemma LayoutDrawsAllText(m: Measure, out: Size, t: Texts)
    ensures Drawn(LayoutPlacements(m, out, t))
      == LinesOf(m, t, FontsFor(out), MaxTextWidth(out), Headline)
        + LinesOf(m, t, FontsFor(out), MaxTextWidth(out), Subheadline)
        + LinesOf(m, t, FontsFor(out), MaxTextWidth(out), Disclaimer)
  {
    var f, maxWidth := FontsFor(out), MaxTextWidth(out);
    match StrategyFor(out)
    case BottomStack =>
      BottomStackLines(m, out, t, f, maxWidth);
    case TopPinned =>
      TopPinnedLines(m, out, t, f, maxWidth);
    case FixedOffset =>
      FixedOffsetLines(m, out, t, f, maxWidth);
  }

  /** No text, or only whitespace, draws nothing. */
  lemma BlankTextDrawsNothing(m: Measure, out: Size, t: Texts)
    requires AllSpace(t.headline) && AllSpace(t.subtitle) && AllSpace(t.disclaimer)
    ensures LayoutPlacements(m, out, t) == []
  {
    var f, maxWidth := FontsFor(out), MaxTextWidth(out);
    LayoutDrawsAllText(m, out, t);
    WrapCounts(m, f.headline, maxWidth, t.headline);
    WrapCounts(m, f.subheadline, maxWidth, t.subtitle);
    WrapCounts(m, f.disclaimer, maxWidth, t.disclaimer);
    assert |Drawn(LayoutPlacements(m, out, t))| == 0;
  }
}
