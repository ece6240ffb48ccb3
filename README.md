# Banner layout model

A Dafny model of the banner generator in `main.py`. The generator takes one photo and three
optional texts: a headline, a subtitle (drawn as the "subheadline") and a disclaimer. It then:

- chooses an output size and overlay from a size selector, or from the photo's aspect ratio;
- scales the photo to cover that size and cuts out its middle;
- word-wraps each text to a maximum width with a size-dependent font;
- places the lines with one of three anchoring strategies.

The model keeps the arithmetic and the branches of that code, except what "## Left out"
lists. It does not keep the pixels. Each `draw.text` call becomes a `Placement` record: x, y, line, font.

Text measurement (`draw.textbbox`) is a parameter `m: Measure`. It maps a line and a font to the
right and bottom of the line's bounding box. Every result holds for any measurement function.
Python floats are modelled as exact reals, except in the near-square test of the size
resolver, where double rounding changes the answer for one ratio (see `Sizes.NearSquarePhoto`
below). `int()` of a non-negative value is its floor, and `//` by 2 is Dafny's `/` by 2.

Modules, one per part of the program:

- `Text`: Python's `str.split()`, and words joined by single spaces, as `wrap_text` builds a line.
- `Fonts`: faces, fonts, block kinds and the measurement type.
- `Wrap`: `wrap_text`.
- `Sizes`: the size resolver.
- `Crop`: the cover-crop arithmetic.
- `Tables`: fonts, line spacing, maximum width and anchoring strategy, per size.
- `Layout`: the three anchoring strategies.
- `Banner`: `process_image` end to end.

Each loop of the source is a `method` with its loop. Each method is proved equal to a
recursive or comprehension-defined specification function, and the properties are lemmas about
those functions.

Where the code and its own comments disagree, the model follows the code:

- In the fixed-offset layout, the comment says the last disclaimer line is "at -100". The
  code places that line's *bottom* 90 pixels above the bottom edge (`FixedOffsetPositions`).
- A text that is non-empty but whitespace only gets a block with no lines.
  - In the bottom stack, that block's height counts as minus one line spacing, and every spacing
    next to it is still passed. The final y ends up one line spacing below
    `out_h - 50` for each such text (`BottomStackEndsAtMargin`).
  - If that block is not the last, the drawn text moves down by that line spacing. A
    whitespace-only subtitle at 1080x1920 also leaves 24 + 164 = 188 pixels between the headline
    and the disclaimer.
  - If it is the last (a whitespace-only disclaimer), the spacing after the previous block is
    still added after the last drawn line. The text therefore ends that spacing less 10 pixels
    *above* `out_h - 50`, which is 154 pixels above it at 1080x1920 after a subtitle
    (`BottomStackBlankDisclaimer`).
  - In the 1200x628 layout, such a headline still moves the subheadline down by 28 pixels
    (`SubtitleBelowHeadline`).

## Model

| member | source | states |
|---|---|---|
| Text.Words | main.py:10 | `text.split()`: every word is a non-empty run of non-whitespace characters, and there are no words exactly when the text is whitespace only |
| Text.JoinSpace | main.py:14 | a line is built by appending each word after one space, so it is its words joined by single spaces (a definition; its partner lemmas are `WordsOfJoin` and `WordsCollapse`) |
| Text.WordsOfJoin | main.py:10 | splitting words that were joined with single spaces gives back exactly those words |
| Text.WordsCollapse | main.py:10 | joining `text.split()` with single spaces gives the text with leading and trailing whitespace dropped and each inner whitespace run turned into one space, character by character (`Collapse`) |
| Wrap.WrapText | main.py:9-24 | the imperative loop returns the lines of the recursive definition `Wrap` |
| Wrap.WrapKeepsWords | main.py:10-24 | the words of the lines, in order, are exactly `text.split()`; each line is its words joined by single spaces, so no word is split or dropped |
| Wrap.WrapJoin | main.py:10-24 | joining the lines with single spaces equals joining the words with single spaces |
| Wrap.WrapFits | main.py:14-21 | every line of two or more words is no wider than the maximum width; only a single-word line may exceed it |
| Wrap.WrapGreedy | main.py:14-21 | a line ends only where appending the next line's first word would exceed the maximum width |
| Wrap.WrapCounts | main.py:10-23 | no lines exactly when the text is whitespace only; every line is non-empty; there are at most as many lines as words |
| Wrap.WrapOneLine | main.py:13-23 | when every growing prefix of the words fits, the result is the single line of all the words |
| Sizes.Resolve | main.py:32-60 | the resolver always yields one of the four entries of the size mapping |
| Sizes.ResolveAuto | main.py:32-41 | `"auto"` gives 1200x1200 iff the photo passes the near-square test as the program evaluates it, 1200x628 iff it fails it and is wider than tall, 1200x1500 otherwise, and never 1080x1920 |
| Sizes.NearSquareInIntegers | main.py:28-37 | for a w x h photo, the tests of main.py:34 and 37 in exact arithmetic equal the integer tests `abs(w-h)*100 < 15*h` and `w > h` |
| Sizes.NearSquareRounding | main.py:29-34 | the program's near-square test (`NearSquarePhoto`) agrees with the exact one except at the ratio 23:20, which it counts as near-square and exact arithmetic does not |
| Sizes.Ratio23To20 | main.py:29-35 | a 23:20 photo, 1150x1000 say, gets the 1200x1200 banner although its exact ratio is 0.15 away from 1 |
| Sizes.ResolveKnown | main.py:44-50 | a selector in the mapping yields its own entry, whatever the aspect ratio |
| Sizes.SelectorNamesSize | main.py:45-50 | a known selector yields the size it spells, with overlay `Overlay/<selector>.png` |
| Sizes.EntryNamed | main.py:45-50 | each of the four mapping keys is the name of its size, and its overlay file is named after it |
| Sizes.SizeNames | main.py:45-50 | the four sizes are named 1200x1200, 1200x1500, 1200x628 and 1080x1920 |
| Sizes.ResolveUnknown | main.py:52-56 | any other selector gives the same result as `"1200x1200"` |
| Sizes.OverlayMatchesSize | main.py:32-60 | the resolved overlay is always the file named after the resolved size, and selecting that size by name resolves to the same choice |
| Crop.CoverCrop | main.py:73-82 | the resized photo covers the output (`newW >= outW`, `newH >= outH`, one side exact) and keeps the photo's shape to within a pixel: the side that decides the scale is the output's, and the other is the photo's proportion of it, truncated (`newH * w <= h * outW < (newH + 1) * w`, or the same with the sides swapped); the crop box is exactly `outW x outH`, lies inside the resized photo and is centred to within one pixel |
| Crop.WidthDecides | main.py:74-76 | when `out_w / width >= out_h / height`, `new_w` is `out_w` and `new_h` is `height * out_w / width` rounded down |
| Crop.HeightDecides | main.py:74-76 | otherwise `new_h` is `out_h` and `new_w` is `width * out_h / height` rounded down |
| Crop.CropOfExactSize | main.py:73-82 | a photo already at the output size is neither scaled nor cut |
| Tables.StrategyFor | main.py:128-206 | the branch chosen per size (main.py:128, 168, 206): the fixed-offset fallback is used exactly for the sizes that no selector names |
| Tables.FontsFor | main.py:93-109 | the headline font is loaded from `YangoGroupHeadline-HeavyArabic.ttf` and the other two from `YangoGroupText-Medium.ttf`; the headline is the largest font and the disclaimer is never larger than the subheadline |
| Tables.LineSpacing | main.py:112-118 | `get_line_spacing` is never negative, and for a headline or subheadline is at most a fifth of the font size |
| Tables.MaxTextWidth | main.py:121-125 | the maximum text width is non-negative and no larger than either side of the output |
| Tables.LineSpacingInIntegers | main.py:112-118 | `int(size*0.15)` is `size*15/100` and `int(size*0.2)` is `size/5` |
| Tables.ResolvedTables | main.py:93-125 | for every resolvable size: the fixed-offset fallback and its fonts are never used; headline spacing is 18, 13 or 16; subheadline spacing is 9, 6 or 8; maximum width is 960, 564 or 864 |
| Tables.StoryFontsScaled | main.py:101-105 | the 1080x1920 font sizes are the square ones times 1080/1200, to within a pixel |
| Layout.PlaceLines | main.py:157-164 | the per-line loop draws line k at the block's top plus the heights of the earlier lines plus k spacings, and advances y by the block height (nothing for no lines) |
| Layout.BlockHeight | main.py:143 | a block's height as main.py:143, 199 and 236 compute it; a block of no lines comes out at minus one line spacing |
| Layout.LastLineBottom | main.py:143 | the block height is where the last line of a block ends |
| Layout.BlockStacked | main.py:157-164 | within a block, lines run downwards without overlapping, and the last ends where the loop leaves y |
| Layout.MakeBlock | main.py:130-138 | a block is added exactly when its text is non-empty, holding the text wrapped in the font of its kind |
| Layout.StackHeight | main.py:140-144 | the loop sums the block heights |
| Layout.Gaps | main.py:146-151 | the spacings list has one entry per adjacent pair of blocks, and each is 24 or 164 |
| Layout.StackGaps | main.py:146-151 | the loop builds one spacing per adjacent pair of blocks |
| Layout.DrawStack | main.py:155-166 | the drawing loop places each block's lines from the running cursor, adding the spacing after every block but the last |
| Layout.BottomStack | main.py:129-166 | the bottom-stack branch produces the draw calls and final y of its specification |
| Layout.PresentBlocksShape | main.py:129-138 | the blocks are exactly the non-empty texts, in headline, subheadline, disclaimer order, each wrapped in its own font |
| Layout.PresentKinds | main.py:129-138 | a block of a kind is present exactly when that text is non-empty |
| Layout.OrderedGaps | main.py:146-151 | for ordered blocks, a spacing is 164 exactly when the size is 1080x1920, both a subheadline and a disclaimer are present and it is the last spacing; every other spacing is 24 |
| Layout.GapsRule | main.py:146-151 | the spacing is 164 exactly at 1080x1920, between a subtitle and a disclaimer that are both present, and only as the last spacing |
| Layout.CursorSum | main.py:152-166 | the cursor after b blocks is the start plus their heights, the spacings passed, and one line spacing per block with no lines |
| Layout.BottomStackEndsAtMargin | main.py:143-166 | the final y is `out_h - 50` plus one line spacing per whitespace-only text, and exactly `out_h - 50` when there is none |
| Layout.BottomStackLines | main.py:155-166 | the stack draws exactly the wrapped headline, subheadline and disclaimer lines in that order, each at x = `(out_w - w)//2` |
| Layout.StackBlankTail | main.py:155-166 | when the last block has no lines and the one before it has, the last line drawn ends the spacing after that block above the final y |
| Layout.BlankDisclaimerBlocks | main.py:129-138 | with a whitespace-only disclaimer and a non-blank headline or subtitle, the disclaimer's block comes last with no lines, the block before it has lines and is the subheadline's exactly when there is a subtitle, and only the disclaimer's spacing of 10 is lost |
| Layout.BottomStackBlankDisclaimer | main.py:140-166 | in that case the final y is `out_h - 40`, but the last line drawn ends at `out_h - 40 - 24`, or `out_h - 40 - 164` at 1080x1920 after a subtitle |
| Layout.BottomStackStacked | main.py:152-166 | the stack's lines run downwards without overlapping; without whitespace-only texts the last line ends 50 pixels above the bottom edge |
| Layout.PlaceColumnBlock | main.py:172-195 | a column block is drawn from y in the 540-wide column at x = 40, and y then advances by its height plus 28 |
| Layout.PlaceSideDisclaimer | main.py:196-205 | the 1200x628 disclaimer is drawn right-aligned from `out_h - 40 - total_height` |
| Layout.TopPinned | main.py:169-205 | the 1200x628 branch produces the draw calls of its specification |
| Layout.ColumnLayout | main.py:169-195 | the column shows the wrapped headline then subheadline, each line at `40 + (540 - w)//2`, with the headline's first line at y = 40 |
| Layout.ColumnStacked | main.py:169-195 | the column's lines run downwards without overlapping |
| Layout.SubtitleBelowHeadline | main.py:172-195 | the subheadline starts 28 pixels below the headline's last line, at y = 40 without a headline, and at y = 68 after a whitespace-only headline |
| Layout.SideDisclaimerLayout | main.py:196-205 | each disclaimer line has x = `out_w - w - 40`; the lines run downwards and the last ends at `out_h - 40`, whatever the headline and subtitle |
| Layout.TopPinnedLines | main.py:169-205 | the 1200x628 layout draws exactly the wrapped headline, subheadline and disclaimer lines in order |
| Layout.PlaceCentredBlock | main.py:208-232 | a fallback block is drawn centred from its fixed top |
| Layout.FixedOffset | main.py:207-242 | the fallback branch produces the draw calls of its specification |
| Layout.CentredBlockLayout | main.py:208-242 | a fallback block draws its wrapped lines, centred, running downwards from its top, ending one block height below it |
| Layout.FixedOffsetLines | main.py:207-242 | the fallback draws exactly the wrapped headline, subheadline and disclaimer lines in order, all centred |
| Layout.FixedOffsetPositions | main.py:208-242 | the fallback headline starts at y = 100, and the last disclaimer line ends at `out_h - 90` |
| Layout.LayoutText | main.py:128-242 | the text layer uses the strategy, fonts and maximum width of the output size |
| Layout.LayoutDrawsAllText | main.py:128-242 | at every size the text layer draws exactly the wrapped headline, subheadline and disclaimer lines, in order |
| Layout.BlankTextDrawsNothing | main.py:128-242 | empty or whitespace-only texts draw nothing |
| Banner.Process | main.py:26-248 | processing fails exactly for a photo with a zero side, and otherwise yields one banner at the given path |
| Banner.ProcessImage | main.py:26-248 | `process_image` returns the banners of its specification, or the division-by-zero error |
| Banner.ProcessOutcome | main.py:28-74 | processing fails exactly for a photo with a zero side; otherwise it saves exactly one banner, at the given output path, at the resolved size |
| Banner.BannerCropCovers | main.py:73-82 | the saved banner's crop is exactly its size, inside the resized photo and centred |
| Banner.BannerText | main.py:93-242 | the saved banner shows exactly the wrapped texts, and is never laid out by the fallback |

## Left out

- The FastAPI endpoint, the upload's temporary file and its removal (main.py:250-267): I/O.
- Image decoding, LANCZOS resampling, overlay loading and resizing, alpha compositing and
  saving. These are pixel operations of the imaging library. The model keeps the crop geometry
  and the draw calls.
- Font loading and glyph metrics. `ImageFont.truetype` becomes a `Font` value, naming the file
  its face is loaded from. `draw.textbbox` becomes the `Measure` parameter.
- Floating point. Apart from the near-square test, all arithmetic uses exact reals. For the four sizes the float products
  `size * 0.15` and `size * 0.2` give the same integers as exact arithmetic. This was checked by
  hand; `LineSpacingInIntegers` gives the exact-arithmetic values. `Crop.CoverCrop` does not model IEEE rounding
  of `out_w / width * width`, which may come out one below the output size.
- The multi-size branch of output naming (main.py:68-70). The resolver always yields exactly one
  size (`Sizes.Resolve`), so that branch never runs. `os.path.splitext` is not part of this model.
- The y that the disclaimer loops leave behind (main.py:205, 242). It includes a spacing after
  the last line but is never read again, so it changes no draw call.
- Sizes.NearSquarePhoto, Sizes.ResolveAuto: the double-precision outcome of
  `abs(width / height - 1.0) < 0.15` is worked out by hand, not proved in Dafny. The quotient
  and the subtraction are exact or correctly rounded, so only a ratio within one rounding step
  of 1.15 or 0.85 can change the answer. Such a ratio is exactly 23:20 or 17:20 for any height
  below about 10^14. 1.15 rounds down and counts as near-square; 0.85 rounds down and does not.
- A photo with a zero side is an error in the model. The imaging library may refuse such a
  photo earlier, when it decodes it.
