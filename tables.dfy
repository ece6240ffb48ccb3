/** The per-size tables of process_image: fonts (main.py:93-109), line spacing
    (main.py:112-118), maximum text width (main.py:121-125) and the choice of anchoring
    strategy (main.py:128, 168, 206). */
module Tables {
  import opened Fonts
  import opened Sizes

  /** The three ways process_image anchors text. */
  datatype Strategy = BottomStack | TopPinned | FixedOffset

  /** main.py:128, 168 and the final else at 206: the fixed-offset fallback is used exactly for
      the sizes no selector names. */
  function StrategyFor(out: Size): (s: Strategy)
    ensures s == FixedOffset <==> forall sel | sel in SizeMapping :: SizeMapping[sel].size != out
  {
    assert SizeMapping["1200x1200"].size == Square && SizeMapping["1200x1500"].size == Portrait;
    assert SizeMapping["1200x628"].size == Landscape && SizeMapping["1080x1920"].size == Story;
    if out in [Square, Portrait, Story] then BottomStack
    else if out == Landscape then TopPinned
    else FixedOffset
  }

  /** The font sizes of the last else branch, main.py:106-109. */
  const FallbackFonts := FontSet(Font(HeadlineFace, 72), Font(TextFace, 48), Font(TextFace, 48))

  /** The headline, subheadline and disclaimer fonts for an output size: the headline is loaded
      from the headline face's file, the other two from the text face's file, and the headline
      is the largest, the disclaimer never larger than the subheadline. */
  function FontsFor(out: Size): (fs: FontSet)
    ensures fs.headline.face.Path() == "Fonts/YangoGroupHeadline-HeavyArabic.ttf"
    ensures fs.subheadline.face.Path() == "Fonts/YangoGroupText-Medium.ttf"
    ensures fs.disclaimer.face.Path() == "Fonts/YangoGroupText-Medium.ttf"
    ensures fs.headline.size > fs.subheadline.size >= fs.disclaimer.size
  {
    if out in [Square, Portrait] then
      FontSet(Font(HeadlineFace, 124), Font(TextFace, 48), Font(TextFace, 14))
    else if out == Landscape then
      FontSet(Font(HeadlineFace, 92), Font(TextFace, 32), Font(TextFace, 12))
    else if out == Story then
      FontSet(Font(HeadlineFace, 111), Font(TextFace, 43), Font(TextFace, 13))
    else
      FallbackFonts
  }

  /** get_line_spacing: int(size * 0.15) for a headline, int(size * 0.2) for a subheadline,
      10 for a disclaimer; int() of a non-negative value is its floor. */
  function LineSpacing(kind: Kind, size: nat): (r: int)
    ensures 0 <= r
    ensures kind != Disclaimer ==> r as real <= size as real / 5.0
  {
    match kind
    case Headline => (size as real * 0.15).Floor
    case Subheadline => (size as real * 0.2).Floor
    case Disclaimer => 10
  }

  /** 564 for 1200x628, otherwise int(0.8 * the shorter side); either way no wider or taller
      than the output. */
  function MaxTextWidth(out: Size): (r: int)
    ensures 0 <= r <= out.w && r <= out.h
  {
    if out == Landscape then 564
    else ((if out.w <= out.h then out.w else out.h) as real * 0.8).Floor
  }

  /** The fractional spacings in integers: 15% and 20% of the font size, rounded down. */
  lemma LineSpacingInIntegers(size: nat)
    ensures LineSpacing(Headline, size) == size * 15 / 100
    ensures LineSpacing(Subheadline, size) == size / 5
  {
    var q, r := size * 15 / 100, size * 15 % 100;
    assert size * 15 == q * 100 + r;
    assert size as real * 0.15 == q as real + r as real / 100.0;
    var q', r' := size / 5, size % 5;
    assert size == q' * 5 + r';
    assert size as real * 0.2 == q' as real + r' as real / 5.0;
  }

  /** For every size the resolver can produce: the anchoring is bottom-stacked or top-pinned
      (never the fixed-offset fallback), the fallback fonts are never used, the spacings are
      18, 13 or 16 for headlines and 9, 6 or 8 for subheadlines, and the maximum width is 564
      for 1200x628, 864 for 1080x1920 and 960 otherwise. */
  lemma ResolvedTables(selector: string, w: nat, h: nat)
    ensures StrategyFor(Resolve(selector, w, h).size) != FixedOffset
    ensures FontsFor(Resolve(selector, w, h).size) != FallbackFonts
    ensures LineSpacing(Headline, FontsFor(Resolve(selector, w, h).size).headline.size)
      == match Resolve(selector, w, h).size
         case Size(1200, 628) => 13
         case Size(1080, 1920) => 16
         case _ => 18
    ensures LineSpacing(Subheadline, FontsFor(Resolve(selector, w, h).size).subheadline.size)
      == match Resolve(selector, w, h).size
         case Size(1200, 628) => 6
         case Size(1080, 1920) => 8
         case _ => 9
    ensures MaxTextWidth(Resolve(selector, w, h).size)
      == match Resolve(selector, w, h).size
         case Size(1200, 628) => 564
         case Size(1080, 1920) => 864
         case _ => 960
  {
    var out := Resolve(selector, w, h).size;
    assert out in {Square, Portrait, Landscape, Story};
    LineSpacingInIntegers(124);
    LineSpacingInIntegers(92);
    LineSpacingInIntegers(111);
    LineSpacingInIntegers(48);
    LineSpacingInIntegers(32);
    LineSpacingInIntegers(43);
  }

  /** The 1080x1920 fonts are the square fonts scaled by 1080/1200, each within one pixel. */
  lemma StoryFontsScaled()
    ensures forall k: Kind :: -1200 < FontsFor(Story).For(k).size * 1200 - FontsFor(Square).For(k).size * 1080 < 1200
  {
  }
}
