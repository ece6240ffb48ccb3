/** The size resolver of process_image (main.py:28-60): a banner-size selector, or the photo's
    aspect ratio when the selector is "auto", chooses one output size and its overlay asset. */
module Sizes {

  /** An output size in pixels, (width, height). */
  datatype Size = Size(w: nat, h: nat)

  /** One output size and the path of the overlay drawn over the photo at that size. */
  datatype OutputSpec = OutputSpec(size: Size, overlay: string)

  const Square := Size(1200, 1200)
  const Portrait := Size(1200, 1500)
  const Landscape := Size(1200, 628)
  const Story := Size(1080, 1920)

  /** The overlay asset for a size name: Overlay/<name>.png. */
  function OverlayFile(name: string): string {
    "Overlay/" + name + ".png"
  }

  /** The selectors a caller may name, each with its overlay and size (main.py:45-50). */
  const SizeMapping: map<string, OutputSpec> := map[
    "1200x1200" := OutputSpec(Square, OverlayFile("1200x1200")),
    "1200x1500" := OutputSpec(Portrait, OverlayFile("1200x1500")),
    "1200x628" := OutputSpec(Landscape, OverlayFile("1200x628")),
    "1080x1920" := OutputSpec(Story, OverlayFile("1080x1920"))
  ]

  function Abs(x: real): real {
    if x < 0.0 then -x else x
  }

  /** abs(aspect_ratio - 1.0) < 0.15, in exact arithmetic. */
  predicate NearSquare(aspect: real) {
    Abs(aspect - 1.0) < 0.15
  }

  /** The outcome of abs(w / h - 1.0) < 0.15 (main.py:29, main.py:34) in double precision, for a
      photo of w x h pixels. It is the exact test except at the ratio 23:20: the double nearest
      1.15, less 1, lies below the double nearest 0.15, so a 23:20 photo counts as near-square.
      At 17:20 the rounding goes the other way and the exact answer stands. This agreement
      with the double test holds for heights below about 10^14; nearer ratios than 1 / (20 h)
      would need a taller photo. */
  predicate NearSquarePhoto(w: nat, h: nat) {
    if w >= h then 20 * (w - h) <= 3 * h else 20 * (h - w) < 3 * h
  }

  /** The output size and overlay chosen for `selector` and a photo of w x h pixels; with
      "auto", width / height > 1.0 is w > h. */
  function Resolve(selector: string, w: nat, h: nat): (spec: OutputSpec)
    ensures spec in SizeMapping.Values
  {
    assert SizeMapping["1200x1200"] == OutputSpec(Square, OverlayFile("1200x1200"));
    assert SizeMapping["1200x628"] == OutputSpec(Landscape, OverlayFile("1200x628"));
    assert SizeMapping["1200x1500"] == OutputSpec(Portrait, OverlayFile("1200x1500"));
    if selector == "auto" then
      if NearSquarePhoto(w, h) then OutputSpec(Square, OverlayFile("1200x1200"))
      else if w > h then OutputSpec(Landscape, OverlayFile("1200x628"))
      else OutputSpec(Portrait, OverlayFile("1200x1500"))
    else if selector !in SizeMapping then
      SizeMapping["1200x1200"]
    else
      SizeMapping[selector]
  }

  function Digit(d: nat): char
    requires d < 10
  {
    ('0' as int + d) as char
  }

  /** The decimal digits of n. */
  function Decimal(n: nat): (s: string)
    ensures |s| >= 1
  {
    if n < 10 then [Digit(n)] else Decimal(n / 10) + [Digit(n % 10)]
  }

  /** "WxH", the name of a size in selectors and overlay file names. */
  function SizeName(size: Size): string {
    Decimal(size.w) + "x" + Decimal(size.h)
  }

  lemma DecimalOf1200()
    ensures Decimal(1200) == "1200"
  {
    assert Decimal(12) == "12" by { assert Decimal(1) == "1"; }
    assert Decimal(120) == "120";
  }

  lemma DecimalOf1500()
    ensures Decimal(1500) == "1500"
  {
    assert Decimal(15) == "15" by { assert Decimal(1) == "1"; }
    assert Decimal(150) == "150";
  }

  lemma DecimalOf628()
    ensures Decimal(628) == "628"
  {
    assert Decimal(62) == "62" by { assert Decimal(6) == "6"; }
  }

  lemma DecimalOf1080()
    ensures Decimal(1080) == "1080"
  {
    assert Decimal(10) == "10" by { assert Decimal(1) == "1"; }
    assert Decimal(108) == "108";
  }

  lemma DecimalOf1920()
    ensures Decimal(1920) == "1920"
  {
    assert Decimal(19) == "19" by { assert Decimal(1) == "1"; }
    assert Decimal(192) == "192";
  }

  /** The names of the four sizes. */
  lemma SizeNames()
    ensures SizeName(Square) == "1200x1200" && SizeName(Portrait) == "1200x1500"
    ensures SizeName(Landscape) == "1200x628" && SizeName(Story) == "1080x1920"
  {
    DecimalOf1200();
    DecimalOf1500();
    DecimalOf628();
    DecimalOf1080();
    DecimalOf1920();
  }

  /** Auto selection: square exactly when the aspect ratio is within 0.15 of 1, as the program
      computes it, landscape when it is wider than that, portrait otherwise; auto never picks
      1080x1920. */
  lemma ResolveAuto(w: nat, h: nat)
    ensures Resolve("auto", w, h).size == Square <==> NearSquarePhoto(w, h)
    ensures Resolve("auto", w, h).size == Landscape <==> !NearSquarePhoto(w, h) && w > h
    ensures Resolve("auto", w, h).size == Portrait <==> !NearSquarePhoto(w, h) && w <= h
    ensures Resolve("auto", w, h).size != Story
  {
  }

  /** The test of main.py:34 and main.py:37 in exact arithmetic, for a photo of w x h pixels:
      |w/h - 1| < 0.15 exactly when |w - h| * 100 < 15 * h, and w/h > 1 exactly when w > h. */
  lemma NearSquareInIntegers(w: nat, h: nat)
    requires h > 0
    ensures NearSquare(w as real / h as real) <==> (if w >= h then w - h else h - w) * 100 < 15 * h
    ensures w as real / h as real > 1.0 <==> w > h
  {
    var hr := h as real;
    var d := if w >= h then w - h else h - w;
    ShiftByOne(w as real, hr);
    if w >= h {
      assert Abs((w - h) as real / hr) == d as real / hr;
    } else {
      NegDiv((h - w) as real, hr);
      assert Abs((w - h) as real / hr) == d as real / hr;
    }
    DivBelow(d as real, hr, 0.15);
    assert (d * 100 < 15 * h) == (d as real < 0.15 * hr);
    DivBelow(w as real, hr, 1.0);
  }

  lemma DivBelow(x: real, y: real, c: real)
    requires y > 0.0
    ensures x / y < c <==> x < c * y
    ensures x / y > c <==> x > c * y
  {
    assert x / y * y == x;
  }

  lemma ZeroFactor(z: real, y: real)
    requires y > 0.0 && z * y == 0.0
    ensures z == 0.0
  {
  }

  lemma ShiftByOne(x: real, y: real)
    requires y > 0.0
    ensures x / y - 1.0 == (x - y) / y
  {
    var a, b := x / y, (x - y) / y;
    assert a * y == x;
    assert b * y == x - y;
    assert (a - 1.0 - b) * y == a * y - y - b * y;
    ZeroFactor(a - 1.0 - b, y);
  }

  lemma NegDiv(x: real, y: real)
    requires y > 0.0
    ensures (-x) / y == -(x / y)
  {
    assert (-x) / y * y == -x;
  }

  /** A named size is used as given, whatever the photo's shape, and its overlay is the file
      named after the selector. */
  lemma ResolveKnown(selector: string, w: nat, h: nat)
    requires selector in SizeMapping
    ensures Resolve(selector, w, h) == SizeMapping[selector]
  {
  }

  /** A named size is the size its selector spells, drawn with the overlay named after it. */
  lemma SelectorNamesSize(selector: string, w: nat, h: nat)
    requires selector in SizeMapping
    ensures SizeName(Resolve(selector, w, h).size) == selector
    ensures Resolve(selector, w, h).overlay == "Overlay/" + selector + ".png"
  {
    ResolveKnown(selector, w, h);
    assert selector in {"1200x1200", "1200x1500", "1200x628", "1080x1920"};
    EntryNamed(selector);
  }

  /** Each entry of the mapping is keyed by its size's name and names its overlay after it. */
  lemma EntryNamed(selector: string)
    requires selector in {"1200x1200", "1200x1500", "1200x628", "1080x1920"}
    ensures selector in SizeMapping
    ensures SizeName(SizeMapping[selector].size) == selector
    ensures SizeMapping[selector].overlay == "Overlay/" + selector + ".png"
  {
    if selector == "1200x1200" {
      assert SizeMapping[selector] == OutputSpec(Square, OverlayFile("1200x1200"));
    } else if selector == "1200x1500" {
      assert SizeMapping[selector] == OutputSpec(Portrait, OverlayFile("1200x1500"));
    } else if selector == "1200x628" {
      assert SizeMapping[selector] == OutputSpec(Landscape, OverlayFile("1200x628"));
    } else {
      assert SizeMapping[selector] == OutputSpec(Story, OverlayFile("1080x1920"));
    }
    assert SizeName(SizeMapping[selector].size) == selector by {
      SizeNames();
    }
  }

  /** Any other selector silently behaves as "1200x1200". */
  lemma ResolveUnknown(selector: string, w: nat, h: nat, w2: nat, h2: nat)
    requires selector != "auto" && selector !in SizeMapping
    ensures Resolve(selector, w, h) == Resolve("1200x1200", w2, h2)
  {
  }

  /** Every resolved overlay is the file named after the resolved size, and naming the resolved
      size as the selector gives back the same choice. */
  lemma OverlayMatchesSize(selector: string, w: nat, h: nat)
    ensures Resolve(selector, w, h).overlay == "Overlay/" + SizeName(Resolve(selector, w, h).size) + ".png"
    ensures Resolve(SizeName(Resolve(selector, w, h).size), w, h) == Resolve(selector, w, h)
  {
    SizeNames();
  }

  /** The program's near-square test differs from the exact one only at the ratio 23:20, which
      the program counts as near-square and exact arithmetic does not. */
  lemma NearSquareRounding(w: nat, h: nat)
    requires h > 0
    ensures NearSquarePhoto(w, h) <==> NearSquare(w as real / h as real) || 20 * w == 23 * h
    ensures 20 * w == 23 * h ==> !NearSquare(w as real / h as real)
  {
    NearSquareInIntegers(w, h);
  }

  /** Every photo of ratio 23:20, 1150 x 1000 say, gets the 1200x1200 banner, although its
      exact ratio is 0.15 away from 1. */
  lemma Ratio23To20(k: nat)
    requires k > 0
    ensures Resolve("auto", 23 * k, 20 * k).size == Square
    ensures !NearSquare((23 * k) as real / (20 * k) as real)
  {
    NearSquareRounding(23 * k, 20 * k);
  }
}
