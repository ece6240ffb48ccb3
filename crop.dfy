/** The cover-crop geometry of process_image (main.py:72-82): scale the photo so that it
    covers the output size, then cut the output rectangle out of its middle. */
module Crop {

  /** The resized photo's size and the crop box (left, top, right, bottom) cut from it. */
  datatype CropBox = CropBox(newW: int, newH: int, left: int, top: int, right: int, bottom: int)

  function Max(a: real, b: real): real {
    if a >= b then a else b
  }

  /** x * (a / x) == a, for a positive x. */
  lemma ScaleBack(x: real, a: real)
    requires x > 0.0
    ensures x * (a / x) == a
  {
  }

  lemma DivSelf(x: real)
    requires x > 0.0
    ensures x / x == 1.0
  {
    ScaleBack(x, x);
    assert x * (x / x - 1.0) == 0.0;
  }

  /** A scale at least a / x takes x to at least a. */
  lemma ScaleCovers(x: real, a: real, scale: real)
    requires x > 0.0 && scale >= a / x
    ensures x * scale >= a
  {
    ScaleBack(x, a);
    assert x * scale - x * (a / x) == x * (scale - a / x);
  }

  /** Comparing a / x with b / y is comparing a * y with b * x. */
  lemma RatioOrder(a: nat, x: nat, b: nat, y: nat)
    requires x > 0 && y > 0
    ensures a as real / x as real >= b as real / y as real <==> a * y >= b * x
  {
    var p, q := a as real / x as real, b as real / y as real;
    var xy := (x * y) as real;
    ScaleBack(x as real, a as real);
    ScaleBack(y as real, b as real);
    assert p * xy == (x as real * p) * y as real;
    assert q * xy == (y as real * q) * x as real;
    assert p >= q <==> p * xy >= q * xy;
  }

  /** f = int(y * (a / x)) lies within one unit of y * a / x: f * x <= y * a < (f + 1) * x. */
  lemma FloorOfScaled(y: nat, a: nat, x: nat, f: int)
    requires x > 0 && f == (y as real * (a as real / x as real)).Floor
    ensures f * x <= y * a < (f + 1) * x
  {
    var r := y as real * (a as real / x as real);
    var xr := x as real;
    ScaleBack(xr, a as real);
    assert r * xr == y as real * a as real;
    assert f as real <= r < (f + 1) as real;
    assert (f * x) as real == f as real * xr <= r * xr;
    assert r * xr < (f + 1) as real * xr == ((f + 1) * x) as real;
  }

  /** scale = max(out_w / width, out_h / height) (main.py:74). */
  function Scale(w: nat, h: nat, outW: nat, outH: nat): real
    requires w > 0 && h > 0
  {
    Max(outW as real / w as real, outH as real / h as real)
  }

  /** new_w = int(width * scale) (main.py:75). */
  function ResizedW(w: nat, h: nat, outW: nat, outH: nat): int
    requires w > 0 && h > 0
  {
    (w as real * Scale(w, h, outW, outH)).Floor
  }

  /** new_h = int(height * scale) (main.py:76). */
  function ResizedH(w: nat, h: nat, outW: nat, outH: nat): int
    requires w > 0 && h > 0
  {
    (h as real * Scale(w, h, outW, outH)).Floor
  }

  /** When the banner is relatively wider than the photo, the width decides the scale: the
      resized width is the banner's, and the height keeps the photo's proportions. */
  lemma WidthDecides(w: nat, h: nat, outW: nat, outH: nat)
    requires w > 0 && h > 0
    ensures outW * h >= outH * w ==> ResizedW(w, h, outW, outH) == outW
    ensures outW * h >= outH * w ==>
      ResizedH(w, h, outW, outH) * w <= h * outW < (ResizedH(w, h, outW, outH) + 1) * w
  {
    if outW * h >= outH * w {
      RatioOrder(outW, w, outH, h);
      assert Scale(w, h, outW, outH) == outW as real / w as real;
      ScaleBack(w as real, outW as real);
      FloorOfScaled(h, outW, w, ResizedH(w, h, outW, outH));
    }
  }

  /** When the banner is relatively taller than the photo, the height decides the scale. */
  lemma HeightDecides(w: nat, h: nat, outW: nat, outH: nat)
    requires w > 0 && h > 0
    ensures outW * h < outH * w ==> ResizedH(w, h, outW, outH) == outH
    ensures outW * h < outH * w ==>
      ResizedW(w, h, outW, outH) * h <= w * outH < (ResizedW(w, h, outW, outH) + 1) * h
  {
    if outW * h < outH * w {
      RatioOrder(outW, w, outH, h);
      assert Scale(w, h, outW, outH) == outH as real / h as real;
      ScaleBack(h as real, outH as real);
      FloorOfScaled(w, outH, h, ResizedW(w, h, outW, outH));
    }
  }

  /** The resized photo covers the banner on both sides. */
  lemma ResizedCovers(w: nat, h: nat, outW: nat, outH: nat)
    requires w > 0 && h > 0
    ensures ResizedW(w, h, outW, outH) >= outW && ResizedH(w, h, outW, outH) >= outH
  {
    var scale := Scale(w, h, outW, outH);
    ScaleCovers(w as real, outW as real, scale);
    ScaleCovers(h as real, outH as real, scale);
  }

  /** The geometry for a w x h photo and an outW x outH banner. The resized size is truncated
      (int() of a non-negative product) and the offsets are floor-halved. One side is scaled
      to the banner exactly; the other keeps the photo's proportions to within a pixel. */
  function CoverCrop(w: nat, h: nat, outW: nat, outH: nat): (c: CropBox)
    requires w > 0 && h > 0
    ensures c.newW >= outW && c.newH >= outH
    ensures c.newW == outW || c.newH == outH
    ensures c.right - c.left == outW && c.bottom - c.top == outH
    ensures 0 <= c.left && c.right <= c.newW && 0 <= c.top && c.bottom <= c.newH
    ensures c.left <= c.newW - c.right <= c.left + 1
    ensures c.top <= c.newH - c.bottom <= c.top + 1
    ensures outW * h >= outH * w ==> (c.newW == outW && c.newH * w <= h * outW < (c.newH + 1) * w)
    ensures outW * h < outH * w ==> (c.newH == outH && c.newW * h <= w * outH < (c.newW + 1) * h)
  {
    ResizedCovers(w, h, outW, outH);
    WidthDecides(w, h, outW, outH);
    HeightDecides(w, h, outW, outH);
    var newW := ResizedW(w, h, outW, outH);
    var newH := ResizedH(w, h, outW, outH);
    var left := (newW - outW) / 2;
    var top := (newH - outH) / 2;
    CropBox(newW, newH, left, top, left + outW, top + outH)
  }

  /** A photo already at the output size is neither scaled nor cut. */
  lemma CropOfExactSize(outW: nat, outH: nat)
    requires outW > 0 && outH > 0
    ensures CoverCrop(outW, outH, outW, outH) == CropBox(outW, outH, 0, 0, outW, outH)
  {
    var wr, hr := outW as real, outH as real;
    DivSelf(wr);
    DivSelf(hr);
    assert Max(wr / wr, hr / hr) == 1.0;
    assert wr * 1.0 == wr && hr * 1.0 == hr;
    assert wr.Floor == outW && hr.Floor == outH;
  }
}
