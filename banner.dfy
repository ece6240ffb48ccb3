/** process_image (main.py:26-247) without the pixels: for a photo of imgW x imgH pixels it
    resolves the output size, computes the cover crop and the text layer's draw calls, and
    names the output file. Decoding, resampling, compositing and saving are not modelled. */
module Banner {
  import opened Fonts
  import opened Text
  import opened Sizes
  import opened Crop
  import opened Tables
  import opened Layout

  /** The one way process_image fails on a decoded photo: a zero side makes width / height
      (main.py:29) or out_w / width (main.py:74) divide by zero. */
  datatype Error = ZeroDivision

  datatype Result<T> = Success(value: T) | Failure(error: Error)

  /** One saved banner: where it is saved, its size and overlay, the crop of the resized photo
      and the text layer's draw calls. */
  datatype Banner = Banner(path: string, spec: OutputSpec, crop: CropBox, text: seq<Placement>)

  /** The banners process_image saves, in order, or the error it raises. */
  function Process(m: Measure, imgW: nat, imgH: nat, t: Texts, outputPath: string, selector: string): (r: Result<seq<Banner>>)
    ensures r.Failure? <==> imgW == 0 || imgH == 0
    ensures r.Success? ==> |r.value| == 1 && r.value[0].path == outputPath
  {
    if imgH == 0 then Failure(ZeroDivision)
    else
      var spec := Resolve(selector, imgW, imgH);
      if imgW == 0 then Failure(ZeroDivision)
      else
        Success([Banner(outputPath, spec, CoverCrop(imgW, imgH, spec.size.w, spec.size.h),
          LayoutPlacements(m, spec.size, t))])
  }

  /** main.py:26-247: one pass of the loop over the resolved sizes, which always number one, so
      the output keeps the path it was given (main.py:66-67). */
  method ProcessImage(m: Measure, imgW: nat, imgH: nat, t: Texts, outputPath: string, selector: string)
    returns (r: Result<seq<Banner>>)
    ensures r == Process(m, imgW, imgH, t, outputPath, selector)
  {
    if imgH == 0 {
      return Failure(ZeroDivision);
    }
    var specs := [Resolve(selector, imgW, imgH)];
    var results: seq<Banner> := [];
    for i := 0 to |specs|
      invariant imgW > 0 ==> results == if i == 0 then [] else
        [Banner(outputPath, specs[0], CoverCrop(imgW, imgH, specs[0].size.w, specs[0].size.h),
          LayoutPlacements(m, specs[0].size, t))]
      invariant imgW == 0 ==> i == 0
    {
      var spec := specs[i];
      var path := outputPath;
      if imgW == 0 {
        return Failure(ZeroDivision);
      }
      var crop := CoverCrop(imgW, imgH, spec.size.w, spec.size.h);
      var text := LayoutText(m, spec.size, t);
      results := results + [Banner(path, spec, crop, text)];
    }
    return Success(results);
  }

  /** Processing fails exactly when the photo has a zero side; otherwise it saves exactly one
      banner, at the given output path, at the resolved size, with that size's overlay. */
  lemma ProcessOutcome(m: Measure, imgW: nat, imgH: nat, t: Texts, outputPath: string, selector: string)
    ensures Process(m, imgW, imgH, t, outputPath, selector).Failure? <==> imgW == 0 || imgH == 0
    ensures imgW > 0 && imgH > 0 ==>
      |Process(m, imgW, imgH, t, outputPath, selector).value| == 1
      && Process(m, imgW, imgH, t, outputPath, selector).value[0].path == outputPath
      && Process(m, imgW, imgH, t, outputPath, selector).value[0].spec == Resolve(selector, imgW, imgH)
  {
  }

  /** Every banner saved covers its whole size with photo: the crop box is exactly the output
      size, lies inside the resized photo and is centred in it to within a pixel. */
  lemma BannerCropCovers(m: Measure, imgW: nat, imgH: nat, t: Texts, outputPath: string, selector: string)
    requires imgW > 0 && imgH > 0
    ensures var b := Process(m, imgW, imgH, t, outputPath, selector).value[0];
      var c := b.crop;
      c.right - c.left == b.spec.size.w && c.bottom - c.top == b.spec.size.h
      && 0 <= c.left && c.right <= c.newW && 0 <= c.top && c.bottom <= c.newH
      && c.left <= c.newW - c.right <= c.left + 1 && c.top <= c.newH - c.bottom <= c.top + 1
  {
  }

  /** Every banner saved shows exactly the wrapped headline, subheadline and disclaimer, and
      is laid out by one of the two anchored strategies, never the fixed-offset fallback. */
  lemma BannerText(m: Measure, imgW: nat, imgH: nat, t: Texts, outputPath: string, selector: string)
    requires imgW > 0 && imgH > 0
    ensures var b := Process(m, imgW, imgH, t, outputPath, selector).value[0];
      Drawn(b.text) == LinesOf(m, t, FontsFor(b.spec.size), MaxTextWidth(b.spec.size), Headline)
        + LinesOf(m, t, FontsFor(b.spec.size), MaxTextWidth(b.spec.size), Subheadline)
        + LinesOf(m, t, FontsFor(b.spec.size), MaxTextWidth(b.spec.size), Disclaimer)
      && StrategyFor(b.spec.size) != FixedOffset
  {
    var size := Resolve(selector, imgW, imgH).size;
    LayoutDrawsAllText(m, size, t);
    ResolvedTables(selector, imgW, imgH);
  }
}
