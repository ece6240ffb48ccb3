/** Fonts, block kinds and the text-measurement capability that the layout code consumes. */
module Fonts {

  /** The two type faces loaded from the Fonts/ directory. */
  datatype Face = HeadlineFace | TextFace {
    function Path(): string {
      match this
      case HeadlineFace => "Fonts/YangoGroupHeadline-HeavyArabic.ttf"
      case TextFace => "Fonts/YangoGroupText-Medium.ttf"
    }
  }

  /** A TrueType face loaded at a pixel size. */
  datatype Font = Font(face: Face, size: nat)

  /** The right (index 2) and bottom (index 3) of the bounding box of a line drawn at (0, 0). */
  datatype Box = Box(w: int, h: int)

  /** Text measurement: the glyph metrics of a line in a font. It stands for the rendering
      backend's bounding-box query, which the model does not interpret. */
  type Measure = (string, Font) -> Box

  /** The three optional text blocks of a banner, in drawing order. */
  datatype Kind = Headline | Subheadline | Disclaimer

  /** The three strings of a request; the empty string means "omit this block". */
  datatype Texts = Texts(headline: string, subtitle: string, disclaimer: string) {
    function Of(k: Kind): string {
      match k
      case Headline => headline
      case Subheadline => subtitle
      case Disclaimer => disclaimer
    }
  }

  /** The fonts chosen for one output size, one per block kind. */
  datatype FontSet = FontSet(headline: Font, subheadline: Font, disclaimer: Font) {
    function For(k: Kind): Font {
      match k
      case Headline => headline
      case Subheadline => subheadline
      case Disclaimer => disclaimer
    }
  }
}
