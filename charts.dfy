/** What the padded generators share: the background colour drawn first,
    the file names under the output directory and the padding call on the
    saved image. */
module Charts {
  import opened Wrappers
  import opened Draws
  import opened Records
  import Rgba

  /** `bgcolor = self._random_rgba()`: made from the first three draws,
      before any data is drawn. */
  function Background(draws: seq<int>): string
    requires InRange(draws, 0, 3, 220, 255)
  {
    Rgba.RandomRgba(draws, Rgba.DefaultAlpha)
  }

  /** The padding step reads the background back as the first three draws
      and alpha 1. */
  lemma BackgroundReadsBack(draws: seq<int>)
    requires InRange(draws, 0, 3, 220, 255)
    ensures Rgba.RgbaStrToTuple(Background(draws)) == Ok(Rgba.Colour(draws[0], draws[1], draws[2], 1.0))
  {
    Rgba.DefaultAlphaIsOne();
    Rgba.RandomRgbaReadsBack(draws, Rgba.DefaultAlpha);
  }

  /** The files of one run: the image `{base}.{img_format}` and the
      metadata `{base}.json`, both under the output directory, and the
      metadata's `filename` naming the image. */
  ghost predicate Filed(g: Generated, s: Settings, base: string)
  {
    && g.baseName == base
    && g.metadata.filename == WithExtension(base, s.imgFormat)
    && g.imagePath == PathJoin(s.outputDir, g.metadata.filename)
    && g.metadataPath == PathJoin(s.outputDir, WithExtension(base, "json"))
  }

  /** A run whose saved image is then padded to a square of side at least
      `width`, tinted with `overlay` when there is one. */
  function Padded(s: Settings, base: string, overlay: Option<string>, meta: Metadata): (g: Generated)
    requires meta.filename == WithExtension(base, s.imgFormat)
    ensures Filed(g, s, base) && g.metadata == meta
    ensures g.padding == Some(PaddingCall(g.imagePath, s.width, overlay))
  {
    Saved(s, base, Some(PaddingCall(PathJoin(s.outputDir, meta.filename), s.width, overlay)), meta)
  }
}
