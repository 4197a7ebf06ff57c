/** `_make_square_padding`: the chart image is centred on a square
    opaque-white canvas whose side is the largest of the requested size,
    the width and the height; an optional tint is composited over the whole
    canvas; the result is saved without its alpha channel.

    The decoded image is an input (reading and writing files is not
    modelled).  PIL's per-pixel arithmetic is a parameter: `mix` is what
    `paste` with the image as its own mask makes of a canvas pixel and a
    source pixel, `blend` what `alpha_composite` makes of a canvas pixel
    and the overlay pixel.  The laws below are the two exact cases PIL
    guarantees. */
module Padding {
  import opened Wrappers
  import Rgba

  /** An RGBA pixel, channels 0..255. */
  datatype Pixel = Pixel(r: int, g: int, b: int, a: int)

  /** A pixel after `convert("RGB")`. */
  datatype Rgb = Rgb(r: int, g: int, b: int)

  const White: Pixel := Pixel(255, 255, 255, 255)

  /** `convert("RGB")` drops the alpha channel. */
  function ToRgb(p: Pixel): Rgb
  {
    Rgb(p.r, p.g, p.b)
  }

  /** A decoded RGBA image of `w` by `h` pixels; `rows[y][x]` is the
      pixel in column x of row y. */
  datatype Raster = Raster(w: nat, h: nat, rows: seq<seq<Pixel>>)
  {
    ghost predicate Valid()
    {
      |rows| == h && forall y :: 0 <= y < h ==> |rows[y]| == w
    }
  }

  /** Pasting through an opaque mask pixel copies the source pixel;
      through a fully transparent one it keeps the canvas pixel. */
  ghost predicate PasteLaw(mix: (Pixel, Pixel) -> Pixel)
  {
    forall c: Pixel, s: Pixel :: (s.a == 255 ==> mix(c, s) == s) && (s.a == 0 ==> mix(c, s) == c)
  }

  /** Compositing a fully transparent overlay pixel keeps the canvas
      pixel. */
  ghost predicate CompositeLaw(blend: (Pixel, Pixel) -> Pixel)
  {
    forall p: Pixel, o: Pixel :: o.a == 0 ==> blend(p, o) == p
  }

  /** `max(size, w, h)`: the canvas side. */
  function Dim(size: int, w: nat, h: nat): (dim: nat)
    ensures dim >= size && dim >= w && dim >= h
    ensures dim == size || dim == w || dim == h
  {
    if size >= w && size >= h then size else if w >= h then w else h
  }

  /** `(dim - extent) // 2`: the offset that centres `extent` pixels in
      `dim`.  The margins on the two sides differ by at most one pixel,
      the larger one after the image. */
  function Offset(dim: nat, extent: nat): (o: nat)
    requires extent <= dim
    ensures o + extent <= dim
    ensures var after := dim - extent - o; o <= after <= o + 1
  {
    (dim - extent) / 2
  }

  /** The point (x, y) of the canvas is covered by the image pasted at
      (px, py). */
  predicate Inside(x: int, y: int, px: int, py: int, w: nat, h: nat)
  {
    px <= x < px + w && py <= y < py + h
  }

  /** Canvas pixel (x, y) after the paste. */
  function PaddedPixel(img: Raster, size: int, mix: (Pixel, Pixel) -> Pixel, x: int, y: int): Pixel
    requires img.Valid()
  {
    var dim := Dim(size, img.w, img.h);
    var px := Offset(dim, img.w);
    var py := Offset(dim, img.h);
    if Inside(x, y, px, py, img.w, img.h) then mix(White, img.rows[y - py][x - px]) else White
  }

  /** Pixel (x, y) of the saved image, row y first. */
  function FinalPixel(img: Raster, size: int, overlay: Option<Pixel>,
                      mix: (Pixel, Pixel) -> Pixel, blend: (Pixel, Pixel) -> Pixel, x: int, y: int): Rgb
    requires img.Valid()
  {
    var p := PaddedPixel(img, size, mix, x, y);
    ToRgb(if overlay.Some? then blend(p, overlay.value) else p)
  }

  /** The image `_make_square_padding` saves: square, side `Dim`. */
  function FinalImage(img: Raster, size: int, overlay: Option<Pixel>,
                      mix: (Pixel, Pixel) -> Pixel, blend: (Pixel, Pixel) -> Pixel): (rows: seq<seq<Rgb>>)
    requires img.Valid()
    ensures |rows| == Dim(size, img.w, img.h)
    ensures forall y :: 0 <= y < |rows| ==> |rows[y]| == |rows|
  {
    var dim := Dim(size, img.w, img.h);
    seq(dim, y => seq(dim, x => FinalPixel(img, size, overlay, mix, blend, x, y)))
  }

  /** The canvas: a square grid of pixels, `grid[x, y]` at column x and
      row y. */
  class Canvas {
    const side: nat
    const grid: array2<Pixel>

    ghost predicate Valid()
      reads this
    {
      grid.Length0 == side && grid.Length1 == side
    }

    /** `Image.new("RGBA", (side, side), (255, 255, 255, 255))`. */
    constructor (side: nat)
      ensures Valid() && this.side == side && fresh(grid)
      ensures forall x, y :: 0 <= x < side && 0 <= y < side ==> grid[x, y] == White
    {
      this.side := side;
      grid := new Pixel[side, side]((x, y) => White);
    }

    /** `paste(img, (px, py), img)`: every pixel of the image is mixed into
        the canvas pixel it lands on; every other pixel is left alone. */
    method Paste(img: Raster, px: nat, py: nat, mix: (Pixel, Pixel) -> Pixel)
      requires Valid() && img.Valid()
      requires px + img.w <= side && py + img.h <= side
      modifies grid
      ensures forall x, y :: 0 <= x < side && 0 <= y < side ==>
                grid[x, y] == if Inside(x, y, px, py, img.w, img.h)
                              then mix(old(grid[x, y]), img.rows[y - py][x - px])
                              else old(grid[x, y])
    {
      for j := 0 to img.h
        invariant forall x, y :: 0 <= x < side && 0 <= y < side ==>
                    grid[x, y] == if Inside(x, y, px, py, img.w, j)
                                  then mix(old(grid[x, y]), img.rows[y - py][x - px])
                                  else old(grid[x, y])
      {
        for i := 0 to img.w
          invariant forall x, y :: 0 <= x < side && 0 <= y < side ==>
                      grid[x, y] == if Inside(x, y, px, py, img.w, j) || (y == py + j && px <= x < px + i)
                                    then mix(old(grid[x, y]), img.rows[y - py][x - px])
                                    else old(grid[x, y])
        {
          grid[px + i, py + j] := mix(grid[px + i, py + j], img.rows[j][i]);
        }
      }
    }

    /** `Image.alpha_composite(self, overlay)` with a one-colour overlay of
        the same size: a new canvas, each pixel blended with the colour. */
    method Composite(colour: Pixel, blend: (Pixel, Pixel) -> Pixel) returns (c: Canvas)
      requires Valid()
      ensures fresh(c) && fresh(c.grid) && c.Valid() && c.side == side
      ensures forall x, y :: 0 <= x < side && 0 <= y < side ==> c.grid[x, y] == blend(grid[x, y], colour)
    {
      c := new Canvas(side);
      for y := 0 to side
        invariant c.Valid() && c.side == side && fresh(c.grid)
        invariant forall x, y' :: 0 <= x < side && 0 <= y' < y ==> c.grid[x, y'] == blend(grid[x, y'], colour)
      {
        for x := 0 to side
          invariant forall x', y' :: 0 <= x' < side && 0 <= y' < y ==> c.grid[x', y'] == blend(grid[x', y'], colour)
          invariant forall x' :: 0 <= x' < x ==> c.grid[x', y] == blend(grid[x', y], colour)
        {
          c.grid[x, y] := blend(grid[x, y], colour);
        }
      }
    }

    /** `convert("RGB")`, row by row. */
    function Rgb(): (rows: seq<seq<Rgb>>)
      requires Valid()
      reads this, grid
      ensures |rows| == side && forall y :: 0 <= y < side ==> |rows[y]| == side
      ensures forall x, y :: 0 <= x < side && 0 <= y < side ==> rows[y][x] == ToRgb(grid[x, y])
    {
      seq(side, y requires 0 <= y < side reads this, grid =>
        seq(side, x requires 0 <= x < side reads this, grid => ToRgb(grid[x, y])))
    }
  }

  /** The canvas holds the padded image, tinted by `overlay` if given. */
  ghost predicate Shows(canvas: Canvas, img: Raster, size: int, overlay: Option<Pixel>,
                        mix: (Pixel, Pixel) -> Pixel, blend: (Pixel, Pixel) -> Pixel)
    requires img.Valid()
    reads canvas, canvas.grid
  {
    canvas.Valid() && canvas.side == Dim(size, img.w, img.h) &&
    forall x, y :: 0 <= x < canvas.side && 0 <= y < canvas.side ==>
      canvas.grid[x, y] == (if overlay.Some? then blend(PaddedPixel(img, size, mix, x, y), overlay.value)
                            else PaddedPixel(img, size, mix, x, y))
  }

  /** Such a canvas converts to FinalImage. */
  lemma ShowsFinal(canvas: Canvas, img: Raster, size: int, overlay: Option<Pixel>,
                   mix: (Pixel, Pixel) -> Pixel, blend: (Pixel, Pixel) -> Pixel)
    requires img.Valid() && Shows(canvas, img, size, overlay, mix, blend)
    ensures canvas.Rgb() == FinalImage(img, size, overlay, mix, blend)
  {
    var a := canvas.Rgb();
    var b := FinalImage(img, size, overlay, mix, blend);
    forall y | 0 <= y < |a| ensures a[y] == b[y] {
      forall x | 0 <= x < |a| ensures a[y][x] == b[y][x] {
      }
    }
  }

  /** What was saved and where. */
  datatype Written = Written(path: string, image: seq<seq<Rgb>>)

  /** The overlay colour: the parsed channels with alpha
      `int(255 * overlay_opacity)`; the parsed alpha is not used. */
  function OverlayColour(c: Rgba.Colour, overlayAlpha: int): Pixel
  {
    Pixel(c.r, c.g, c.b, overlayAlpha)
  }

  /** `_make_square_padding(img_path, save_path, size, overlay_rgba,
      overlay_opacity)` for the decoded image `img`, with `overlayAlpha`
      standing for `int(255 * overlay_opacity)`.  It fails exactly when
      an overlay string is given that does not parse, and then saves
      nothing; otherwise it saves FinalImage to `save_path`, or over
      `img_path` when no `save_path` is given. */
  method MakeSquarePadding(imgPath: string, savePath: Option<string>, size: int,
                           overlayRgba: Option<string>, overlayAlpha: int, img: Raster,
                           mix: (Pixel, Pixel) -> Pixel, blend: (Pixel, Pixel) -> Pixel)
    returns (r: Result<Written, Rgba.ParseError>)
    requires img.Valid()
    ensures overlayRgba.None? ==> r == Ok(Written(savePath.GetOr(imgPath), FinalImage(img, size, None, mix, blend)))
    ensures overlayRgba.Some? && Rgba.RgbaStrToTuple(overlayRgba.value).Err? ==>
              r == Err(Rgba.RgbaStrToTuple(overlayRgba.value).error)
    ensures overlayRgba.Some? && Rgba.RgbaStrToTuple(overlayRgba.value).Ok? ==>
              r == Ok(Written(savePath.GetOr(imgPath),
                              FinalImage(img, size, Some(OverlayColour(Rgba.RgbaStrToTuple(overlayRgba.value).value, overlayAlpha)), mix, blend)))
  {
    var dim := Dim(size, img.w, img.h);
    var canvas := new Canvas(dim);
    var px := Offset(dim, img.w);
    var py := Offset(dim, img.h);
    canvas.Paste(img, px, py, mix);
    assert Shows(canvas, img, size, None, mix, blend);
    var overlay: Option<Pixel> := None;
    if overlayRgba.Some? {
      var parsed := Rgba.RgbaStrToTuple(overlayRgba.value);
      if parsed.Err? {
        return Err(parsed.error);
      }
      overlay := Some(OverlayColour(parsed.value, overlayAlpha));
      canvas := canvas.Composite(overlay.value, blend);
      assert Shows(canvas, img, size, overlay, mix, blend);
    }
    var path := if savePath.None? then imgPath else savePath.value;
    ShowsFinal(canvas, img, size, overlay, mix, blend);
    r := Ok(Written(path, canvas.Rgb()));
  }

  /** An opaque source pixel reaches the saved image unchanged when there
      is no overlay. */
  lemma OpaqueSourceKept(img: Raster, size: int, mix: (Pixel, Pixel) -> Pixel, blend: (Pixel, Pixel) -> Pixel, i: nat, j: nat)
    requires img.Valid() && PasteLaw(mix)
    requires i < img.w && j < img.h && img.rows[j][i].a == 255
    ensures var dim := Dim(size, img.w, img.h);
            var x, y := Offset(dim, img.w) + i, Offset(dim, img.h) + j;
            x < dim && y < dim && FinalImage(img, size, None, mix, blend)[y][x] == ToRgb(img.rows[j][i])
  {
  }

  /** Without an overlay every pixel outside the pasted rectangle is
      white, and so is every pixel under a fully transparent source
      pixel. */
  lemma MarginWhite(img: Raster, size: int, mix: (Pixel, Pixel) -> Pixel, blend: (Pixel, Pixel) -> Pixel, x: nat, y: nat)
    requires img.Valid() && PasteLaw(mix)
    requires x < Dim(size, img.w, img.h) && y < Dim(size, img.w, img.h)
    ensures var dim := Dim(size, img.w, img.h);
            var px, py := Offset(dim, img.w), Offset(dim, img.h);
            !Inside(x, y, px, py, img.w, img.h) || img.rows[y - py][x - px].a == 0 ==>
              FinalImage(img, size, None, mix, blend)[y][x] == Rgb(255, 255, 255)
  {
  }

  /** An overlay of alpha 0 leaves the saved image as it would be without
      one. */
  lemma ClearOverlay(img: Raster, size: int, colour: Pixel, mix: (Pixel, Pixel) -> Pixel, blend: (Pixel, Pixel) -> Pixel)
    requires img.Valid() && CompositeLaw(blend) && colour.a == 0
    ensures FinalImage(img, size, Some(colour), mix, blend) == FinalImage(img, size, None, mix, blend)
  {
    var a := FinalImage(img, size, Some(colour), mix, blend);
    var b := FinalImage(img, size, None, mix, blend);
    forall y | 0 <= y < |a| ensures a[y] == b[y] {
      assert forall x :: 0 <= x < |a| ==> a[y][x] == b[y][x];
    }
  }

  /** An opaque square image at least `size` wide comes back as it was,
      without its alpha channel. */
  lemma OpaqueSquareUnchanged(img: Raster, size: int, mix: (Pixel, Pixel) -> Pixel, blend: (Pixel, Pixel) -> Pixel)
    requires img.Valid() && PasteLaw(mix)
    requires img.w == img.h >= size
    requires forall y, x :: 0 <= y < img.h && 0 <= x < img.w ==> img.rows[y][x].a == 255
    ensures FinalImage(img, size, None, mix, blend) ==
              seq(img.h, y requires 0 <= y < img.h => seq(img.w, x requires 0 <= x < img.w => ToRgb(img.rows[y][x])))
  {
    var a := FinalImage(img, size, None, mix, blend);
    var b := seq(img.h, y requires 0 <= y < img.h => seq(img.w, x requires 0 <= x < img.w => ToRgb(img.rows[y][x])));
    assert Dim(size, img.w, img.h) == img.w;
    assert Offset(img.w, img.w) == 0;
    forall y | 0 <= y < |a| ensures a[y] == b[y] {
      assert forall x :: 0 <= x < |a| ==> a[y][x] == b[y][x];
    }
  }
}
