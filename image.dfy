/** image.go: packing a batch of equally sized images into one float buffer, with `>> 8` downscaling,
    optional `/ 255` normalisation, an optional BGR swap, and either layout. */
module ImageTensor {

  import opened Wrappers
  import opened Pixels
  import opened Tensor
  import ColorFormat

  /** image.go's `Shape` enum. It is a plain `int`, so values other than these two can reach the packer. */
  const ShapeBHWC: int := 0
  const ShapeBCHW: int := 1

  /** image.go's `ColorFormat` enum, also a plain `int`. */
  const FormatBGR: int := 0
  const FormatRGB: int := 1

  /** The memory layout a shape tag selects (only meaningful for the two known tags). */
  function LayoutOf(shape: int): Layout
  {
    if shape == ShapeBCHW then Planar else Interleaved
  }

  /** One channel as image.go turns it into a float: the top byte, divided by 255 when normalising. */
  function Scale(v: Channel16, normalize: bool): (s: real)
    ensures 0.0 <= s
    ensures normalize ==> s <= 1.0 && s * 255.0 == Shift8(v) as real
    ensures !normalize ==> s <= 255.0 && s == Shift8(v) as real
  {
    if normalize then Shift8(v) as real / 255.0 else Shift8(v) as real
  }

  /** The inline reorder of image.go: BGR swaps the outer values, any other format keeps RGB order. */
  function Reorder<T>(color: int, r: T, g: T, b: T): (t: (T, T, T))
    ensures t.1 == g
  {
    if color == FormatBGR then (b, g, r) else (r, g, b)
  }

  /** The inline reorder is color_format.go's `ColorFormatBGR` for `FormatBGR` and `ColorFormatRGB` otherwise. */
  lemma ReorderIsColorFormat<T>(color: int, r: T, g: T, b: T)
    ensures color == FormatBGR ==> Reorder(color, r, g, b) == ColorFormat.ColorFormatBGR(r, g, b)
    ensures color != FormatBGR ==> Reorder(color, r, g, b) == ColorFormat.ColorFormatRGB(r, g, b)
  {
  }

  /** The value the packer stores for each scalar of the batch. */
  function Values(images: seq<Image>, color: int, normalize: bool): Cell -> real
  {
    (cell: Cell) =>
      if 0 <= cell.n < |images| then
        var p := images[cell.n].at(cell.x, cell.y);
        var t := Reorder(color, Scale(p.r, normalize), Scale(p.g, normalize), Scale(p.b, normalize));
        if cell.c == 0 then t.0 else if cell.c == 1 then t.1 else t.2
      else 0.0
  }

  /** Every image of the batch has the first image's width and height. */
  predicate SameDimensions(images: seq<Image>)
    requires |images| > 0
  {
    forall i :: 0 <= i < |images| ==> images[i].width == images[0].width && images[i].height == images[0].height
  }

  /** What `imageToFloat32` returns once past its size check: an unknown shape tag is reported when
      there is a pixel to visit, and otherwise the batch is packed with the first image's width and
      height through the layout the tag selects. */
  function Packed(images: seq<Image>, shape: int, color: int, normalize: bool): (r: Result<seq<real>, Error>)
    requires |images| > 0
    ensures r.Failure? ==> r.error == InvalidShape && shape != ShapeBCHW && shape != ShapeBHWC
    ensures r.Success? ==> |r.value| == |images| * images[0].height * images[0].width * 3
  {
    if shape != ShapeBCHW && shape != ShapeBHWC && 0 < images[0].width && 0 < images[0].height
    then Failure(InvalidShape)
    else Success(Pack(LayoutOf(shape), images[0].height, images[0].width, |images|, Values(images, color, normalize)))
  }

  /** `imageToFloat32` as written. The width and height come from the first image, and the size check
      runs over `images[:1]`, so it only compares that image with itself and never fails. */
  method ImageToFloat32(images: seq<Image>, shape: int, color: int, normalize: bool) returns (r: Result<seq<real>, Error>)
    requires |images| > 0
    ensures r == Packed(images, shape, color, normalize)
  {
    var width, height := images[0].width, images[0].height;
    var checked := images[..1];
    for k := 0 to |checked| {
      if checked[k].width != width || checked[k].height != height {
        return Failure(DimensionMismatch);
      }
    }
    r := PackBatch(images, shape, color, normalize);
  }

  /** Two images of different sizes go through the size check: the batch is packed with the first
      image's dimensions instead of being refused. */
  lemma SizeCheckMissesMismatch()
    ensures var images := [Blank(1, 1), Blank(2, 2)];
      !SameDimensions(images) && Packed(images, ShapeBHWC, FormatRGB, false).Success? &&
      |Packed(images, ShapeBHWC, FormatRGB, false).value| == 6
  {
    var images := [Blank(1, 1), Blank(2, 2)];
    assert images[1].width != images[0].width;
  }

  /** An all-black image of the given size. */
  function Blank(width: nat, height: nat): Image
  {
    Image(width, height, (x: int, y: int) => Pixel(0, 0, 0))
  }

  /** `imageToFloat32` with the size check over the whole batch, as its error message intends: a batch
      whose images differ in size is refused, and any other batch is packed as before. */
  method ImageToFloat32Checked(images: seq<Image>, shape: int, color: int, normalize: bool) returns (r: Result<seq<real>, Error>)
    requires |images| > 0
    ensures r == if SameDimensions(images) then Packed(images, shape, color, normalize) else Failure(DimensionMismatch)
  {
    var width, height := images[0].width, images[0].height;
    for k := 0 to |images|
      invariant forall i :: 0 <= i < k ==> images[i].width == width && images[i].height == height
    {
      if images[k].width != width || images[k].height != height {
        return Failure(DimensionMismatch);
      }
    }
    r := PackBatch(images, shape, color, normalize);
  }

  /** The packing loops of `imageToFloat32`. The shape tag is checked per pixel, so an unknown tag is
      reported only when there is a pixel to visit. */
  method PackBatch(images: seq<Image>, shape: int, color: int, normalize: bool) returns (r: Result<seq<real>, Error>)
    requires |images| > 0
    ensures r == Packed(images, shape, color, normalize)
  {
    var width, height := images[0].width, images[0].height;
    var batch := |images|;
    var result := new real[batch * height * width * 3];
    ghost var l := LayoutOf(shape);
    ghost var val := Values(images, color, normalize);

    for n := 0 to batch
      invariant result.Length == batch * height * width * 3
      invariant shape == ShapeBCHW || shape == ShapeBHWC || height == 0 || width == 0 || n == 0
      invariant 0 < height && 0 < width ==> Filled(result[..], l, height, width, val, n, 0, 0)
    {
      for y := 0 to height
        invariant shape == ShapeBCHW || shape == ShapeBHWC || width == 0 || y == 0
        invariant 0 < height && 0 < width ==> Filled(result[..], l, height, width, val, n, y, 0)
      {
        for x := 0 to width
          invariant shape == ShapeBCHW || shape == ShapeBHWC || x == 0
          invariant 0 < width ==> Filled(result[..], l, height, width, val, n, y, x)
        {
          var ok := PackPixel(result, images, n, y, x, height, width, shape, color, normalize);
          if !ok {
            return Failure(InvalidShape);
          }
        }
      }
    }
    if 0 < height && 0 < width {
      FilledAll(result[..], l, height, width, batch, val);
    } else {
      assert result[..] == [] == Pack(l, height, width, batch, val);
    }
    return Success(result[..]);
  }

  /** The body of `imageToFloat32`'s pixel loop: reads pixel `(x, y)` of image `n`, downscales and
      optionally normalises it, reorders it, and writes it through the layout `shape` selects;
      `ok` is false exactly when the shape tag is unknown, and then nothing is written. */
  method PackPixel(result: array<real>, images: seq<Image>, n: int, y: int, x: int, height: nat, width: nat,
                   shape: int, color: int, normalize: bool) returns (ok: bool)
    requires result.Length == |images| * height * width * 3
    requires 0 <= n < |images| && 0 <= y < height && 0 <= x < width
    requires Filled(result[..], LayoutOf(shape), height, width, Values(images, color, normalize), n, y, x)
    modifies result
    ensures ok <==> shape == ShapeBCHW || shape == ShapeBHWC
    ensures ok ==> Filled(result[..], LayoutOf(shape), height, width, Values(images, color, normalize), n, y, x + 1)
    ensures !ok ==> unchanged(result)
    ensures forall i ::
              0 <= i < result.Length && i != Offset(LayoutOf(shape), height, width, Cell(n, y, x, 0)) &&
              i != Offset(LayoutOf(shape), height, width, Cell(n, y, x, 1)) &&
              i != Offset(LayoutOf(shape), height, width, Cell(n, y, x, 2))
              ==> result[i] == old(result[i])
  {
    var p := images[n].at(x, y);
    var rFloat := Shift8(p.r) as real;
    var gFloat := Shift8(p.g) as real;
    var bFloat := Shift8(p.b) as real;
    if normalize {
      rFloat := rFloat / 255.0;
      gFloat := gFloat / 255.0;
      bFloat := bFloat / 255.0;
    }

    var first, second, third := rFloat, gFloat, bFloat;
    if color == FormatBGR {
      first, second, third := bFloat, gFloat, rFloat;
    }

    ghost var l := LayoutOf(shape);
    ghost var val := Values(images, color, normalize);
    ghost var before := result[..];
    assert first == val(Cell(n, y, x, 0)) && second == val(Cell(n, y, x, 1)) && third == val(Cell(n, y, x, 2));
    if shape == ShapeBCHW {
      FillPixel(before, l, height, width, |images|, val, n, y, x);
      result[n * 3 * height * width + 0 * height * width + y * width + x] := first;
      result[n * 3 * height * width + 1 * height * width + y * width + x] := second;
      result[n * 3 * height * width + 2 * height * width + y * width + x] := third;
      assert result[..] == before[Offset(l, height, width, Cell(n, y, x, 0)) := first]
        [Offset(l, height, width, Cell(n, y, x, 1)) := second][Offset(l, height, width, Cell(n, y, x, 2)) := third];
      ok := true;
    } else if shape == ShapeBHWC {
      FillPixel(before, l, height, width, |images|, val, n, y, x);
      var index := (n * height * width + y * width + x) * 3;
      result[index] := first;
      result[index + 1] := second;
      result[index + 2] := third;
      assert result[..] == before[Offset(l, height, width, Cell(n, y, x, 0)) := first]
        [Offset(l, height, width, Cell(n, y, x, 1)) := second][Offset(l, height, width, Cell(n, y, x, 2)) := third];
      ok := true;
    } else {
      ok := false;
    }
  }
}
