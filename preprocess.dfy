/** preprocess.go: the configurable packer. Each image goes through an image-transform chain, each
    channel is downscaled with an integer `/ 257`, goes through a channel-transform chain and a colour
    function, and the result is packed planar for `BCHW` and interleaved for every other shape tag. */
module Preprocess {

  import opened Wrappers
  import opened Pixels
  import opened Tensor
  import opened Seqs
  import ColorFormat

  /** The shape tag preprocess.go compares against; the same value as image.go's `ShapeBCHW`. */
  const BCHW: int := 1

  /** The fields of config.go's configuration that preprocess.go reads. */
  datatype PipelineConfig = PipelineConfig(
    shape: int,
    colorFormatFunc: (real, real, real) -> (real, real, real),
    processImageFuncs: seq<Image -> Image>,
    processFloatImageFuncs: seq<real -> real>)

  /** `BCHW` is packed planar; every other tag, known or not, interleaved. */
  function LayoutOf(shape: int): (l: Layout)
    ensures l == Planar <==> shape == BCHW
  {
    if shape == BCHW then Planar else Interleaved
  }

  /** The image-transform chain as one function: the configured transforms, first to last. */
  function ProcessImage(conf: PipelineConfig): Image -> Image
  {
    img => Chain(conf.processImageFuncs, img)
  }

  /** The processed batch, one image per input image and in the same order. */
  function Processed(conf: PipelineConfig, images: seq<Image>): (out: seq<Image>)
    ensures |out| == |images|
  {
    Map(ProcessImage(conf), images)
  }

  /** One 16-bit channel as it reaches the colour function: downscaled by `/ 257`, then sent through the
      channel-transform chain. */
  function ChannelValue(conf: PipelineConfig, v: Channel16): (f: real)
    ensures conf.processFloatImageFuncs == [] ==> 0.0 <= f <= 255.0
  {
    Chain(conf.processFloatImageFuncs, Div257(v) as real)
  }

  /** The colour function applied to one pixel of a processed image. */
  function PixelValues(conf: PipelineConfig, p: Pixel): (real, real, real)
  {
    conf.colorFormatFunc(ChannelValue(conf, p.r), ChannelValue(conf, p.g), ChannelValue(conf, p.b))
  }

  /** The value the packer stores for each scalar of the processed batch. */
  function Values(conf: PipelineConfig, processed: seq<Image>): Cell -> real
  {
    (cell: Cell) =>
      if 0 <= cell.n < |processed| then
        var t := PixelValues(conf, processed[cell.n].at(cell.x, cell.y));
        if cell.c == 0 then t.0 else if cell.c == 1 then t.1 else t.2
      else 0.0
  }

  /** The buffer preprocess.go produces: sized by the first processed image, laid out by the shape tag. */
  function Preprocessed(conf: PipelineConfig, images: seq<Image>): (buf: seq<real>)
    requires |images| > 0
    ensures |buf| == |images| * Processed(conf, images)[0].height * Processed(conf, images)[0].width * 3
  {
    var processed := Processed(conf, images);
    Pack(LayoutOf(conf.shape), processed[0].height, processed[0].width, |images|, Values(conf, processed))
  }

  /** `Classifier.preprocessImages` of preprocess.go. It has no error path: every shape tag other than
      `BCHW` is packed interleaved, and the error it returns is always nil. */
  method PreprocessImages(conf: PipelineConfig, images: seq<Image>) returns (r: Result<seq<real>, Error>)
    requires |images| > 0
    ensures r == Success(Preprocessed(conf, images))
  {
    ghost var transform := ProcessImage(conf);
    var processedImages: seq<Image> := [];
    for i := 0 to |images|
      invariant processedImages == Map(transform, images[..i])
    {
      var img := images[i];
      var fs := conf.processImageFuncs;
      for j := 0 to |fs|
        invariant img == Chain(fs[..j], images[i])
      {
        assert fs[..j + 1][..j] == fs[..j];
        img := fs[j](img);
      }
      assert fs[..|fs|] == fs;
      assert images[..i + 1][..i] == images[..i];
      processedImages := processedImages + [img];
    }
    assert images[..|images|] == images;

    var height, width := processedImages[0].height, processedImages[0].width;
    var batch := |images|;
    var result := new real[batch * height * width * 3];
    ghost var l := LayoutOf(conf.shape);
    ghost var val := Values(conf, processedImages);

    for n := 0 to |processedImages|
      invariant result.Length == batch * height * width * 3
      invariant 0 < height && 0 < width ==> Filled(result[..], l, height, width, val, n, 0, 0)
    {
      for y := 0 to height
        invariant 0 < height && 0 < width ==> Filled(result[..], l, height, width, val, n, y, 0)
      {
        for x := 0 to width
          invariant 0 < width ==> Filled(result[..], l, height, width, val, n, y, x)
        {
          PreprocessPixel(result, conf, processedImages, n, y, x, height, width);
        }
      }
    }
    if 0 < height && 0 < width {
      FilledAll(result[..], l, height, width, batch, val);
    } else {
      assert result[..] == [] == Pack(l, height, width, batch, val);
    }
    return Success(result[..]);
  }

  /** The body of preprocess.go's pixel loop: reads pixel `(x, y)` of processed image `n`, downscales
      each channel by `/ 257`, runs the channel-transform chain on all three, applies the colour
      function and writes the three values through the layout the shape tag selects. */
  method PreprocessPixel(result: array<real>, conf: PipelineConfig, processed: seq<Image>,
                         n: int, y: int, x: int, height: nat, width: nat)
    requires result.Length == |processed| * height * width * 3
    requires 0 <= n < |processed| && 0 <= y < height && 0 <= x < width
    requires Filled(result[..], LayoutOf(conf.shape), height, width, Values(conf, processed), n, y, x)
    modifies result
    ensures Filled(result[..], LayoutOf(conf.shape), height, width, Values(conf, processed), n, y, x + 1)
    ensures forall i ::
              0 <= i < result.Length && i != Offset(LayoutOf(conf.shape), height, width, Cell(n, y, x, 0)) &&
              i != Offset(LayoutOf(conf.shape), height, width, Cell(n, y, x, 1)) &&
              i != Offset(LayoutOf(conf.shape), height, width, Cell(n, y, x, 2))
              ==> result[i] == old(result[i])
  {
    var p := processed[n].at(x, y);
    var rf := Div257(p.r) as real;
    var gf := Div257(p.g) as real;
    var bf := Div257(p.b) as real;

    var fs := conf.processFloatImageFuncs;
    for j := 0 to |fs|
      invariant rf == Chain(fs[..j], Div257(p.r) as real)
      invariant gf == Chain(fs[..j], Div257(p.g) as real)
      invariant bf == Chain(fs[..j], Div257(p.b) as real)
    {
      assert fs[..j + 1][..j] == fs[..j];
      rf := fs[j](rf);
      gf := fs[j](gf);
      bf := fs[j](bf);
    }
    assert fs[..|fs|] == fs;

    var (first, second, third) := conf.colorFormatFunc(rf, gf, bf);

    ghost var l := LayoutOf(conf.shape);
    ghost var val := Values(conf, processed);
    ghost var before := result[..];
    assert first == val(Cell(n, y, x, 0)) && second == val(Cell(n, y, x, 1)) && third == val(Cell(n, y, x, 2));
    FillPixel(before, l, height, width, |processed|, val, n, y, x);
    if conf.shape == BCHW {
      result[n * 3 * height * width + 0 * height * width + y * width + x] := first;
      result[n * 3 * height * width + 1 * height * width + y * width + x] := second;
      result[n * 3 * height * width + 2 * height * width + y * width + x] := third;
    } else {
      var idx := (n * height * width + y * width + x) * 3;
      result[idx] := first;
      result[idx + 1] := second;
      result[idx + 2] := third;
    }
    assert result[..] == before[Offset(l, height, width, Cell(n, y, x, 0)) := first]
      [Offset(l, height, width, Cell(n, y, x, 1)) := second][Offset(l, height, width, Cell(n, y, x, 2)) := third];
  }

  /** Processed image `i` is input image `i` after the image-transform chain, first transform first. */
  lemma ProcessedAt(conf: PipelineConfig, images: seq<Image>, i: int)
    requires 0 <= i < |images|
    ensures |Processed(conf, images)| == |images|
    ensures Processed(conf, images)[i] == Chain(conf.processImageFuncs, images[i])
  {
    MapAt(ProcessImage(conf), images, i);
  }

  /** The buffer holds `len(images) * H * W * 3` values, with `H` and `W` those of the first processed
      image, and scalar `c` of pixel `(x, y)` of image `n` sits at its layout offset and is component `c`
      of the colour function's output for that pixel of the processed image. */
  lemma PreprocessedAt(conf: PipelineConfig, images: seq<Image>, cell: Cell)
    requires |images| > 0
    requires InBatch(cell, |images|, Processed(conf, images)[0].height, Processed(conf, images)[0].width)
    ensures var h, w := Processed(conf, images)[0].height, Processed(conf, images)[0].width;
      var buf := Preprocessed(conf, images);
      var t := PixelValues(conf, Chain(conf.processImageFuncs, images[cell.n]).at(cell.x, cell.y));
      |buf| == |images| * h * w * 3 &&
      0 <= Offset(LayoutOf(conf.shape), h, w, cell) < |buf| &&
      buf[Offset(LayoutOf(conf.shape), h, w, cell)] == (if cell.c == 0 then t.0 else if cell.c == 1 then t.1 else t.2)
  {
    var processed := Processed(conf, images);
    ProcessedAt(conf, images, cell.n);
    PackAt(LayoutOf(conf.shape), processed[0].height, processed[0].width, |images|, Values(conf, processed), cell);
  }

  /** With `ColorFormatBGR` as the colour function, the blue channel is written first and the red one
      last: the colour function alone fixes the order. */
  lemma BgrFuncWritesBlueFirst(conf: PipelineConfig, images: seq<Image>, n: int, y: int, x: int)
    requires |images| > 0
    requires forall a, b, c :: conf.colorFormatFunc(a, b, c) == ColorFormat.ColorFormatBGR(a, b, c)
    requires 0 <= n < |images| && 0 <= y < Processed(conf, images)[0].height && 0 <= x < Processed(conf, images)[0].width
    ensures var l, h, w := LayoutOf(conf.shape), Processed(conf, images)[0].height, Processed(conf, images)[0].width;
      var p := Chain(conf.processImageFuncs, images[n]).at(x, y);
      var buf := Preprocessed(conf, images);
      0 <= Offset(l, h, w, Cell(n, y, x, 0)) < |buf| && buf[Offset(l, h, w, Cell(n, y, x, 0))] == ChannelValue(conf, p.b) &&
      0 <= Offset(l, h, w, Cell(n, y, x, 1)) < |buf| && buf[Offset(l, h, w, Cell(n, y, x, 1))] == ChannelValue(conf, p.g) &&
      0 <= Offset(l, h, w, Cell(n, y, x, 2)) < |buf| && buf[Offset(l, h, w, Cell(n, y, x, 2))] == ChannelValue(conf, p.r)
  {
    PreprocessedAt(conf, images, Cell(n, y, x, 0));
    PreprocessedAt(conf, images, Cell(n, y, x, 1));
    PreprocessedAt(conf, images, Cell(n, y, x, 2));
  }

  /** The same channel chain runs on r, g and b: when the colour function only permutes its arguments,
      a pixel with three equal channels is written as three equal values. */
  lemma GreyStaysGrey(conf: PipelineConfig, images: seq<Image>, n: int, y: int, x: int)
    requires |images| > 0
    requires forall a, b, c :: multiset{conf.colorFormatFunc(a, b, c).0, conf.colorFormatFunc(a, b, c).1,
                                        conf.colorFormatFunc(a, b, c).2} == multiset{a, b, c}
    requires 0 <= n < |images| && 0 <= y < Processed(conf, images)[0].height && 0 <= x < Processed(conf, images)[0].width
    requires var p := Chain(conf.processImageFuncs, images[n]).at(x, y); p.r == p.g == p.b
    ensures var l, h, w := LayoutOf(conf.shape), Processed(conf, images)[0].height, Processed(conf, images)[0].width;
      var p := Chain(conf.processImageFuncs, images[n]).at(x, y);
      var buf := Preprocessed(conf, images);
      forall c :: 0 <= c < 3 ==>
        0 <= Offset(l, h, w, Cell(n, y, x, c)) < |buf| && buf[Offset(l, h, w, Cell(n, y, x, c))] == ChannelValue(conf, p.r)
  {
    var p := Chain(conf.processImageFuncs, images[n]).at(x, y);
    var v := ChannelValue(conf, p.r);
    var t := conf.colorFormatFunc(v, v, v);
    assert multiset{t.0, t.1, t.2} == multiset{v, v, v};
    assert t.0 in multiset{v, v, v} && t.1 in multiset{v, v, v} && t.2 in multiset{v, v, v};
    forall c | 0 <= c < 3
      ensures var l, h, w := LayoutOf(conf.shape), Processed(conf, images)[0].height, Processed(conf, images)[0].width;
        var buf := Preprocessed(conf, images);
        0 <= Offset(l, h, w, Cell(n, y, x, c)) < |buf| && buf[Offset(l, h, w, Cell(n, y, x, c))] == v
    {
      PreprocessedAt(conf, images, Cell(n, y, x, c));
    }
  }
}
