/** classifier.go: resizing each image to the model's square input, packing the batch, running the
    model through an inference engine, slicing its flat output per image, and picking a top-1 label. */
module Classifier {

  import opened Wrappers
  import opened Pixels
  import opened Tensor
  import opened Seqs
  import Arith
  import ImageTensor
  import Shapes

  /** classifier.go's `PreprocessConfig`; `paddingColor` is the level of the `color.Gray16` padding. */
  datatype PreprocessConfig = PreprocessConfig(colorFormat: int, normalize: bool, padding: bool, paddingColor: Channel16)

  /** The fields of `ClassifierConfig` the classifier reads; `shape` is an image.go shape tag. */
  datatype ClassifierConfig = ClassifierConfig(
    size: nat, outputDim: nat, labels: seq<string>, shape: int, preprocess: PreprocessConfig)

  /** The imaging library: `thumbnail(size, img)` is the bicubic thumbnail bounded by `size` by `size`,
      and `resize(size, img)` the pixels of the bilinear `size` by `size` resize. */
  datatype Resampling = Resampling(thumbnail: (nat, Image) -> Image, resize: (nat, Image) -> (int, int) -> Pixel)

  /** The inference engine, as an oracle. `newTensor` and `newEmptyTensor` return the engine's error
      text, if any; `run` returns its error text or the data of the output tensor. */
  datatype Session = Session(
    newTensor: (seq<int>, seq<real>) -> Option<string>,
    newEmptyTensor: seq<int> -> Option<string>,
    run: (seq<int>, seq<real>, seq<int>) -> Result<nat -> real, string>)

  datatype Classifier = Classifier(conf: ClassifierConfig, session: Session)

  /** Go's integer division by 2, which truncates toward zero. */
  function GoHalf(a: int): (h: int)
    ensures 0 <= a ==> 0 <= 2 * h <= a <= 2 * h + 1
    ensures a < 0 ==> 2 * h - 1 <= a <= 2 * h <= 0
  {
    if 0 <= a then a / 2 else -((-a) / 2)
  }

  /** A pixel as an 8-bit RGBA canvas stores it and reads it back. */
  function Stored(p: Pixel): (q: Pixel)
    ensures Shift8(q.r) == Shift8(p.r) && Shift8(q.g) == Shift8(p.g) && Shift8(q.b) == Shift8(p.b)
  {
    Pixel(Quantize8(p.r), Quantize8(p.g), Quantize8(p.b))
  }

  /** The padding branch's canvas: `size` by `size`, filled with the padding grey, with `thumb` drawn at
      `((size - w) / 2, (size - h) / 2)` and clipped to the canvas. Outside its bounds a canvas reads as 0. */
  function PadToSquare(size: nat, thumb: Image, padding: Channel16): (canvas: Image)
    ensures canvas.width == size && canvas.height == size
  {
    var ox, oy := GoHalf(size - thumb.width), GoHalf(size - thumb.height);
    Image(size, size, (x: int, y: int) =>
      if !(0 <= x < size && 0 <= y < size) then Pixel(0, 0, 0)
      else if ox <= x < ox + thumb.width && oy <= y < oy + thumb.height then Stored(thumb.at(x - ox, y - oy))
      else Stored(Pixel(padding, padding, padding)))
  }

  /** A thumbnail that fits is centred (the right and bottom margins are the left and top ones or one
      more), and pixel `(x, y)` of it lands at `(x + offsetX, y + offsetY)` with the same top byte. */
  lemma PadPlacesThumbnail(size: nat, thumb: Image, padding: Channel16, x: int, y: int)
    requires thumb.width <= size && thumb.height <= size
    requires 0 <= x < thumb.width && 0 <= y < thumb.height
    ensures var ox, oy := GoHalf(size - thumb.width), GoHalf(size - thumb.height);
      var p, q := PadToSquare(size, thumb, padding).at(ox + x, oy + y), thumb.at(x, y);
      0 <= ox && ox <= size - thumb.width - ox <= ox + 1 &&
      0 <= oy && oy <= size - thumb.height - oy <= oy + 1 &&
      p == Stored(q) && Shift8(p.r) == Shift8(q.r) && Shift8(p.g) == Shift8(q.g) && Shift8(p.b) == Shift8(q.b)
  {
  }

  /** Every canvas pixel outside the drawn thumbnail is the padding grey, as the canvas stores it. */
  lemma PadFillsMargins(size: nat, thumb: Image, padding: Channel16, x: int, y: int)
    requires 0 <= x < size && 0 <= y < size
    requires var ox, oy := GoHalf(size - thumb.width), GoHalf(size - thumb.height);
      !(ox <= x < ox + thumb.width && oy <= y < oy + thumb.height)
    ensures var p := PadToSquare(size, thumb, padding).at(x, y);
      p == Stored(Pixel(padding, padding, padding)) && p.r == p.g == p.b && Shift8(p.r) == Shift8(padding)
  {
  }

  /** One image as `preprocessImages` resizes it: padded thumbnail or plain resize, `size` by `size` either way. */
  function Fit(conf: ClassifierConfig, rs: Resampling, img: Image): (out: Image)
    ensures out.width == conf.size && out.height == conf.size
  {
    if conf.preprocess.padding then PadToSquare(conf.size, rs.thumbnail(conf.size, img), conf.preprocess.paddingColor)
    else Image(conf.size, conf.size, rs.resize(conf.size, img))
  }

  function FitFn(conf: ClassifierConfig, rs: Resampling): Image -> Image
  {
    img => Fit(conf, rs, img)
  }

  /** The resized batch, in input order. */
  function Resized(conf: ClassifierConfig, rs: Resampling, images: seq<Image>): (out: seq<Image>)
    ensures |out| == |images|
  {
    Map(FitFn(conf, rs), images)
  }

  /** Every resized image is `size` by `size`, and image `i` is input `i` resized. */
  lemma ResizedAt(conf: ClassifierConfig, rs: Resampling, images: seq<Image>, i: int)
    requires 0 <= i < |images|
    ensures Resized(conf, rs, images)[i] == Fit(conf, rs, images[i])
    ensures Resized(conf, rs, images)[i].width == conf.size && Resized(conf, rs, images)[i].height == conf.size
  {
    MapAt(FitFn(conf, rs), images, i);
  }

  /** What classifier.go's `preprocessImages` returns: the image.go packing of the resized batch. An
      unknown shape tag is reported by the packer only when the images are not empty (`size > 0`). */
  function Preprocessed(conf: ClassifierConfig, rs: Resampling, images: seq<Image>): (r: Result<seq<real>, Error>)
    requires |images| > 0
    ensures r.Failure? <==> conf.size > 0 && conf.shape != ImageTensor.ShapeBCHW && conf.shape != ImageTensor.ShapeBHWC
    ensures r.Failure? ==> r.error == InvalidShape
    ensures r.Success? ==> |r.value| == |images| * conf.size * conf.size * 3
  {
    ResizedAt(conf, rs, images, 0);
    ImageTensor.Packed(Resized(conf, rs, images), conf.shape, conf.preprocess.colorFormat, conf.preprocess.normalize)
  }

  /** `Classifier.preprocessImages` of classifier.go. */
  method PreprocessImages(conf: ClassifierConfig, rs: Resampling, images: seq<Image>) returns (r: Result<seq<real>, Error>)
    requires |images| > 0
    ensures r == Preprocessed(conf, rs, images)
  {
    ghost var fit := FitFn(conf, rs);
    var resizedImages: seq<Image> := [];
    for i := 0 to |images|
      invariant resizedImages == Map(fit, images[..i])
    {
      var img := images[i];
      if conf.preprocess.padding {
        var thumb := rs.thumbnail(conf.size, img);
        img := PadToSquare(conf.size, thumb, conf.preprocess.paddingColor);
      } else {
        img := Image(conf.size, conf.size, rs.resize(conf.size, img));
      }
      assert images[..i + 1][..i] == images[..i];
      resizedImages := resizedImages + [img];
    }
    assert images[..|images|] == images;
    r := ImageTensor.ImageToFloat32(resizedImages, conf.shape, conf.preprocess.colorFormat, conf.preprocess.normalize);
  }

  /** The input tensor shape `RunRaw` picks for the shape tag. */
  function InputShape(shape: int, size: nat, batch: nat): (r: Result<seq<int>, Error>)
    ensures r.Failure? <==> shape != ImageTensor.ShapeBCHW && shape != ImageTensor.ShapeBHWC
    ensures r.Failure? ==> r.error == InvalidShape
  {
    if shape == ImageTensor.ShapeBCHW then Success([batch, 3, size, size])
    else if shape == ImageTensor.ShapeBHWC then Success([batch, size, size, 3])
    else Failure(InvalidShape)
  }

  /** The input shape is shape.go's `Get` for the matching layout, so it describes exactly the
      `batch * size * size * 3` values the packer produced for that layout. */
  lemma InputShapeIsShapeGet(shape: int, size: nat, batch: nat)
    requires shape == ImageTensor.ShapeBCHW || shape == ImageTensor.ShapeBHWC
    ensures var s := if shape == ImageTensor.ShapeBCHW then Shapes.NewBCHW(size) else Shapes.NewBHWC(size);
      InputShape(shape, size, batch) == Success(Shapes.Get(s, batch)) &&
      Shapes.LayoutOf(s) == ImageTensor.LayoutOf(shape) &&
      Product(InputShape(shape, size, batch).value) == batch * size * size * 3
  {
    var s := if shape == ImageTensor.ShapeBCHW then Shapes.NewBCHW(size) else Shapes.NewBHWC(size);
    assert Shapes.Get(s, batch) == InputShape(shape, size, batch).value;
  }

  /** The engine part of `RunRaw`: input shape, input tensor, output tensor of shape
      `[batch, outputDim]`, the run, and the `batch * outputDim` output values. */
  function Infer(conf: ClassifierConfig, session: Session, input: seq<real>, batch: nat): (r: Result<seq<real>, Error>)
    ensures r.Success? ==> |r.value| == batch * conf.outputDim
    ensures conf.shape != ImageTensor.ShapeBCHW && conf.shape != ImageTensor.ShapeBHWC ==> r == Failure(InvalidShape)
  {
    match InputShape(conf.shape, conf.size, batch)
    case Failure(e) => Failure(e)
    case Success(inputShape) =>
      match session.newTensor(inputShape, input)
      case Some(detail) => Failure(CreateInputTensor(detail))
      case None =>
        var outputShape := [batch, conf.outputDim];
        match session.newEmptyTensor(outputShape)
        case Some(detail) => Failure(CreateOutputTensor(detail))
        case None =>
          match session.run(inputShape, input, outputShape)
          case Failure(detail) => Failure(RunInference(detail))
          case Success(data) => Success(seq(batch * conf.outputDim, i requires 0 <= i => data(i)))
  }

  /** What `RunRaw` returns: the first error of preprocessing or the engine, else one chunk of
      `outputDim` values per image. */
  function RawOutput(c: Classifier, rs: Resampling, images: seq<Image>): (r: Result<seq<seq<real>>, Error>)
    requires |images| > 0
    ensures Preprocessed(c.conf, rs, images).Failure? ==> r == Failure(Preprocessed(c.conf, rs, images).error)
    ensures r.Success? ==> |r.value| == |images| && forall b :: 0 <= b < |images| ==> |r.value[b]| == c.conf.outputDim
  {
    match Preprocessed(c.conf, rs, images)
    case Failure(e) => Failure(e)
    case Success(input) =>
      match Infer(c.conf, c.session, input, |images|)
      case Failure(e) => Failure(e)
      case Success(out) => Success(SplitBatch(out, |images|, c.conf.outputDim))
  }

  /** `Classifier.RunRaw`. */
  method RunRaw(c: Classifier, rs: Resampling, images: seq<Image>) returns (r: Result<seq<seq<real>>, Error>)
    requires |images| > 0
    ensures r == RawOutput(c, rs, images)
  {
    var input := PreprocessImages(c.conf, rs, images);
    if input.Failure? {
      return Failure(input.error);
    }

    var size, batch := c.conf.size, |images|;
    var inputShape := InputShape(c.conf.shape, size, batch);
    if inputShape.Failure? {
      return Failure(inputShape.error);
    }

    var inputErr := c.session.newTensor(inputShape.value, input.value);
    if inputErr.Some? {
      return Failure(CreateInputTensor(inputErr.value));
    }

    var outputShape := [batch, c.conf.outputDim];
    var outputErr := c.session.newEmptyTensor(outputShape);
    if outputErr.Some? {
      return Failure(CreateOutputTensor(outputErr.value));
    }

    var run := c.session.run(inputShape.value, input.value, outputShape);
    if run.Failure? {
      return Failure(RunInference(run.error));
    }

    var output := seq(batch * c.conf.outputDim, i requires 0 <= i => run.value(i));
    var result := SliceOutput(output, batch, c.conf.outputDim);
    return Success(result);
  }

  /** `RunRaw`'s slicing loop: chunk `b` of the result is `output[dim * b .. dim * (b + 1)]`. */
  method SliceOutput(output: seq<real>, batch: nat, dim: nat) returns (result: seq<seq<real>>)
    requires |output| == batch * dim
    ensures result == SplitBatch(output, batch, dim)
  {
    result := [];
    for b := 0 to batch
      invariant |result| == b
      invariant forall k :: 0 <= k < b ==> dim * (k + 1) <= |output| && result[k] == output[dim * k .. dim * (k + 1)]
    {
      Arith.MulMonotone(b + 1, batch, dim);
      result := result + [output[dim * b .. dim * (b + 1)]];
    }
    forall k | 0 <= k < batch
      ensures result[k] == SplitBatch(output, batch, dim)[k]
    {
      SplitBatchAt(output, batch, dim, k);
    }
  }

  /** When preprocessing and the engine succeed, `RunRaw` returns one chunk per image, and chunk `b` is
      `out[outputDim * b .. outputDim * (b + 1)]`. */
  lemma RawOutputChunk(c: Classifier, rs: Resampling, images: seq<Image>, input: seq<real>, out: seq<real>, b: int)
    requires |images| > 0
    requires Preprocessed(c.conf, rs, images) == Success(input)
    requires Infer(c.conf, c.session, input, |images|) == Success(out)
    requires 0 <= b < |images|
    ensures RawOutput(c, rs, images).Success? && |RawOutput(c, rs, images).value| == |images|
    ensures c.conf.outputDim * (b + 1) <= |out|
    ensures RawOutput(c, rs, images).value[b] == out[c.conf.outputDim * b .. c.conf.outputDim * (b + 1)]
  {
    RawOutputIsSplit(c, rs, images, input, out);
    SplitBatchAt(out, |images|, c.conf.outputDim, b);
  }

  /** When preprocessing and the engine succeed, the chunks `RunRaw` returns, put back together, are the
      whole engine output. */
  lemma RawOutputFlatten(c: Classifier, rs: Resampling, images: seq<Image>, input: seq<real>, out: seq<real>)
    requires |images| > 0
    requires Preprocessed(c.conf, rs, images) == Success(input)
    requires Infer(c.conf, c.session, input, |images|) == Success(out)
    ensures RawOutput(c, rs, images).Success? && Flatten(RawOutput(c, rs, images).value) == out
  {
    RawOutputIsSplit(c, rs, images, input, out);
    FlattenSplitBatch(out, |images|, c.conf.outputDim);
  }

  lemma RawOutputIsSplit(c: Classifier, rs: Resampling, images: seq<Image>, input: seq<real>, out: seq<real>)
    requires |images| > 0
    requires Preprocessed(c.conf, rs, images) == Success(input)
    requires Infer(c.conf, c.session, input, |images|) == Success(out)
    ensures |out| == |images| * c.conf.outputDim
    ensures RawOutput(c, rs, images) == Success(SplitBatch(out, |images|, c.conf.outputDim))
  {
  }

  /** Whatever the image size, an unknown shape tag makes `RunRaw` fail with the invalid-shape error:
      in the packer when the images are not empty, in the shape switch otherwise. */
  lemma UnknownShapeFails(c: Classifier, rs: Resampling, images: seq<Image>)
    requires |images| > 0
    requires c.conf.shape != ImageTensor.ShapeBCHW && c.conf.shape != ImageTensor.ShapeBHWC
    ensures RawOutput(c, rs, images) == Failure(InvalidShape)
  {
  }

  /** Index of the label `Run`'s scan picks among `probs`, or -1 when none beats the initial 0:
      a later entry replaces the current pick only when strictly greater. */
  function TopIndex(probs: seq<real>): (k: int)
    ensures -1 <= k < |probs|
    decreases |probs|
  {
    if probs == [] then -1
    else
      var k := TopIndex(probs[..|probs| - 1]);
      var best := if k < 0 then 0.0 else probs[k];
      if probs[|probs| - 1] > best then |probs| - 1 else k
  }

  /** The scan picks -1 exactly when no entry is positive, and otherwise the first entry holding the
      maximum, which is positive. */
  lemma {:induction false} TopIndexIsFirstMaximum(probs: seq<real>)
    ensures TopIndex(probs) == -1 <==> forall j :: 0 <= j < |probs| ==> probs[j] <= 0.0
    ensures var k := TopIndex(probs);
      0 <= k ==> 0.0 < probs[k] &&
                 (forall j :: 0 <= j < |probs| ==> probs[j] <= probs[k]) &&
                 (forall j :: 0 <= j < k ==> probs[j] < probs[k])
    decreases |probs|
  {
    if probs != [] {
      var init := probs[..|probs| - 1];
      TopIndexIsFirstMaximum(init);
      assert forall j :: 0 <= j < |init| ==> init[j] == probs[j];
    }
  }

  /** The label `Run` picks for one probability vector. */
  function Top1(labels: seq<string>, probs: seq<real>): (top: string)
    requires 1 <= |labels| <= |probs|
    ensures top in labels
  {
    var k := TopIndex(probs[..|labels|]);
    if k < 0 then labels[0] else labels[k]
  }

  /** `Top1` is `labels[0]` when no probability of a labelled entry is positive, and otherwise the label
      of the first labelled entry holding the maximum; entries past the labels are ignored. */
  lemma Top1Spec(labels: seq<string>, probs: seq<real>)
    requires 1 <= |labels| <= |probs|
    ensures (forall j :: 0 <= j < |labels| ==> probs[j] <= 0.0) ==> Top1(labels, probs) == labels[0]
    ensures (exists j :: 0 <= j < |labels| && 0.0 < probs[j]) ==>
      exists k :: 0 <= k < |labels| && Top1(labels, probs) == labels[k] && 0.0 < probs[k] &&
        (forall j :: 0 <= j < |labels| ==> probs[j] <= probs[k]) &&
        (forall j :: 0 <= j < k ==> probs[j] < probs[k])
  {
    var head := probs[..|labels|];
    TopIndexIsFirstMaximum(head);
    assert forall j :: 0 <= j < |labels| ==> head[j] == probs[j];
  }

  /** A tie keeps the earlier label. */
  lemma TieKeepsFirst()
    ensures Top1(["cat", "dog"], [0.5, 0.5]) == "cat"
  {
    assert [0.5, 0.5][..2] == [0.5, 0.5] && [0.5, 0.5][..1] == [0.5] && [0.5][..0] == [];
    assert TopIndex([0.5]) == 0;
  }

  /** Two images, the labels `monochrome` and `normal`, and an engine that accepts every tensor and
      outputs 0.9, 0.1, 0.2, 0.8: `RunRaw` returns the chunks [0.9, 0.1] and [0.2, 0.8], and the labels
      `Run` picks for them are `monochrome` and `normal`. */
  lemma TwoImageExample(c: Classifier, rs: Resampling, images: seq<Image>)
    requires |images| == 2
    requires c.conf.size == 384 && c.conf.shape == ImageTensor.ShapeBCHW
    requires c.conf.outputDim == 2 && c.conf.labels == ["monochrome", "normal"]
    requires forall dims, values :: c.session.newTensor(dims, values) == None
    requires forall dims :: c.session.newEmptyTensor(dims) == None
    requires forall dims, values, outDims ::
      c.session.run(dims, values, outDims).Success? &&
      c.session.run(dims, values, outDims).value(0) == 0.9 && c.session.run(dims, values, outDims).value(1) == 0.1 &&
      c.session.run(dims, values, outDims).value(2) == 0.2 && c.session.run(dims, values, outDims).value(3) == 0.8
    ensures RawOutput(c, rs, images) == Success([[0.9, 0.1], [0.2, 0.8]])
    ensures Top1(c.conf.labels, [0.9, 0.1]) == "monochrome" && Top1(c.conf.labels, [0.2, 0.8]) == "normal"
  {
    var input := Preprocessed(c.conf, rs, images).value;
    var dims := [2, 3, 384, 384];
    assert InputShape(c.conf.shape, 384, 2) == Success(dims);
    var data := c.session.run(dims, input, [2, 2]).value;
    var out := seq(4, i requires 0 <= i => data(i));
    assert Infer(c.conf, c.session, input, 2) == Success(out);
    assert out == [0.9, 0.1, 0.2, 0.8];
    assert out[..2] == [0.9, 0.1] && out[2..] == [0.2, 0.8];
    assert SplitBatch(out[2..], 1, 2) == [[0.2, 0.8]] by {
      assert out[2..][..2] == [0.2, 0.8] && out[2..][2..] == [];
    }
    assert SplitBatch(out, 2, 2) == [[0.9, 0.1], [0.2, 0.8]];
    assert Preprocessed(c.conf, rs, images) == Success(input);
    assert RawOutput(c, rs, images) == Success(SplitBatch(out, 2, 2));
    assert [0.9, 0.1][..1] == [0.9] && [0.2, 0.8][..1] == [0.2] && [0.9][..0] == [] && [0.2][..0] == [];
    assert [0.9, 0.1][..2] == [0.9, 0.1] && [0.2, 0.8][..2] == [0.2, 0.8];
    assert TopIndex([0.9]) == 0 && TopIndex([0.2]) == 0;
  }

  /** `Classifier.Run`: one top-1 label per chunk of `RunRaw`, in order; errors pass through unchanged.
      It needs at least one label, and at least as many output values per image as labels. */
  method Run(c: Classifier, rs: Resampling, images: seq<Image>) returns (r: Result<seq<string>, Error>)
    requires |images| > 0
    requires RawOutput(c, rs, images).Success? ==> 1 <= |c.conf.labels| <= c.conf.outputDim
    ensures RawOutput(c, rs, images).Failure? ==> r == Failure(RawOutput(c, rs, images).error)
    ensures RawOutput(c, rs, images).Success? ==>
      r.Success? && |r.value| == |RawOutput(c, rs, images).value| &&
      forall b :: 0 <= b < |r.value| ==> r.value[b] == Top1(c.conf.labels, RawOutput(c, rs, images).value[b])
  {
    var output := RunRaw(c, rs, images);
    if output.Failure? {
      return Failure(output.error);
    }

    var labels := c.conf.labels;
    var result: seq<string> := [];
    for b := 0 to |output.value|
      invariant |result| == b
      invariant forall k :: 0 <= k < b ==> result[k] == Top1(labels, output.value[k])
    {
      var probs := output.value[b];
      var topLabel := labels[0];
      var topProb := 0.0;
      for i := 0 to |labels|
        invariant var k := TopIndex(probs[..i]);
          topProb == (if k < 0 then 0.0 else probs[k]) && topLabel == (if k < 0 then labels[0] else labels[k])
      {
        assert probs[..i + 1][..i] == probs[..i];
        if probs[i] > topProb {
          topLabel := labels[i];
          topProb := probs[i];
        }
      }
      result := result + [topLabel];
    }
    return Success(result);
  }
}
