# go-image-cls in Dafny

A model of the image-to-tensor core of the Go package `cls` (yasamari/go-image-cls), which classifies
images with an ONNX model. The package turns a batch of images into the flat `float32` buffer a model
takes as input, runs the model through the ONNX Runtime engine, cuts the engine's flat output into one
probability vector per image, and picks a top-1 label.

The model follows the Go files:

| module | Go file | what it holds |
|---|---|---|
| `Shapes` | shape.go | the `bhwc` / `bchw` layout strategies: `Index`, `Get`, `Size`, constructors |
| `ColorFormat` | color_format.go | `ColorFormatRGB`, `ColorFormatBGR` |
| `ImageTensor` | image.go | the `Shape`/`ColorFormat` enums and `imageToFloat32`, an imperative packer over an `array<real>` |
| `Preprocess` | preprocess.go | the configurable packer: image-transform chain, `/ 257`, channel-transform chain, colour function |
| `Classifier` | classifier.go | resizing to a square, `RunRaw` (input shape, engine calls, output slicing), `Run` (top-1) |
| `Tensor` | shared | the two layouts as offset functions, their inverse, and the packed buffer `Pack` both packers are proved to build |
| `Pixels` | shared | 16-bit pixels and images, the `>> 8` and `/ 257` downscales, the 8-bit canvas round trip |
| `Seqs`, `Arith`, `Wrappers` | helpers | function chains, `Map`, batch slicing; small arithmetic lemmas; `Result`/`Option` and the package's errors |

Both packers are `method`s that fill an array in the source's `n / y / x` loop order; their loop
invariant says every scalar of every pixel already visited holds its final value. Each is proved to
return exactly `Tensor.Pack(layout, H, W, batch, values)`, the buffer holding `values(cell)` at the
layout offset of every scalar `cell`; `Tensor` proves that offset map a bijection between the scalars
of the batch and `[0, batch * H * W * 3)`, so every buffer cell has exactly one writer and reads back
its value (`Tensor.PackAt`).

A few behaviours of the code shape the contracts:

- An empty batch is not an error: `images[0]` (image.go:26) and `processedImages[0]` (preprocess.go:16)
  panic on it, so both packers require a non-empty batch.
- image.go's dimension check never fails (see Findings), and preprocess.go has no size check at all: it
  takes the height and width of the first processed image.
- `Run` returns labels only, one per image; the probabilities are not returned.
- Nothing compares `Labels` with `OutputDim`, so `Run` requires `1 <= len(Labels) <= OutputDim` whenever
  the engine run succeeds, which is when `Labels[0]` and `probs[i]` are reached.

The inference engine and the imaging library are parameters: `Classifier.Session` is an oracle for
tensor creation and the run (each returns the engine's error text or a value), and
`Classifier.Resampling` stands for `resize.Thumbnail` and `resize.Resize`.

## Model

| member | source | states |
|---|---|---|
| Shapes.NewBHWC | shape.go:13-17 | the constructed strategy reports the given size (`Size`, shape.go:28-30) and is the channel-last layout |
| Shapes.NewBCHW | shape.go:36-40 | the constructed strategy reports the given size (`Size`, shape.go:54-56) and is the channel-first layout |
| Shapes.Index | shape.go:19-47 | bhwc (lines 19-22): the offsets are `index, index + 1, index + 2` with `index` a multiple of 3; bchw (lines 42-47): consecutive offsets are exactly `size * size` apart |
| Shapes.Get | shape.go:24-52 | `[batch, size, size, 3]` for bhwc (lines 24-26) and `[batch, 3, size, size]` for bchw (lines 50-52); the product is `batch * size * size * 3` either way |
| Shapes.Size | shape.go:28-56 | both strategies report the size they were built with (bhwc at lines 28-30, bchw at lines 54-56); `NewBHWC` and `NewBCHW` state it |
| Shapes.IndexIsOffset | shape.go:42-47 | `Index` is the packers' layout offset of value `c` of pixel `(x, y)` of image `batchIdx` |
| Shapes.IndexDistinct | shape.go:42-47 | the three offsets are pairwise distinct if and only if the layout is bhwc or the size is not 0 |
| Shapes.IndexInBatchSlice | shape.go:44-46 | inside the image, every offset lies in `[batchIdx*3*size*size, (batchIdx+1)*3*size*size)` and below the product of `Get(batch)` |
| Shapes.IndexInjective | shape.go:19-22 | two values of the batch with the same offset are the same value (image, x, y and channel) |
| Shapes.IndexOnto | shape.go:42-47 | every offset below the product of `Get(batch)` is the offset of some value of the batch |
| ColorFormat.ColorFormatRGB | color_format.go:5-7 | the output is a permutation of the input with green in the middle |
| ColorFormat.ColorFormatBGR | color_format.go:9-11 | the output is a permutation of the input with green in the middle |
| ColorFormat.RgbIsIdentity | color_format.go:5-7 | RGB returns its triple unchanged |
| ColorFormat.BgrSwapsOuter | color_format.go:9-11 | BGR puts blue first and red last |
| ColorFormat.BgrInvolution | color_format.go:9-11 | applying BGR twice gives back the original triple |
| Pixels.Shift8 | image.go:42-44 | `v >> 8` is the byte `b` with `b * 256 <= v < (b + 1) * 256`, in 0..255 |
| Pixels.Div257 | preprocess.go:27-29 | integer `v / 257` is the `b` with `b * 257 <= v < (b + 1) * 257`, in 0..255 |
| Pixels.DownscalesInvertExpansion | image.go:42-44 | both downscales map `v * 257` back to `v` for every byte `v` |
| Pixels.Div257Boundaries | preprocess.go:27-29 | `/ 257` maps 0 to 0, `255 * 257` to 255 and 65535 to 255 (and so does `>> 8`) |
| Pixels.DownscalesCompare | preprocess.go:27-29 | `/ 257` is never above `>> 8` and at most one below it |
| Pixels.DownscalesDiffer | preprocess.go:27-29 | the two downscales disagree: 65534 gives 254 with `/ 257` and 255 with `>> 8` |
| Pixels.Quantize8 | classifier.go:55-56 | what an 8-bit RGBA canvas reads back is a multiple of 257 with the same top byte as the colour drawn |
| Tensor.Offset | image.go:59-66 | the offset the packers' two branches write (also preprocess.go:40-47): planar `n*3*H*W + c*H*W + y*W + x`, interleaved `(n*H*W + y*W + x)*3 + c`; what it guarantees is stated by the `Owner` and `Offset*` lemmas below |
| Tensor.Owner | image.go:57-66 | the scalar at any offset has a row and column inside the image and a channel in 0..2 |
| Tensor.OffsetInSlice | image.go:57-66 | every write for image `n` stays in `[n*H*W*3, (n+1)*H*W*3)` and inside the buffer |
| Tensor.OffsetOfOwner | image.go:57-66 | the offset of the scalar found at offset `i` is `i` |
| Tensor.OwnerOfOffset | image.go:57-66 | the scalar found at a scalar's offset is that scalar |
| Tensor.OwnerInBatch | image.go:57-66 | every offset of the buffer belongs to a scalar of the batch |
| Tensor.OffsetInjective | image.go:57-66 | no two scalars of the batch share an offset |
| Tensor.OffsetOnto | image.go:57-66 | every offset of the buffer is some scalar's offset |
| Tensor.Pack | image.go:34-35 | the packed buffer has `batch * H * W * 3` values |
| Tensor.PackAt | image.go:57-66 | reading the packed buffer at a scalar's offset returns that scalar's value |
| Tensor.FillPixel | image.go:57-66 | writing one pixel's three values at their offsets stays in the buffer and extends the filled prefix by one pixel |
| Tensor.FilledAll | image.go:37-72 | once every pixel of the batch is written, the buffer is the packed one |
| ImageTensor.Scale | image.go:42-50 | a channel becomes a non-negative float: its top byte (at most 255), or that byte divided by 255 (at most 1) when normalising |
| ImageTensor.Reorder | image.go:52-55 | green stays in the middle whatever the format |
| ImageTensor.Values | image.go:40-55 | the value of scalar `(n, y, x, c)`: component `c` of pixel `(x, y)` of image `n`, scaled and reordered; `PackPixel` is proved to write exactly these |
| ImageTensor.ReorderIsColorFormat | image.go:52-55 | the inline reorder is `ColorFormatBGR` for `FormatBGR` and `ColorFormatRGB` for any other value |
| ImageTensor.Packed | image.go:57-69 | an unknown shape tag is the only error, and a packed result has `len(images) * H * W * 3` values |
| ImageTensor.ImageToFloat32 | image.go:25-74 | the result is the packing of the batch with the first image's size through the tag's layout, or the invalid-shape error when the tag is unknown and there is a pixel; never the dimension error |
| ImageTensor.SizeCheckMissesMismatch | image.go:28-32 | a 1×1 and a 2×2 image pass the size check and are packed as six values |
| ImageTensor.ImageToFloat32Checked | image.go:28-32 | the dimension error exactly when some image differs in size from the first, the packing otherwise |
| ImageTensor.PackBatch | image.go:34-72 | the triple loop builds exactly the packed buffer, or stops with the invalid-shape error for an unknown tag |
| ImageTensor.PackPixel | image.go:40-68 | one pixel: downscaled, optionally divided by 255, reordered and written at its three offsets; nothing written for an unknown tag |
| Seqs.Chain | preprocess.go:10-12 | a transform list applied in order to one value, as both loops over configured functions do (also preprocess.go:31-35); stated by `ChainAppend` and `ChainFirst` |
| Seqs.ChainAppend | preprocess.go:10-12 | running two transform lists one after the other is running their concatenation |
| Seqs.ChainFirst | preprocess.go:31-35 | a transform chain applies its first function first |
| Seqs.Map | preprocess.go:9-14 | one output per input |
| Seqs.MapAt | preprocess.go:9-14 | output `i` is the function applied to input `i` |
| Seqs.SplitBatch | classifier.go:133-135 | `batch` chunks of `dim` values each |
| Seqs.SplitBatchAt | classifier.go:133-135 | chunk `b` is `out[dim*b .. dim*(b+1)]` |
| Seqs.FlattenSplitBatch | classifier.go:133-135 | the chunks concatenated are the whole output |
| Preprocess.LayoutOf | preprocess.go:39-48 | planar exactly for `BCHW`; every other tag is interleaved |
| Preprocess.Processed | preprocess.go:9-14 | one processed image per input image, in the same order |
| Preprocess.ChannelValue | preprocess.go:27-35 | one channel after `/ 257` and the channel-transform chain; with no channel transforms it lies in 0..255 |
| Preprocess.PixelValues | preprocess.go:27-37 | the colour function's output for the three transformed channels of one pixel |
| Preprocess.Preprocessed | preprocess.go:16-48 | the buffer has `len(images) * H * W * 3` values, with `H` and `W` taken from the first processed image |
| Preprocess.PreprocessImages | preprocess.go:7-53 | always succeeds, with the packing of the processed batch at the first processed image's size |
| Preprocess.PreprocessPixel | preprocess.go:25-48 | one pixel: `/ 257`, the channel chain on all three channels, the colour function, written at its three offsets |
| Preprocess.ProcessedAt | preprocess.go:9-14 | processed image `i` is input `i` after the image transforms in configured order; one per input |
| Preprocess.PreprocessedAt | preprocess.go:16-48 | the buffer has `len(images) * H * W * 3` values and holds component `c` of the colour function's output at each scalar's offset |
| Preprocess.BgrFuncWritesBlueFirst | preprocess.go:37 | with `ColorFormatBGR` as colour function, blue, green and red are written in that order |
| Preprocess.GreyStaysGrey | preprocess.go:31-37 | with a permuting colour function, a pixel with equal channels is written as three equal values |
| Classifier.GoHalf | classifier.go:58-59 | Go's `/ 2`: half rounded toward zero |
| Classifier.Stored | classifier.go:55-56 | a pixel drawn on the 8-bit canvas keeps its top byte in every channel |
| Classifier.PadToSquare | classifier.go:54-61 | the padded canvas is `size` by `size` |
| Classifier.PadPlacesThumbnail | classifier.go:58-60 | a fitting thumbnail is centred (opposite margins differ by at most one) and its pixel `(x, y)` lands at `(x + offsetX, y + offsetY)` with the same top bytes |
| Classifier.PadFillsMargins | classifier.go:56 | every canvas pixel outside the thumbnail is the padding grey |
| Classifier.Fit | classifier.go:53-64 | both branches give a `size` by `size` image |
| Classifier.Resized | classifier.go:52-66 | one resized image per input |
| Classifier.ResizedAt | classifier.go:52-66 | resized image `i` is input `i` fitted, and it is `size` by `size` |
| Classifier.Preprocessed | classifier.go:67 | fails, with the invalid-shape error, exactly when `size > 0` and the tag is unknown; else `len(images) * size * size * 3` values |
| Classifier.PreprocessImages | classifier.go:48-68 | the result is the packing of the resized batch, through image.go's packer as written |
| Classifier.InputShape | classifier.go:103-110 | fails, with the invalid-shape error, exactly for an unknown tag |
| Classifier.InputShapeIsShapeGet | classifier.go:103-110 | the input shape is shape.go's `Get` of the matching layout, with product `batch * size * size * 3` |
| Classifier.Infer | classifier.go:112-130 | an unknown tag is the invalid-shape error; a success has `batch * OutputDim` values |
| Classifier.RawOutput | classifier.go:92-138 | a preprocessing error is returned unchanged; a success has one chunk of `OutputDim` values per image |
| Classifier.RunRaw | classifier.go:92-138 | returns the first error of preprocessing, shape switch and engine, else the sliced engine output |
| Classifier.SliceOutput | classifier.go:133-135 | the slicing loop builds exactly the `batch` chunks of `dim` values |
| Classifier.RawOutputChunk | classifier.go:130-135 | after a successful run there is one chunk per image, and chunk `b` is `output[OutputDim*b .. OutputDim*(b+1)]` |
| Classifier.RawOutputFlatten | classifier.go:130-135 | the chunks concatenated are the whole engine output |
| Classifier.RawOutputIsSplit | classifier.go:118 | a successful run's output has `batch * OutputDim` values and is cut into `batch` chunks |
| Classifier.UnknownShapeFails | classifier.go:103-110 | an unknown shape tag always ends in the invalid-shape error, whatever the size |
| Classifier.TopIndex | classifier.go:79-86 | the scan's pick is -1 (nothing above 0) or an index of the vector |
| Classifier.TopIndexIsFirstMaximum | classifier.go:79-86 | the pick is -1 exactly when no entry is positive, else the first entry holding the maximum, which is positive |
| Classifier.Top1 | classifier.go:79-86 | the label picked for one probability vector is one of the configured labels |
| Classifier.Top1Spec | classifier.go:79-86 | `Labels[0]` when no labelled probability is positive, else the label of the first maximal labelled probability |
| Classifier.TieKeepsFirst | classifier.go:82 | a tie keeps the earlier label |
| Classifier.TwoImageExample | classifier.go:70-90 | engine output 0.9, 0.1, 0.2, 0.8 for two images gives chunks `[0.9, 0.1]`, `[0.2, 0.8]` and labels `monochrome`, `normal` |
| Classifier.Run | classifier.go:70-90 | `RunRaw`'s error unchanged, else one top-1 label per chunk, in order |

## Left out

- Floating point: `float32` values are reals, so rounding of the conversions, of `/ 255.0` and of the channel transforms is not modelled; the channel transforms and the colour function are arbitrary functions on reals.
- ImageTensor.Scale: divides by 255 as a real, not as a rounded `float32`.
- Classifier.Top1Spec: compares reals; `float32` NaN (which never compares greater) is not modelled.
- Integer overflow: Go's `int` is 64 bits; offsets and buffer lengths are unbounded integers here.
- Image bounds: images start at the origin (`Bounds().Min == (0, 0)`); `At` is a total function, as Go's out-of-bounds `At` returns a colour too.
- Alpha: never read by the packers; the padding branch draws with `draw.Over` as an opaque copy, so blending of a translucent thumbnail is not modelled.
- Resampling internals of `resize.Thumbnail` and `resize.Resize`: abstract functions; the plain branch's result is taken to be `size` by `size`, and `Classifier.PadPlacesThumbnail` assumes the thumbnail fits in the canvas.
- `preprocess.go`'s `BCHW` constant is declared in none of shape.go, image.go, config.go, classifier.go and preprocess.go; it is taken to be image.go's `ShapeBCHW` tag (1).
- Classifier.ClassifierConfig: `Size` and `OutputDim` are non-negative; negative values (which make Go's `image.Rect` and slicing misbehave) are not modelled.
- Classifier.Run: requires at least one label and `OutputDim >= len(Labels)` only when the engine run succeeds (`RawOutput` is a success), the conditions under which Go's `Labels[0]` and `probs[i]` do not panic; the panics themselves are not modelled.
- Classifier.Fit: a size of 0 is modelled as a 0×0 result, whereas `resize.Resize(0, 0, ...)` keeps the image's own size; so `Classifier.Preprocessed`'s "fails exactly when `size > 0`" and `UnknownShapeFails`'s split between the packer's and the shape switch's error rely on that simplification for size 0.
- `NewClassifier` and session creation, `Destroy` and `defer` resource release, and the tensor memory of ONNX Runtime: engine-side calls, modelled only through the `Session` oracle.
- config.go's `createSessionOptions`: only calls into onnxruntime_go (threads, execution providers).
- runtime.go (shared-library path and environment set-up) and example/main.go (file listing, JPEG decoding, printing): I/O.

## Findings

| source | as written | input that shows it | evidently intended | confidence | as-written member | corrected member |
|---|---|---|---|---|---|---|
| image.go:28-32 | the size check ranges over `images[:1]`, so it compares the first image only with itself and the "all images must have the same dimensions" error can never be returned | a 1×1 image followed by a 2×2 image: no error, and the batch is packed as two 1×1 images | the check ranges over every image and returns the dimension error for a batch of mixed sizes | high; not executed | ImageTensor.SizeCheckMissesMismatch | ImageTensor.ImageToFloat32Checked |
