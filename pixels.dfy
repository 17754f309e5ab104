/** Images as the pipeline sees them, and the two 16-to-8-bit channel downscales. */
module Pixels {

  import Arith

  /** A channel as Go's `color.Color.RGBA()` reports it: 16 bits, 0..65535. */
  type Channel16 = v: int | 0 <= v < 0x1_0000

  /** The red, green and blue channels of one pixel (alpha is never read). */
  datatype Pixel = Pixel(r: Channel16, g: Channel16, b: Channel16)

  /** An image whose bounds start at the origin: `at(x, y)` is defined everywhere, as `image.Image.At` is. */
  datatype Image = Image(width: nat, height: nat, at: (int, int) -> Pixel)

  /** `v >> 8` on the uint32 channel, as image.go downscales. */
  function Shift8(v: Channel16): (b: int)
    ensures 0 <= b <= 255
    ensures b * 256 <= v < (b + 1) * 256
  {
    v / 256
  }

  /** Integer `v / 257`, as preprocess.go downscales (`257.0` is an untyped constant converted to uint32). */
  function Div257(v: Channel16): (b: int)
    ensures 0 <= b <= 255
    ensures b * 257 <= v < (b + 1) * 257
  {
    v / 257
  }

  /** Both downscales invert the 8-to-16-bit expansion `v * 257` (0x101) of Go's colour model. */
  lemma DownscalesInvertExpansion(v: int)
    requires 0 <= v <= 255
    ensures Shift8(v * 257) == v && Div257(v * 257) == v
  {
    Arith.DivModUnique(v * 257, 256, v, v);
    Arith.DivModUnique(v * 257, 257, v, 0);
  }

  /** The boundary values of the `/ 257` downscale. */
  lemma Div257Boundaries()
    ensures Div257(0) == 0 && Div257(255 * 257) == 255 && Div257(65535) == 255
    ensures Shift8(0) == 0 && Shift8(255 * 257) == 255 && Shift8(65535) == 255
  {
  }

  /** The two generations never disagree by more than one step, and `>> 8` is never the lower. */
  lemma DownscalesCompare(v: Channel16)
    ensures Div257(v) <= Shift8(v) <= Div257(v) + 1
  {
    var s, d := Shift8(v), Div257(v);
    if s < d {
      Arith.MulMonotone(s + 1, d, 256);
    }
    if s > d + 1 {
      Arith.MulMonotone(d + 2, s, 256);
    }
  }

  /** The two downscales do differ: 65534 is 255 after `>> 8` but 254 after `/ 257`. */
  lemma DownscalesDiffer()
    ensures Shift8(65534) == 255 && Div257(65534) == 254
  {
  }

  /** What an 8-bit RGBA canvas hands back through `RGBA()` for a 16-bit channel drawn onto it:
      the top byte is stored, and read back expanded by 0x101. */
  function Quantize8(v: Channel16): (q: Channel16)
    ensures q % 257 == 0
    ensures Shift8(q) == Shift8(v) && Div257(q) == Shift8(v)
  {
    DownscalesInvertExpansion(v / 256);
    (v / 256) * 257
  }
}
