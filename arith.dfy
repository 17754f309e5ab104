/** Non-linear integer facts the layout proofs rest on. */
module Arith {

  lemma MulMonotone(a: int, b: int, k: int)
    requires a <= b && 0 <= k
    ensures a * k <= b * k
  {
    assert b * k - a * k == (b - a) * k;
  }

  lemma MulPositive(a: int, b: int)
    requires 0 < a && 0 < b
    ensures 0 < a * b
  {
    MulMonotone(1, a, b);
  }

  lemma DivNonneg(a: int, d: int)
    requires 0 <= a && 0 < d
    ensures 0 <= a / d
  {
  }

  lemma Assoc(a: int, h: int, w: int)
    ensures a * h * w == a * (h * w)
  {
  }

  lemma Distrib(a: int, s: int)
    ensures (a + 1) * s == a * s + s
  {
  }

  lemma DivMod(a: int, d: int)
    requires 0 < d
    ensures a == (a / d) * d + a % d && 0 <= a % d < d
  {
  }

  /** The two spellings of the batch stride the Go code uses, `k*3*h*w` and `k*h*w*3`, are one product. */
  lemma Regroup(k: int, h: int, w: int)
    ensures k * 3 * h * w == k * (3 * (h * w))
    ensures k * h * w * 3 == k * (3 * (h * w))
    ensures k * (3 * (h * w)) == 3 * (k * (h * w))
  {
  }

  /** Quotient and remainder by a positive divisor are fixed by any decomposition `a == q * d + r` with `0 <= r < d`. */
  lemma DivModUnique(a: int, d: int, q: int, r: int)
    requires 0 < d && 0 <= r < d && a == q * d + r
    ensures a / d == q && a % d == r
  {
    var q0, r0 := a / d, a % d;
    assert a == q0 * d + r0;
    if q0 < q {
      MulMonotone(q0 + 1, q, d);
    } else if q < q0 {
      MulMonotone(q + 1, q0, d);
    }
  }

  /** A row-major position `y * w + x` of a `h` by `w` grid stays below `h * w`. */
  lemma RowMajorBound(h: int, w: int, y: int, x: int)
    requires 0 <= y < h && 0 <= x < w
    ensures 0 <= y * w + x < h * w
  {
    MulMonotone(y + 1, h, w);
    MulMonotone(0, y, w);
  }

  /** A quotient of something below `h * w` by `w` stays below `h`. */
  lemma DivBelow(p: int, w: int, h: int)
    requires 0 < w && 0 <= p < h * w
    ensures 0 <= p / w < h
  {
    if p / w >= h {
      MulMonotone(h, p / w, w);
    }
  }
}
