/** The two memory layouts of a batch of three-channel images as one flat buffer,
    their inverse, and the packed buffer both packers must produce. */
module Tensor {

  import Arith

  /** Channel-first (`[batch, 3, h, w]`, planar) or channel-last (`[batch, h, w, 3]`, interleaved). */
  datatype Layout = Planar | Interleaved

  /** One scalar of the batch: image `n`, row `y`, column `x`, channel `c` (0, 1, 2 in output order). */
  datatype Cell = Cell(n: int, y: int, x: int, c: int)

  /** `cell` is one of the `batch * h * w * 3` scalars of the batch. */
  predicate InBatch(cell: Cell, batch: int, h: int, w: int)
  {
    0 <= cell.n < batch && 0 <= cell.y < h && 0 <= cell.x < w && 0 <= cell.c < 3
  }

  /** The flat offset of `cell`, exactly as image.go and preprocess.go compute it. */
  function Offset(l: Layout, h: int, w: int, cell: Cell): int
  {
    match l
    case Planar => cell.n * 3 * h * w + cell.c * h * w + cell.y * w + cell.x
    case Interleaved => (cell.n * h * w + cell.y * w + cell.x) * 3 + cell.c
  }

  /** The cell stored at flat offset `i`: the inverse of `Offset`. */
  function Owner(l: Layout, h: int, w: int, i: int): (cell: Cell)
    requires 0 < h && 0 < w && 0 <= i
    ensures 0 <= cell.n
    ensures 0 <= cell.y < h
    ensures 0 <= cell.x < w
    ensures 0 <= cell.c < 3
  {
    var plane := h * w;
    Arith.MulPositive(h, w);
    match l
    case Planar =>
      var r := i % (3 * plane);
      var p := r % plane;
      Arith.DivBelow(r, plane, 3);
      Arith.DivBelow(p, w, h);
      Arith.DivNonneg(i, 3 * plane);
      Cell(i / (3 * plane), p / w, p % w, r / plane)
    case Interleaved =>
      var q := (i / 3) % plane;
      Arith.DivBelow(q, w, h);
      Arith.DivNonneg(i / 3, plane);
      Cell((i / 3) / plane, q / w, q % w, i % 3)
  }

  /** `Offset` regrouped as "image stride times `n`, plus the position inside the image". */
  lemma OffsetForm(l: Layout, h: int, w: int, cell: Cell)
    ensures Offset(l, h, w, cell) == cell.n * (3 * (h * w)) + match l
      case Planar => cell.c * (h * w) + (cell.y * w + cell.x)
      case Interleaved => 3 * (cell.y * w + cell.x) + cell.c
  {
    Arith.Regroup(cell.n, h, w);
    Arith.Assoc(cell.c, h, w);
    Arith.Assoc(cell.n, h, w);
  }

  /** Every scalar of image `n` lies in that image's slice `[n * 3hw, (n + 1) * 3hw)`, hence in the buffer. */
  lemma OffsetInSlice(l: Layout, h: int, w: int, batch: int, cell: Cell)
    requires InBatch(cell, batch, h, w)
    ensures cell.n * 3 * h * w <= Offset(l, h, w, cell) < (cell.n + 1) * 3 * h * w
    ensures 0 <= Offset(l, h, w, cell) < batch * h * w * 3
  {
    var plane := h * w;
    var stride := 3 * plane;
    var inPlane := cell.y * w + cell.x;
    Arith.RowMajorBound(h, w, cell.y, cell.x);
    OffsetForm(l, h, w, cell);
    Arith.Regroup(cell.n, h, w);
    Arith.Regroup(cell.n + 1, h, w);
    Arith.Regroup(batch, h, w);
    Arith.Distrib(cell.n, stride);
    Arith.MulMonotone(0, cell.n, stride);
    Arith.MulMonotone(cell.n + 1, batch, stride);
    if l == Planar {
      Arith.MulMonotone(0, cell.c, plane);
      Arith.MulMonotone(cell.c, 2, plane);
    }
  }

  /** Reading the owner of an offset and locating it again gives the same offset. */
  lemma OffsetOfOwner(l: Layout, h: int, w: int, i: int)
    requires 0 < h && 0 < w && 0 <= i
    ensures Offset(l, h, w, Owner(l, h, w, i)) == i
  {
    var cell := Owner(l, h, w, i);
    OffsetForm(l, h, w, cell);
    var plane := h * w;
    Arith.MulPositive(h, w);
    match l
    case Planar =>
      var r := i % (3 * plane);
      var p := r % plane;
      Arith.DivMod(i, 3 * plane);
      Arith.DivMod(r, plane);
      Arith.DivMod(p, w);
      assert cell == Cell(i / (3 * plane), p / w, p % w, r / plane);
    case Interleaved =>
      var q := (i / 3) % plane;
      Arith.DivMod(i, 3);
      Arith.DivMod(i / 3, plane);
      Arith.DivMod(q, w);
      assert cell == Cell((i / 3) / plane, q / w, q % w, i % 3);
      Arith.Regroup((i / 3) / plane, h, w);
  }

  /** Locating a cell and reading the owner of its offset gives the same cell. */
  lemma OwnerOfOffset(l: Layout, h: int, w: int, cell: Cell)
    requires 0 <= cell.n && 0 <= cell.y < h && 0 <= cell.x < w && 0 <= cell.c < 3
    ensures 0 <= Offset(l, h, w, cell)
    ensures Owner(l, h, w, Offset(l, h, w, cell)) == cell
  {
    var plane := h * w;
    var inPlane := cell.y * w + cell.x;
    Arith.MulPositive(h, w);
    Arith.RowMajorBound(h, w, cell.y, cell.x);
    Arith.DivModUnique(inPlane, w, cell.y, cell.x);
    OffsetForm(l, h, w, cell);
    var i := Offset(l, h, w, cell);
    Arith.MulMonotone(0, cell.n, 3 * plane);
    match l
    case Planar =>
      var r := cell.c * plane + inPlane;
      Arith.MulMonotone(cell.c, 2, plane);
      Arith.MulMonotone(0, cell.c, plane);
      Arith.DivModUnique(i, 3 * plane, cell.n, r);
      Arith.DivModUnique(r, plane, cell.c, inPlane);
    case Interleaved =>
      var p := cell.n * plane + inPlane;
      Arith.Regroup(cell.n, h, w);
      Arith.MulMonotone(0, cell.n, plane);
      Arith.DivModUnique(i, 3, p, cell.c);
      Arith.DivModUnique(p, plane, cell.n, inPlane);
  }

  /** An offset below `batch * h * w * 3` belongs to one of the `batch` images. */
  lemma OwnerInBatch(l: Layout, h: int, w: int, batch: int, i: int)
    requires 0 < h && 0 < w && 0 <= i < batch * h * w * 3
    ensures InBatch(Owner(l, h, w, i), batch, h, w)
  {
    var cell := Owner(l, h, w, i);
    OffsetOfOwner(l, h, w, i);
    OffsetInSlice(l, h, w, cell.n + 1, cell);
    if batch <= cell.n {
      Arith.MulMonotone(batch, cell.n, 3 * (h * w));
      Arith.Regroup(batch, h, w);
      Arith.Regroup(cell.n, h, w);
    }
  }

  /** Distinct scalars never share an offset: every buffer cell has at most one writer. */
  lemma OffsetInjective(l: Layout, h: int, w: int, a: Cell, b: Cell)
    requires 0 <= a.n && 0 <= a.y < h && 0 <= a.x < w && 0 <= a.c < 3
    requires 0 <= b.n && 0 <= b.y < h && 0 <= b.x < w && 0 <= b.c < 3
    requires Offset(l, h, w, a) == Offset(l, h, w, b)
    ensures a == b
  {
    OwnerOfOffset(l, h, w, a);
    OwnerOfOffset(l, h, w, b);
  }

  /** Every offset of the buffer is the offset of some scalar of the batch: every cell has a writer. */
  lemma OffsetOnto(l: Layout, h: nat, w: nat, batch: int, i: int)
    requires 0 <= i < batch * h * w * 3
    ensures exists cell :: InBatch(cell, batch, h, w) && Offset(l, h, w, cell) == i
  {
    if h == 0 || w == 0 {
      assert false;
    } else {
      OwnerInBatch(l, h, w, batch, i);
      OffsetOfOwner(l, h, w, i);
    }
  }

  /** The buffer a packer must produce: `val(cell)` at `Offset(cell)` for every scalar of the batch. */
  function Pack(l: Layout, h: nat, w: nat, batch: nat, val: Cell -> real): (buf: seq<real>)
    ensures |buf| == batch * h * w * 3
  {
    if h == 0 || w == 0 then [] else seq(batch * h * w * 3, i requires 0 <= i => val(Owner(l, h, w, i)))
  }

  /** Reading the packed buffer back at a scalar's offset returns that scalar. */
  lemma PackAt(l: Layout, h: nat, w: nat, batch: nat, val: Cell -> real, cell: Cell)
    requires InBatch(cell, batch, h, w)
    ensures 0 <= Offset(l, h, w, cell) < |Pack(l, h, w, batch, val)|
    ensures Pack(l, h, w, batch, val)[Offset(l, h, w, cell)] == val(cell)
  {
    OffsetInSlice(l, h, w, batch, cell);
    OwnerOfOffset(l, h, w, cell);
  }

  /** Pixel `(cell.n, cell.y, cell.x)` comes before pixel `(n, y, x)` in the packers' loop order. */
  ghost predicate Before(cell: Cell, n: int, y: int, x: int)
  {
    cell.n < n || (cell.n == n && (cell.y < y || (cell.y == y && cell.x < x)))
  }

  /** A packer's loop invariant: `buf` already holds `val` at every scalar of every pixel before `(n, y, x)`. */
  ghost predicate Filled(buf: seq<real>, l: Layout, h: int, w: int, val: Cell -> real, n: int, y: int, x: int)
    requires 0 < h && 0 < w
  {
    forall i | 0 <= i < |buf| && Before(Owner(l, h, w, i), n, y, x) :: buf[i] == val(Owner(l, h, w, i))
  }

  /** Writing the three scalars of pixel `(n, y, x)` at their offsets advances the invariant by one pixel
      and stays inside the buffer. */
  lemma FillPixel(buf: seq<real>, l: Layout, h: int, w: int, batch: int, val: Cell -> real, n: int, y: int, x: int)
    requires 0 < h && 0 < w && |buf| == batch * h * w * 3
    requires 0 <= n < batch && 0 <= y < h && 0 <= x < w
    requires Filled(buf, l, h, w, val, n, y, x)
    ensures 0 <= Offset(l, h, w, Cell(n, y, x, 0)) < |buf|
    ensures 0 <= Offset(l, h, w, Cell(n, y, x, 1)) < |buf|
    ensures 0 <= Offset(l, h, w, Cell(n, y, x, 2)) < |buf|
    ensures Filled(buf[Offset(l, h, w, Cell(n, y, x, 0)) := val(Cell(n, y, x, 0))]
                      [Offset(l, h, w, Cell(n, y, x, 1)) := val(Cell(n, y, x, 1))]
                      [Offset(l, h, w, Cell(n, y, x, 2)) := val(Cell(n, y, x, 2))], l, h, w, val, n, y, x + 1)
  {
    forall c | 0 <= c < 3
      ensures 0 <= Offset(l, h, w, Cell(n, y, x, c)) < |buf|
      ensures Owner(l, h, w, Offset(l, h, w, Cell(n, y, x, c))) == Cell(n, y, x, c)
    {
      OffsetInSlice(l, h, w, batch, Cell(n, y, x, c));
      OwnerOfOffset(l, h, w, Cell(n, y, x, c));
    }
    var next := buf[Offset(l, h, w, Cell(n, y, x, 0)) := val(Cell(n, y, x, 0))]
                   [Offset(l, h, w, Cell(n, y, x, 1)) := val(Cell(n, y, x, 1))]
                   [Offset(l, h, w, Cell(n, y, x, 2)) := val(Cell(n, y, x, 2))];
    forall i | 0 <= i < |next| && Before(Owner(l, h, w, i), n, y, x + 1)
      ensures next[i] == val(Owner(l, h, w, i))
    {
      var cell := Owner(l, h, w, i);
      if !Before(cell, n, y, x) {
        OffsetOfOwner(l, h, w, i);
        assert i == Offset(l, h, w, Cell(n, y, x, cell.c));
      }
    }
  }

  /** Once every pixel of the batch has been visited, the buffer is the packed one. */
  lemma FilledAll(buf: seq<real>, l: Layout, h: nat, w: nat, batch: nat, val: Cell -> real)
    requires 0 < h && 0 < w && |buf| == batch * h * w * 3
    requires Filled(buf, l, h, w, val, batch, 0, 0)
    ensures buf == Pack(l, h, w, batch, val)
  {
    forall i | 0 <= i < |buf| ensures buf[i] == Pack(l, h, w, batch, val)[i] {
      OwnerInBatch(l, h, w, batch, i);
    }
  }
}
