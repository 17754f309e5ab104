/** The `Shape` interface of shape.go: the two tensor conventions over a square `size` by `size` image. */
module Shapes {

  import opened Tensor
  import Seqs
  import Arith

  /** `bhwc` (channel-last) and `bchw` (channel-first), each holding the edge `size` set at construction. */
  datatype Shape = Bhwc(size: int) | Bchw(size: int)

  function NewBHWC(size: int): (s: Shape)
    ensures Size(s) == size && LayoutOf(s) == Interleaved
  {
    Bhwc(size)
  }

  function NewBCHW(size: int): (s: Shape)
    ensures Size(s) == size && LayoutOf(s) == Planar
  {
    Bchw(size)
  }

  function Size(s: Shape): int
  {
    s.size
  }

  /** The memory layout a shape stands for. */
  function LayoutOf(s: Shape): Layout
  {
    if s.Bchw? then Planar else Interleaved
  }

  /** The offsets of the first, second and third value of pixel `(x, y)` of image `batchIdx`. */
  function Index(s: Shape, batchIdx: int, x: int, y: int): (r: (int, int, int))
    ensures s.Bhwc? ==> r.0 % 3 == 0 && r.1 == r.0 + 1 && r.2 == r.0 + 2
    ensures s.Bchw? ==> r.1 == r.0 + s.size * s.size && r.2 == r.1 + s.size * s.size
  {
    match s
    case Bhwc(size) =>
      var index := (batchIdx * size * size + y * size + x) * 3;
      (index, index + 1, index + 2)
    case Bchw(size) =>
      (batchIdx * 3 * size * size + 0 * size * size + y * size + x,
       batchIdx * 3 * size * size + 1 * size * size + y * size + x,
       batchIdx * 3 * size * size + 2 * size * size + y * size + x)
  }

  /** The tensor shape vector for a batch of `batch` images. */
  function Get(s: Shape, batch: int): (dims: seq<int>)
    ensures |dims| == 4 && dims[0] == batch
    ensures Seqs.Product(dims) == batch * s.size * s.size * 3
    ensures s.Bhwc? ==> dims[1] == dims[2] == s.size && dims[3] == 3
    ensures s.Bchw? ==> dims[1] == 3 && dims[2] == dims[3] == s.size
  {
    var dims := match s
      case Bhwc(size) => [batch, size, size, 3]
      case Bchw(size) => [batch, 3, size, size];
    assert Seqs.Product(dims[3..]) == dims[3];
    assert Seqs.Product(dims[2..]) == dims[2] * dims[3];
    assert Seqs.Product(dims[1..]) == dims[1] * (dims[2] * dims[3]);
    dims
  }

  /** Value `c` (0, 1 or 2) of an offset triple. */
  function Channel(t: (int, int, int), c: int): int
    requires 0 <= c < 3
  {
    if c == 0 then t.0 else if c == 1 then t.1 else t.2
  }

  /** shape.go's `Index` is the layout arithmetic image.go and preprocess.go write inline,
      on a `size` by `size` image. */
  lemma IndexIsOffset(s: Shape, batchIdx: int, x: int, y: int, c: int)
    requires 0 <= c < 3
    ensures Channel(Index(s, batchIdx, x, y), c) == Offset(LayoutOf(s), s.size, s.size, Cell(batchIdx, y, x, c))
  {
  }

  /** The three offsets never alias, except for the degenerate `bchw` of size 0 where they coincide. */
  lemma IndexDistinct(s: Shape, batchIdx: int, x: int, y: int)
    ensures var r := Index(s, batchIdx, x, y);
      (r.0 != r.1 && r.1 != r.2 && r.0 != r.2) <==> (s.Bhwc? || s.size != 0)
  {
    if s.Bchw? && s.size != 0 {
      var m := if s.size < 0 then -s.size else s.size;
      Arith.MulPositive(m, m);
      assert s.size * s.size == m * m;
    }
  }

  /** For a pixel inside the image, the offsets lie in the slice `[batchIdx * 3 * size * size, (batchIdx + 1) * 3 * size * size)`
      of that image, hence inside a buffer of `Product(Get(batch))` values. */
  lemma IndexInBatchSlice(s: Shape, batch: int, batchIdx: int, x: int, y: int, c: int)
    requires 0 <= batchIdx < batch && 0 <= x < s.size && 0 <= y < s.size && 0 <= c < 3
    ensures var o := Channel(Index(s, batchIdx, x, y), c);
      batchIdx * 3 * s.size * s.size <= o < (batchIdx + 1) * 3 * s.size * s.size && 0 <= o < Seqs.Product(Get(s, batch))
  {
    IndexIsOffset(s, batchIdx, x, y, c);
    OffsetInSlice(LayoutOf(s), s.size, s.size, batch, Cell(batchIdx, y, x, c));
  }

  /** No two values of the batch share an offset. */
  lemma IndexInjective(s: Shape, n1: int, x1: int, y1: int, c1: int, n2: int, x2: int, y2: int, c2: int)
    requires 0 <= n1 && 0 <= x1 < s.size && 0 <= y1 < s.size && 0 <= c1 < 3
    requires 0 <= n2 && 0 <= x2 < s.size && 0 <= y2 < s.size && 0 <= c2 < 3
    ensures Channel(Index(s, n1, x1, y1), c1) == Channel(Index(s, n2, x2, y2), c2) ==>
      n1 == n2 && x1 == x2 && y1 == y2 && c1 == c2
  {
    if Channel(Index(s, n1, x1, y1), c1) == Channel(Index(s, n2, x2, y2), c2) {
      IndexIsOffset(s, n1, x1, y1, c1);
      IndexIsOffset(s, n2, x2, y2, c2);
      OffsetInjective(LayoutOf(s), s.size, s.size, Cell(n1, y1, x1, c1), Cell(n2, y2, x2, c2));
    }
  }

  /** Every offset of a buffer of `Product(Get(batch))` values belongs to some value of the batch. */
  lemma IndexOnto(s: Shape, batch: int, i: int)
    requires 0 <= s.size && 0 <= i < Seqs.Product(Get(s, batch))
    ensures exists n, x, y, c ::
      0 <= n < batch && 0 <= x < s.size && 0 <= y < s.size && 0 <= c < 3 && Channel(Index(s, n, x, y), c) == i
  {
    OffsetOnto(LayoutOf(s), s.size, s.size, batch, i);
    var cell :| InBatch(cell, batch, s.size, s.size) && Offset(LayoutOf(s), s.size, s.size, cell) == i;
    IndexIsOffset(s, cell.n, cell.x, cell.y, cell.c);
  }
}
