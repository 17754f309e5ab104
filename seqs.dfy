/** Sequence helpers shared by the pipeline stages. */
module Seqs {

  import Arith

  /** Applies the transforms of `fs` to `x` in configured order: `fs[0]` first, the last one last. */
  function Chain<T>(fs: seq<T -> T>, x: T): T
    decreases |fs|
  {
    if fs == [] then x else fs[|fs| - 1](Chain(fs[..|fs| - 1], x))
  }

  /** Running two chains one after the other is running their concatenation. */
  lemma {:induction false} ChainAppend<T>(fs: seq<T -> T>, gs: seq<T -> T>, x: T)
    ensures Chain(fs + gs, x) == Chain(gs, Chain(fs, x))
    decreases |gs|
  {
    if gs != [] {
      var init := gs[..|gs| - 1];
      assert (fs + gs)[..|fs + gs| - 1] == fs + init;
      ChainAppend(fs, init, x);
    } else {
      assert fs + gs == fs;
    }
  }

  /** The first configured transform sees the input first. */
  lemma ChainFirst<T>(fs: seq<T -> T>, x: T)
    requires fs != []
    ensures Chain(fs, x) == Chain(fs[1..], fs[0](x))
  {
    assert fs == [fs[0]] + fs[1..];
    ChainAppend([fs[0]], fs[1..], x);
    assert [fs[0]][..0] == [];
  }

  /** Product of the dimensions of a tensor shape. */
  function Product(dims: seq<int>): int
  {
    if dims == [] then 1 else dims[0] * Product(dims[1..])
  }

  /** Concatenation of a sequence of chunks. */
  function Flatten<T>(chunks: seq<seq<T>>): (flat: seq<T>)
  {
    if chunks == [] then [] else chunks[0] + Flatten(chunks[1..])
  }

  /** `f` applied to every element, in order. */
  function Map<A, B>(f: A -> B, xs: seq<A>): (ys: seq<B>)
    ensures |ys| == |xs|
  {
    if xs == [] then [] else Map(f, xs[..|xs| - 1]) + [f(xs[|xs| - 1])]
  }

  lemma {:induction false} MapAt<A, B>(f: A -> B, xs: seq<A>, i: int)
    requires 0 <= i < |xs|
    ensures Map(f, xs)[i] == f(xs[i])
    decreases |xs|
  {
    if i < |xs| - 1 {
      MapAt(f, xs[..|xs| - 1], i);
    }
  }

  /** Cuts `out` into `batch` consecutive chunks of `dim` values each. */
  function SplitBatch<T>(out: seq<T>, batch: nat, dim: nat): (chunks: seq<seq<T>>)
    requires |out| == batch * dim
    ensures |chunks| == batch
    ensures forall k :: 0 <= k < batch ==> |chunks[k]| == dim
    decreases batch
  {
    if batch == 0 then []
    else
      Arith.Distrib(batch - 1, dim);
      [out[..dim]] + SplitBatch(out[dim..], batch - 1, dim)
  }

  /** Chunk `b` is `out[dim * b .. dim * (b + 1)]`. */
  lemma {:induction false} SplitBatchAt<T>(out: seq<T>, batch: nat, dim: nat, b: int)
    requires |out| == batch * dim && 0 <= b < batch
    ensures dim * (b + 1) <= |out|
    ensures SplitBatch(out, batch, dim)[b] == out[dim * b .. dim * (b + 1)]
    decreases batch
  {
    Arith.MulMonotone(b + 1, batch, dim);
    Arith.Distrib(batch - 1, dim);
    if b > 0 {
      SplitBatchAt(out[dim..], batch - 1, dim, b - 1);
      Arith.Distrib(b - 1, dim);
      Arith.Distrib(b, dim);
      assert out[dim..][dim * (b - 1) .. dim * b] == out[dim * b .. dim * (b + 1)];
    }
  }

  /** The chunks put back together are the whole output. */
  lemma {:induction false} FlattenSplitBatch<T>(out: seq<T>, batch: nat, dim: nat)
    requires |out| == batch * dim
    ensures Flatten(SplitBatch(out, batch, dim)) == out
    decreases batch
  {
    if batch > 0 {
      Arith.Distrib(batch - 1, dim);
      FlattenSplitBatch(out[dim..], batch - 1, dim);
      assert out == out[..dim] + out[dim..];
    }
  }
}
