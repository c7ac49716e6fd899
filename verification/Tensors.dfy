/** Tensors as the CUDA-graph path sees them, and the forward pass.

    A tensor is a shape and its row-major contents. Only the leading dimension is ever
    cut or extended, so a tensor is also `Rows()` rows of `Stride()` elements each.
    Elements are opaque integers with 0 as the value that `zeros` and `zero_` write. */
module Tensors {
  import opened Basics

  /** Number of elements of a tensor of this shape. */
  function Product(shape: seq<nat>): nat {
    if shape == [] then 1 else shape[0] * Product(shape[1..])
  }

  datatype Tensor = Tensor(shape: seq<nat>, data: seq<int>) {
    predicate Valid() {
      |shape| >= 1 && |data| == Rows() * Stride()
    }

    /** `size(0)` */
    function Rows(): nat {
      if shape == [] then 0 else shape[0]
    }

    /** Elements in one row of the leading dimension. */
    function Stride(): nat {
      if shape == [] then 1 else Product(shape[1..])
    }

    /** `narrow(0, 0, n)` */
    function Narrow(n: nat): (t: Tensor)
      requires Valid() && n <= Rows()
      ensures t.Valid() && t.Stride() == Stride() && t.data <= data
    {
      MulMono(n, Rows(), Stride());
      assert shape[0 := n][1..] == shape[1..];
      Tensor(shape[0 := n], data[..n * Stride()])
    }
  }

  lemma MulMono(a: nat, b: nat, c: nat)
    requires a <= b
    ensures a * c <= b * c
  {}

  const INT32_LIMIT := 0x8000_0000

  /** `.to(torch::kInt32)`: the low 32 bits, read as a signed number. */
  function ToInt32(v: int): int {
    (v + INT32_LIMIT) % (2 * INT32_LIMIT) - INT32_LIMIT
  }

  /** The end positions of `n` requests of `per` elements each: per, 2*per, ..., n*per. */
  function Ends(n: nat, per: nat): seq<int> {
    seq(n, i => (i + 1) * per)
  }

  /** The same end positions after the cast to the 32-bit index type. */
  function Ends32(n: nat, per: nat): seq<int> {
    seq(n, i => ToInt32((i + 1) * per))
  }

  /** Elements per request, as the code recovers it from the flat tensor [1]. */
  function Per(x: seq<Tensor>, r: nat): nat
    requires |x| >= 2 && r >= 1
  {
    |x[1].data| / r
  }

  /** A request batch in the three-tensor layout: [0] one row per request, [1] the flat
      elements of all requests, [2] where each request ends in [1]. Requests may differ in
      how many elements of [1] they own. */
  predicate Ragged(x: seq<Tensor>, r: nat) {
    && |x| == 3 && x[0].Valid() && x[1].Valid() && x[2].Valid()
    && x[0].Rows() == r
    && x[1].shape == [|x[1].data|]
    && x[2].shape == [r]
    && forall i :: 0 <= i < r ==> RequestFits(x, i)
  }

  /** Request i occupies a range of the flat tensor [1]. */
  predicate RequestFits(x: seq<Tensor>, i: int)
    requires |x| == 3
  {
    0 <= EndAt(x[2].data, i - 1) <= EndAt(x[2].data, i) <= |x[1].data|
  }

  /** The shapes of the layout, whatever [2] holds: r rows in [0], on average at least one element
      of [1] for every request, r positions in [2]. */
  predicate Shaped(x: seq<Tensor>, r: nat) {
    && |x| == 3 && x[0].Valid() && x[1].Valid() && x[2].Valid()
    && r >= 1 && x[0].Rows() == r
    && Per(x, r) >= 1
    && x[1].shape == [|x[1].data|]
    && x[2].shape == [r]
  }

  /** A uniform request batch: every request owns the same number of elements, at least one.
      The end positions are stored in 32 bits. */
  predicate Packed(x: seq<Tensor>, r: nat) {
    && Shaped(x, r)
    && |x[1].data| == r * Per(x, r) < INT32_LIMIT
    && x[2].data == Ends(r, Per(x, r))
  }

  function EndAt(ends: seq<int>, i: int): int {
    if 0 <= i < |ends| then ends[i] else 0
  }

  function Slice(s: seq<int>, lo: int, hi: int): seq<int> {
    if 0 <= lo <= hi <= |s| then s[lo..hi] else []
  }

  /** A model with `outputs` outputs. In the request-batch layout row i of output k depends
      on request i alone: candidates attend only to their own request. Any other layout goes
      through `other`. */
  datatype Model = Model(
    outputs: nat,
    row: (nat, seq<int>, seq<int>) -> seq<int>,
    other: seq<Tensor> -> seq<seq<seq<int>>>)

  function ForwardRow(m: Model, k: nat, x: seq<Tensor>, i: nat): seq<int>
    requires |x| == 3
  {
    m.row(k,
          Slice(x[0].data, i * x[0].Stride(), (i + 1) * x[0].Stride()),
          Slice(x[1].data, EndAt(x[2].data, i - 1), EndAt(x[2].data, i)))
  }

  function ForwardOutput(m: Model, k: nat, x: seq<Tensor>): seq<seq<int>>
    requires |x| == 3
  {
    seq(x[0].Rows(), i requires 0 <= i => ForwardRow(m, k, x, i))
  }

  /** The eager run: all outputs of the model, one row per request. */
  function Forward(m: Model, x: seq<Tensor>): seq<seq<seq<int>>> {
    if |x| == 3 then seq(m.outputs, k requires 0 <= k => ForwardOutput(m, k, x)) else m.other(x)
  }

  /** Every output cut back to its first r rows (`narrow(0, 0, r)`). */
  function FirstRows(outs: seq<seq<seq<int>>>, r: nat): seq<seq<seq<int>>> {
    seq(|outs|, k requires 0 <= k < |outs| => if r <= |outs[k]| then outs[k][..r] else outs[k])
  }

  /** The buffers e hold batch x in their first r request slots. */
  predicate Covers(e: seq<Tensor>, x: seq<Tensor>, r: nat) {
    && |e| == 3 && |x| == 3
    && x[0].Rows() == r <= e[0].Rows()
    && e[0].Stride() == x[0].Stride()
    && x[0].data <= e[0].data
    && x[1].data <= e[1].data
    && x[2].data <= e[2].data
  }

  lemma {:induction false} MulBound(i: nat, r: nat, w: nat)
    requires i < r
    ensures 0 <= i * w <= (i + 1) * w <= r * w
  {}

  lemma EndsPrefix(x: seq<Tensor>, e: seq<Tensor>, r: nat, i: nat)
    requires Ragged(x, r) && Covers(e, x, r) && i < r
    ensures EndAt(e[2].data, i) == EndAt(x[2].data, i)
    ensures EndAt(e[2].data, i - 1) == EndAt(x[2].data, i - 1)
    ensures 0 <= EndAt(x[2].data, i - 1) <= EndAt(x[2].data, i) <= |x[1].data|
  {
    assert x[2].shape[1..] == [] && RequestFits(x, i);
  }

  lemma SlicePrefix(s: seq<int>, t: seq<int>, lo: int, hi: int)
    requires s <= t && 0 <= lo <= hi <= |s|
    ensures Slice(s, lo, hi) == Slice(t, lo, hi)
  {}

  /** Whatever the remaining slots contain, the first r rows are those of the batch alone. */
  lemma CoveredForward(m: Model, e: seq<Tensor>, x: seq<Tensor>, r: nat)
    requires Ragged(x, r) && Covers(e, x, r)
    ensures FirstRows(Forward(m, e), r) == Forward(m, x)
  {
    forall k, i | 0 <= k < m.outputs && 0 <= i < r
      ensures ForwardRow(m, k, e, i) == ForwardRow(m, k, x, i)
    {
      MulBound(i, r, x[0].Stride());
      EndsPrefix(x, e, r, i);
      SlicePrefix(x[0].data, e[0].data, i * x[0].Stride(), (i + 1) * x[0].Stride());
      SlicePrefix(x[1].data, e[1].data, EndAt(x[2].data, i - 1), EndAt(x[2].data, i));
    }
    forall k | 0 <= k < m.outputs
      ensures ForwardOutput(m, k, e)[..r] == ForwardOutput(m, k, x)
    {}
  }

  lemma {:induction false} EndsAt(n: nat, per: nat, i: int)
    requires -1 <= i < n
    ensures EndAt(Ends(n, per), i) == (i + 1) * per
  {}

  lemma FlatLength(t: Tensor, n: nat)
    requires t.Valid() && t.shape == [n]
    ensures t.Stride() == 1 && |t.data| == n
  {}

  /** Uniform batches are well-formed ragged batches. */
  lemma PackedIsRagged(x: seq<Tensor>, r: nat)
    requires Packed(x, r)
    ensures Ragged(x, r)
    ensures |x[1].data| == r * Per(x, r)
  {
    var per := Per(x, r);
    assert x[1].shape[1..] == [];
    forall i | 0 <= i < r
      ensures RequestFits(x, i)
    {
      EndsAt(r, per, i);
      EndsAt(r, per, i - 1);
      MulBound(i, r, per);
    }
  }

  /** A value within the index type survives the cast, and only such a value does. */
  lemma ToInt32Exact(v: nat)
    ensures ToInt32(v) == v <==> v < INT32_LIMIT
  {}

  /** Prefixes of the end positions do not depend on how many requests follow. */
  lemma Ends32Prefix(r: nat, b: nat, per: nat)
    requires r <= b && r * per < INT32_LIMIT
    ensures Ends(r, per) <= Ends32(b, per)
  {
    forall i | 0 <= i < r
      ensures Ends(r, per)[i] == Ends32(b, per)[i]
    {
      MulBound(i, r, per);
      ToInt32Exact((i + 1) * per);
    }
  }
}
