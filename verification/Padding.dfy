/** Padding a request batch up to a bucket: the copy made by `PadRequestsUp`, the in-place
    prestaging that replaces it, and why both keep the meaning of the batch. */
module Padding {
  import opened Basics
  import opened Tensors

  /** A packed tensor with its leading dimension scaled from r requests to b, the new rows
      zero. None when the scaled tensor has fewer rows than the original, where `narrow` throws. */
  function PadTensor(t: Tensor, r: nat, b: nat): Option<Tensor>
    requires t.Valid() && r >= 1
  {
    var rows := t.Rows() / r * b;
    if rows < t.Rows() then None else
    MulMono(t.Rows(), rows, t.Stride());
    Some(Tensor(t.shape[0 := rows], t.data + Zeros(rows * t.Stride() - |t.data|)))
  }

  /** What padding tensor i of the batch gives: the end positions are regenerated, every other
      tensor is extended by zero rows. */
  function PadOne(x: seq<Tensor>, i: nat, r: nat, b: nat): Option<Tensor>
    requires |x| >= 2 && i < |x| && x[i].Valid() && r >= 1
  {
    if i == 2 then Some(Tensor([b], Ends32(b, Per(x, r)))) else PadTensor(x[i], r, b)
  }

  /** The padded batch, or None when some tensor cannot be padded. */
  function PadUpTo(x: seq<Tensor>, n: nat, r: nat, b: nat): (p: Option<seq<Tensor>>)
    requires |x| >= 2 && n <= |x| && r >= 1
    requires forall i :: 0 <= i < |x| ==> x[i].Valid()
    ensures p.Some? ==> |p.value| == n
    ensures p.Some? <==> forall i :: 0 <= i < n ==> PadOne(x, i, r, b).Some?
    ensures p.Some? ==> forall i :: 0 <= i < n ==> Some(p.value[i]) == PadOne(x, i, r, b)
  {
    if n == 0 then Some([]) else
    match PadUpTo(x, n - 1, r, b)
    case None => None
    case Some(front) =>
      match PadOne(x, n - 1, r, b)
      case None => None
      case Some(t) => Some(front + [t])
  }

  /** One more tensor decides: without it there is no padded batch. */
  lemma PadStep(x: seq<Tensor>, i: nat, r: nat, b: nat)
    requires |x| >= 2 && i < |x| && r >= 1
    requires forall i :: 0 <= i < |x| ==> x[i].Valid()
    ensures PadOne(x, i, r, b).None? ==> PadRequests(x, r, b).None?
    ensures PadUpTo(x, i, r, b).Some? && PadOne(x, i, r, b).Some? ==>
      PadUpTo(x, i + 1, r, b) == Some(PadUpTo(x, i, r, b).value + [PadOne(x, i, r, b).value])
  {}

  function PadRequests(x: seq<Tensor>, r: nat, b: nat): (p: Option<seq<Tensor>>)
    requires |x| >= 2 && r >= 1
    requires forall i :: 0 <= i < |x| ==> x[i].Valid()
  {
    PadUpTo(x, |x|, r, b)
  }

  /** `PadRequestsUp`. */
  method PadRequestsUp(inputs: seq<Tensor>, r: nat, bucket: nat) returns (out: Option<seq<Tensor>>)
    requires |inputs| >= 2 && r >= 1
    requires forall i :: 0 <= i < |inputs| ==> inputs[i].Valid()
    ensures out == PadRequests(inputs, r, bucket)
  {
    var padded := [];
    var per := |inputs[1].data| / r;
    var i := 0;
    while i < |inputs|
      invariant 0 <= i <= |inputs|
      invariant PadUpTo(inputs, i, r, bucket) == Some(padded)
    {
      var t := inputs[i];
      PadStep(inputs, i, r, bucket);
      if i == 2 {
        padded := padded + [Tensor([bucket], Ends32(bucket, per))];
      } else {
        var rows := t.Rows() / r * bucket;
        if rows < t.Rows() {
          return None;
        }
        MulMono(t.Rows(), rows, t.Stride());
        padded := padded + [Tensor(t.shape[0 := rows], t.data + Zeros(rows * t.Stride() - |t.data|))];
      }
      i := i + 1;
    }
    return Some(padded);
  }

  /** The elements of [1] fit the padded tensor, which is scaled from their mean per request. */
  predicate PadsTo(x: seq<Tensor>, r: nat, b: nat)
    requires |x| >= 2 && r >= 1
  {
    |x[1].data| <= Per(x, r) * b
  }

  /** Padding a batch throws exactly when they do not: [0] and [2] always fit. */
  lemma PadsIff(x: seq<Tensor>, r: nat, b: nat)
    requires Shaped(x, r) && r <= b
    ensures PadRequests(x, r, b).Some? <==> PadsTo(x, r, b)
  {
    FlatLength(x[1], |x[1].data|);
    assert PadOne(x, 0, r, b).Some? && PadOne(x, 2, r, b).Some?;
    assert PadOne(x, 1, r, b).Some? <==> PadsTo(x, r, b);
  }

  /** Uniform batches can be padded to any larger bucket. */
  lemma PackedPads(x: seq<Tensor>, r: nat, b: nat)
    requires Packed(x, r) && r <= b
    ensures PadsTo(x, r, b)
  {
    MulMono(r, b, Per(x, r));
  }

  /** The shapes and contents of a padded batch. */
  lemma PaddedShapes(x: seq<Tensor>, r: nat, b: nat)
    requires Shaped(x, r) && r <= b && PadsTo(x, r, b)
    ensures PadRequests(x, r, b).Some?
    ensures var p := PadRequests(x, r, b).value;
      && |p| == 3 && p[0].Valid() && p[1].Valid() && p[2].Valid()
      && p[0].shape == x[0].shape[0 := b] && p[0].Stride() == x[0].Stride() && x[0].data <= p[0].data
      && p[1].shape == [b * Per(x, r)] && x[1].data <= p[1].data
      && p[2] == Tensor([b], Ends32(b, Per(x, r)))
  {
    var per := Per(x, r);
    FlatLength(x[1], |x[1].data|);
    PadsIff(x, r, b);
    MulMono(r, b, x[0].Stride());
    assert x[0].shape[0 := b][1..] == x[0].shape[1..];
    assert x[1].shape[0 := b * per] == [b * per];
    assert PadOne(x, 0, r, b).Some? && PadOne(x, 2, r, b).Some?;
    assert x[1].Rows() / r == per;
    assert x[1].Rows() / r * b == b * per;
    assert PadOne(x, 1, r, b).Some?;
    var p := PadRequests(x, r, b).value;
    assert p[0].shape[1..] == x[0].shape[1..];
    assert p[1].shape[1..] == [] && p[2].shape[1..] == [];
  }

  /** A padded uniform batch holds the batch in its first r slots. */
  lemma PaddedBatch(x: seq<Tensor>, r: nat, b: nat)
    requires Packed(x, r) && r <= b
    ensures PadRequests(x, r, b).Some? && Covers(PadRequests(x, r, b).value, x, r)
  {
    PackedPads(x, r, b);
    PaddedShapes(x, r, b);
    Ends32Prefix(r, b, Per(x, r));
  }

  /** Padding preserves meaning: on the padded batch the model computes, in its first r rows,
      exactly what it computes on the batch alone. */
  lemma PaddingPreservesMeaning(m: Model, x: seq<Tensor>, r: nat, b: nat)
    requires Packed(x, r) && r <= b
    ensures PadRequests(x, r, b).Some?
    ensures FirstRows(Forward(m, PadRequests(x, r, b).value), r) == Forward(m, x)
  {
    PaddedBatch(x, r, b);
    PackedIsRagged(x, r);
    CoveredForward(m, PadRequests(x, r, b).value, x, r);
  }

  /** The padded batch is itself a well-formed batch of b requests exactly when its last end
      position fits the index type. */
  lemma PaddedIsPackedIff(x: seq<Tensor>, r: nat, b: nat)
    requires Packed(x, r) && r <= b
    ensures PadRequests(x, r, b).Some?
    ensures Packed(PadRequests(x, r, b).value, b) <==> b * Per(x, r) < INT32_LIMIT
  {
    PackedPads(x, r, b);
    PaddedShapes(x, r, b);
    var p, per := PadRequests(x, r, b).value, Per(x, r);
    assert p[1].shape[1..] == [];
    assert |p[1].data| == b * per;
    ExactQuotient(b, per);
    if b * per < INT32_LIMIT {
      Ends32Prefix(b, b, per);
    }
  }

  lemma {:induction false} ExactQuotient(b: nat, per: nat)
    requires b >= 1
    ensures (b * per) / b == per && (b * per) % b == 0
  {
    DivUnique(b * per, b, per);
  }

  lemma DivUnique(n: nat, b: nat, q: nat)
    requires b >= 1 && b * q <= n < b * q + b
    ensures n / b == q
  {
    var d := n / b;
    assert b * d <= n < b * d + b;
    if d < q {
      MulMono(d + 1, q, b);
    } else if d > q {
      MulMono(q + 1, d, b);
    }
  }

  /** Extending the end positions with zeros instead of regenerating them never gives a
      layout: the first padding request would end before it starts. */
  lemma ZeroExtendedEndsInvalid(x: seq<Tensor>, p: seq<Tensor>, r: nat, b: nat)
    requires Packed(x, r) && r < b
    requires |p| == 3 && p[2] == Tensor([b], x[2].data + Zeros(b - r))
    ensures !Ragged(p, b)
  {
    PackedIsRagged(x, r);
    EndsAt(r, Per(x, r), r - 1);
    assert EndAt(p[2].data, r - 1) == EndAt(x[2].data, r - 1) == r * Per(x, r);
    MulMono(1, Per(x, r), r);
    assert EndAt(p[2].data, r) == 0 && !RequestFits(p, r);
  }

  /** A model that reports how many elements each request owns. */
  function WidthModel(): Model {
    Model(1, (k, single, multi: seq<int>) => [|multi|], x => [])
  }

  /** The end positions are those of equally wide requests. */
  predicate UniformEnds(x: seq<Tensor>, r: nat)
    requires |x| >= 3 && r >= 1
  {
    x[2].data == Ends(r, Per(x, r))
  }

  /** If the width model cannot tell the batch x from buffers e, their end positions agree. */
  lemma {:induction false} SameWidthsSameEnds(x: seq<Tensor>, e: seq<Tensor>, r: nat, b: nat, n: nat)
    requires Ragged(x, r) && |e| == 3 && r <= b && n <= r && e[0].Rows() == b
    requires |e[2].data| == b
    requires forall i :: 0 <= i < r ==> RequestFits(e, i)
    requires FirstRows(Forward(WidthModel(), e), r) == Forward(WidthModel(), x)
    ensures n > 0 ==> EndAt(e[2].data, n - 1) == EndAt(x[2].data, n - 1)
  {
    if n > 0 {
      var i := n - 1;
      SameWidthsSameEnds(x, e, r, b, i);
      assert RequestFits(x, i) && RequestFits(e, i);
      assert FirstRows(Forward(WidthModel(), e), r)[0] == Forward(WidthModel(), x)[0];
      assert ForwardOutput(WidthModel(), 0, e)[..r][i] == ForwardOutput(WidthModel(), 0, x)[i];
      assert ForwardRow(WidthModel(), 0, e, i) == ForwardRow(WidthModel(), 0, x, i);
    }
  }

  /** What the padded ragged batch has in common with the batch. */
  lemma PaddedRagged(x: seq<Tensor>, r: nat, b: nat)
    requires Ragged(x, r) && 1 <= r <= b && |x[1].data| < INT32_LIMIT
    requires PadRequests(x, r, b).Some?
    ensures var p, per := PadRequests(x, r, b).value, Per(x, r);
      && |p| == 3 && p[0].Rows() == b && p[0].Stride() == x[0].Stride()
      && x[0].data <= p[0].data && x[1].data <= p[1].data && |p[1].data| >= r * per
      && Ends(r, per) <= p[2].data && |p[2].data| == b && |x[2].data| == r
  {
    var p, per := PadRequests(x, r, b).value, Per(x, r);
    assert Some(p[0]) == PadOne(x, 0, r, b) && Some(p[1]) == PadOne(x, 1, r, b) && Some(p[2]) == PadOne(x, 2, r, b);
    assert x[0].shape[0 := b][1..] == x[0].shape[1..];
    assert x[0].Rows() / r == 1;
    assert r * per <= |x[1].data|;
    FlatLength(x[2], r);
    Ends32Prefix(r, b, per);
  }

  /** End positions of equal requests that fit keep every request in range. */
  lemma UniformEndsFit(e: seq<Tensor>, r: nat, per: nat, i: nat)
    requires |e| == 3 && Ends(r, per) <= e[2].data && r * per <= |e[1].data| && i < r
    ensures RequestFits(e, i) && EndAt(e[2].data, i) == (i + 1) * per
  {
    MulBound(i, r, per);
    assert e[2].data[i] == Ends(r, per)[i];
    assert i > 0 ==> e[2].data[i - 1] == Ends(r, per)[i - 1];
  }

  /** A model agrees on the padded batch only if the batch was uniform. */
  lemma OnlyUniformAgrees(x: seq<Tensor>, r: nat, b: nat)
    requires Ragged(x, r) && 1 <= r <= b && |x[1].data| < INT32_LIMIT
    requires PadRequests(x, r, b).Some?
    requires FirstRows(Forward(WidthModel(), PadRequests(x, r, b).value), r) == Forward(WidthModel(), x)
    ensures UniformEnds(x, r)
  {
    var p, per := PadRequests(x, r, b).value, Per(x, r);
    PaddedRagged(x, r, b);
    forall i | 0 <= i < r
      ensures RequestFits(p, i) && EndAt(p[2].data, i) == (i + 1) * per
    {
      UniformEndsFit(p, r, per, i);
    }
    forall i | 0 <= i < r
      ensures x[2].data[i] == Ends(r, per)[i]
    {
      SameWidthsSameEnds(x, p, r, b, i + 1);
    }
  }

  /** Regenerating the end positions is right for every model exactly when the batch is uniform:
      for a batch whose requests differ in width, some model sees the difference. */
  lemma RegeneratedEndsIff(x: seq<Tensor>, r: nat, b: nat)
    requires Ragged(x, r) && 1 <= r <= b && |x[1].data| < INT32_LIMIT
    requires PadRequests(x, r, b).Some?
    ensures (forall m: Model :: FirstRows(Forward(m, PadRequests(x, r, b).value), r) == Forward(m, x))
            <==> UniformEnds(x, r)
  {
    if UniformEnds(x, r) {
      forall m: Model
        ensures FirstRows(Forward(m, PadRequests(x, r, b).value), r) == Forward(m, x)
      {
        PaddedRagged(x, r, b);
        CoveredForward(m, PadRequests(x, r, b).value, x, r);
      }
    } else if forall m: Model :: FirstRows(Forward(m, PadRequests(x, r, b).value), r) == Forward(m, x) {
      OnlyUniformAgrees(x, r, b);
    }
  }

  // ---- Prestaging ----

  /** A static buffer after the collector wrote the payload at its start and rows from
      `prefixRows` on were zeroed. */
  function Staged(st: Tensor, payload: seq<int>, prefixRows: nat): (t: Tensor)
    requires st.Valid() && |payload| <= |st.data| && prefixRows <= st.Rows()
    ensures t.shape == st.shape && t.Valid()
  {
    MulMono(prefixRows, st.Rows(), st.Stride());
    var written := payload + st.data[|payload|..];
    var keep := prefixRows * st.Stride();
    Tensor(st.shape, written[..keep] + Zeros(|written| - keep))
  }

  /** The two ways of cutting the buffer, by elements for the collector and by rows for the
      zeroing, meet at the same element: no gap, no overlap. */
  lemma PrefixMeetsTail(rows: nat, stride: nat, r: nat, b: nat)
    requires 1 <= r <= b && rows % b == 0
    ensures (rows * stride) % b == 0
    ensures r * ((rows * stride) / b) == (r * (rows / b)) * stride
    ensures r * (rows / b) <= rows
  {
    var slot := rows / b;
    assert rows == b * slot;
    assert rows * stride == b * (slot * stride) by {
      MulAssoc(b, slot, stride);
    }
    ExactQuotient(b, slot * stride);
    MulAssoc(r, slot, stride);
    MulMono(r, b, slot);
  }

  lemma MulAssoc(a: nat, b: nat, c: nat)
    ensures (a * b) * c == a * (b * c)
  {}

  lemma StagedContents(st: Tensor, payload: seq<int>, prefixRows: nat)
    requires st.Valid() && |payload| <= |st.data| && prefixRows <= st.Rows()
    requires prefixRows * st.Stride() == |payload|
    ensures Staged(st, payload, prefixRows).data == payload + Zeros(|st.data| - |payload|)
  {}

  /** Prestaging equals padding: over any stale contents of a bucket's static buffer, the
      staged buffer holds exactly what padding the payload's tensor to that bucket would. */
  lemma StagingEqualsPadding(st: Tensor, t: Tensor, r: nat, b: nat)
    requires st.Valid() && t.Valid() && 1 <= r <= b
    requires st.Rows() % b == 0 && |t.data| == r * (|st.data| / b)
    requires t.Rows() % r == 0 && t.Rows() / r == st.Rows() / b && t.Stride() == st.Stride()
    ensures r * (st.Rows() / b) <= st.Rows() && |t.data| <= |st.data|
    ensures PadTensor(t, r, b).Some?
    ensures Staged(st, t.data, r * (st.Rows() / b)).data == PadTensor(t, r, b).value.data
  {
    var slot := st.Rows() / b;
    PrefixMeetsTail(st.Rows(), st.Stride(), r, b);
    MulMono(r * slot, st.Rows(), st.Stride());
    assert st.Rows() == slot * b && t.Rows() == r * slot;
    StagedContents(st, t.data, r * slot);
  }
}
