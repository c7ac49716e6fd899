/** The CUDA-graph path of one model instance as a state machine on values.

    A state holds the graph cache, the negative cache, the one-time width check, the prestaged
    bucket and the counters; `History` only records what happened. Captures, copies and
    replays may fail: `Faults` says which ones do in a given batch. All device work takes effect in
    the order the host issues it; what other orders do is the matter of StreamProtocol. */
module GraphSpec {
  import opened Basics
  import opened Tensors
  import opened Padding

  /** `graphOn`: ENABLE_CUDA_GRAPH on a GPU instance. `buckets`: CUDA_GRAPH_BATCH_SIZES in
      ascending order. `single`, `multi`: the warmup widths, 0 when absent. */
  datatype Config = Config(graphOn: bool, buckets: seq<int>, single: int, multi: int) {
    predicate Valid() {
      forall i, j :: 0 <= i < j < |buckets| ==> buckets[i] < buckets[j]
    }

    predicate Warms() {
      graphOn && single > 0 && multi > 0 && buckets != []
    }
  }

  datatype Metrics = Metrics(
    replays: multiset<int>, padWaste: multiset<int>, eager: nat, captureFailures: multiset<int>)

  /** attempts: every capture tried; captured: those that succeeded; served: real rows replayed;
      all per bucket. calls: graph calls made; thrown: those that padding made throw. */
  datatype History = History(
    attempts: multiset<int>, captured: multiset<int>, served: multiset<int>,
    evictions: nat, calls: nat, thrown: nat)

  datatype State = State(
    cache: map<int, seq<Tensor>>,
    failed: set<int>,
    widthsChecked: bool,
    prestaged: Option<int>,
    metrics: Metrics,
    hist: History)

  /** captureFails: buckets whose capture throws. throwAt: 0, 1, 2 make that copy throw, 3 the
      replay itself, more nothing. abort: a failure between collection and execution. */
  datatype Faults = Faults(captureFails: set<int>, throwAt: nat, abort: bool)

  type Outputs = seq<seq<seq<int>>>

  /** What the slow path selects: a bucket, none, or nothing because padding the batch to the next
      bucket threw. */
  datatype Pick = At(bucket: int) | NoBucket | PadThrows

  /** How a graph call ends: with outputs, by falling back, or with an exception. */
  datatype Outcome = Replayed(out: Outputs) | FellBack | Threw

  const INIT_STATE := State(map[], {}, false, None,
                           Metrics(multiset{}, multiset{}, 0, multiset{}),
                           History(multiset{}, multiset{}, multiset{}, 0, 0, 0))

  /** The request count R: the smallest leading dimension. */
  function MinRows(x: seq<Tensor>): nat
    requires |x| == 3
  {
    var r := if x[1].Rows() < x[0].Rows() then x[1].Rows() else x[0].Rows();
    if x[2].Rows() < r then x[2].Rows() else r
  }

  /** A batch of `total` requests: in the three-tensor layout or anything else. */
  predicate Batch(x: seq<Tensor>, total: nat) {
    |x| == 3 ==> Shaped(x, total)
  }

  /** What the code assumes of traffic: batches in the three-tensor layout are uniform. */
  predicate UniformBatch(x: seq<Tensor>, total: nat) {
    |x| == 3 ==> Packed(x, total)
  }

  // ---- Counters ----

  /** `PadWasteRows` */
  function PadWasteRows(r: int, bucket: int): int {
    if bucket > r then bucket - r else 0
  }

  function EagerFallback(st: State): State {
    st.(metrics := st.metrics.(eager := st.metrics.eager + 1))
  }

  function Add(counts: multiset<int>, b: int, n: nat): multiset<int> {
    counts[b := counts[b] + n]
  }

  /** One replay of bucket b for r requests. */
  function Served(st: State, b: int, r: nat): State {
    st.(metrics := st.metrics.(
          replays := Add(st.metrics.replays, b, 1),
          padWaste := if b > r then Add(st.metrics.padWaste, b, PadWasteRows(r, b)) else st.metrics.padWaste),
        hist := st.hist.(served := Add(st.hist.served, b, r)))
  }

  // ---- CaptureBucket, WarmupCudaGraphs ----

  /** Capturing bucket b at inputs x: a clone of x becomes the entry's static inputs, or the
      bucket goes to the negative cache. */
  function Capture(st: State, x: seq<Tensor>, b: int, ok: bool): State {
    var st := st.(hist := st.hist.(attempts := Add(st.hist.attempts, b, 1)));
    if ok then
      st.(cache := if b in st.cache then st.cache else st.cache[b := x],
          hist := st.hist.(captured := Add(st.hist.captured, b, 1)))
    else
      st.(failed := st.failed + {b},
          metrics := st.metrics.(captureFailures := Add(st.metrics.captureFailures, b, 1)))
  }

  function WarmupInputs(b: nat, single: nat, multi: nat): seq<Tensor> {
    [Tensor([b, single], Zeros(b * single)), Tensor([b * multi], Zeros(b * multi)), Tensor([b], Ends32(b, multi))]
  }

  /** A negative bucket makes `torch::zeros` throw before the capture is tried. */
  function WarmupOne(cfg: Config, st: State, b: int, fails: set<int>): State
    requires cfg.Warms()
  {
    if b < 0 then st else Capture(st, WarmupInputs(b, cfg.single, cfg.multi), b, b !in fails)
  }

  function WarmupUpTo(cfg: Config, st: State, fails: set<int>, n: nat): State
    requires cfg.Warms() && n <= |cfg.buckets|
  {
    if n == 0 then st else
    WarmupOne(cfg, WarmupUpTo(cfg, st, fails, n - 1), cfg.buckets[n - 1], fails)
  }

  function Warmup(cfg: Config, st: State, fails: set<int>): State {
    if cfg.Warms() then WarmupUpTo(cfg, st, fails, |cfg.buckets|) else st
  }

  // ---- Bucket selection ----

  /** The batch fills bucket b or can be padded to it. */
  predicate CanFill(x: seq<Tensor>, r: nat, b: int)
    requires |x| >= 2 && r >= 1
  {
    r == b || (r < b && PadsTo(x, r, b))
  }

  /** The batch at bucket b: itself when it fills the bucket, padded otherwise. */
  function BucketInputs(x: seq<Tensor>, r: nat, b: nat): seq<Tensor>
    requires Shaped(x, r) && CanFill(x, r, b)
  {
    if b == r then x else (PaddedShapes(x, r, b); PadRequests(x, r, b).value)
  }

  /** The slow path from candidate i on: skip buckets that are too small or known bad, pad the batch
      to the next one, replay it if it is captured, otherwise capture it and move on if that fails. */
  function SelectFrom(
    buckets: seq<int>, st: State, x: seq<Tensor>, r: nat, fails: set<int>, i: nat): (p: (State, Pick))
    requires Shaped(x, r) && i <= |buckets|
    ensures p.1.At? ==> p.1.bucket in p.0.cache && r <= p.1.bucket && CanFill(x, r, p.1.bucket)
    ensures p.0.prestaged == st.prestaged && st.cache.Keys <= p.0.cache.Keys
    decreases |buckets| - i
  {
    if i == |buckets| then (st, NoBucket) else
    var b := buckets[i];
    if b < r || b in st.failed then SelectFrom(buckets, st, x, r, fails, i + 1)
    else if !CanFill(x, r, b) then (st, PadThrows)
    else if b in st.cache then (st, At(b))
    else
      var st' := Capture(st, BucketInputs(x, r, b), b, b !in fails);
      if b in fails then SelectFrom(buckets, st', x, r, fails, i + 1) else (st', At(b))
  }

  /** With an empty allowlist the only candidate is the batch's own size. */
  function Candidates(cfg: Config, r: nat): seq<int> {
    if cfg.buckets == [] then [r] else cfg.buckets
  }

  function Select(cfg: Config, st: State, x: seq<Tensor>, r: nat, fails: set<int>): (p: (State, Pick))
    requires Shaped(x, r)
    ensures p.1.At? ==> p.1.bucket in p.0.cache && r <= p.1.bucket && CanFill(x, r, p.1.bucket)
    ensures p.0.prestaged == st.prestaged && st.cache.Keys <= p.0.cache.Keys
  {
    SelectFrom(Candidates(cfg, r), st, x, r, fails, 0)
  }

  function FindFrom(buckets: seq<int>, st: State, r: nat, i: nat): Option<int>
    requires i <= |buckets|
    decreases |buckets| - i
  {
    if i == |buckets| then None else
    var b := buckets[i];
    if b < r || b in st.failed then FindFrom(buckets, st, r, i + 1)
    else if b in st.cache then Some(b)
    else None
  }

  lemma FoundIsCached(cfg: Config, st: State, r: nat)
    ensures var b := FindReady(cfg, st, r); b.Some? ==> b.value in st.cache && b.value >= r
  {
    if cfg.buckets != [] {
      FoundFromIsCached(cfg.buckets, st, r, 0);
    }
  }

  lemma {:induction false} FoundFromIsCached(buckets: seq<int>, st: State, r: nat, i: nat)
    requires i <= |buckets|
    ensures var b := FindFrom(buckets, st, r, i); b.Some? ==> b.value in st.cache && b.value >= r
    decreases |buckets| - i
  {
    if i < |buckets| {
      FoundFromIsCached(buckets, st, r, i + 1);
    }
  }

  /** `FindReadyCudaGraphEntry`. The exact-size mode looks at the cache only. */
  function FindReady(cfg: Config, st: State, r: nat): Option<int> {
    if !cfg.graphOn then None
    else if cfg.buckets == [] then (if r in st.cache then Some(r) else None)
    else FindFrom(cfg.buckets, st, r, 0)
  }

  /** The lookup does not depend on what was prestaged before. */
  lemma FindIgnoresPointer(cfg: Config, st: State, r: nat)
    ensures FindReady(cfg, st.(prestaged := None), r) == FindReady(cfg, st, r)
  {
    FindFromIgnoresPointer(cfg.buckets, st, r, 0);
  }

  lemma {:induction false} FindFromIgnoresPointer(buckets: seq<int>, st: State, r: nat, i: nat)
    requires i <= |buckets|
    ensures FindFrom(buckets, st.(prestaged := None), r, i) == FindFrom(buckets, st, r, i)
    decreases |buckets| - i
  {
    if i < |buckets| {
      FindFromIgnoresPointer(buckets, st, r, i + 1);
    }
  }

  // ---- The one-time width check ----

  predicate WidthMismatch(cfg: Config, x: seq<Tensor>, r: nat)
    requires |x| == 3
  {
    && cfg.single > 0 && cfg.multi > 0 && r > 0 && |x[0].shape| >= 2
    && (x[0].shape[1] != cfg.single || |x[1].data| / r != cfg.multi)
  }

  function Heal(cfg: Config, st: State, x: seq<Tensor>, r: nat): State
    requires |x| == 3
  {
    if st.widthsChecked then st
    else if WidthMismatch(cfg, x, r) then
      st.(widthsChecked := true, cache := map[], failed := {}, prestaged := None,
          hist := st.hist.(evictions := st.hist.evictions + 1))
    else st.(widthsChecked := true)
  }

  // ---- ReplayCudaGraphEntry ----

  /** How many copies succeed, from copy i on: up to the first that throws. */
  function CopyCount(e: seq<Tensor>, src: seq<Tensor>, throwAt: nat, i: nat): (n: nat)
    requires i <= |src| && i <= |e|
    ensures i <= n <= |src| && n <= |e|
    decreases |src| - i
  {
    if i == |src| || i == |e| || i == throwAt || e[i].shape != src[i].shape then i
    else CopyCount(e, src, throwAt, i + 1)
  }

  /** The static inputs once the first n tensors were copied in. */
  function CopiedIn(e: seq<Tensor>, src: seq<Tensor>, n: nat): seq<Tensor>
    requires n <= |src| && n <= |e|
  {
    src[..n] + e[n..]
  }

  /** The replay proper, on whatever the entry's static inputs hold. */
  function Launch(m: Model, st: State, b: int, r: nat, throws: bool): (State, Option<Outputs>)
    requires b in st.cache
  {
    if throws then (EagerFallback(st), None)
    else (Served(st, b, r), Some(FirstRows(Forward(m, st.cache[b]), r)))
  }

  function Replay(
    m: Model, st: State, b: int, r: nat, src: Option<seq<Tensor>>, throwAt: nat): (State, Option<Outputs>)
    requires b in st.cache
  {
    if src.None? then Launch(m, st, b, r, throwAt <= 3) else
    var e := st.cache[b];
    var n := CopyCount(e, src.value, throwAt, 0);
    Launch(m, st.(cache := st.cache[b := CopiedIn(e, src.value, n)]), b, r, n < |src.value| || throwAt <= 3)
  }

  // ---- Prestaging in SetInputTensors ----

  predicate SlotsMatch(st: Tensor, payload: seq<int>, r: nat, b: nat)
    requires b >= 1
  {
    && |st.data| % b == 0 && st.Rows() % b == 0
    && |payload| == r * (|st.data| / b) && |payload| > 0
  }

  /** Every request contributes as many elements to [1] as the first one. */
  predicate UniformCounts(x: seq<Tensor>, r: nat)
    requires |x| == 3
  {
    forall i :: 0 <= i < r ==> EndAt(x[2].data, i) - EndAt(x[2].data, i - 1) == EndAt(x[2].data, 0)
  }

  predicate Viable(e: seq<Tensor>, x: seq<Tensor>, r: nat, b: int) {
    && r > 0 && b >= r && |e| == |x| && |x| == 3
    && SlotsMatch(e[0], x[0].data, r, b) && SlotsMatch(e[1], x[1].data, r, b)
    && UniformCounts(x, r)
    && e[2].Rows() % b == 0
  }

  /** Rows of the static buffer that r requests occupy. */
  function PrefixRows(st: Tensor, r: nat, b: nat): nat
    requires b >= 1
  {
    r * (st.Rows() / b)
  }

  predicate AllValid(e: seq<Tensor>) {
    forall i :: 0 <= i < |e| ==> e[i].Valid()
  }

  /** Both payloads written into the static buffers and their tails zeroed; [2] is left alone. */
  function Prestage(e: seq<Tensor>, x: seq<Tensor>, r: nat, b: nat): (e': seq<Tensor>)
    requires AllValid(e) && Viable(e, x, r, b)
    ensures |e'| == 3 && AllValid(e') && forall i :: 0 <= i < 3 ==> e'[i].shape == e[i].shape
  {
    PrefixMeetsTail(e[0].Rows(), e[0].Stride(), r, b);
    PrefixMeetsTail(e[1].Rows(), e[1].Stride(), r, b);
    MulMono(PrefixRows(e[0], r, b), e[0].Rows(), e[0].Stride());
    MulMono(PrefixRows(e[1], r, b), e[1].Rows(), e[1].Stride());
    [Staged(e[0], x[0].data, PrefixRows(e[0], r, b)), Staged(e[1], x[1].data, PrefixRows(e[1], r, b)), e[2]]
  }

  predicate Viewable(e: seq<Tensor>, r: nat, b: nat) {
    && |e| == 3 && b >= 1 && AllValid(e)
    && forall i :: 0 <= i < 3 ==> PrefixRows(e[i], r, b) <= e[i].Rows()
  }

  /** The batch as the rest of the run sees it: r-row views of the static buffers. */
  function Views(e: seq<Tensor>, r: nat, b: nat): seq<Tensor>
    requires Viewable(e, r, b)
  {
    [e[0].Narrow(PrefixRows(e[0], r, b)), e[1].Narrow(PrefixRows(e[1], r, b)), e[2].Narrow(PrefixRows(e[2], r, b))]
  }

  lemma PrestagedViewable(e: seq<Tensor>, x: seq<Tensor>, r: nat, b: nat)
    requires AllValid(e) && Viable(e, x, r, b)
    ensures Viewable(Prestage(e, x, r, b), r, b)
  {
    PrefixMeetsTail(e[0].Rows(), e[0].Stride(), r, b);
    PrefixMeetsTail(e[1].Rows(), e[1].Stride(), r, b);
    PrefixMeetsTail(e[2].Rows(), e[2].Stride(), r, b);
  }

  /** `SetInputTensors`: the batch goes into the prestaged bucket's buffers when it fits them. */
  function SetInputs(st: State, x: seq<Tensor>, r: nat): (State, seq<Tensor>)
    requires st.prestaged.Some? ==>
      st.prestaged.value in st.cache && EntryShaped(st.prestaged.value, st.cache[st.prestaged.value])
  {
    match st.prestaged
    case None => (st, x)
    case Some(b) =>
      if Viable(st.cache[b], x, r, b) then
        var e' := Prestage(st.cache[b], x, r, b);
        PrestagedViewable(st.cache[b], x, r, b);
        (st.(cache := st.cache[b := e']), Views(e', r, b))
      else (st.(prestaged := None), x)
  }

  // ---- Well-formed entries ----

  /** The captured per-request width of tensor [1]. */
  function Width(b: nat, e: seq<Tensor>): nat
    requires |e| == 3
  {
    if b == 0 then 0 else |e[1].data| / b
  }

  /** The shapes of static inputs, or of inputs about to be captured, at bucket b. */
  predicate EntryShaped(b: int, e: seq<Tensor>) {
    && b >= 0 && |e| == 3 && AllValid(e)
    && e[0].Rows() == b
    && e[1].shape == [|e[1].data|]
    && e[2].shape == [b]
  }

  /** A consistent entry: all requests own as many elements, and [2] says so. */
  predicate EntryOk(b: int, e: seq<Tensor>) {
    EntryShaped(b, e) && |e[1].data| == b * Width(b, e) && e[2].data == Ends32(b, Width(b, e))
  }

  /** An entry that some batch may be prestaged into: its slots are of equal, positive size. */
  predicate Reusable(b: int, e: seq<Tensor>) {
    b >= 1 && |e| == 3 && |e[0].data| > 0 && |e[1].data| > 0 && |e[1].data| % b == 0
  }

  /** An entry that answers prestaged batches rightly; with strict, a consistent one even if no
      batch can be prestaged into it. */
  predicate EntryRight(strict: bool, b: int, e: seq<Tensor>) {
    EntryShaped(b, e) && (strict || Reusable(b, e) ==> EntryOk(b, e))
  }

  predicate EntriesRight(strict: bool, st: State) {
    forall b :: b in st.cache ==> EntryRight(strict, b, st.cache[b])
  }

  predicate EntriesShaped(st: State) {
    forall b :: b in st.cache ==> EntryShaped(b, st.cache[b])
  }

  lemma CancelMul(r: nat, a: nat, b: nat)
    requires r >= 1 && r * a == r * b
    ensures a == b
  {}

  lemma BatchRows(x: seq<Tensor>, total: nat)
    requires Batch(x, total)
    ensures |x| == 3 ==> MinRows(x) == total
  {
    if |x| == 3 {
      MeanRows(|x[1].data|, total);
    }
  }

  lemma MeanRows(n: nat, r: nat)
    requires r >= 1 && n / r >= 1
    ensures r <= n
  {}

  /** A viable batch has the widths the bucket was captured at. */
  lemma ViableWidths(e: seq<Tensor>, x: seq<Tensor>, r: nat, b: nat)
    requires EntryShaped(b, e) && Shaped(x, r) && Viable(e, x, r, b)
    ensures x[0].Stride() == e[0].Stride() && Per(x, r) == Width(b, e)
    ensures |x[1].data| == r * Per(x, r) && |e[1].data| == b * Width(b, e)
    ensures PrefixRows(e[0], r, b) == r && PrefixRows(e[1], r, b) == r * Per(x, r) && PrefixRows(e[2], r, b) == r
  {
    var m := Width(b, e);
    FlatLength(e[1], |e[1].data|);
    ExactQuotient(b, e[0].Stride());
    ExactQuotient(b, 1);
    ExactQuotient(r, m);
    CancelMul(r, x[0].Stride(), e[0].Stride());
    assert |e[1].data| == b * m;
  }

  /** Prestaging a viable batch puts both payloads in the first r slots; the views handed on
      are the batch with the entry's own [2]. */
  lemma PrestagedBatch(e: seq<Tensor>, x: seq<Tensor>, r: nat, b: nat)
    requires EntryShaped(b, e) && Shaped(x, r) && Viable(e, x, r, b)
    ensures var e' := Prestage(e, x, r, b);
      && EntryShaped(b, e') && Width(b, e') == Width(b, e) && e'[2] == e[2]
      && (forall i :: 0 <= i < 3 ==> e'[i].shape == e[i].shape) && Viewable(e', r, b)
      && var v := Views(e', r, b);
      && Shaped(v, r) && Covers(e', v, r) && v[0].Stride() == x[0].Stride()
      && v[0].data == x[0].data && v[1].data == x[1].data && v[2].data == e[2].data[..r]
      && |x[0].shape| >= 1 && v[0].shape == e[0].shape[0 := r]
  {
    var e' := Prestage(e, x, r, b);
    PrestagedViewable(e, x, r, b);
    ViableWidths(e, x, r, b);
    var v, per := Views(e', r, b), Per(x, r);
    FlatLength(x[1], r * per);
    FlatLength(e[1], b * per);
    FlatLength(e'[1], b * per);
    FlatLength(v[1], r * per);
    FlatLength(e[2], b);
    FlatLength(v[2], r);
    MulMono(r, b, per);
    MulMono(r, b, e[0].Stride());
    assert v[0].data == x[0].data;
    assert v[1].data == x[1].data;
  }

  /** `SetInputTensors` passes on a batch the graph path accepts. */
  lemma SeenBatch(st: State, x: seq<Tensor>, total: nat)
    requires EntriesShaped(st) && Batch(x, total)
    requires st.prestaged.Some? ==>
      st.prestaged.value in st.cache && EntryShaped(st.prestaged.value, st.cache[st.prestaged.value])
    ensures var (st', seen) := SetInputs(st, x, total);
      && Batch(seen, total) && |seen| == |x| && EntriesShaped(st')
      && (st'.prestaged.Some? ==> st'.prestaged.value in st'.cache && total <= st'.prestaged.value)
      && (st'.prestaged.None? ==> seen == x)
  {
    match st.prestaged
    case None =>
    case Some(b) =>
      if Viable(st.cache[b], x, total, b) {
        PrestagedBatch(st.cache[b], x, total, b);
      }
  }

  /** The batch at a bucket has that bucket's shapes. */
  lemma BucketInputsShaped(x: seq<Tensor>, r: nat, b: nat)
    requires Shaped(x, r) && CanFill(x, r, b)
    ensures EntryShaped(b, BucketInputs(x, r, b))
    ensures Width(b, BucketInputs(x, r, b)) == Per(x, r)
    ensures r < b ==> |BucketInputs(x, r, b)[1].data| == b * Per(x, r)
  {
    if b != r {
      PaddedShapes(x, r, b);
      FlatLength(BucketInputs(x, r, b)[1], b * Per(x, r));
      ExactQuotient(b, Per(x, r));
    }
  }

  lemma HealKeepsShapes(cfg: Config, st: State, x: seq<Tensor>, r: nat)
    requires EntriesShaped(st) && |x| == 3
    ensures EntriesShaped(Heal(cfg, st, x, r))
  {}

  lemma {:induction false} SelectKeepsShapes(
    buckets: seq<int>, st: State, x: seq<Tensor>, r: nat, fails: set<int>, i: nat)
    requires EntriesShaped(st) && Shaped(x, r) && i <= |buckets|
    ensures EntriesShaped(SelectFrom(buckets, st, x, r, fails, i).0)
    decreases |buckets| - i
  {
    if i < |buckets| {
      var b := buckets[i];
      if b < r || b in st.failed {
        SelectKeepsShapes(buckets, st, x, r, fails, i + 1);
      } else if CanFill(x, r, b) && b !in st.cache {
        BucketInputsShaped(x, r, b);
        if b in fails {
          SelectKeepsShapes(buckets, Capture(st, BucketInputs(x, r, b), b, false), x, r, fails, i + 1);
        }
      }
    }
  }

  // ---- ExecuteWithCudaGraph and one whole batch ----

  /** A replay throws nothing itself: it ends with outputs or falls back. */
  function OutcomeOf(out: Option<Outputs>): Outcome {
    if out.Some? then Replayed(out.value) else FellBack
  }

  function Returned(p: (State, Option<Outputs>)): (State, Outcome) {
    (p.0, OutcomeOf(p.1))
  }

  function Thrown(st: State): State {
    st.(hist := st.hist.(thrown := st.hist.thrown + 1))
  }

  /** Selection, then a replay that first copies the batch in. */
  function SlowPath(cfg: Config, m: Model, st: State, x: seq<Tensor>, r: nat, f: Faults): (State, Outcome)
    requires Shaped(x, r)
  {
    var (st, pick) := Select(cfg, st, x, r, f.captureFails);
    match pick
    case NoBucket => (EagerFallback(st), FellBack)
    case PadThrows => (Thrown(st), Threw)
    case At(b) => Returned(Replay(m, st, b, r, Some(BucketInputs(x, r, b)), f.throwAt))
  }

  /** A prestaged batch replays in place, any other takes the slow path. */
  function Dispatch(cfg: Config, m: Model, st: State, x: seq<Tensor>, r: nat, f: Faults): (State, Outcome)
    requires Shaped(x, r)
    requires st.prestaged.Some? ==> st.prestaged.value in st.cache
  {
    match st.prestaged
    case Some(b) => Returned(Replay(m, st.(prestaged := None), b, r, None, f.throwAt))
    case None => SlowPath(cfg, m, st, x, r, f)
  }

  function ExecuteGraph(cfg: Config, m: Model, st: State, x: seq<Tensor>, f: Faults): (State, Outcome)
    requires |x| == 3 ==> Shaped(x, MinRows(x))
    requires st.prestaged.Some? ==> st.prestaged.value in st.cache
  {
    var st := st.(hist := st.hist.(calls := st.hist.calls + 1));
    if |x| != 3 then (EagerFallback(st), FellBack) else
    Dispatch(cfg, m, Heal(cfg, st, x, MinRows(x)), x, MinRows(x), f)
  }

  /** `Execute`: the graph path, and the eager run when it is off or fell back. None when it threw
      and the whole batch was answered with an error. */
  function GraphOrEager(cfg: Config, m: Model, st: State, x: seq<Tensor>, f: Faults): (State, Option<Outputs>)
    requires |x| == 3 ==> Shaped(x, MinRows(x))
    requires st.prestaged.Some? ==> st.prestaged.value in st.cache
  {
    if !cfg.graphOn then (st, Some(Forward(m, x))) else
    var (st', out) := ExecuteGraph(cfg, m, st, x, f);
    match out
    case Replayed(outputs) => (st', Some(outputs))
    case FellBack => (st', Some(Forward(m, x)))
    case Threw => (st', None)
  }

  /** Collection and execution. */
  function RunCollected(cfg: Config, m: Model, st: State, x: seq<Tensor>, total: nat, f: Faults)
    : (State, Option<Outputs>)
    requires EntriesShaped(st) && Batch(x, total)
    requires st.prestaged.Some? ==> st.prestaged.value in st.cache
  {
    var (st1, seen) := SetInputs(st, x, total);
    SeenBatch(st, x, total);
    if f.abort then (st1, None) else
    BatchRows(seen, total);
    GraphOrEager(cfg, m, st1, seen, f)
  }

  /** One call of `ProcessRequests` on a batch that reaches execution unless `abort`. The
      outcome is what `output_tensors` holds, None when all requests are answered with an error:
      execution was never reached, or it threw. */
  function ProcessBatch(cfg: Config, m: Model, st: State, x: seq<Tensor>, total: nat, f: Faults)
    : (State, Option<Outputs>)
    requires EntriesShaped(st) && Batch(x, total)
  {
    FoundIsCached(cfg, st, total);
    RunCollected(cfg, m, st.(prestaged := FindReady(cfg, st, total)), x, total, f)
  }
}
