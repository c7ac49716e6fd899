/** The graph path of `ModelInstanceState` as it runs: a cache of entries whose static input
    buffers are arrays, overwritten in place. Every method computes what GraphSpec says of the
    abstract state; the buffers of different entries never overlap. */
module ModelInstance {
  import opened Basics
  import opened Tensors
  import opened Padding
  import opened GraphSpec
  import opened GraphRuns

  /** A captured graph's fixed input buffers, one array per input tensor. */
  datatype Entry = Entry(shapes: seq<seq<nat>>, bufs: seq<array<int>>) {
    predicate Three() {
      |shapes| == 3 && |bufs| == 3
    }

    function Value(): (e: seq<Tensor>)
      reads bufs
      requires Three()
      ensures |e| == 3 && forall i :: 0 <= i < 3 ==> e[i] == Tensor(shapes[i], bufs[i][..])
    {
      [Tensor(shapes[0], bufs[0][..]), Tensor(shapes[1], bufs[1][..]), Tensor(shapes[2], bufs[2][..])]
    }
  }

  /** The batch's input tensors: all of their own, or all views of the first r request slots of
      one entry's buffers. A batch is never split between the two. */
  datatype Inputs = Own(x: seq<Tensor>) | Viewed(e: Entry, r: nat, b: nat) {
    predicate Usable()
      reads if Viewed? then e.bufs else []
    {
      Viewed? ==> e.Three() && Viewable(e.Value(), r, b)
    }

    /** Their contents now: views follow the buffers. */
    function Value(): seq<Tensor>
      reads if Viewed? then e.bufs else []
      requires Usable()
    {
      if Own? then x else Views(e.Value(), r, b)
    }
  }

  /** `copy_` between buffers of the same size. */
  method CopyInto(buf: array<int>, data: seq<int>)
    requires buf.Length == |data|
    modifies buf
    ensures buf[..] == data
  {
    var i := 0;
    while i < buf.Length
      invariant 0 <= i <= buf.Length
      invariant buf[..i] == data[..i]
    {
      buf[i] := data[i];
      i := i + 1;
    }
  }

  /** The collector writes the payload at the start of the buffer. */
  method WritePrefix(buf: array<int>, payload: seq<int>)
    requires |payload| <= buf.Length
    modifies buf
    ensures buf[..] == payload + old(buf[..])[|payload|..]
  {
    var i := 0;
    while i < |payload|
      invariant 0 <= i <= |payload|
      invariant forall k :: 0 <= k < i ==> buf[k] == payload[k]
      invariant forall k :: i <= k < buf.Length ==> buf[k] == old(buf[k])
    {
      buf[i] := payload[i];
      i := i + 1;
    }
  }

  /** `zero_` on everything from element keep on. */
  method ZeroTail(buf: array<int>, keep: nat)
    requires keep <= buf.Length
    modifies buf
    ensures buf[..] == old(buf[..])[..keep] + Zeros(buf.Length - keep)
  {
    var i := keep;
    while i < buf.Length
      invariant keep <= i <= buf.Length
      invariant forall k :: 0 <= k < keep ==> buf[k] == old(buf[k])
      invariant forall k :: keep <= k < i ==> buf[k] == 0
    {
      buf[i] := 0;
      i := i + 1;
    }
  }

  /** Fixed-address buffers with the contents of the given inputs. */
  method CloneInputs(inputs: seq<Tensor>) returns (e: Entry)
    requires |inputs| == 3
    ensures e.Three() && forall i :: 0 <= i < 3 ==> e.shapes[i] == inputs[i].shape && e.bufs[i][..] == inputs[i].data
    ensures forall i :: 0 <= i < 3 ==> fresh(e.bufs[i])
    ensures forall i, j :: 0 <= i < j < 3 ==> e.bufs[i] != e.bufs[j]
  {
    var bufs, shapes := [], [];
    var i := 0;
    while i < |inputs|
      modifies {}
      invariant 0 <= i <= 3 && |bufs| == |shapes| == i
      invariant forall j :: 0 <= j < i ==> shapes[j] == inputs[j].shape
      invariant forall j :: 0 <= j < i ==> fresh(bufs[j]) && bufs[j][..] == inputs[j].data
      invariant forall j, k :: 0 <= j < k < i ==> bufs[j] != bufs[k]
    {
      var buf := new int[|inputs[i].data|];
      CopyInto(buf, inputs[i].data);
      bufs, shapes := bufs + [buf], shapes + [inputs[i].shape];
      i := i + 1;
    }
    e := Entry(shapes, bufs);
  }

  /** Tensors of the same shape have the same number of elements. */
  predicate SameSizes(e: seq<Tensor>, src: seq<Tensor>) {
    && |e| == 3 && |src| == 3
    && forall i :: 0 <= i < 3 && e[i].shape == src[i].shape ==> |e[i].data| == |src[i].data|
  }

  /** The copy pass over the static inputs, up to the first copy that throws. */
  method CopyInputs(e: Entry, src: seq<Tensor>, throwAt: nat) returns (n: nat)
    requires e.Three() && SameSizes(e.Value(), src)
    requires forall i, j :: 0 <= i < j < 3 ==> e.bufs[i] != e.bufs[j]
    modifies e.bufs
    ensures n == CopyCount(old(e.Value()), src, throwAt, 0)
    ensures e.Value() == CopiedIn(old(e.Value()), src, n)
  {
    ghost var was := e.Value();
    n := 0;
    while n < |src| && n != throwAt && e.shapes[n] == src[n].shape
      invariant n <= 3
      invariant forall j :: 0 <= j < n ==> e.bufs[j][..] == src[j].data && e.shapes[j] == src[j].shape
      invariant forall j :: n <= j < 3 ==> e.bufs[j][..] == was[j].data
      invariant CopyCount(was, src, throwAt, 0) == CopyCount(was, src, throwAt, n)
    {
      assert |was[n].data| == e.bufs[n].Length;
      CopyInto(e.bufs[n], src[n].data);
      n := n + 1;
    }
  }

  /** Collecting one payload straight into its static buffer. */
  method StageInput(buf: array<int>, shape: seq<nat>, payload: seq<int>, r: nat, b: nat)
    requires |shape| >= 1 && b >= 1 && Tensor(shape, buf[..]).Valid()
    requires 1 <= r <= b && SlotsMatch(Tensor(shape, buf[..]), payload, r, b)
    modifies buf
    ensures PrefixRows(Tensor(shape, buf[..]), r, b) <= shape[0] && |payload| <= |old(buf[..])|
    ensures Tensor(shape, buf[..])
            == Staged(Tensor(shape, old(buf[..])), payload, PrefixRows(Tensor(shape, buf[..]), r, b))
  {
    var rows, stride := shape[0], Product(shape[1..]);
    var prefix := r * (rows / b);
    PrefixMeetsTail(rows, stride, r, b);
    MulMono(prefix, rows, stride);
    WritePrefix(buf, payload);
    ZeroTail(buf, prefix * stride);
  }

  /** Staging a viable batch into the buffers of an entry; [2] is left alone. */
  method StageEntry(e: Entry, x: seq<Tensor>, r: nat, b: nat)
    requires e.Three() && AllValid(e.Value()) && Viable(e.Value(), x, r, b)
    requires e.bufs[0] != e.bufs[1] && e.bufs[0] != e.bufs[2] && e.bufs[1] != e.bufs[2]
    modifies e.bufs
    ensures e.Value() == Prestage(old(e.Value()), x, r, b)
  {
    ghost var was := e.Value();
    StageInput(e.bufs[0], e.shapes[0], x[0].data, r, b);
    assert e.bufs[1][..] == was[1].data && e.bufs[2][..] == was[2].data;
    StageInput(e.bufs[1], e.shapes[1], x[1].data, r, b);
    assert e.Value() == Prestage(was, x, r, b);
  }

  /** `cuda_graph_cache_`: the captured entries by bucket. `contents` is what their buffers
      hold and `owner` which input of which entry a buffer is. */
  class GraphCache {
    var entries: map<int, Entry>
    ghost var contents: map<int, seq<Tensor>>
    ghost var owner: map<array<int>, (int, int)>

    /** Three buffers an entry, and no buffer in two places. */
    ghost predicate Separate()
      reads this
    {
      && contents.Keys == entries.Keys
      && (forall b :: b in entries ==> entries[b].Three() && |contents[b]| == 3)
      && (forall b, i :: b in entries && 0 <= i < 3 ==>
            entries[b].bufs[i] in owner && owner[entries[b].bufs[i]] == (b, i))
    }

    ghost predicate Valid()
      reads this, owner.Keys
    {
      && Separate()
      && (forall b, i :: b in entries && 0 <= i < 3 ==>
            contents[b][i].shape == entries[b].shapes[i] && contents[b][i].data == entries[b].bufs[i][..])
    }

    constructor ()
      ensures Valid() && contents == map[] && owner == map[]
    {
      entries, contents, owner := map[], map[], map[];
    }

    /** `clear`: the buffers themselves live on as long as somebody views them. */
    method Clear()
      modifies this
      ensures Valid() && contents == map[] && owner == map[]
    {
      entries, contents, owner := map[], map[], map[];
    }

    /** `emplace` of a new bucket with buffers holding v. */
    method Insert(bucket: int, e: Entry, ghost v: seq<Tensor>)
      requires Valid() && bucket !in entries && e.Three() && |v| == 3
      requires forall i :: 0 <= i < 3 ==> e.shapes[i] == v[i].shape && e.bufs[i][..] == v[i].data
      requires forall i :: 0 <= i < 3 ==> e.bufs[i] !in owner
      requires e.bufs[0] != e.bufs[1] && e.bufs[0] != e.bufs[2] && e.bufs[1] != e.bufs[2]
      modifies this
      ensures Valid() && contents == old(contents)[bucket := v] && entries == old(entries)[bucket := e]
      ensures owner.Keys == old(owner.Keys) + {e.bufs[0], e.bufs[1], e.bufs[2]}
    {
      contents := contents[bucket := v];
      owner := owner[e.bufs[0] := (bucket, 0)][e.bufs[1] := (bucket, 1)][e.bufs[2] := (bucket, 2)];
      entries := entries[bucket := e];
      forall b, i | b in entries && 0 <= i < 3
        ensures entries[b].bufs[i] in owner && owner[entries[b].bufs[i]] == (b, i)
        ensures contents[b][i].shape == entries[b].shapes[i] && contents[b][i].data == entries[b].bufs[i][..]
      {
        if b != bucket {
          assert old(entries)[b].bufs[i] in old(owner);
        }
      }
    }

    /** What a new entry is made of: fresh buffers holding the inputs. */
    method Capture(bucket: int, inputs: seq<Tensor>)
      requires Valid() && bucket !in entries && |inputs| == 3
      modifies this
      ensures Valid() && contents == old(contents)[bucket := inputs] && fresh(owner.Keys - old(owner.Keys))
      ensures bucket in entries && entries == old(entries)[bucket := entries[bucket]]
    {
      var e := CloneInputs(inputs);
      Insert(bucket, e, inputs);
    }

    /** Recording that the buffers of entry b now hold v. */
    ghost method Refill(b: int, v: seq<Tensor>)
      requires Separate() && b in entries
      requires forall c, i :: c in entries && c != b && 0 <= i < 3 ==>
        contents[c][i].shape == entries[c].shapes[i] && contents[c][i].data == entries[c].bufs[i][..]
      requires v == entries[b].Value()
      modifies this`contents
      ensures Valid() && contents == old(contents)[b := v]
    {
      contents := contents[b := v];
    }

    /** The copy pass on a cached entry. */
    method CopyIn(b: int, src: seq<Tensor>, throwAt: nat) returns (n: nat)
      requires Valid() && b in entries && SameSizes(contents[b], src)
      modifies this`contents, entries[b].bufs
      ensures Valid() && entries == old(entries) && owner == old(owner)
      ensures n == CopyCount(old(contents)[b], src, throwAt, 0)
      ensures contents == old(contents)[b := CopiedIn(old(contents)[b], src, n)]
    {
      assert entries[b].Value() == contents[b];
      n := CopyInputs(entries[b], src, throwAt);
      Refill(b, entries[b].Value());
    }

    /** A viable batch collected straight into the buffers of a cached entry. */
    method Stage(b: int, x: seq<Tensor>, r: nat)
      requires Valid() && b in entries && AllValid(contents[b]) && Viable(contents[b], x, r, b)
      modifies this`contents, entries[b].bufs
      ensures Valid() && entries == old(entries) && owner == old(owner)
      ensures contents == old(contents)[b := Prestage(old(contents)[b], x, r, b)]
    {
      assert entries[b].Value() == contents[b];
      StageEntry(entries[b], x, r, b);
      Refill(b, entries[b].Value());
    }

    /** The contents of one entry, as a replay reads them. */
    method Read(b: int) returns (e: seq<Tensor>)
      requires Valid() && b in entries
      ensures e == contents[b] == entries[b].Value()
    {
      e := entries[b].Value();
      assert e == contents[b];
    }
  }

  class ModelInstanceState {
    const cfg: Config
    const model: Model
    const graphs: GraphCache
    var failed: set<int>
    var widthsChecked: bool
    var prestagedEntry: Option<Entry>
    var prestagedBucket: int
    var metrics: Metrics
    ghost var hist: History

    /** The prestaged pointer points into the cache. */
    ghost predicate Valid()
      reads this, graphs, graphs.owner.Keys
    {
      && cfg.Valid() && graphs.Valid()
      && (prestagedEntry.Some? ==>
            prestagedBucket in graphs.entries && graphs.entries[prestagedBucket] == prestagedEntry.value)
    }

    ghost function Abs(): State
      reads this, graphs
    {
      State(graphs.contents, failed, widthsChecked,
            if prestagedEntry.Some? then Some(prestagedBucket) else None, metrics, hist)
    }

    constructor (cfg: Config, model: Model)
      requires cfg.Valid()
      ensures Valid() && this.cfg == cfg && this.model == model && Abs() == INIT_STATE
      ensures fresh(graphs) && graphs.owner == map[]
    {
      this.cfg, this.model := cfg, model;
      graphs := new GraphCache();
      failed, widthsChecked := {}, false;
      prestagedEntry, prestagedBucket := None, -1;
      metrics := Metrics(multiset{}, multiset{}, 0, multiset{});
      hist := History(multiset{}, multiset{}, multiset{}, 0, 0, 0);
    }

    /** A graph call begins. */
    ghost method CountCall()
      requires Valid()
      modifies this`hist
      ensures Valid() && Abs() == old(Abs()).(hist := old(hist).(calls := old(hist).calls + 1))
    {
      hist := hist.(calls := hist.calls + 1);
    }

    /** A graph call ends with an exception. */
    ghost method CountThrown()
      requires Valid()
      modifies this`hist
      ensures Valid() && Abs() == Thrown(old(Abs()))
    {
      hist := hist.(thrown := hist.thrown + 1);
    }

    /** `CudaGraphMetricEagerFallback` */
    method CountEager()
      requires Valid()
      modifies this`metrics
      ensures Valid() && Abs() == EagerFallback(old(Abs()))
    {
      metrics := metrics.(eager := metrics.eager + 1);
    }

    method CaptureBucket(inputs: seq<Tensor>, bucket: int, captured: bool) returns (ok: bool)
      requires Valid() && |inputs| == 3 && bucket !in graphs.entries
      modifies this`failed, this`metrics, this`hist, graphs
      ensures Valid() && Abs() == Capture(old(Abs()), inputs, bucket, captured) && ok == captured
      ensures fresh(graphs.owner.Keys - old(graphs.owner.Keys))
    {
      hist := hist.(attempts := Add(hist.attempts, bucket, 1));
      if captured {
        graphs.Capture(bucket, inputs);
        hist := hist.(captured := Add(hist.captured, bucket, 1));
      } else {
        failed := failed + {bucket};
        metrics := metrics.(captureFailures := Add(metrics.captureFailures, bucket, 1));
      }
      return captured;
    }

    /** The replay and what it counts. */
    method LaunchGraph(b: int, r: nat, throws: bool) returns (out: Option<Outputs>)
      requires Valid() && b in graphs.entries
      modifies this`metrics, this`hist
      ensures Valid() && (Abs(), out) == Launch(model, old(Abs()), b, r, throws)
    {
      if throws {
        CountEager();
        return None;
      }
      var e := graphs.Read(b);
      out := Some(FirstRows(Forward(model, e), r));
      metrics := metrics.(
        replays := Add(metrics.replays, b, 1),
        padWaste := if b > r then Add(metrics.padWaste, b, PadWasteRows(r, b)) else metrics.padWaste);
      hist := hist.(served := Add(hist.served, b, r));
    }

    /** `ReplayCudaGraphEntry` */
    method ReplayCudaGraphEntry(b: int, r: nat, src: Option<seq<Tensor>>, throwAt: nat)
      returns (out: Option<Outputs>)
      requires Valid() && b in graphs.entries
      requires src.Some? ==> SameSizes(graphs.contents[b], src.value)
      modifies this`metrics, this`hist, graphs`contents, if src.Some? then graphs.entries[b].bufs else []
      ensures Valid() && (Abs(), out) == Replay(model, old(Abs()), b, r, src, throwAt)
      ensures graphs.entries == old(graphs.entries) && graphs.owner == old(graphs.owner)
    {
      if src.Some? {
        var n := graphs.CopyIn(b, src.value, throwAt);
        out := LaunchGraph(b, r, n < |src.value| || throwAt <= 3);
      } else {
        out := LaunchGraph(b, r, throwAt <= 3);
      }
    }

    // ---- Bucket selection ----

    /** `buckets.lower_bound(r)` */
    method LowerBound(r: nat) returns (i: nat)
      requires cfg.Valid()
      ensures i <= |cfg.buckets|
      ensures forall j :: 0 <= j < i ==> cfg.buckets[j] < r
      ensures forall j :: i <= j < |cfg.buckets| ==> r <= cfg.buckets[j]
    {
      i := 0;
      while i < |cfg.buckets| && cfg.buckets[i] < r
        invariant i <= |cfg.buckets|
        invariant forall j :: 0 <= j < i ==> cfg.buckets[j] < r
      {
        i := i + 1;
      }
    }

    /** `FindReadyCudaGraphEntry` */
    method FindReadyCudaGraphEntry(r: nat) returns (found: Option<int>)
      requires Valid()
      ensures found == FindReady(cfg, Abs(), r)
    {
      if !cfg.graphOn {
        return None;
      }
      if cfg.buckets == [] {
        return if r in graphs.entries then Some(r) else None;
      }
      var i := LowerBound(r);
      SkipSmallFind(cfg.buckets, Abs(), r, i);
      while i < |cfg.buckets|
        invariant i <= |cfg.buckets|
        invariant forall j :: i <= j < |cfg.buckets| ==> r <= cfg.buckets[j]
        invariant FindReady(cfg, Abs(), r) == FindFrom(cfg.buckets, Abs(), r, i)
      {
        var b := cfg.buckets[i];
        if b !in failed {
          return if b in graphs.entries then Some(b) else None;
        }
        i := i + 1;
      }
      return None;
    }

    /** With an empty allowlist the batch's own size is the only bucket. */
    method SelectExact(x: seq<Tensor>, r: nat, fails: set<int>) returns (pick: Pick)
      requires Valid() && Shaped(x, r)
      modifies this`failed, this`metrics, this`hist, graphs
      ensures Valid() && (Abs(), pick) == SelectFrom([r], old(Abs()), x, r, fails, 0)
      ensures fresh(graphs.owner.Keys - old(graphs.owner.Keys))
    {
      if r in failed {
        return NoBucket;
      }
      if r !in graphs.entries {
        var ok := CaptureBucket(x, r, r !in fails);
        if !ok {
          return NoBucket;
        }
      }
      return At(r);
    }

    /** One candidate of the allowlist: replayed when captured or capturable, unless padding to it
        throws. */
    method TryBucket(x: seq<Tensor>, r: nat, b: nat, fails: set<int>) returns (pick: Pick, src: seq<Tensor>)
      requires Valid() && Shaped(x, r) && r <= b && b !in failed
      modifies this`failed, this`metrics, this`hist, graphs
      ensures Valid() && fresh(graphs.owner.Keys - old(graphs.owner.Keys))
      ensures !CanFill(x, r, b) ==> pick == PadThrows && Abs() == old(Abs())
      ensures CanFill(x, r, b) ==>
        && src == BucketInputs(x, r, b)
        && pick == (if b in old(graphs.entries) || b !in fails then At(b) else NoBucket)
        && Abs() == if b in old(graphs.entries) then old(Abs()) else Capture(old(Abs()), src, b, b !in fails)
    {
      src := x;
      if b != r {
        PadsIff(x, r, b);
        var p := PadRequestsUp(x, r, b);
        if p.None? {
          return PadThrows, x;
        }
        src := p.value;
      }
      pick := At(b);
      if b !in graphs.entries {
        var ok := CaptureBucket(src, b, b !in fails);
        if !ok {
          pick := NoBucket;
        }
      }
    }

    /** The allowlist from the least bucket that holds r requests on. */
    method SelectListed(x: seq<Tensor>, r: nat, fails: set<int>) returns (pick: Pick, src: seq<Tensor>)
      requires Valid() && Shaped(x, r)
      modifies this`failed, this`metrics, this`hist, graphs
      ensures Valid() && (Abs(), pick) == SelectFrom(cfg.buckets, old(Abs()), x, r, fails, 0)
      ensures pick.At? ==> src == BucketInputs(x, r, pick.bucket)
      ensures fresh(graphs.owner.Keys - old(graphs.owner.Keys))
    {
      var i := LowerBound(r);
      ghost var start := Abs();
      SkipSmallSelect(cfg.buckets, start, x, r, fails, i);
      while i < |cfg.buckets|
        invariant i <= |cfg.buckets| && Valid() && fresh(graphs.owner.Keys - old(graphs.owner.Keys))
        invariant forall j :: i <= j < |cfg.buckets| ==> r <= cfg.buckets[j]
        invariant SelectFrom(cfg.buckets, start, x, r, fails, 0) == SelectFrom(cfg.buckets, Abs(), x, r, fails, i)
      {
        var b := cfg.buckets[i];
        if b !in failed {
          pick, src := TryBucket(x, r, b, fails);
          if !pick.NoBucket? {
            return;
          }
        }
        i := i + 1;
      }
      return NoBucket, [];
    }

    /** The bucket to replay at, capturing on first use; src is the batch at that bucket. */
    method SelectBucket(x: seq<Tensor>, r: nat, fails: set<int>) returns (pick: Pick, src: seq<Tensor>)
      requires Valid() && Shaped(x, r)
      modifies this`failed, this`metrics, this`hist, graphs
      ensures Valid() && (Abs(), pick) == Select(cfg, old(Abs()), x, r, fails)
      ensures pick.At? ==> src == BucketInputs(x, r, pick.bucket)
      ensures fresh(graphs.owner.Keys - old(graphs.owner.Keys))
    {
      if cfg.buckets == [] {
        pick := SelectExact(x, r, fails);
        src := x;
      } else {
        pick, src := SelectListed(x, r, fails);
      }
    }

    /** `WarmupCudaGraphs` */
    method WarmupCudaGraphs(fails: set<int>)
      requires Valid() && graphs.contents == map[]
      modifies this`failed, this`metrics, this`hist, graphs
      ensures Valid() && Abs() == Warmup(cfg, old(Abs()), fails)
      ensures fresh(graphs.owner.Keys - old(graphs.owner.Keys))
    {
      if !(cfg.graphOn && cfg.single > 0 && cfg.multi > 0 && cfg.buckets != []) {
        return;
      }
      ghost var start := Abs();
      var i := 0;
      while i < |cfg.buckets|
        invariant 0 <= i <= |cfg.buckets| && Valid() && fresh(graphs.owner.Keys - old(graphs.owner.Keys))
        invariant Abs() == WarmupUpTo(cfg, start, fails, i)
        invariant forall b :: b in graphs.entries ==> b in cfg.buckets[..i]
      {
        var b := cfg.buckets[i];
        if b >= 0 {
          var ok := CaptureBucket(WarmupInputs(b, cfg.single, cfg.multi), b, b !in fails);
        }
        i := i + 1;
      }
    }

    // ---- Whole batches ----

    /** The one-time width check; a mismatch empties both caches and drops the pointer. */
    method HealWidths(x: seq<Tensor>, r: nat)
      requires Valid() && |x| == 3
      modifies this`failed, this`widthsChecked, this`prestagedEntry, this`prestagedBucket, this`hist, graphs
      ensures Valid() && Abs() == Heal(cfg, old(Abs()), x, r)
      ensures (graphs.owner == old(graphs.owner) && prestagedEntry == old(prestagedEntry)) || graphs.owner == map[]
    {
      if !widthsChecked {
        widthsChecked := true;
        if WidthMismatch(cfg, x, r) {
          graphs.Clear();
          failed := {};
          prestagedEntry, prestagedBucket := None, -1;
          hist := hist.(evictions := hist.evictions + 1);
        }
      }
    }

    /** `SetInputTensors`: into the prestaged bucket's buffers when every input fits them,
        into tensors of their own otherwise. */
    method SetInputTensors(x: seq<Tensor>, r: nat) returns (inputs: Inputs)
      requires Valid()
      requires prestagedEntry.Some? ==> EntryShaped(prestagedBucket, graphs.contents[prestagedBucket])
      modifies this`prestagedEntry, this`prestagedBucket, graphs`contents
      modifies if prestagedEntry.Some? then prestagedEntry.value.bufs else []
      ensures Valid() && inputs.Usable() && (Abs(), inputs.Value()) == SetInputs(old(Abs()), x, r)
      ensures inputs.Viewed? <==> prestagedEntry.Some?
      ensures inputs.Viewed? ==> inputs.e == prestagedEntry.value
      ensures graphs.owner == old(graphs.owner)
    {
      if prestagedEntry.Some? {
        var b := prestagedBucket;
        var e := graphs.Read(b);
        if Viable(e, x, r, b) {
          PrestagedViewable(e, x, r, b);
          graphs.Stage(b, x, r);
          ghost var e' := graphs.Read(b);
          return Viewed(prestagedEntry.value, r, b);
        }
        prestagedEntry, prestagedBucket := None, -1;
      }
      return Own(x);
    }

    /** The slow path: pick a bucket, copy the batch in and replay. */
    method ReplaySelected(x: seq<Tensor>, r: nat, f: Faults) returns (out: Outcome)
      requires Valid() && Shaped(x, r) && EntriesShaped(Abs())
      modifies this`failed, this`metrics, this`hist, graphs, graphs.owner.Keys
      ensures Valid() && (Abs(), out) == SlowPath(cfg, model, old(Abs()), x, r, f)
      ensures fresh(graphs.owner.Keys - old(graphs.owner.Keys))
    {
      SelectKeepsShapes(Candidates(cfg, r), Abs(), x, r, f.captureFails, 0);
      var pick, src := SelectBucket(x, r, f.captureFails);
      match pick {
        case NoBucket =>
          CountEager();
          out := FellBack;
        case PadThrows =>
          CountThrown();
          out := Threw;
        case At(b) =>
          SameSizesAt(b, graphs.contents[b], x, r);
          var replayed := ReplayCudaGraphEntry(b, r, Some(src), f.throwAt);
          out := OutcomeOf(replayed);
      }
    }

    /** The fast path: replay what `SetInputTensors` staged, without touching any buffer. */
    method ReplayPrestaged(r: nat, throwAt: nat) returns (out: Option<Outputs>)
      requires Valid() && prestagedEntry.Some?
      modifies this`prestagedEntry, this`prestagedBucket, this`metrics, this`hist, graphs`contents
      ensures Valid() && graphs.entries == old(graphs.entries) && graphs.owner == old(graphs.owner)
      ensures (Abs(), out) == Replay(model, old(Abs()).(prestaged := None), old(prestagedBucket), r, None, throwAt)
    {
      var b := prestagedBucket;
      prestagedEntry, prestagedBucket := None, -1;
      out := ReplayCudaGraphEntry(b, r, None, throwAt);
    }

    method ReplayBatch(x: seq<Tensor>, r: nat, f: Faults) returns (out: Outcome)
      requires Valid() && Shaped(x, r) && EntriesShaped(Abs())
      modifies this, graphs, if prestagedEntry.Some? then {} else graphs.owner.Keys
      ensures Valid() && (Abs(), out) == Dispatch(cfg, model, old(Abs()), x, r, f)
      ensures fresh(graphs.owner.Keys - old(graphs.owner.Keys))
    {
      if prestagedEntry.Some? {
        var replayed := ReplayPrestaged(r, f.throwAt);
        out := OutcomeOf(replayed);
      } else {
        out := ReplaySelected(x, r, f);
      }
    }

    /** The width check, then the replay. A prestaged batch's buffers are not written. */
    method HealAndReplay(x: seq<Tensor>, r: nat, f: Faults) returns (out: Outcome)
      requires Valid() && Shaped(x, r) && EntriesShaped(Abs())
      modifies this, graphs, graphs.owner.Keys
      ensures Valid() && (Abs(), out) == Dispatch(cfg, model, Heal(cfg, old(Abs()), x, r), x, r, f)
      ensures fresh(graphs.owner.Keys - old(graphs.owner.Keys))
      ensures old(prestagedEntry.Some?) ==> forall a :: a in old(graphs.owner.Keys) ==> a[..] == old(a[..])
    {
      HealKeepsShapes(cfg, Abs(), x, r);
      HealWidths(x, r);
      out := ReplayBatch(x, r, f);
    }

    /** `ExecuteWithCudaGraph`. Views it was given still hold the batch afterwards, so a
        fallback to the eager run reads the right contents. */
    method ExecuteWithCudaGraph(inputs: Inputs, f: Faults) returns (out: Outcome)
      requires Valid() && inputs.Usable() && EntriesShaped(Abs())
      requires |inputs.Value()| == 3 ==> Shaped(inputs.Value(), MinRows(inputs.Value()))
      requires (inputs.Viewed? <==> prestagedEntry.Some?) && (inputs.Viewed? ==> inputs.e == prestagedEntry.value)
      modifies this, graphs, graphs.owner.Keys
      ensures Valid() && (Abs(), out) == ExecuteGraph(cfg, model, old(Abs()), old(inputs.Value()), f)
      ensures fresh(graphs.owner.Keys - old(graphs.owner.Keys))
      ensures inputs.Viewed? ==> forall i :: 0 <= i < 3 ==> inputs.e.bufs[i][..] == old(inputs.e.bufs[i][..])
    {
      var x := inputs.Value();
      CountCall();
      if |x| != 3 {
        CountEager();
        return FellBack;
      }
      out := HealAndReplay(x, MinRows(x), f);
    }

    /** Where this batch could be prestaged. */
    method FindPrestage(total: nat)
      requires Valid()
      modifies this`prestagedEntry, this`prestagedBucket
      ensures Valid() && Abs() == old(Abs()).(prestaged := FindReady(cfg, old(Abs()), total))
    {
      prestagedEntry, prestagedBucket := None, -1;
      FoundIsCached(cfg, Abs(), total);
      FindIgnoresPointer(cfg, old(Abs()), total);
      var found := FindReadyCudaGraphEntry(total);
      if found.Some? {
        prestagedEntry, prestagedBucket := Some(graphs.entries[found.value]), found.value;
      }
    }

    /** `Execute`: the graph path, and the eager run when it is off or fell back. An exception leaves
        no outputs, and an error for every request. */
    method Execute(inputs: Inputs, f: Faults) returns (out: Option<Outputs>)
      requires Valid() && inputs.Usable() && EntriesShaped(Abs())
      requires |inputs.Value()| == 3 ==> Shaped(inputs.Value(), MinRows(inputs.Value()))
      requires (inputs.Viewed? <==> prestagedEntry.Some?) && (inputs.Viewed? ==> inputs.e == prestagedEntry.value)
      modifies this, graphs, graphs.owner.Keys
      ensures Valid() && (Abs(), out) == GraphOrEager(cfg, model, old(Abs()), old(inputs.Value()), f)
      ensures fresh(graphs.owner.Keys - old(graphs.owner.Keys))
    {
      ghost var x := inputs.Value();
      if cfg.graphOn {
        var replayed := ExecuteWithCudaGraph(inputs, f);
        match replayed {
          case Replayed(outputs) => return Some(outputs);
          case Threw => return None;
          case FellBack =>
        }
      }
      assert inputs.Value() == x;
      out := Some(Forward(model, inputs.Value()));
    }

    /** Collection and execution. */
    method RunBatch(x: seq<Tensor>, total: nat, f: Faults) returns (out: Option<Outputs>)
      requires Valid() && EntriesShaped(Abs()) && Batch(x, total)
      modifies this, graphs, graphs.owner.Keys
      ensures Valid() && (Abs(), out) == RunCollected(cfg, model, old(Abs()), x, total, f)
      ensures fresh(graphs.owner.Keys - old(graphs.owner.Keys))
    {
      ghost var st := Abs();
      SeenBatch(st, x, total);
      var inputs := SetInputTensors(x, total);
      CollectedRuns(cfg, model, st, x, total, f, Abs(), inputs.Value());
      if f.abort {
        return None;
      }
      out := Execute(inputs, f);
    }

    /** `ProcessRequests` from prestaging to outputs, and `Execute` with its eager fallback. */
    method ProcessRequests(x: seq<Tensor>, total: nat, f: Faults) returns (out: Option<Outputs>)
      requires Valid() && EntriesShaped(Abs()) && Batch(x, total)
      modifies this, graphs, graphs.owner.Keys
      ensures Valid() && (Abs(), out) == ProcessBatch(cfg, model, old(Abs()), x, total, f)
      ensures fresh(graphs.owner.Keys - old(graphs.owner.Keys))
    {
      FindPrestage(total);
      out := RunBatch(x, total, f);
    }

    /** Warmup and then a whole run. With uniform traffic every batch that reaches execution is
        answered with the eager outputs of that batch alone. */
    method Serve(fails: set<int>, evs: seq<Event>) returns (outs: seq<Option<Outputs>>)
      requires Valid() && Abs() == INIT_STATE && Batches(evs)
      modifies this, graphs, graphs.owner.Keys
      ensures Valid() && (Abs(), outs) == Run(cfg, model, fails, evs)
      ensures Traffic(evs) ==> outs == EagerAnswers(model, evs)
    {
      WarmupCudaGraphs(fails);
      outs := [];
      var i := 0;
      while i < |evs|
        invariant 0 <= i <= |evs| && Valid() && (Abs(), outs) == Run(cfg, model, fails, evs[..i])
        invariant fresh(graphs.owner.Keys - old(graphs.owner.Keys))
      {
        assert evs[..i + 1][..i] == evs[..i];
        var out := ProcessRequests(evs[i].x, evs[i].total, evs[i].faults);
        outs := outs + [out];
        i := i + 1;
      }
      assert evs[..i] == evs;
      if Traffic(evs) {
        RunRefinesEager(cfg, model, fails, evs);
      }
    }
  }

  /** What execution starts from once the batch is collected. */
  lemma CollectedRuns(
    cfg: Config, m: Model, st: State, x: seq<Tensor>, total: nat, f: Faults, st1: State, seen: seq<Tensor>)
    requires EntriesShaped(st) && Batch(x, total) && (st.prestaged.Some? ==> st.prestaged.value in st.cache)
    requires (st1, seen) == SetInputs(st, x, total)
    ensures EntriesShaped(st1) && (|seen| == 3 ==> Shaped(seen, MinRows(seen)))
    ensures st1.prestaged.Some? ==> st1.prestaged.value in st1.cache
    ensures RunCollected(cfg, m, st, x, total, f) ==
            if f.abort then (st1, None) else GraphOrEager(cfg, m, st1, seen, f)
  {
    SeenBatch(st, x, total);
    BatchRows(seen, total);
  }

  lemma SameSizesAt(b: int, e: seq<Tensor>, x: seq<Tensor>, r: nat)
    requires EntryShaped(b, e) && Shaped(x, r) && CanFill(x, r, b)
    ensures SameSizes(e, BucketInputs(x, r, b))
  {
    BucketInputsShaped(x, r, b);
  }

  lemma {:induction false} SkipSmallFind(buckets: seq<int>, st: State, r: nat, i: nat)
    requires i <= |buckets| && forall j :: 0 <= j < i ==> buckets[j] < r
    ensures FindFrom(buckets, st, r, 0) == FindFrom(buckets, st, r, i)
  {
    if i > 0 {
      SkipSmallFind(buckets, st, r, i - 1);
    }
  }

  lemma {:induction false} SkipSmallSelect(
    buckets: seq<int>, st: State, x: seq<Tensor>, r: nat, fails: set<int>, i: nat)
    requires Shaped(x, r) && i <= |buckets| && forall j :: 0 <= j < i ==> buckets[j] < r
    ensures SelectFrom(buckets, st, x, r, fails, 0) == SelectFrom(buckets, st, x, r, fails, i)
  {
    if i > 0 {
      SkipSmallSelect(buckets, st, x, r, fails, i - 1);
    }
  }
}
