/** Runs of the state machine on the device: how each batch of a run was executed, and for which
    runs the device does what GraphRuns proves in the host's order. */
module DeviceRuns {
  import opened Basics
  import opened Tensors
  import opened Padding
  import opened GraphSpec
  import opened GraphRuns
  import opened RaggedTraffic
  import SP = StreamProtocol

  /** How the slow path executes a batch that picked bucket b with these contents. */
  function SlowKind(b: nat, e: seq<Tensor>, src: seq<Tensor>, throwAt: nat): SP.Kind
    requires |e| == 3 && |src| == 3
  {
    var n := CopyCount(e, src, throwAt, 0);
    if n == 3 && throwAt > 3 then SP.Slow(b) else SP.FailedSlow(b, n)
  }

  /** How a batch that arrives in state st is executed. */
  function KindOf(cfg: Config, st: State, x: seq<Tensor>, total: nat, f: Faults): SP.Kind
    requires EntriesShaped(st) && Batch(x, total)
  {
    if Prestages(cfg, st, x, total) then
      var b: nat := FindReady(cfg, st, total).value;
      if f.abort then SP.AbortedPrestaged(b)
      else if f.throwAt <= 3 then SP.FailedPrestaged(b) else SP.Prestaged(b)
    else if f.abort then SP.Aborted
    else if !cfg.graphOn || |x| != 3 then SP.Eagerly
    else
      SelectKeepsShapes(Candidates(cfg, total), Arrived(cfg, st, x, total), x, total, f.captureFails, 0);
      match Picked(cfg, st, x, total, f)
      case (st1, NoBucket) => SP.Eagerly
      case (st1, PadThrows) => SP.Aborted
      case (st1, At(b)) =>
        assert EntryShaped(b, st1.cache[b]);
        BucketInputsShaped(x, total, b);
        SlowKind(b, st1.cache[b], BucketInputs(x, total, b), f.throwAt)
  }

  /** How batch i of a run is executed. */
  ghost function KindAt(cfg: Config, m: Model, st: State, evs: seq<Event>, i: nat): SP.Kind
    requires cfg.Valid() && Inv(cfg, st) && Batches(evs) && i < |evs|
  {
    KindOf(cfg, RunFrom(cfg, m, st, evs[..i]).0, evs[i].x, evs[i].total, evs[i].faults)
  }

  /** How the batches of a run are executed. */
  ghost function Kinds(cfg: Config, m: Model, st: State, evs: seq<Event>): seq<SP.Kind>
    requires cfg.Valid() && Inv(cfg, st) && Batches(evs)
  {
    seq(|evs|, i requires 0 <= i < |evs| => KindAt(cfg, m, st, evs, i))
  }

  /** How the batches of a run from the start are executed. */
  ghost function RunKinds(cfg: Config, m: Model, fails: set<int>, evs: seq<Event>): seq<SP.Kind>
    requires cfg.Valid() && Batches(evs)
  {
    InitialInv(cfg, fails);
    Kinds(cfg, m, Warmup(cfg, INIT_STATE, fails), evs)
  }

  /** The last batch of a run. */
  lemma KindsStep(cfg: Config, m: Model, st: State, evs: seq<Event>)
    requires cfg.Valid() && Inv(cfg, st) && Batches(evs) && evs != []
    ensures var n := |evs| - 1;
      Kinds(cfg, m, st, evs) == Kinds(cfg, m, st, evs[..n]) + [KindAt(cfg, m, st, evs, n)]
  {
    var n := |evs| - 1;
    forall i | 0 <= i < n
      ensures KindAt(cfg, m, st, evs, i) == KindAt(cfg, m, st, evs[..n], i)
    {
      assert evs[..n][..i] == evs[..i] && evs[..n][i] == evs[i];
    }
  }

  /** A replay completes. */
  predicate Replays(kind: SP.Kind) {
    kind.Slow? || kind.Prestaged?
  }

  /** What a batch of `total` requests executed in this way counts: a replay of its bucket and the
      rows it is short of it, or a fallback. */
  predicate Counts(cfg: Config, kind: SP.Kind, total: nat, st: State, st': State) {
    && (Replays(kind) ==>
          && total <= kind.b
          && st'.metrics.replays == Add(st.metrics.replays, kind.b, 1)
          && st'.metrics.padWaste == Add(st.metrics.padWaste, kind.b, kind.b - total)
          && st'.hist.served == Add(st.hist.served, kind.b, total))
    && (!Replays(kind) ==>
          && st'.metrics.replays == st.metrics.replays && st'.metrics.padWaste == st.metrics.padWaste
          && st'.hist.served == st.hist.served)
    && st'.metrics.eager == st.metrics.eager
       + if kind.FailedSlow? || kind.FailedPrestaged? || (kind.Eagerly? && cfg.graphOn) then 1 else 0
  }

  lemma ServedCounts(cfg: Config, kind: SP.Kind, st: State, r: nat)
    requires Replays(kind) && r <= kind.b
    ensures Counts(cfg, kind, r, st, Served(st, kind.b, r))
  {
    assert Add(st.metrics.padWaste, kind.b, 0) == st.metrics.padWaste;
  }

  /** The state machine agrees: it counts a replay of b exactly when one completes there, the rows
      it is short of it as waste, a fallback exactly when the graph path gives up, and answers
      exactly the batches that are not aborted. */
  lemma KindMatches(cfg: Config, m: Model, st: State, x: seq<Tensor>, total: nat, f: Faults)
    requires cfg.Valid() && Inv(cfg, st) && Batch(x, total)
    ensures var (st', out) := ProcessBatch(cfg, m, st, x, total, f); var kind := KindOf(cfg, st, x, total, f);
      (out.Some? <==> SP.IsAnswered(kind)) && Counts(cfg, kind, total, st, st')
  {
    FoundIsCached(cfg, st, total);
    if |x| != 3 {
      BatchRows(x, total);
    } else if Prestages(cfg, st, x, total) {
      var kind := KindOf(cfg, st, x, total, f);
      if kind.Prestaged? {
        ServedCounts(cfg, kind, st, total);
      }
      PrestagedStep(cfg, m, st, x, total, f);
    } else if GoesSlow(cfg, st, x, total, f) {
      SlowMatches(cfg, m, st, x, total, f);
    }
  }

  lemma SlowMatches(cfg: Config, m: Model, st: State, x: seq<Tensor>, r: nat, f: Faults)
    requires EntriesShaped(st) && Shaped(x, r) && GoesSlow(cfg, st, x, r, f)
    ensures var (st', out) := ProcessBatch(cfg, m, st, x, r, f); var kind := KindOf(cfg, st, x, r, f);
      && (out.Some? <==> SP.IsAnswered(kind)) && !kind.Prestaged? && Counts(cfg, kind, r, st, st')
  {
    SlowStep(cfg, m, st, x, r, f);
    SelectCountsNothing(Candidates(cfg, r), Arrived(cfg, st, x, r), x, r, f.captureFails, 0);
    SelectKeepsShapes(Candidates(cfg, r), Arrived(cfg, st, x, r), x, r, f.captureFails, 0);
    var (st1, pick) := Picked(cfg, st, x, r, f);
    if pick.At? {
      var b, src := pick.bucket, BucketInputs(x, r, pick.bucket);
      assert EntryShaped(b, st1.cache[b]);
      BucketInputsShaped(x, r, b);
      ReplayCounts(cfg, m, st1, b, r, src, f.throwAt);
    }
  }

  /** A replay that copies first. */
  lemma ReplayCounts(cfg: Config, m: Model, st: State, b: nat, r: nat, src: seq<Tensor>, throwAt: nat)
    requires b in st.cache && |st.cache[b]| == 3 == |src| && r <= b
    ensures Counts(cfg, SlowKind(b, st.cache[b], src, throwAt), r, st, Replay(m, st, b, r, Some(src), throwAt).0)
  {
    ServedCounts(cfg, SP.Slow(b), st, r);
  }

  // ---- What a run counts ----

  /** The rows of requests that were replayed at bucket b. */
  function RowsServed(kinds: seq<SP.Kind>, evs: seq<Event>, b: nat): nat
    requires |kinds| == |evs|
  {
    if kinds == [] then 0 else
    var n := |kinds| - 1;
    RowsServed(kinds[..n], evs[..n], b) + (if Replays(kinds[n]) && kinds[n].b == b then evs[n].total else 0)
  }

  /** The rows by which they were short of it. */
  function RowsShort(kinds: seq<SP.Kind>, evs: seq<Event>, b: nat): int
    requires |kinds| == |evs|
  {
    if kinds == [] then 0 else
    var n := |kinds| - 1;
    RowsShort(kinds[..n], evs[..n], b) + (if Replays(kinds[n]) && kinds[n].b == b then b - evs[n].total else 0)
  }

  function ReplaysOf(kinds: seq<SP.Kind>, b: nat): nat {
    if kinds == [] then 0 else
    var n := |kinds| - 1;
    ReplaysOf(kinds[..n], b) + (if Replays(kinds[n]) && kinds[n].b == b then 1 else 0)
  }

  /** What has been counted for bucket b since st. */
  predicate Accounted(kinds: seq<SP.Kind>, evs: seq<Event>, b: nat, st: State, st': State)
    requires |kinds| == |evs|
  {
    && st'.metrics.replays[b] == st.metrics.replays[b] + ReplaysOf(kinds, b)
    && st'.metrics.padWaste[b] == st.metrics.padWaste[b] + RowsShort(kinds, evs, b)
    && st'.hist.served[b] == st.hist.served[b] + RowsServed(kinds, evs, b)
  }

  lemma AccountedStep(
    cfg: Config, kinds: seq<SP.Kind>, evs: seq<Event>, b: nat, st: State, st1: State, st': State)
    requires |kinds| == |evs| && kinds != []
    requires var n := |kinds| - 1;
      Accounted(kinds[..n], evs[..n], b, st, st1) && Counts(cfg, kinds[n], evs[n].total, st1, st')
    ensures Accounted(kinds, evs, b, st, st')
  {}

  lemma LastKind(cfg: Config, m: Model, st: State, evs: seq<Event>)
    requires cfg.Valid() && Inv(cfg, st) && Batches(evs) && evs != []
    ensures var n := |evs| - 1; var kinds := Kinds(cfg, m, st, evs);
      |kinds| == |evs| && kinds[..n] == Kinds(cfg, m, st, evs[..n]) && kinds[n] == KindAt(cfg, m, st, evs, n)
  {
    KindsStep(cfg, m, st, evs);
  }

  /** What the last batch of a run counts. */
  lemma LastCounts(cfg: Config, m: Model, st: State, evs: seq<Event>)
    requires cfg.Valid() && Inv(cfg, st) && Batches(evs) && evs != []
    ensures var n := |evs| - 1;
      Counts(cfg, KindAt(cfg, m, st, evs, n), evs[n].total, RunFrom(cfg, m, st, evs[..n]).0, RunFrom(cfg, m, st, evs).0)
  {
    var n := |evs| - 1;
    RunStep(cfg, m, st, evs);
    KindMatches(cfg, m, RunFrom(cfg, m, st, evs[..n]).0, evs[n].x, evs[n].total, evs[n].faults);
  }

  lemma {:induction false} RunAccounted(cfg: Config, m: Model, st: State, evs: seq<Event>, b: nat)
    requires cfg.Valid() && Inv(cfg, st) && Batches(evs)
    ensures Accounted(Kinds(cfg, m, st, evs), evs, b, st, RunFrom(cfg, m, st, evs).0)
  {
    if evs != [] {
      var n := |evs| - 1;
      RunAccounted(cfg, m, st, evs[..n], b);
      LastCounts(cfg, m, st, evs);
      LastKind(cfg, m, st, evs);
      AccountedStep(cfg, Kinds(cfg, m, st, evs), evs, b, st, RunFrom(cfg, m, st, evs[..n]).0,
                    RunFrom(cfg, m, st, evs).0);
    }
  }

  lemma {:induction false} WarmupServesNothing(cfg: Config, fails: set<int>, n: nat)
    requires cfg.Warms() && n <= |cfg.buckets|
    ensures var st := WarmupUpTo(cfg, INIT_STATE, fails, n);
      && st.metrics.replays == INIT_STATE.metrics.replays && st.metrics.padWaste == INIT_STATE.metrics.padWaste
      && st.hist.served == INIT_STATE.hist.served
  {
    if n > 0 {
      WarmupServesNothing(cfg, fails, n - 1);
    }
  }

  /** Over any run from the start: the metrics of bucket b are the batches replayed there and the
      rows they were short of it, and together with their own rows those are all rows replayed. */
  lemma RowsAccounted(cfg: Config, m: Model, fails: set<int>, evs: seq<Event>, b: nat)
    requires cfg.Valid() && Batches(evs)
    ensures var metrics, kinds := Run(cfg, m, fails, evs).0.metrics, RunKinds(cfg, m, fails, evs);
      && |kinds| == |evs|
      && metrics.replays[b] == ReplaysOf(kinds, b)
      && metrics.padWaste[b] == RowsShort(kinds, evs, b)
      && b * metrics.replays[b] == RowsServed(kinds, evs, b) + metrics.padWaste[b]
  {
    InitialInv(cfg, fails);
    RunAccounted(cfg, m, Warmup(cfg, INIT_STATE, fails), evs, b);
    if cfg.Warms() {
      WarmupServesNothing(cfg, fails, |cfg.buckets|);
    }
    MetricsConserved(cfg, m, fails, evs, b);
  }

  /** The slow path enqueues a copy and then does not complete. */
  predicate StopsHalfway(cfg: Config, st: State, x: seq<Tensor>, total: nat, f: Faults)
    requires EntriesShaped(st) && Batch(x, total)
  {
    && |x| == 3 && GoesSlow(cfg, st, x, total, f)
    && match Picked(cfg, st, x, total, f) {
         case (st1, NoBucket) => false
         case (st1, PadThrows) => false
         case (st1, At(b)) =>
           var copies := CopyCount(st1.cache[b], BucketInputs(x, total, b), f.throwAt, 0);
           copies >= 1 && (copies < 3 || f.throwAt <= 3)
       }
  }

  lemma HalfwayIff(cfg: Config, st: State, x: seq<Tensor>, total: nat, f: Faults)
    requires EntriesShaped(st) && Batch(x, total)
    ensures var kind := KindOf(cfg, st, x, total, f);
      StopsHalfway(cfg, st, x, total, f) <==> kind.FailedSlow? && kind.copies > 0
  {
    if |x| == 3 && GoesSlow(cfg, st, x, total, f) {
      SelectKeepsShapes(Candidates(cfg, total), Arrived(cfg, st, x, total), x, total, f.captureFails, 0);
      var (st1, pick) := Picked(cfg, st, x, total, f);
      if pick.At? {
        assert EntryShaped(pick.bucket, st1.cache[pick.bucket]);
        BucketInputsShaped(x, total, pick.bucket);
        assert KindOf(cfg, st, x, total, f)
            == SlowKind(pick.bucket, st1.cache[pick.bucket], BucketInputs(x, total, pick.bucket), f.throwAt);
      }
    }
  }

  ghost predicate HalfwayAt(cfg: Config, m: Model, st: State, evs: seq<Event>, i: nat)
    requires cfg.Valid() && Inv(cfg, st) && Batches(evs) && i < |evs|
  {
    StopsHalfway(cfg, RunFrom(cfg, m, st, evs[..i]).0, evs[i].x, evs[i].total, evs[i].faults)
  }

  /** A run leaves no graph dirty exactly when no replay stops after its first copy. */
  lemma CleanIff(cfg: Config, m: Model, st: State, evs: seq<Event>)
    requires cfg.Valid() && Inv(cfg, st) && Batches(evs)
    ensures SP.Clean(Kinds(cfg, m, st, evs)) <==> forall i :: 0 <= i < |evs| ==> !HalfwayAt(cfg, m, st, evs, i)
  {
    var kinds := Kinds(cfg, m, st, evs);
    forall i | 0 <= i < |evs|
      ensures HalfwayAt(cfg, m, st, evs, i) <==> kinds[i].FailedSlow? && kinds[i].copies > 0
    {
      HalfwayIff(cfg, RunFrom(cfg, m, st, evs[..i]).0, evs[i].x, evs[i].total, evs[i].faults);
    }
  }

  /** A run on the device: in every interleaving every batch is answered from its own inputs exactly
      when no batch is collected into a graph that a failed replay left dirty; with uniform traffic
      the state machine's answers are the eager ones. */
  lemma DeviceRefinesEager(
    cfg: Config, m: Model, fails: set<int>, evs: seq<Event>, streams: nat -> nat, waits: SP.HostWaits)
    requires cfg.Valid() && Batches(evs) && SP.OwnStreams(streams)
    ensures Traffic(evs) ==> Run(cfg, m, fails, evs).1 == EagerAnswers(m, evs)
    ensures var kinds := RunKinds(cfg, m, fails, evs); SP.Safe(kinds, streams, waits) <==> SP.Ordered(kinds, streams)
  {
    if Traffic(evs) {
      RunRefinesEager(cfg, m, fails, evs);
    }
    SP.SafeIff(RunKinds(cfg, m, fails, evs), streams, waits);
  }

  // ---- Traffic of one width ----

  /** Batches of one width: [0] has the same rows and [1] the same elements per request in every
      batch of the three-tensor layout. */
  predicate OneWidth(x: seq<Tensor>, total: nat, row: seq<nat>, per: nat) {
    Batch(x, total) && (|x| == 3 ==> x[0].shape[1..] == row && |x[1].data| == total * per)
  }

  /** Nothing throws in a replay; captures may fail and batches may be aborted. */
  predicate Steady(evs: seq<Event>, row: seq<nat>, per: nat) {
    forall i :: 0 <= i < |evs| ==> OneWidth(evs[i].x, evs[i].total, row, per) && evs[i].faults.throwAt > 3
  }

  /** If the rows of [0] fit this entry, so do the elements of [1]; with strict, they do. */
  predicate Alike(strict: bool, b: int, e: seq<Tensor>, row: seq<nat>, per: nat) {
    EntryShaped(b, e) && (b >= 1 ==> if e[0].shape[1..] == row then |e[1].data| == b * per else !strict)
  }

  predicate AllAlike(strict: bool, cache: map<int, seq<Tensor>>, row: seq<nat>, per: nat) {
    forall b :: b in cache ==> Alike(strict, b, cache[b], row, per)
  }

  /** Entries at the configured widths that match the traffic at all match it altogether. */
  lemma ConfiguredAlike(strict: bool, cfg: Config, cache: map<int, seq<Tensor>>, row: seq<nat>, per: nat)
    requires forall b :: b in cache ==> EntryShaped(b, cache[b]) && AtConfiguredWidths(cfg, b, cache[b])
    requires if row == [cfg.single] then per == cfg.multi else !strict
    ensures AllAlike(strict, cache, row, per)
  {
    forall b | b in cache
      ensures Alike(strict, b, cache[b], row, per)
    {
      if b >= 1 {
        FlatLength(cache[b][1], b * cfg.multi);
      }
    }
  }

  /** Before the width check a batch is only prestaged at the configured widths. */
  lemma PrestagedConfigured(cfg: Config, st: State, x: seq<Tensor>, r: nat, row: seq<nat>, per: nat)
    requires Inv(cfg, st) && Shaped(x, r) && OneWidth(x, r, row, per) && !st.widthsChecked && Prestages(cfg, st, x, r)
    ensures per == cfg.multi && (|row| == 1 ==> row == [cfg.single])
  {
    var b: nat := FindReady(cfg, st, r).value;
    assert AtConfiguredWidths(cfg, b, st.cache[b]);
    ViableWidths(st.cache[b], x, r, b);
    FlatLength(st.cache[b][1], b * cfg.multi);
    ExactQuotient(b, cfg.multi);
    ExactQuotient(r, per);
    OneDimension(cfg.single);
    if |row| == 1 {
      OneDimension(row[0]);
      assert row == [row[0]] && st.cache[b][0].shape[1..] == [cfg.single];
    }
  }

  /** And the width check lets entries stay only at the configured widths. */
  lemma KeptConfigured(cfg: Config, st: State, x: seq<Tensor>, r: nat, row: seq<nat>, per: nat)
    requires Shaped(x, r) && OneWidth(x, r, row, per) && !st.widthsChecked
    requires cfg.single > 0 && cfg.multi > 0 && Arrived(cfg, st, x, r).cache != map[]
    ensures |row| == 1 ==> row == [cfg.single] && per == cfg.multi
  {
    ExactQuotient(r, per);
    assert |row| == 1 ==> row == [x[0].shape[1]];
  }

  /** After the width check every entry that a batch of this width finds is alike. */
  lemma FoundAlike(strict: bool, cfg: Config, st: State, x: seq<Tensor>, r: nat, f: Faults, row: seq<nat>, per: nat)
    requires Inv(cfg, st) && Shaped(x, r) && OneWidth(x, r, row, per) && cfg.graphOn && !f.abort
    requires (st.widthsChecked ==> AllAlike(strict, st.cache, row, per)) && (strict ==> |row| == 1)
    ensures AllAlike(strict, Found(cfg, st, x, r, f), row, per)
  {
    if !st.widthsChecked && exists b :: b in Found(cfg, st, x, r, f) {
      var b :| b in Found(cfg, st, x, r, f);
      assert Found(cfg, st, x, r, f) == st.cache && AtConfiguredWidths(cfg, b, st.cache[b]);
      if Prestages(cfg, st, x, r) {
        PrestagedConfigured(cfg, st, x, r, row, per);
      } else {
        KeptConfigured(cfg, st, x, r, row, per);
      }
      ConfiguredAlike(strict, cfg, st.cache, row, per);
    }
  }

  /** The batch at a bucket is alike. */
  lemma InputsAlike(strict: bool, x: seq<Tensor>, r: nat, b: nat, row: seq<nat>, per: nat)
    requires Shaped(x, r) && OneWidth(x, r, row, per) && CanFill(x, r, b)
    ensures Alike(strict, b, BucketInputs(x, r, b), row, per) && BucketInputs(x, r, b)[0].shape == [b] + row
  {
    BucketInputsShaped(x, r, b);
    ExactQuotient(r, per);
    if b > r {
      PaddedShapes(x, r, b);
    }
    assert x[0].shape == [r] + x[0].shape[1..];
    assert x[0].shape[0 := b] == [b] + row;
  }

  lemma SameAlike(strict: bool, b: int, e: seq<Tensor>, e': seq<Tensor>, row: seq<nat>, per: nat)
    requires Alike(strict, b, e, row, per) && SameEnds(b, e, e')
    ensures Alike(strict, b, e', row, per)
  {}

  /** What a batch of this width leaves is alike again. */
  lemma StaysAlike(
    strict: bool, cfg: Config, m: Model, st: State, x: seq<Tensor>, r: nat, f: Faults, row: seq<nat>, per: nat)
    requires cfg.Valid() && Inv(cfg, st) && Shaped(x, r) && OneWidth(x, r, row, per)
    requires AllAlike(strict, Found(cfg, st, x, r, f), row, per)
    ensures AllAlike(strict, ProcessBatch(cfg, m, st, x, r, f).0.cache, row, per)
  {
    BatchLeaves(cfg, m, st, x, r, f);
    LeavesAlike(strict, Found(cfg, st, x, r, f), Overwritten(cfg, st, x, r, f), x, r,
                ProcessBatch(cfg, m, st, x, r, f).0.cache, row, per);
  }

  lemma LeavesAlike(
    strict: bool, found: map<int, seq<Tensor>>, w: Option<int>, x: seq<Tensor>, r: nat, cache: map<int, seq<Tensor>>,
    row: seq<nat>, per: nat)
    requires Shaped(x, r) && OneWidth(x, r, row, per) && (w.Some? ==> CanFill(x, r, w.value))
    requires Leaves(found, w, x, r, cache) && AllAlike(strict, found, row, per)
    ensures AllAlike(strict, cache, row, per)
  {
    if w.Some? {
      InputsAlike(strict, x, r, w.value, row, per);
    }
    forall b | b in found && w != Some(b)
      ensures Alike(strict, b, cache[b], row, per)
    {
      assert Alike(strict, b, found[b], row, per);
      SameAlike(strict, b, found[b], cache[b], row, per);
    }
  }

  /** Copies into an alike entry all succeed or all fail. */
  lemma AllOrNothing(strict: bool, b: nat, e: seq<Tensor>, src: seq<Tensor>, row: seq<nat>, per: nat, throwAt: nat)
    requires b >= 1 && Alike(strict, b, e, row, per) && Alike(strict, b, src, row, per)
    requires src[0].shape == [b] + row && throwAt > 3
    ensures SlowKind(b, e, src, throwAt) == if e[0].shape == src[0].shape then SP.Slow(b) else SP.FailedSlow(b, 0)
    ensures strict ==> e[0].shape == src[0].shape
  {
    CopiesByShape(b, e, src, throwAt);
  }

  /** So no replay of a batch of this width stops halfway. */
  lemma SteadyKind(strict: bool, cfg: Config, st: State, x: seq<Tensor>, total: nat, f: Faults, row: seq<nat>, per: nat)
    requires Inv(cfg, st) && OneWidth(x, total, row, per) && f.throwAt > 3
    requires (st.widthsChecked ==> AllAlike(strict, st.cache, row, per)) && (strict ==> |row| == 1)
    ensures var kind := KindOf(cfg, st, x, total, f); kind.FailedSlow? ==> kind.copies == 0 && !strict
  {
    if |x| == 3 && GoesSlow(cfg, st, x, total, f) {
      FoundAlike(strict, cfg, st, x, total, f, row, per);
      SelectAddsPick(Candidates(cfg, total), Arrived(cfg, st, x, total), x, total, f.captureFails, 0);
      var (st1, pick) := Picked(cfg, st, x, total, f);
      if pick.At? {
        InputsAlike(strict, x, total, pick.bucket, row, per);
        AllOrNothing(strict, pick.bucket, st1.cache[pick.bucket], BucketInputs(x, total, pick.bucket), row, per,
                     f.throwAt);
      }
    }
  }

  /** Batches outside the layout leave the cache alone. */
  lemma OtherLayout(cfg: Config, m: Model, st: State, x: seq<Tensor>, total: nat, f: Faults)
    requires EntriesShaped(st) && |x| != 3
    ensures var st' := ProcessBatch(cfg, m, st, x, total, f).0;
      st'.cache == st.cache && st'.widthsChecked == st.widthsChecked
  {
    FoundIsCached(cfg, st, total);
  }

  /** Batches that never reach execution do not check the widths. */
  lemma Unchecked(cfg: Config, m: Model, st: State, x: seq<Tensor>, r: nat, f: Faults)
    requires EntriesShaped(st) && Shaped(x, r) && (f.abort || !cfg.graphOn)
    ensures ProcessBatch(cfg, m, st, x, r, f).0.widthsChecked == st.widthsChecked
    ensures Found(cfg, st, x, r, f) == st.cache
  {
    FoundIsCached(cfg, st, r);
  }

  lemma SteadyStep(
    strict: bool, cfg: Config, m: Model, st: State, x: seq<Tensor>, total: nat, f: Faults, row: seq<nat>, per: nat)
    requires cfg.Valid() && Inv(cfg, st) && OneWidth(x, total, row, per)
    requires (st.widthsChecked ==> AllAlike(strict, st.cache, row, per)) && (strict ==> |row| == 1)
    ensures var st' := ProcessBatch(cfg, m, st, x, total, f).0;
      st'.widthsChecked ==> AllAlike(strict, st'.cache, row, per)
  {
    if |x| != 3 {
      OtherLayout(cfg, m, st, x, total, f);
    } else {
      if f.abort || !cfg.graphOn {
        Unchecked(cfg, m, st, x, total, f);
      } else {
        FoundAlike(strict, cfg, st, x, total, f, row, per);
      }
      if AllAlike(strict, Found(cfg, st, x, total, f), row, per) {
        StaysAlike(strict, cfg, m, st, x, total, f, row, per);
      }
    }
  }

  /** No copy into static inputs fails. */
  predicate NoFallback(kinds: seq<SP.Kind>) {
    forall i :: 0 <= i < |kinds| ==> !kinds[i].FailedSlow?
  }

  lemma {:induction false} SteadyRun(
    strict: bool, cfg: Config, m: Model, st: State, evs: seq<Event>, row: seq<nat>, per: nat)
    requires cfg.Valid() && Inv(cfg, st) && Batches(evs) && Steady(evs, row, per)
    requires (st.widthsChecked ==> AllAlike(strict, st.cache, row, per)) && (strict ==> |row| == 1)
    ensures var st' := RunFrom(cfg, m, st, evs).0; st'.widthsChecked ==> AllAlike(strict, st'.cache, row, per)
    ensures SP.Clean(Kinds(cfg, m, st, evs))
    ensures strict ==> NoFallback(Kinds(cfg, m, st, evs))
  {
    if evs != [] {
      var n := |evs| - 1;
      var e := evs[n];
      SteadyRun(strict, cfg, m, st, evs[..n], row, per);
      RunStep(cfg, m, st, evs);
      KindsStep(cfg, m, st, evs);
      var st1 := RunFrom(cfg, m, st, evs[..n]).0;
      SteadyStep(strict, cfg, m, st1, e.x, e.total, e.faults, row, per);
      SteadyKind(strict, cfg, st1, e.x, e.total, e.faults, row, per);
    }
  }

  /** Traffic of one width is safe in every interleaving, whatever the warmup widths were, which
      captures fail and which batches are aborted, as long as nothing throws in a replay. */
  lemma OneWidthIsSafe(
    cfg: Config, m: Model, fails: set<int>, evs: seq<Event>, row: seq<nat>, per: nat,
    streams: nat -> nat, waits: SP.HostWaits)
    requires cfg.Valid() && Batches(evs) && Steady(evs, row, per) && SP.OwnStreams(streams)
    ensures SP.Safe(RunKinds(cfg, m, fails, evs), streams, waits)
  {
    InitialInv(cfg, fails);
    var st := Warmup(cfg, INIT_STATE, fails);
    WarmupUnchecked(cfg, fails);
    SteadyRun(false, cfg, m, st, evs, row, per);
    SP.CleanIsOrdered(Kinds(cfg, m, st, evs), streams);
    SP.EveryInterleavingSafe(Kinds(cfg, m, st, evs), streams, waits);
  }

  lemma WarmupUnchecked(cfg: Config, fails: set<int>)
    requires cfg.Valid()
    ensures !Warmup(cfg, INIT_STATE, fails).widthsChecked
  {
    if cfg.Warms() {
      WarmupKeepsInv(cfg, fails, |cfg.buckets|);
    }
  }

  // ---- Alternating widths ----

  /** A batch of another width, at an entry it exactly fills: one copy succeeds, the next throws. */
  lemma OtherWidthFails(cfg: Config, m: Model, st: State, y: seq<Tensor>, r: nat)
    requires cfg.Valid() && Inv(cfg, st) && cfg.graphOn && st.widthsChecked && Shaped(y, r) && r in st.cache
    requires st.cache[r][0].shape == y[0].shape && |st.cache[r][1].data| != |y[1].data|
    ensures KindOf(cfg, st, y, r, NO_FAULTS) == SP.FailedSlow(r, 1)
    ensures var st' := ProcessBatch(cfg, m, st, y, r, NO_FAULTS).0;
      r in st'.cache && SameEnds(r, st.cache[r], st'.cache[r])
  {
    var e, st0 := st.cache[r], Arrived(cfg, st, y, r);
    CachedIsFound(cfg, st, r);
    if Viable(e, y, r, r) {
      ViableWidths(e, y, r, r);
    }
    FindIgnoresHistory(cfg, st, st0, r);
    FindReadyIff(cfg, st0, y, r, {}, r);
    CopiesByShape(r, e, y, 4);
    BatchLeaves(cfg, m, st, y, r, NO_FAULTS);
  }

  /** A uniform batch of an entry's own shapes is prestaged there. */
  lemma OwnWidthIsPrestaged(cfg: Config, st: State, x: seq<Tensor>, r: nat)
    requires cfg.Valid() && Inv(cfg, st) && cfg.graphOn && Packed(x, r) && |x[0].data| > 0 && r in st.cache
    requires forall i :: 0 <= i < 3 ==> st.cache[r][i].shape == x[i].shape
    ensures KindOf(cfg, st, x, r, NO_FAULTS) == SP.Prestaged(r) && |st.cache[r][1].data| == |x[1].data|
  {
    var e := st.cache[r];
    assert EntryShaped(r, e);
    FlatLength(e[1], |e[1].data|);
    FlatLength(x[1], r * Per(x, r));
    ExactQuotient(r, Per(x, r));
    MulMono(1, r, Per(x, r));
    CachedIsFound(cfg, st, r);
    ExactIsViable(r, e, x);
  }

  lemma OneMoreKind(cfg: Config, m: Model, st: State, evs: seq<Event>, e: Event)
    requires cfg.Valid() && Inv(cfg, st) && Batches(evs) && Batch(e.x, e.total)
    ensures var st1 := RunFrom(cfg, m, st, evs).0;
      && Batches(evs + [e])
      && RunFrom(cfg, m, st, evs + [e]).0 == ProcessBatch(cfg, m, st1, e.x, e.total, e.faults).0
      && Kinds(cfg, m, st, evs + [e]) == Kinds(cfg, m, st, evs) + [KindOf(cfg, st1, e.x, e.total, e.faults)]
  {
    var more := evs + [e];
    assert more[..|evs|] == evs;
    RunStep(cfg, m, st, more);
    KindsStep(cfg, m, st, more);
  }

  /** The race needs no failure of the hardware: in any run, once an entry is captured at the shapes
      of a uniform batch x, a uniform batch y of another width and then x again leave an
      interleaving in which x is answered wrongly, however often the host waits. */
  lemma AlternatingWidthsRace(
    cfg: Config, m: Model, st0: State, evs: seq<Event>, x: seq<Tensor>, y: seq<Tensor>, r: nat,
    streams: nat -> nat, waits: SP.HostWaits)
    requires cfg.Valid() && Inv(cfg, st0) && Batches(evs) && cfg.graphOn && SP.OwnStreams(streams)
    requires Packed(x, r) && Packed(y, r) && x[0].shape == y[0].shape && Per(x, r) != Per(y, r) && |x[0].data| > 0
    requires var st := RunFrom(cfg, m, st0, evs).0;
      st.widthsChecked && r in st.cache && forall i :: 0 <= i < 3 ==> st.cache[r][i].shape == x[i].shape
    ensures var more := evs + [Event(y, r, NO_FAULTS)] + [Event(x, r, NO_FAULTS)];
      Batches(more) && !SP.Safe(Kinds(cfg, m, st0, more), streams, waits)
  {
    var one := evs + [Event(y, r, NO_FAULTS)];
    var more := one + [Event(x, r, NO_FAULTS)];
    OneMoreKind(cfg, m, st0, evs, Event(y, r, NO_FAULTS));
    OneMoreKind(cfg, m, st0, one, Event(x, r, NO_FAULTS));
    var st := RunFrom(cfg, m, st0, evs).0;
    var st1 := RunFrom(cfg, m, st0, one).0;
    OwnWidthIsPrestaged(cfg, st, x, r);
    OtherWidthFails(cfg, m, st, y, r);
    OwnWidthIsPrestaged(cfg, st1, x, r);
    var kinds := Kinds(cfg, m, st0, more);
    assert kinds == Kinds(cfg, m, st0, evs) + [SP.FailedSlow(r, 1)] + [SP.Prestaged(r)];
    SP.DirtyStagingRaces(kinds, streams, |evs|, |one|, waits);
  }

  /** With nothing captured or failed yet, a batch that fills a bucket is captured there as it is. */
  lemma {:induction false} FreshSelect(cfg: Config, st: State, x: seq<Tensor>, r: nat, i: nat)
    requires cfg.Valid() && Shaped(x, r) && r in Candidates(cfg, r) && i <= |Candidates(cfg, r)|
    requires st.cache == map[] && st.failed == {}
    requires forall j :: 0 <= j < i ==> Candidates(cfg, r)[j] < r
    ensures SelectFrom(Candidates(cfg, r), st, x, r, {}, i).1 == At(r)
    decreases |Candidates(cfg, r)| - i
  {
    var buckets := Candidates(cfg, r);
    var k :| 0 <= k < |buckets| && buckets[k] == r;
    if buckets[i] < r {
      FreshSelect(cfg, st, x, r, i + 1);
    }
  }

  /** The state after a first batch that exactly fills a bucket. */
  lemma FreshFill(cfg: Config, m: Model, x: seq<Tensor>, r: nat)
    requires cfg.Valid() && Inv(cfg, INIT_STATE) && cfg.graphOn && Shaped(x, r) && r in Candidates(cfg, r)
    ensures var st := ProcessBatch(cfg, m, INIT_STATE, x, r, NO_FAULTS).0;
      st.widthsChecked && r in st.cache && st.cache[r] == x
  {
    FoundIsCached(cfg, INIT_STATE, r);
    FreshSelect(cfg, Arrived(cfg, INIT_STATE, x, r), x, r, 0);
    BatchLeaves(cfg, m, INIT_STATE, x, r, NO_FAULTS);
    SlowStep(cfg, m, INIT_STATE, x, r, NO_FAULTS);
    SelectCountsNothing(Candidates(cfg, r), Arrived(cfg, INIT_STATE, x, r), x, r, {}, 0);
  }

  /** Three uniform batches without any fault are enough, on an instance without warmup. */
  lemma FreshRace(
    cfg: Config, m: Model, x: seq<Tensor>, y: seq<Tensor>, r: nat, streams: nat -> nat, waits: SP.HostWaits)
    requires cfg.Valid() && cfg.graphOn && !cfg.Warms() && r in Candidates(cfg, r) && SP.OwnStreams(streams)
    requires Packed(x, r) && Packed(y, r) && x[0].shape == y[0].shape && Per(x, r) != Per(y, r) && |x[0].data| > 0
    ensures Inv(cfg, INIT_STATE)
    ensures var evs := [Event(x, r, NO_FAULTS)] + [Event(y, r, NO_FAULTS)] + [Event(x, r, NO_FAULTS)];
      Traffic(evs) && !SP.Safe(Kinds(cfg, m, INIT_STATE, evs), streams, waits)
  {
    InitialInv(cfg, {});
    var first := Event(x, r, NO_FAULTS);
    FreshFill(cfg, m, x, r);
    OneMoreKind(cfg, m, INIT_STATE, [], first);
    assert [] + [first] == [first];
    AlternatingWidthsRace(cfg, m, INIT_STATE, [first], x, y, r, streams, waits);
  }
}
