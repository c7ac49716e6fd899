/** What warmup captures, when the one-time width check keeps it, and how the batches that follow are
    executed: the first one exactly, and traffic of one width for as long as it lasts. */
module WarmStart {
  import opened Basics
  import opened Tensors
  import opened Padding
  import opened GraphSpec
  import opened GraphRuns
  import opened RaggedTraffic
  import opened DeviceRuns
  import SP = StreamProtocol

  // ---- Warmup ----

  /** An entry of zeros for b requests at the configured widths, with their end positions. */
  predicate IsWarm(cfg: Config, b: nat, e: seq<Tensor>) {
    && |e| == 3 && cfg.single >= 0 && cfg.multi >= 0
    && e[0] == Tensor([b, cfg.single], Zeros(b * cfg.single))
    && e[1] == Tensor([b * cfg.multi], Zeros(b * cfg.multi))
    && e[2] == Tensor([b], Ends32(b, cfg.multi))
  }

  /** What warmup has done about bucket b, which is among the buckets it has reached or not. */
  predicate Warmed(cfg: Config, st: State, fails: set<int>, b: int, reached: bool) {
    && (b in st.cache <==> reached && b !in fails)
    && (b in st.failed <==> reached && b in fails)
    && (b in st.cache ==> b >= 0 && IsWarm(cfg, b, st.cache[b]))
    && st.hist.attempts[b] == if reached then 1 else 0
  }

  lemma {:induction false} WarmedUpTo(cfg: Config, fails: set<int>, n: nat, b: int)
    requires cfg.Valid() && cfg.Warms() && n <= |cfg.buckets|
    ensures Warmed(cfg, WarmupUpTo(cfg, INIT_STATE, fails, n), fails, b, b in cfg.buckets[..n] && b >= 0)
  {
    if n > 0 {
      WarmedUpTo(cfg, fails, n - 1, b);
      assert cfg.buckets[..n] == cfg.buckets[..n - 1] + [cfg.buckets[n - 1]];
      assert cfg.buckets[n - 1] !in cfg.buckets[..n - 1];
    }
  }

  /** With graphs on and both widths configured, warmup captures exactly the non-negative allowlisted
      buckets whose capture does not fail, each once and at those widths, and marks exactly the
      others as known bad. Otherwise it does nothing. */
  lemma WarmupCaptures(cfg: Config, fails: set<int>, b: int)
    requires cfg.Valid()
    ensures Warmed(cfg, Warmup(cfg, INIT_STATE, fails), fails, b,
                   cfg.graphOn && cfg.single > 0 && cfg.multi > 0 && b in cfg.buckets && b >= 0)
  {
    if cfg.Warms() {
      WarmedUpTo(cfg, fails, |cfg.buckets|, b);
      assert cfg.buckets[..|cfg.buckets|] == cfg.buckets;
    }
  }

  // ---- The width check ----

  /** Selecting a bucket marks only buckets as bad whose capture fails. */
  lemma {:induction false} SelectFails(
    buckets: seq<int>, st: State, x: seq<Tensor>, r: nat, fails: set<int>, i: nat)
    requires Shaped(x, r) && i <= |buckets|
    ensures var st' := SelectFrom(buckets, st, x, r, fails, i).0;
      st.failed <= st'.failed <= st.failed + fails && st'.hist.evictions == st.hist.evictions
    decreases |buckets| - i
  {
    if i < |buckets| {
      var b := buckets[i];
      if b < r || b in st.failed {
        SelectFails(buckets, st, x, r, fails, i + 1);
      } else if CanFill(x, r, b) && b !in st.cache && b in fails {
        SelectFails(buckets, Capture(st, BucketInputs(x, r, b), b, false), x, r, fails, i + 1);
      }
    }
  }

  /** A replay leaves the negative cache alone. */
  lemma SlowFailed(cfg: Config, m: Model, st: State, x: seq<Tensor>, r: nat, f: Faults)
    requires EntriesShaped(st) && Shaped(x, r) && GoesSlow(cfg, st, x, r, f)
    ensures var st' := ProcessBatch(cfg, m, st, x, r, f).0; var st1 := Picked(cfg, st, x, r, f).0;
      st'.failed == st1.failed && st'.hist.evictions == st1.hist.evictions && st'.widthsChecked == st1.widthsChecked
  {
    SlowStep(cfg, m, st, x, r, f);
  }

  /** The first batch that reaches the width check without being prestaged: all entries found and all
      known bad buckets stay if, at the size of the batch, the first two dimensions of its [0] and its
      elements per request are those of warmup, or [0] has one dimension only, or no widths are
      configured; otherwise no entry found stays, and only buckets that fail in this batch are known
      bad after it. */
  lemma WidthCheckIff(cfg: Config, m: Model, st: State, x: seq<Tensor>, r: nat, f: Faults)
    requires cfg.Valid() && Inv(cfg, st) && Shaped(x, r) && GoesSlow(cfg, st, x, r, f) && !st.widthsChecked
    ensures var st' := ProcessBatch(cfg, m, st, x, r, f).0;
      && st'.widthsChecked
      && if || cfg.single <= 0 || cfg.multi <= 0 || |x[0].shape| == 1
            || (x[0].shape[..2] == [r, cfg.single] && |x[1].data| / r == cfg.multi) then
           && Found(cfg, st, x, r, f) == st.cache && st.cache.Keys <= st'.cache.Keys
           && st.failed <= st'.failed && st'.hist.evictions == st.hist.evictions
         else
           && Found(cfg, st, x, r, f) == map[] && st'.failed <= f.captureFails
           && (forall b :: b in st'.cache ==> CanFill(x, r, b) && st'.cache[b] == BucketInputs(x, r, b))
           && st'.hist.evictions == st.hist.evictions + 1
  {
    BatchLeaves(cfg, m, st, x, r, f);
    SlowFailed(cfg, m, st, x, r, f);
    SelectFails(Candidates(cfg, r), Arrived(cfg, st, x, r), x, r, f.captureFails, 0);
    SelectCountsNothing(Candidates(cfg, r), Arrived(cfg, st, x, r), x, r, f.captureFails, 0);
    assert |x[0].shape| >= 2 ==> x[0].shape[..2] == [r, x[0].shape[1]];
  }

  // ---- Prestaging ----

  /** A uniform batch fits an entry it is not too large for exactly when its rows and its elements
      per request are as large as the captured ones, and not empty. */
  lemma ViableIff(e: seq<Tensor>, x: seq<Tensor>, r: nat, b: nat)
    requires EntryShaped(b, e) && Packed(x, r) && r <= b
    ensures Viable(e, x, r, b) <==> x[0].Stride() == e[0].Stride() > 0 && |e[1].data| == b * Per(x, r)
  {
    var per := Per(x, r);
    FlatLength(e[1], |e[1].data|);
    ExactQuotient(b, e[0].Stride());
    ExactQuotient(b, 1);
    ExactQuotient(b, per);
    if Viable(e, x, r, b) {
      ViableWidths(e, x, r, b);
    }
    forall i | 0 <= i < r
      ensures EndAt(x[2].data, i) - EndAt(x[2].data, i - 1) == EndAt(x[2].data, 0)
    {
      EndsAt(r, per, i);
      EndsAt(r, per, i - 1);
      EndsAt(r, per, 0);
      OneMore(i, per);
    }
  }

  lemma {:induction false} FindFromLeast(buckets: seq<int>, st: State, r: nat, b: int, i: nat)
    requires LeastHealthy(buckets, st.failed, r, b) && i <= |buckets| && b in buckets[i..]
    requires forall j, k :: 0 <= j < k < |buckets| ==> buckets[j] < buckets[k]
    ensures FindFrom(buckets, st, r, i) == if b in st.cache then Some(b) else None
    decreases |buckets| - i
  {
    if buckets[i] != b {
      assert buckets[i..] == [buckets[i]] + buckets[i + 1..];
      var k :| i < k < |buckets| && buckets[k] == b;
      FindFromLeast(buckets, st, r, b, i + 1);
    }
  }

  /** The lookup considers the least bucket that holds the batch and is not known bad. */
  lemma FindLeast(cfg: Config, st: State, r: nat, b: int)
    requires cfg.Valid() && cfg.graphOn && LeastHealthy(Candidates(cfg, r), st.failed, r, b)
    ensures FindReady(cfg, st, r) == if b in st.cache then Some(b) else None
  {
    if cfg.buckets != [] {
      assert cfg.buckets[0..] == cfg.buckets;
      FindFromLeast(cfg.buckets, st, r, b, 0);
    }
  }

  /** So a uniform batch of any size is prestaged exactly when that bucket is captured at its own
      widths. */
  lemma PrestagedIff(cfg: Config, st: State, x: seq<Tensor>, r: nat, b: nat, f: Faults)
    requires cfg.Valid() && Inv(cfg, st) && cfg.graphOn && Packed(x, r) && !f.abort && f.throwAt > 3
    requires LeastHealthy(Candidates(cfg, r), st.failed, r, b)
    ensures KindOf(cfg, st, x, r, f) == SP.Prestaged(b) <==>
            && b in st.cache
            && x[0].Stride() == st.cache[b][0].Stride() > 0 && |st.cache[b][1].data| == b * Per(x, r)
  {
    FindLeast(cfg, st, r, b);
    if b in st.cache {
      ViableIff(st.cache[b], x, r, b);
    }
    if !Prestages(cfg, st, x, r) {
      NotPrestaged(cfg, st, x, r, f);
    }
  }

  lemma NotPrestaged(cfg: Config, st: State, x: seq<Tensor>, r: nat, f: Faults)
    requires Inv(cfg, st) && Shaped(x, r) && !Prestages(cfg, st, x, r)
    ensures !KindOf(cfg, st, x, r, f).Prestaged?
  {}

  // ---- The first batch ----

  /** The slow path at a captured bucket that is the least healthy one. */
  lemma SlowAtCaptured(cfg: Config, st: State, x: seq<Tensor>, r: nat, b: nat, f: Faults)
    requires cfg.Valid() && Inv(cfg, st) && Packed(x, r) && GoesSlow(cfg, st, x, r, f) && b in st.cache
    requires Arrived(cfg, st, x, r).cache == st.cache && Arrived(cfg, st, x, r).failed == st.failed
    requires LeastHealthy(Candidates(cfg, r), st.failed, r, b)
    ensures CanFill(x, r, b) && |st.cache[b]| == 3 == |BucketInputs(x, r, b)|
    ensures KindOf(cfg, st, x, r, f) == SlowKind(b, st.cache[b], BucketInputs(x, r, b), f.throwAt)
  {
    var st0 := Arrived(cfg, st, x, r);
    BucketInputsOk(x, r, b);
    FindLeast(cfg, st0, r, b);
    FindReadyIff(cfg, st0, x, r, f.captureFails, b);
  }

  /** The slow path with nothing captured and nothing known bad. */
  lemma SlowAtFresh(cfg: Config, st: State, x: seq<Tensor>, r: nat, b: nat)
    requires cfg.Valid() && Inv(cfg, st) && Packed(x, r) && GoesSlow(cfg, st, x, r, NO_FAULTS)
    requires Arrived(cfg, st, x, r).cache == map[] && Arrived(cfg, st, x, r).failed == {}
    requires LeastHealthy(Candidates(cfg, r), {}, r, b)
    ensures KindOf(cfg, st, x, r, NO_FAULTS) == SP.Slow(b)
  {
    var st0 := Arrived(cfg, st, x, r);
    FreshLeast(cfg, st0, x, r, b, 0);
    BucketInputsOk(x, r, b);
    CopiesByShape(b, BucketInputs(x, r, b), BucketInputs(x, r, b), 4);
  }

  lemma {:induction false} FreshLeast(cfg: Config, st: State, x: seq<Tensor>, r: nat, b: nat, i: nat)
    requires cfg.Valid() && Packed(x, r) && LeastHealthy(Candidates(cfg, r), {}, r, b) && i <= |Candidates(cfg, r)|
    requires st.cache == map[] && st.failed == {} && b in Candidates(cfg, r)[i..]
    ensures CanFill(x, r, b)
    ensures SelectFrom(Candidates(cfg, r), st, x, r, {}, i) == (Capture(st, BucketInputs(x, r, b), b, true), At(b))
    decreases |Candidates(cfg, r)| - i
  {
    var buckets := Candidates(cfg, r);
    BucketInputsOk(x, r, b);
    if buckets[i] != b {
      assert buckets[i..] == [buckets[i]] + buckets[i + 1..];
      var k :| i < k < |buckets| && buckets[k] == b;
      FreshLeast(cfg, st, x, r, b, i + 1);
    }
  }

  /** The first batch after warmup, uniform and without faults, exactly: prestaged at the least bucket
      that warmup captured for it if its rows and elements per request are as large as the
      configured ones; recaptured at the least bucket of all if the width check sees another width;
      and a fallback if it does not, because the rows have no dimension of their own or several. */
  lemma FirstBatchKind(cfg: Config, fails: set<int>, x: seq<Tensor>, r: nat, b: nat, least: nat)
    requires cfg.Valid() && cfg.graphOn && cfg.single > 0 && cfg.multi > 0 && Packed(x, r)
    requires LeastHealthy(cfg.buckets, fails, r, b) && LeastHealthy(cfg.buckets, {}, r, least)
    ensures Inv(cfg, Warmup(cfg, INIT_STATE, fails))
    ensures KindOf(cfg, Warmup(cfg, INIT_STATE, fails), x, r, NO_FAULTS) ==
            if x[0].Stride() == cfg.single && Per(x, r) == cfg.multi then SP.Prestaged(b)
            else if |x[0].shape| >= 2 && (x[0].shape[1] != cfg.single || Per(x, r) != cfg.multi) then SP.Slow(least)
            else SP.FailedSlow(b, 0)
  {
    InitialInv(cfg, fails);
    WarmupUnchecked(cfg, fails);
    var st := Warmup(cfg, INIT_STATE, fails);
    WarmLeast(cfg, fails, r, b);
    WarmFits(cfg, x, r, b, st.cache[b]);
    PrestagedIff(cfg, st, x, r, b, NO_FAULTS);
    FindLeast(cfg, st, r, b);
    if !Viable(st.cache[b], x, r, b) {
      if |x[0].shape| >= 2 && (x[0].shape[1] != cfg.single || Per(x, r) != cfg.multi) {
        SlowAtFresh(cfg, st, x, r, least);
      } else {
        SlowAtCaptured(cfg, st, x, r, b, NO_FAULTS);
        OtherDimensions(cfg, x, r, b, st.cache[b]);
      }
    }
  }

  /** The least bucket that holds the batch and did not fail is the least healthy one after warmup. */
  lemma WarmLeast(cfg: Config, fails: set<int>, r: nat, b: nat)
    requires cfg.Valid() && cfg.graphOn && cfg.single > 0 && cfg.multi > 0 && LeastHealthy(cfg.buckets, fails, r, b)
    ensures var st := Warmup(cfg, INIT_STATE, fails);
      LeastHealthy(Candidates(cfg, r), st.failed, r, b) && b in st.cache && IsWarm(cfg, b, st.cache[b])
  {
    var st := Warmup(cfg, INIT_STATE, fails);
    WarmupCaptures(cfg, fails, b);
    forall c | c in cfg.buckets && r <= c < b
      ensures c in st.failed
    {
      WarmupCaptures(cfg, fails, c);
    }
  }

  /** When a uniform batch fits a warm entry. */
  lemma WarmFits(cfg: Config, x: seq<Tensor>, r: nat, b: nat, e: seq<Tensor>)
    requires cfg.single > 0 && cfg.multi > 0 && Packed(x, r) && r <= b && EntryShaped(b, e) && IsWarm(cfg, b, e)
    ensures e[0].Stride() == cfg.single
    ensures Viable(e, x, r, b) <==> x[0].Stride() == cfg.single && Per(x, r) == cfg.multi
    ensures |e[1].data| == b * Per(x, r) <==> Per(x, r) == cfg.multi
  {
    assert e[0].shape[1..] == [cfg.single];
    OneDimension(cfg.single);
    ViableIff(e, x, r, b);
    if |e[1].data| == b * Per(x, r) {
      CancelMul(b, Per(x, r), cfg.multi);
    }
  }

  /** Rows of no or several dimensions do not copy into a warm entry. */
  lemma OtherDimensions(cfg: Config, x: seq<Tensor>, r: nat, b: nat, e: seq<Tensor>)
    requires Packed(x, r) && r <= b && EntryShaped(b, e) && IsWarm(cfg, b, e)
    requires |x[0].shape| == 1 || (x[0].shape[1] == cfg.single && x[0].Stride() != cfg.single)
    ensures CanFill(x, r, b) && |BucketInputs(x, r, b)| == 3
    ensures SlowKind(b, e, BucketInputs(x, r, b), 4) == SP.FailedSlow(b, 0)
  {
    BucketInputsOk(x, r, b);
    if b > r {
      PaddedShapes(x, r, b);
    }
    if |x[0].shape| == 2 {
      assert x[0].shape[1..] == [x[0].shape[1]];
      OneDimension(x[0].shape[1]);
    }
    CopiesByShape(b, e, BucketInputs(x, r, b), 4);
  }

  /** In particular a first batch at the configured widths is collected into the buffers of a warmed
      bucket and answered from there, without any capture. */
  lemma FirstBatchPrestaged(cfg: Config, m: Model, fails: set<int>, x: seq<Tensor>, r: nat, b: nat)
    requires cfg.Valid() && cfg.graphOn && cfg.single > 0 && cfg.multi > 0 && Packed(x, r)
    requires x[0].shape == [r, cfg.single] && |x[1].data| == r * cfg.multi
    requires LeastHealthy(cfg.buckets, fails, r, b)
    ensures var st := Warmup(cfg, INIT_STATE, fails);
      && Inv(cfg, st) && KindOf(cfg, st, x, r, NO_FAULTS) == SP.Prestaged(b)
      && var (st', out) := ProcessBatch(cfg, m, st, x, r, NO_FAULTS);
      && out == Some(Forward(m, x))
      && st'.hist.attempts == st.hist.attempts && st'.cache.Keys == st.cache.Keys && st'.failed == st.failed
      && st'.metrics.replays == multiset{b}
  {
    InitialInv(cfg, fails);
    var st := Warmup(cfg, INIT_STATE, fails);
    assert x[0].shape[1..] == [cfg.single];
    OneDimension(cfg.single);
    ExactQuotient(r, cfg.multi);
    WarmLeast(cfg, fails, r, b);
    WarmFits(cfg, x, r, b, st.cache[b]);
    FindLeast(cfg, st, r, b);
    PrestagedIff(cfg, st, x, r, b, NO_FAULTS);
    BatchRefinesEager(true, cfg, m, st, x, r, NO_FAULTS);
    PrestagedStep(cfg, m, st, x, r, NO_FAULTS);
    WarmupServesNothing(cfg, fails, |cfg.buckets|);
  }

  // ---- Traffic of one width ----

  lemma SpreadsEvenly(x: seq<Tensor>, r: nat, b: nat, row: seq<nat>, per: nat)
    requires Shaped(x, r) && OneWidth(x, r, row, per) && r <= b
    ensures CanFill(x, r, b)
  {
    ExactQuotient(r, per);
    MulMono(r, b, per);
  }

  /** How a batch of one width goes, from any state in which copies succeed: replayed at the least
      bucket that is healthy after it, or run eagerly because none is. */
  predicate ReplaysAtLeast(cfg: Config, kind: SP.Kind, total: nat, failed: set<int>) {
    if Replays(kind) then LeastHealthy(Candidates(cfg, total), failed, total, kind.b)
    else kind.Eagerly? && forall c :: c in Candidates(cfg, total) && total <= c ==> c in failed
  }

  lemma SlowSettles(cfg: Config, st: State, x: seq<Tensor>, r: nat, f: Faults)
    requires cfg.Valid() && Inv(cfg, st) && Shaped(x, r)
    ensures var (st1, pick) := Picked(cfg, st, x, r, f); Settles(Candidates(cfg, r), st1.failed, x, r, pick)
  {
    var counted := st.(prestaged := None, hist := st.hist.(calls := st.hist.calls + 1));
    CountingKeepsCore(cfg, st, counted);
    HealKeepsInv(cfg, counted, x, r);
    SelectSettles(cfg, Arrived(cfg, st, x, r), x, r, f.captureFails, 0);
  }

  lemma SlowReplays(cfg: Config, m: Model, st: State, x: seq<Tensor>, r: nat, f: Faults, row: seq<nat>, per: nat)
    requires cfg.Valid() && Inv(cfg, st) && Shaped(x, r) && OneWidth(x, r, row, per) && GoesSlow(cfg, st, x, r, f)
    requires !KindOf(cfg, st, x, r, f).FailedSlow?
    ensures ReplaysAtLeast(cfg, KindOf(cfg, st, x, r, f), r, ProcessBatch(cfg, m, st, x, r, f).0.failed)
  {
    SlowSettles(cfg, st, x, r, f);
    SlowFailed(cfg, m, st, x, r, f);
    var (st1, pick) := Picked(cfg, st, x, r, f);
    if pick.PadThrows? {
      var b: nat :| LeastHealthy(Candidates(cfg, r), st1.failed, r, b) && !CanFill(x, r, b);
      SpreadsEvenly(x, r, b, row, per);
    }
  }

  lemma PrestagedReplays(cfg: Config, m: Model, st: State, x: seq<Tensor>, r: nat, f: Faults)
    requires cfg.Valid() && Inv(cfg, st) && cfg.graphOn && Shaped(x, r) && Prestages(cfg, st, x, r)
    requires !f.abort && f.throwAt > 3
    ensures ReplaysAtLeast(cfg, KindOf(cfg, st, x, r, f), r, ProcessBatch(cfg, m, st, x, r, f).0.failed)
  {
    var b := FindReady(cfg, st, r).value;
    PrestagedStep(cfg, m, st, x, r, f);
    FoundIsLeast(cfg, st, r);
  }

  lemma {:induction false} FoundFromIsLeast(buckets: seq<int>, st: State, r: nat, i: nat)
    requires forall j, k :: 0 <= j < k < |buckets| ==> buckets[j] < buckets[k]
    requires i <= |buckets| && Skipped(buckets, st.failed, r, i)
    ensures var b := FindFrom(buckets, st, r, i); b.Some? ==> LeastHealthy(buckets, st.failed, r, b.value)
    decreases |buckets| - i
  {
    if i < |buckets| && (buckets[i] < r || buckets[i] in st.failed) {
      FoundFromIsLeast(buckets, st, r, i + 1);
    }
  }

  lemma FoundIsLeast(cfg: Config, st: State, r: nat)
    requires cfg.Valid() && Inv(cfg, st)
    ensures var b := FindReady(cfg, st, r);
      b.Some? ==> LeastHealthy(Candidates(cfg, r), st.failed, r, b.value)
  {
    if cfg.buckets != [] {
      FoundFromIsLeast(cfg.buckets, st, r, 0);
    }
  }

  /** Traffic of one width whose rows have one dimension never falls back because of a shape, whatever
      the warmup widths were and which captures fail: as long as nothing throws in a replay, every
      batch is replayed, prestaged or not, at the least bucket that holds it and is not known bad
      after it, and run eagerly only if there is none. */
  lemma OneWidthReplays(
    cfg: Config, m: Model, fails: set<int>, evs: seq<Event>, width: nat, per: nat, i: nat)
    requires cfg.Valid() && cfg.graphOn && Batches(evs) && Steady(evs, [width], per) && i < |evs|
    requires |evs[i].x| == 3 && !evs[i].faults.abort
    ensures |RunKinds(cfg, m, fails, evs)| == |evs|
    ensures ReplaysAtLeast(cfg, RunKinds(cfg, m, fails, evs)[i], evs[i].total,
                           Run(cfg, m, fails, evs[..i + 1]).0.failed)
  {
    InitialInv(cfg, fails);
    WarmupUnchecked(cfg, fails);
    var st := Warmup(cfg, INIT_STATE, fails);
    SteadyRun(true, cfg, m, st, evs, [width], per);
    var e, st1 := evs[i], RunFrom(cfg, m, st, evs[..i]).0;
    assert evs[..i + 1][..i] == evs[..i];
    RunStep(cfg, m, st, evs[..i + 1]);
    assert RunKinds(cfg, m, fails, evs)[i] == KindOf(cfg, st1, e.x, e.total, e.faults);
    if Prestages(cfg, st1, e.x, e.total) {
      PrestagedReplays(cfg, m, st1, e.x, e.total, e.faults);
    } else {
      SlowReplays(cfg, m, st1, e.x, e.total, e.faults, [width], per);
    }
  }
}
