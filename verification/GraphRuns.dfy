/** What every run of the CUDA-graph path keeps, over any sequence of batches, failures, warmup,
    eviction and prestaging. The state machine does all device work in the order the host issues
    it; DeviceRuns says for which runs the device may be taken to do the same. */
module GraphRuns {
  import opened Basics
  import opened Tensors
  import opened Padding
  import opened GraphSpec

  // ---- Invariants ----

  /** Warmup captures are at the configured widths. */
  predicate AtConfiguredWidths(cfg: Config, b: nat, e: seq<Tensor>) {
    && cfg.single > 0 && cfg.multi > 0 && |e| == 3
    && e[0].shape == [b, cfg.single] && e[1].shape == [b * cfg.multi]
  }

  /** No bucket is both captured and known bad; every entry has its bucket's shapes; before the
      width check only warmup captures exist; the prestaged pointer never dangles. */
  ghost predicate CacheInv(cfg: Config, st: State) {
    && st.cache.Keys !! st.failed
    && EntriesShaped(st)
    && (!st.widthsChecked ==> forall b :: b in st.cache ==> AtConfiguredWidths(cfg, b, st.cache[b]))
    && (st.prestaged.Some? ==> st.prestaged.value in st.cache)
  }

  function Known(st: State, b: int): nat {
    if b in st.cache || b in st.failed then 1 else 0
  }

  /** The captures tried for b: each succeeded or was counted as a failure, and there was at most
      one per life of the cache. A bucket known bad failed, a captured one succeeded; without
      eviction these are all. */
  predicate Tried(st: State, b: int) {
    var tries, failures := st.hist.attempts[b], st.metrics.captureFailures[b];
    && tries == st.hist.captured[b] + failures
    && tries <= st.hist.evictions + Known(st, b)
    && (b in st.failed ==> failures >= 1)
    && (b in st.cache ==> failures < tries)
    && (st.hist.evictions == 0 ==> tries == Known(st, b))
  }

  /** Every bucket tried accounts for its captures, and the cache is emptied at most once. */
  ghost predicate AttemptInv(cfg: Config, st: State) {
    && st.hist.evictions <= (if st.widthsChecked then 1 else 0)
    && (forall b :: Tried(st, b))
    && (cfg.buckets != [] ==> forall b :: b in st.hist.attempts ==> b in cfg.buckets)
  }

  predicate RowsBalance(st: State, b: int) {
    b * st.metrics.replays[b] == st.hist.served[b] + st.metrics.padWaste[b]
  }

  /** What holds at every point inside a batch as well: replayed rows split into real and
      padded ones. */
  ghost predicate CoreInv(cfg: Config, st: State) {
    CacheInv(cfg, st) && AttemptInv(cfg, st) && forall b :: RowsBalance(st, b)
  }

  /** A call that produced outputs counted one replay and no fallback, one that fell back counted
      one fallback and no replay, and one that threw counted neither. */
  predicate CountedOnce(st: State, st': State, out: Outcome) {
    && |st'.metrics.replays| == |st.metrics.replays| + (if out.Replayed? then 1 else 0)
    && st'.metrics.eager == st.metrics.eager + (if out.FellBack? then 1 else 0)
    && st'.hist.thrown == st.hist.thrown + (if out.Threw? then 1 else 0)
  }

  /** Every graph call so far has been counted as one replay or one fallback, unless it threw;
      `pending` calls have not ended. */
  predicate CallsCounted(st: State, pending: nat) {
    |st.metrics.replays| + st.metrics.eager + st.hist.thrown + pending == st.hist.calls
  }

  ghost predicate Inv(cfg: Config, st: State) {
    CoreInv(cfg, st) && CallsCounted(st, 0)
  }

  // ---- Captures ----

  lemma BucketInputsOk(x: seq<Tensor>, r: nat, b: nat)
    requires Packed(x, r) && r <= b
    ensures CanFill(x, r, b) && EntryOk(b, BucketInputs(x, r, b)) && Covers(BucketInputs(x, r, b), x, r)
  {
    PackedPads(x, r, b);
    BucketInputsShaped(x, r, b);
    if b == r {
      Ends32Prefix(r, r, Per(x, r));
    } else {
      PaddedShapes(x, r, b);
      PaddedBatch(x, r, b);
    }
  }

  lemma WarmupInputsOk(cfg: Config, b: nat)
    requires cfg.single > 0 && cfg.multi > 0
    ensures EntryOk(b, WarmupInputs(b, cfg.single, cfg.multi))
    ensures AtConfiguredWidths(cfg, b, WarmupInputs(b, cfg.single, cfg.multi))
  {
    var s := WarmupInputs(b, cfg.single, cfg.multi);
    assert s[0].shape[1..] == [cfg.single];
    OneDimension(cfg.single);
    assert s[1].shape[1..] == [] && s[2].shape[1..] == [];
    if b > 0 {
      ExactQuotient(b, cfg.multi);
    }
  }

  lemma OneDimension(n: nat)
    ensures Product([n]) == n
  {}

  /** Capturing an unknown bucket keeps the invariants. */
  lemma CaptureKeepsInv(cfg: Config, st: State, x: seq<Tensor>, b: int, ok: bool)
    requires CoreInv(cfg, st) && EntryShaped(b, x) && Known(st, b) == 0
    requires !st.widthsChecked ==> AtConfiguredWidths(cfg, b, x)
    requires cfg.buckets != [] ==> b in cfg.buckets
    ensures CoreInv(cfg, Capture(st, x, b, ok))
    ensures Known(Capture(st, x, b, ok), b) == 1
  {
    var st' := Capture(st, x, b, ok);
    forall c
      ensures Tried(st', c)
    {
      assert Tried(st, c);
    }
    forall c
      ensures RowsBalance(st', c)
    {
      assert RowsBalance(st, c);
    }
  }

  /** Warmup leaves an invariant state whose entries are all at the configured widths, with the
      end positions of those widths. */
  lemma {:induction false} WarmupKeepsInv(cfg: Config, fails: set<int>, n: nat)
    requires cfg.Valid() && cfg.Warms() && n <= |cfg.buckets|
    ensures var st := WarmupUpTo(cfg, INIT_STATE, fails, n);
      && Inv(cfg, st) && EntriesRight(true, st) && !st.widthsChecked && st.hist.calls == 0
      && forall i :: n <= i < |cfg.buckets| ==> Known(st, cfg.buckets[i]) == 0
  {
    if n > 0 {
      WarmupKeepsInv(cfg, fails, n - 1);
      var st, b := WarmupUpTo(cfg, INIT_STATE, fails, n - 1), cfg.buckets[n - 1];
      if b >= 0 {
        WarmupInputsOk(cfg, b);
        CaptureKeepsInv(cfg, st, WarmupInputs(b, cfg.single, cfg.multi), b, b !in fails);
      }
    }
  }

  lemma InitialInv(cfg: Config, fails: set<int>)
    requires cfg.Valid()
    ensures Inv(cfg, Warmup(cfg, INIT_STATE, fails)) && EntriesRight(true, Warmup(cfg, INIT_STATE, fails))
  {
    if cfg.Warms() {
      WarmupKeepsInv(cfg, fails, |cfg.buckets|);
    }
  }

  // ---- Bucket selection ----

  /** b is the least candidate that holds r requests and is not known bad. */
  predicate LeastHealthy(buckets: seq<int>, failed: set<int>, r: nat, b: int) {
    && b in buckets && r <= b && b !in failed
    && forall c :: c in buckets && r <= c < b ==> c in failed
  }

  /** Selecting and capturing count neither replays nor fallbacks. */
  lemma {:induction false} SelectCountsNothing(
    buckets: seq<int>, st: State, x: seq<Tensor>, r: nat, fails: set<int>, i: nat)
    requires Shaped(x, r) && i <= |buckets|
    ensures var st' := SelectFrom(buckets, st, x, r, fails, i).0;
      && st'.widthsChecked == st.widthsChecked && st'.metrics.replays == st.metrics.replays
      && st'.metrics.padWaste == st.metrics.padWaste && st'.hist.served == st.hist.served
      && st'.metrics.eager == st.metrics.eager && st'.hist.calls == st.hist.calls && st'.hist.thrown == st.hist.thrown
    decreases |buckets| - i
  {
    if i < |buckets| {
      var b := buckets[i];
      if b < r || b in st.failed {
        SelectCountsNothing(buckets, st, x, r, fails, i + 1);
      } else if CanFill(x, r, b) && b !in st.cache && b in fails {
        SelectCountsNothing(buckets, Capture(st, BucketInputs(x, r, b), b, false), x, r, fails, i + 1);
      }
    }
  }

  /** The candidates before i are too small or known bad. */
  predicate Skipped(buckets: seq<int>, failed: set<int>, r: nat, i: nat)
    requires i <= |buckets|
  {
    forall j :: 0 <= j < i ==> buckets[j] < r || buckets[j] in failed
  }

  /** The pick is the least bucket that is healthy by now, or none because every large enough
      bucket is known bad; padding throws when the batch does not fit the least healthy one. */
  ghost predicate Settles(buckets: seq<int>, failed: set<int>, x: seq<Tensor>, r: nat, pick: Pick)
    requires |x| >= 2 && r >= 1
  {
    match pick
    case At(b) => LeastHealthy(buckets, failed, r, b)
    case NoBucket => forall c :: c in buckets && r <= c ==> c in failed
    case PadThrows => exists b: nat :: LeastHealthy(buckets, failed, r, b) && !CanFill(x, r, b)
  }

  /** What the slow path has to go on with from candidate i. */
  ghost predicate Choosing(cfg: Config, st: State, r: nat, i: nat) {
    CoreInv(cfg, st) && st.widthsChecked && i <= |Candidates(cfg, r)| && Skipped(Candidates(cfg, r), st.failed, r, i)
  }

  lemma NothingLeft(cfg: Config, st: State, x: seq<Tensor>, r: nat)
    requires Shaped(x, r) && Choosing(cfg, st, r, |Candidates(cfg, r)|)
    ensures CoreInv(cfg, st) && Settles(Candidates(cfg, r), st.failed, x, r, NoBucket)
  {}

  /** Candidate i cannot be used. */
  lemma ChoosesOn(cfg: Config, st: State, x: seq<Tensor>, r: nat, fails: set<int>, i: nat) returns (st': State)
    requires Choosing(cfg, st, r, i) && Shaped(x, r) && i < |Candidates(cfg, r)|
    requires var b := Candidates(cfg, r)[i];
      b < r || b in st.failed || (CanFill(x, r, b) && b !in st.cache && b in fails)
    ensures Choosing(cfg, st', r, i + 1)
    ensures SelectFrom(Candidates(cfg, r), st, x, r, fails, i)
            == SelectFrom(Candidates(cfg, r), st', x, r, fails, i + 1)
  {
    var b := Candidates(cfg, r)[i];
    st' := st;
    if b >= r && b !in st.failed {
      st' := TryCapture(cfg, st, x, r, b, false);
    }
  }

  /** Candidate i is used. */
  lemma Chooses(cfg: Config, st: State, x: seq<Tensor>, r: nat, fails: set<int>, i: nat)
    requires cfg.Valid() && Choosing(cfg, st, r, i) && Shaped(x, r) && i < |Candidates(cfg, r)|
    requires var b := Candidates(cfg, r)[i];
      r <= b && b !in st.failed && (CanFill(x, r, b) ==> b in st.cache || b !in fails)
    ensures var (st', pick) := SelectFrom(Candidates(cfg, r), st, x, r, fails, i);
      CoreInv(cfg, st') && Settles(Candidates(cfg, r), st'.failed, x, r, pick)
  {
    var b := Candidates(cfg, r)[i];
    SkippedLeast(cfg, st.failed, r, i);
    if CanFill(x, r, b) && b !in st.cache {
      var st' := TryCapture(cfg, st, x, r, b, true);
    }
  }

  /** The slow path settles on the least bucket that is healthy once it is done, captured by then,
      on none because every large enough bucket failed, or throws at that bucket. */
  lemma {:induction false} SelectSettles(
    cfg: Config, st: State, x: seq<Tensor>, r: nat, fails: set<int>, i: nat)
    requires cfg.Valid() && Shaped(x, r) && Choosing(cfg, st, r, i)
    ensures var (st', pick) := SelectFrom(Candidates(cfg, r), st, x, r, fails, i);
      CoreInv(cfg, st') && Settles(Candidates(cfg, r), st'.failed, x, r, pick)
    decreases |Candidates(cfg, r)| - i
  {
    if i == |Candidates(cfg, r)| {
      NothingLeft(cfg, st, x, r);
    } else {
      var b := Candidates(cfg, r)[i];
      if b < r || b in st.failed || (CanFill(x, r, b) && b !in st.cache && b in fails) {
        var st' := ChoosesOn(cfg, st, x, r, fails, i);
        SelectSettles(cfg, st', x, r, fails, i + 1);
      } else {
        Chooses(cfg, st, x, r, fails, i);
      }
    }
  }

  /** Capturing an untried candidate. */
  lemma TryCapture(cfg: Config, st: State, x: seq<Tensor>, r: nat, b: nat, ok: bool) returns (st': State)
    requires Shaped(x, r) && CoreInv(cfg, st) && st.widthsChecked
    requires b in Candidates(cfg, r) && CanFill(x, r, b) && b !in st.cache && b !in st.failed
    ensures st' == Capture(st, BucketInputs(x, r, b), b, ok)
    ensures CoreInv(cfg, st') && st'.widthsChecked && st'.failed == if ok then st.failed else st.failed + {b}
  {
    BucketInputsShaped(x, r, b);
    CaptureKeepsInv(cfg, st, BucketInputs(x, r, b), b, ok);
    st' := Capture(st, BucketInputs(x, r, b), b, ok);
  }

  /** Captures of uniform batches are right, and padding them never throws. */
  lemma {:induction false} SelectKeepsRight(
    strict: bool, buckets: seq<int>, st: State, x: seq<Tensor>, r: nat, fails: set<int>, i: nat)
    requires EntriesRight(strict, st) && Packed(x, r) && i <= |buckets|
    ensures var (st', pick) := SelectFrom(buckets, st, x, r, fails, i); EntriesRight(strict, st') && !pick.PadThrows?
    decreases |buckets| - i
  {
    if i < |buckets| {
      var b := buckets[i];
      if b < r || b in st.failed {
        SelectKeepsRight(strict, buckets, st, x, r, fails, i + 1);
      } else {
        BucketInputsOk(x, r, b);
        if b !in st.cache && b in fails {
          SelectKeepsRight(strict, buckets, Capture(st, BucketInputs(x, r, b), b, false), x, r, fails, i + 1);
        }
      }
    }
  }

  lemma SkippedLeast(cfg: Config, failed: set<int>, r: nat, i: nat)
    requires cfg.Valid() && i < |Candidates(cfg, r)| && Skipped(Candidates(cfg, r), failed, r, i)
    requires r <= Candidates(cfg, r)[i] && Candidates(cfg, r)[i] !in failed
    ensures LeastHealthy(Candidates(cfg, r), failed, r, Candidates(cfg, r)[i])
  {}

  lemma {:induction false} FindFromAgrees(
    buckets: seq<int>, st: State, x: seq<Tensor>, r: nat, fails: set<int>, i: nat, b: int)
    requires Shaped(x, r) && i <= |buckets|
    ensures FindFrom(buckets, st, r, i) == Some(b) && CanFill(x, r, b) <==>
            SelectFrom(buckets, st, x, r, fails, i) == (st, At(b))
    decreases |buckets| - i
  {
    if i < |buckets| {
      var c := buckets[i];
      if c < r || c in st.failed {
        FindFromAgrees(buckets, st, x, r, fails, i + 1, b);
      } else if CanFill(x, r, c) && c !in st.cache {
        var st' := Capture(st, BucketInputs(x, r, c), c, c !in fails);
        if c in fails {
          SelectOnlyAdds(buckets, st', x, r, fails, i + 1, c);
        }
        assert SelectFrom(buckets, st, x, r, fails, i).0.hist.attempts[c] > st.hist.attempts[c];
      }
    }
  }

  lemma {:induction false} SelectOnlyAdds(
    buckets: seq<int>, st: State, x: seq<Tensor>, r: nat, fails: set<int>, i: nat, c: int)
    requires Shaped(x, r) && i <= |buckets|
    ensures st.hist.attempts[c] <= SelectFrom(buckets, st, x, r, fails, i).0.hist.attempts[c]
    decreases |buckets| - i
  {
    if i < |buckets| {
      var b := buckets[i];
      if b < r || b in st.failed {
        SelectOnlyAdds(buckets, st, x, r, fails, i + 1, c);
      } else if CanFill(x, r, b) && b !in st.cache && b in fails {
        SelectOnlyAdds(buckets, Capture(st, BucketInputs(x, r, b), b, false), x, r, fails, i + 1, c);
      }
    }
  }

  /** The prestaging lookup finds a bucket b that the batch can be padded to exactly when the slow
      path would pick b without touching the state, as long as the cache and the negative cache
      are disjoint. In the exact-size mode this is where disjointness is needed: the lookup never
      consults the negative cache. */
  lemma FindReadyIff(cfg: Config, st: State, x: seq<Tensor>, r: nat, fails: set<int>, b: int)
    requires cfg.graphOn && Shaped(x, r) && st.cache.Keys !! st.failed
    ensures FindReady(cfg, st, r) == Some(b) && CanFill(x, r, b) <==>
            Select(cfg, st, x, r, fails) == (st, At(b))
  {
    FindFromAgrees(Candidates(cfg, r), st, x, r, fails, 0, b);
    if cfg.buckets == [] {
      assert FindFrom([r], st, r, 1) == None;
    }
  }

  // ---- The width check and the prestaged pointer ----

  lemma HealKeepsInv(cfg: Config, st: State, x: seq<Tensor>, r: nat)
    requires CoreInv(cfg, st) && |x| == 3
    ensures CoreInv(cfg, Heal(cfg, st, x, r)) && Heal(cfg, st, x, r).widthsChecked
  {
    var st' := Heal(cfg, st, x, r);
    forall b
      ensures Tried(st', b)
    {
      assert Tried(st, b);
    }
    forall b
      ensures RowsBalance(st', b)
    {
      assert RowsBalance(st, b);
    }
  }

  /** A prestaged batch never triggers the eviction: the views it hands on have the widths of
      the entry it was staged into, and before the check those are the configured ones. */
  lemma PrestagedNeverEvicts(cfg: Config, st: State, x: seq<Tensor>, total: nat)
    requires CoreInv(cfg, st) && Batch(x, total)
    ensures var (st', seen) := SetInputs(st, x, total);
      st'.prestaged.Some? ==>
        && |seen| == 3 && MinRows(seen) == total
        && Heal(cfg, st', seen, total) == st'.(widthsChecked := true)
  {
    if SetInputs(st, x, total).0.prestaged.None? {
      return;
    }
    var b := st.prestaged.value;
    var e := st.cache[b];
    PrestagedBatch(e, x, total, b);
    ViableWidths(e, x, total, b);
    SeenBatch(st, x, total);
    var seen := SetInputs(st, x, total).1;
    BatchRows(seen, total);
    if !st.widthsChecked {
      assert AtConfiguredWidths(cfg, b, e);
      FlatLength(e[1], b * cfg.multi);
      ExactQuotient(b, cfg.multi);
      ExactQuotient(total, Per(x, total));
      assert seen[0].shape[1] == e[0].shape[1];
    }
  }

  // ---- Copies and replays ----

  lemma {:induction false} CopiedAlike(e: seq<Tensor>, src: seq<Tensor>, throwAt: nat, i: nat, j: nat)
    requires i <= |src| && i <= |e| && i <= j < CopyCount(e, src, throwAt, i)
    ensures e[j].shape == src[j].shape
    decreases |src| - i
  {
    if j != i {
      CopiedAlike(e, src, throwAt, i + 1, j);
    }
  }

  /** A copy pass that stops anywhere leaves the shapes alone. */
  lemma CopiedShapes(b: int, e: seq<Tensor>, src: seq<Tensor>, throwAt: nat)
    requires EntryShaped(b, e) && EntryShaped(b, src)
    ensures var e' := CopiedIn(e, src, CopyCount(e, src, throwAt, 0));
      && EntryShaped(b, e') && Width(b, e') == Width(b, e)
      && forall i :: 0 <= i < 3 ==> e'[i].shape == e[i].shape && |e'[i].data| == |e[i].data|
  {
    var n := CopyCount(e, src, throwAt, 0);
    forall j | 0 <= j < n
      ensures e[j].shape == src[j].shape
    {
      CopiedAlike(e, src, throwAt, 0, j);
    }
  }

  /** An entry survives a copy pass that stops anywhere: by the time [2] is copied, [1] has
      been, so the widths agree and [2] receives what it should hold. */
  lemma PartialCopyKeepsEntry(strict: bool, b: int, e: seq<Tensor>, src: seq<Tensor>, throwAt: nat)
    requires EntryRight(strict, b, e) && EntryOk(b, src)
    ensures var e' := CopiedIn(e, src, CopyCount(e, src, throwAt, 0));
      EntryRight(strict, b, e') && (EntryOk(b, e) ==> e'[2] == e[2])
  {
    CopiedShapes(b, e, src, throwAt);
  }

  /** Copying [2] before [1] would not do: inputs of another width have a [2] of the same
      shape, and once it is copied in the entry is no longer consistent. */
  lemma CopyOrderMatters(b: nat, e: seq<Tensor>, src: seq<Tensor>)
    requires b >= 1 && EntryOk(b, e) && EntryOk(b, src)
    requires Width(b, e) != Width(b, src) && Width(b, e) < INT32_LIMIT && Width(b, src) < INT32_LIMIT
    ensures e[2].shape == src[2].shape && e[1].shape != src[1].shape
    ensures !EntryOk(b, [e[0], e[1], src[2]])
  {
    if e[1].shape == src[1].shape {
      CancelMul(b, Width(b, e), Width(b, src));
    }
    assert Width(b, [e[0], e[1], src[2]]) == Width(b, e);
    assert Ends32(b, Width(b, e))[0] != Ends32(b, Width(b, src))[0];
  }

  /** How far the copies get is decided by the shapes and the first copy that throws: a batch of
      another per-request width, with [0] shaped as captured, fails after exactly one copy. */
  lemma CopiesByShape(b: int, e: seq<Tensor>, src: seq<Tensor>, throwAt: nat)
    requires EntryShaped(b, e) && EntryShaped(b, src)
    ensures var fitting := if e[0].shape != src[0].shape then 0 else if e[1].shape != src[1].shape then 1 else 3;
      CopyCount(e, src, throwAt, 0) == if throwAt < fitting then throwAt else fitting
  {
    var t := throwAt;
    assert CopyCount(e, src, t, 0) == if t == 0 || e[0].shape != src[0].shape then 0 else CopyCount(e, src, t, 1);
    assert CopyCount(e, src, t, 1) == if t == 1 || e[1].shape != src[1].shape then 1 else CopyCount(e, src, t, 2);
    assert CopyCount(e, src, t, 2) == if t == 2 then 2 else CopyCount(e, src, t, 3);
    assert CopyCount(e, src, t, 3) == 3;
  }

  /** Overwriting one entry with contents of the same shapes keeps the invariants. */
  lemma RefillKeepsCache(cfg: Config, st: State, b: int, e: seq<Tensor>)
    requires CacheInv(cfg, st) && b in st.cache && EntryShaped(b, e)
    requires forall i :: 0 <= i < 3 ==> e[i].shape == st.cache[b][i].shape
    ensures CacheInv(cfg, st.(cache := st.cache[b := e]))
  {
    assert st.cache[b := e].Keys == st.cache.Keys;
  }

  lemma RefillKeepsCore(cfg: Config, st: State, b: int, e: seq<Tensor>)
    requires CoreInv(cfg, st) && b in st.cache && EntryShaped(b, e)
    requires forall i :: 0 <= i < 3 ==> e[i].shape == st.cache[b][i].shape
    ensures CoreInv(cfg, st.(cache := st.cache[b := e]))
  {
    var st' := st.(cache := st.cache[b := e]);
    RefillKeepsCache(cfg, st, b, e);
    forall c
      ensures Tried(st', c) && RowsBalance(st', c)
    {
      assert Tried(st, c) && RowsBalance(st, c);
    }
  }

  lemma ServedBalance(st: State, b: int, r: nat, c: int)
    requires RowsBalance(st, c) && r <= b
    ensures RowsBalance(Served(st, b, r), c)
  {
    var n := st.metrics.replays[c];
    assert c * (n + 1) == c * n + c;
  }

  lemma ServedKeepsCore(cfg: Config, st: State, b: int, r: nat)
    requires CoreInv(cfg, st) && r <= b
    ensures CoreInv(cfg, Served(st, b, r))
    ensures |Served(st, b, r).metrics.replays| == |st.metrics.replays| + 1
  {
    var st' := Served(st, b, r);
    forall c
      ensures Tried(st', c)
    {
      assert Tried(st, c);
    }
    forall c
      ensures RowsBalance(st', c)
    {
      ServedBalance(st, b, r, c);
    }
  }

  /** The entry a replay reads. */
  function Refilled(e: seq<Tensor>, src: Option<seq<Tensor>>, throwAt: nat): seq<Tensor> {
    if src.Some? then CopiedIn(e, src.value, CopyCount(e, src.value, throwAt, 0)) else e
  }

  /** A replay touches one entry of the cache. */
  lemma ReplayCache(m: Model, st: State, b: int, r: nat, src: Option<seq<Tensor>>, throwAt: nat)
    requires b in st.cache
    ensures Replay(m, st, b, r, src, throwAt).0.cache == st.cache[b := Refilled(st.cache[b], src, throwAt)]
  {}

  /** What a replay counts, once it has copied. */
  lemma ReplayEnds(m: Model, st: State, b: int, r: nat, src: Option<seq<Tensor>>, throwAt: nat)
    requires b in st.cache
    ensures var st1 := st.(cache := st.cache[b := Refilled(st.cache[b], src, throwAt)]);
      var (st', out) := Replay(m, st, b, r, src, throwAt);
      st' == if out.Some? then Served(st1, b, r) else EagerFallback(st1)
  {
    assert src.None? ==> st.cache[b := st.cache[b]] == st.cache;
  }

  /** A replay, with or without copies, completed or failed, counts once and keeps the rest. */
  lemma ReplayKeepsInv(cfg: Config, m: Model, st: State, b: int, r: nat, src: Option<seq<Tensor>>, throwAt: nat)
    requires CoreInv(cfg, st) && b in st.cache && r <= b
    requires CallsCounted(st, 1)
    requires src.Some? ==> EntryShaped(b, src.value)
    ensures var (st', out) := Replay(m, st, b, r, src, throwAt);
      && Inv(cfg, st') && CountedOnce(st, st', OutcomeOf(out))
      && st'.prestaged == st.prestaged && st'.hist.calls == st.hist.calls
  {
    if src.Some? {
      CopiedShapes(b, st.cache[b], src.value, throwAt);
    }
    var e := Refilled(st.cache[b], src, throwAt);
    RefillKeepsCore(cfg, st, b, e);
    var st1 := st.(cache := st.cache[b := e]);
    CountingKeepsCore(cfg, st1, EagerFallback(st1));
    ServedKeepsCore(cfg, st1, b, r);
    ReplayEnds(m, st, b, r, src, throwAt);
  }

  /** A replay of a uniform batch leaves the entries right. */
  lemma ReplayKeepsRight(
    strict: bool, m: Model, st: State, b: int, r: nat, src: Option<seq<Tensor>>, throwAt: nat)
    requires EntriesRight(strict, st) && b in st.cache
    requires src.Some? ==> EntryOk(b, src.value)
    ensures EntriesRight(strict, Replay(m, st, b, r, src, throwAt).0)
  {
    if src.Some? {
      PartialCopyKeepsEntry(strict, b, st.cache[b], src.value, throwAt);
    }
    ReplayCache(m, st, b, r, src, throwAt);
  }

  /** The outputs of a completed replay. */
  lemma ReplayOutputs(m: Model, st: State, b: int, r: nat, src: Option<seq<Tensor>>, x: seq<Tensor>, throwAt: nat)
    requires b in st.cache && |st.cache[b]| == 3 && Packed(x, r)
    requires src.Some? ==> Covers(src.value, x, r)
    requires src.None? ==> Covers(st.cache[b], x, r)
    ensures var out := Replay(m, st, b, r, src, throwAt).1;
      out.Some? ==> out.value == Forward(m, x)
  {
    var e := Refilled(st.cache[b], src, throwAt);
    if Replay(m, st, b, r, src, throwAt).1.Some? {
      assert src.Some? ==> e == src.value;
      PackedIsRagged(x, r);
      CoveredForward(m, e, x, r);
    }
  }

  /** What SetInputTensors promises of a prestaged batch: three tensors, at most the bucket's
      requests, and widths at which the width check does nothing. */
  predicate Handed(cfg: Config, st: State, x: seq<Tensor>) {
    st.prestaged.Some? ==>
      && |x| == 3 && MinRows(x) <= st.prestaged.value
      && Heal(cfg, st, x, MinRows(x)) == st.(widthsChecked := true)
  }

  /** How a graph call ends that has counted itself. */
  ghost predicate Ended(cfg: Config, st: State, end: (State, Outcome)) {
    && Inv(cfg, end.0) && CountedOnce(st, end.0, end.1)
    && end.0.prestaged.None? && end.0.hist.calls == st.hist.calls
  }

  /** One graph call on any batch: the invariants hold again and one counter has moved, unless
      padding threw. */
  lemma ExecuteKeepsInv(cfg: Config, m: Model, st: State, x: seq<Tensor>, f: Faults)
    requires cfg.Valid() && Inv(cfg, st) && (|x| == 3 ==> Shaped(x, MinRows(x))) && Handed(cfg, st, x)
    ensures var (st', out) := ExecuteGraph(cfg, m, st, x, f);
      && Inv(cfg, st') && CountedOnce(st, st', out)
      && st'.prestaged.None? && st'.hist.calls == st.hist.calls + 1
  {
    var st1 := st.(hist := st.hist.(calls := st.hist.calls + 1));
    CountingKeepsCore(cfg, st, st1);
    if |x| != 3 {
      CountingKeepsCore(cfg, st1, EagerFallback(st1));
    } else {
      HealedKeepsInv(cfg, m, st1, x, f);
    }
  }

  lemma HealedKeepsInv(cfg: Config, m: Model, st: State, x: seq<Tensor>, f: Faults)
    requires cfg.Valid() && CoreInv(cfg, st) && CallsCounted(st, 1)
    requires |x| == 3 && Shaped(x, MinRows(x)) && Handed(cfg, st, x)
    ensures var st' := Heal(cfg, st, x, MinRows(x));
      && (st'.prestaged.Some? ==> st'.prestaged.value in st'.cache)
      && Ended(cfg, st, Dispatch(cfg, m, st', x, MinRows(x), f))
  {
    HealKeepsInv(cfg, st, x, MinRows(x));
    DispatchKeepsInv(cfg, m, Heal(cfg, st, x, MinRows(x)), x, f);
  }

  lemma DispatchKeepsInv(cfg: Config, m: Model, st: State, x: seq<Tensor>, f: Faults)
    requires cfg.Valid() && CoreInv(cfg, st) && CallsCounted(st, 1) && st.widthsChecked
    requires |x| == 3 && Shaped(x, MinRows(x)) && (st.prestaged.Some? ==> MinRows(x) <= st.prestaged.value)
    ensures Ended(cfg, st, Dispatch(cfg, m, st, x, MinRows(x), f))
  {
    match st.prestaged {
      case Some(b) =>
        var st1 := st.(prestaged := None);
        CountingKeepsCore(cfg, st, st1);
        ReplayKeepsInv(cfg, m, st1, b, MinRows(x), None, f.throwAt);
      case None =>
        SlowPathKeepsInv(cfg, m, st, x, MinRows(x), f);
    }
  }

  lemma SlowPathKeepsInv(cfg: Config, m: Model, st: State, x: seq<Tensor>, r: nat, f: Faults)
    requires cfg.Valid() && CoreInv(cfg, st) && st.widthsChecked && st.prestaged.None? && Shaped(x, r)
    requires CallsCounted(st, 1)
    ensures Ended(cfg, st, SlowPath(cfg, m, st, x, r, f))
  {
    SelectSettles(cfg, st, x, r, f.captureFails, 0);
    SelectCountsNothing(Candidates(cfg, r), st, x, r, f.captureFails, 0);
    var (st1, pick) := Select(cfg, st, x, r, f.captureFails);
    match pick {
      case At(b) =>
        BucketInputsShaped(x, r, b);
        ReplayKeepsInv(cfg, m, st1, b, r, Some(BucketInputs(x, r, b)), f.throwAt);
      case NoBucket =>
        CountingKeepsCore(cfg, st1, EagerFallback(st1));
      case PadThrows =>
        CountingKeepsCore(cfg, st1, Thrown(st1));
    }
  }

  /** One graph call on a uniform batch: the entries stay right and outputs, when there are any,
      are the eager ones, whichever path produced them. */
  lemma ExecuteRefinesEager(strict: bool, cfg: Config, m: Model, st: State, x: seq<Tensor>, f: Faults)
    requires EntriesRight(strict, st) && (|x| == 3 ==> Packed(x, MinRows(x))) && Handed(cfg, st, x)
    requires st.prestaged.Some? ==>
      st.prestaged.value in st.cache && Covers(st.cache[st.prestaged.value], x, MinRows(x))
    ensures var (st', out) := ExecuteGraph(cfg, m, st, x, f);
      EntriesRight(strict, st') && !out.Threw? && (out.Replayed? ==> out.out == Forward(m, x))
  {
    if |x| == 3 {
      var r := MinRows(x);
      var st2 := Heal(cfg, st.(hist := st.hist.(calls := st.hist.calls + 1)), x, r);
      match st2.prestaged {
        case Some(b) =>
          var st3 := st2.(prestaged := None);
          assert EntryShaped(b, st3.cache[b]);
          ReplayKeepsRight(strict, m, st3, b, r, None, f.throwAt);
          ReplayOutputs(m, st3, b, r, None, x, f.throwAt);
        case None =>
          SlowPathRefinesEager(strict, cfg, m, st2, x, r, f);
      }
    }
  }

  lemma SlowPathRefinesEager(
    strict: bool, cfg: Config, m: Model, st: State, x: seq<Tensor>, r: nat, f: Faults)
    requires EntriesRight(strict, st) && Packed(x, r)
    ensures var (st', out) := SlowPath(cfg, m, st, x, r, f);
      EntriesRight(strict, st') && !out.Threw? && (out.Replayed? ==> out.out == Forward(m, x))
  {
    SelectKeepsRight(strict, Candidates(cfg, r), st, x, r, f.captureFails, 0);
    var (st1, pick) := Select(cfg, st, x, r, f.captureFails);
    if pick.At? {
      var b, src := pick.bucket, BucketInputs(x, r, pick.bucket);
      BucketInputsOk(x, r, b);
      assert EntryShaped(b, st1.cache[b]);
      ReplayKeepsRight(strict, m, st1, b, r, Some(src), f.throwAt);
      ReplayOutputs(m, st1, b, r, Some(src), x, f.throwAt);
    }
  }

  /** Counting calls and fallbacks, and dropping the pointer, touch nothing CoreInv speaks of. */
  lemma CountingKeepsCore(cfg: Config, st: State, st': State)
    requires CoreInv(cfg, st)
    requires st'.cache == st.cache && st'.failed == st.failed && st'.widthsChecked == st.widthsChecked
    requires st'.prestaged == st.prestaged || st'.prestaged == None
    requires st'.metrics.(eager := 0) == st.metrics.(eager := 0)
    requires st'.hist.(calls := 0, thrown := 0) == st.hist.(calls := 0, thrown := 0)
    ensures CoreInv(cfg, st')
  {
    forall b
      ensures Tried(st', b) && RowsBalance(st', b)
    {
      assert Tried(st, b) && RowsBalance(st, b);
    }
  }

  // ---- Whole batches ----

  datatype Event = Event(x: seq<Tensor>, total: nat, faults: Faults)

  /** Prestaging equals padding for a whole batch: whatever the buffers of a consistent entry
      held, all three end up with the contents the slow path would have copied in. */
  lemma PrestagingEqualsPadding(e: seq<Tensor>, x: seq<Tensor>, r: nat, b: nat)
    requires EntryOk(b, e) && Packed(x, r) && Viable(e, x, r, b)
    ensures CanFill(x, r, b) && |BucketInputs(x, r, b)| == 3
    ensures forall i :: 0 <= i < 3 ==> Prestage(e, x, r, b)[i].data == BucketInputs(x, r, b)[i].data
  {
    ViableWidths(e, x, r, b);
    PackedPads(x, r, b);
    FlatLength(e[1], b * Per(x, r));
    FlatLength(x[1], r * Per(x, r));
    ExactQuotient(r, Per(x, r));
    ExactQuotient(b, Per(x, r));
    StagingEqualsPadding(e[0], x[0], r, b);
    StagingEqualsPadding(e[1], x[1], r, b);
    if b == r {
      Ends32Prefix(r, r, Per(x, r));
    } else {
      PaddedShapes(x, r, b);
      var p := PadRequests(x, r, b).value;
      assert Some(p[0]) == PadOne(x, 0, r, b) && Some(p[1]) == PadOne(x, 1, r, b);
    }
  }

  /** Batches with the same contents, however shaped, have the same eager outputs. */
  lemma SameContentsSameForward(m: Model, x: seq<Tensor>, y: seq<Tensor>)
    requires |x| == 3 && |y| == 3 && x[0].Rows() == y[0].Rows() && x[0].Stride() == y[0].Stride()
    requires forall i :: 0 <= i < 3 ==> x[i].data == y[i].data
    ensures Forward(m, x) == Forward(m, y)
  {
    forall k | 0 <= k < m.outputs
      ensures ForwardOutput(m, k, x) == ForwardOutput(m, k, y)
    {
      forall i | 0 <= i < x[0].Rows()
        ensures ForwardRow(m, k, x, i) == ForwardRow(m, k, y, i)
      {}
    }
  }

  /** `SetInputTensors` on any batch keeps the invariants and hands on a batch of the same size. */
  lemma SetInputsKeepsInv(cfg: Config, st: State, x: seq<Tensor>, total: nat)
    requires Inv(cfg, st) && Batch(x, total)
    ensures var (st', seen) := SetInputs(st, x, total);
      && Inv(cfg, st') && Batch(seen, total) && |seen| == |x| && Handed(cfg, st', seen)
      && st'.hist == st.hist && st'.metrics == st.metrics
  {
    var (st', seen) := SetInputs(st, x, total);
    SeenBatch(st, x, total);
    PrestagedNeverEvicts(cfg, st, x, total);
    match st.prestaged
    case None =>
    case Some(b) =>
      if Viable(st.cache[b], x, total, b) {
        PrestagedBatch(st.cache[b], x, total, b);
        RefillKeepsCore(cfg, st, b, Prestage(st.cache[b], x, total, b));
      } else {
        CountingKeepsCore(cfg, st, st');
      }
  }

  /** On a uniform batch what it hands on is the batch itself, held by the buffers. */
  lemma SetInputsRefinesEager(strict: bool, m: Model, st: State, x: seq<Tensor>, total: nat)
    requires EntriesRight(strict, st) && UniformBatch(x, total)
    requires st.prestaged.Some? ==> st.prestaged.value in st.cache
    ensures st.prestaged.Some? ==> EntryShaped(st.prestaged.value, st.cache[st.prestaged.value])
    ensures var (st', seen) := SetInputs(st, x, total);
      && EntriesRight(strict, st') && UniformBatch(seen, total) && Forward(m, seen) == Forward(m, x)
      && (st'.prestaged.Some? ==>
            && |seen| == 3 && MinRows(seen) == total && st'.prestaged.value in st'.cache
            && Covers(st'.cache[st'.prestaged.value], seen, total))
  {
    match st.prestaged
    case None =>
    case Some(b) =>
      assert EntryRight(strict, b, st.cache[b]);
      if Viable(st.cache[b], x, total, b) {
        PrestagedRefinesEager(m, st.cache[b], x, total, b);
        var (st', seen) := SetInputs(st, x, total);
        BatchRows(seen, total);
        assert st'.cache == st.cache[b := Prestage(st.cache[b], x, total, b)];
      }
  }

  /** Staging a uniform batch into an entry that is right for it. */
  lemma PrestagedRefinesEager(m: Model, e: seq<Tensor>, x: seq<Tensor>, r: nat, b: nat)
    requires EntryRight(false, b, e) && Packed(x, r) && Viable(e, x, r, b)
    ensures EntryOk(b, e) && EntryOk(b, Prestage(e, x, r, b)) && Viewable(Prestage(e, x, r, b), r, b)
    ensures var seen := Views(Prestage(e, x, r, b), r, b);
      Packed(seen, r) && Forward(m, seen) == Forward(m, x) && Covers(Prestage(e, x, r, b), seen, r)
  {
    PrestagedBatch(e, x, r, b);
    ViableWidths(e, x, r, b);
    FlatLength(x[1], r * Per(x, r));
    Ends32Prefix(r, b, Per(x, r));
    var seen := Views(Prestage(e, x, r, b), r, b);
    assert seen[2].data == x[2].data;
    SameContentsSameForward(m, seen, x);
  }

  /** What a batch gets if it is run eagerly, on its own; nothing when it never reaches execution. */
  function EagerAnswer(m: Model, e: Event): Option<Outputs> {
    if e.faults.abort then None else Some(Forward(m, e.x))
  }

  function EagerAnswers(m: Model, evs: seq<Event>): seq<Option<Outputs>> {
    seq(|evs|, i requires 0 <= i < |evs| => EagerAnswer(m, evs[i]))
  }

  /** One batch, uniform or not: the invariants hold again. */
  lemma BatchKeepsInv(cfg: Config, m: Model, st: State, x: seq<Tensor>, total: nat, f: Faults)
    requires cfg.Valid() && Inv(cfg, st) && Batch(x, total)
    ensures var (st', out) := ProcessBatch(cfg, m, st, x, total, f);
      && Inv(cfg, st')
      && st'.hist.calls == st.hist.calls + (if cfg.graphOn && !f.abort then 1 else 0)
      && st'.hist.thrown == st.hist.thrown + (if cfg.graphOn && !f.abort && out.None? then 1 else 0)
  {
    var st0 := st.(prestaged := FindReady(cfg, st, total));
    FoundIsCached(cfg, st, total);
    PointingKeepsInv(cfg, st, st0);
    SetInputsKeepsInv(cfg, st0, x, total);
    var (st1, seen) := SetInputs(st0, x, total);
    BatchRows(seen, total);
    if !f.abort && cfg.graphOn {
      ExecuteKeepsInv(cfg, m, st1, seen, f);
    }
  }

  /** One uniform batch: the entries stay right, and unless the batch was aborted its outputs are
      those of the eager run on that batch alone. */
  lemma BatchRefinesEager(
    strict: bool, cfg: Config, m: Model, st: State, x: seq<Tensor>, total: nat, f: Faults)
    requires cfg.Valid() && Inv(cfg, st) && EntriesRight(strict, st) && UniformBatch(x, total)
    ensures var (st', out) := ProcessBatch(cfg, m, st, x, total, f);
      EntriesRight(strict, st') && out == EagerAnswer(m, Event(x, total, f))
  {
    var st0 := st.(prestaged := FindReady(cfg, st, total));
    FoundIsCached(cfg, st, total);
    PointingKeepsInv(cfg, st, st0);
    CollectedRefinesEager(strict, cfg, m, st0, x, total, f);
  }

  lemma CollectedRefinesEager(
    strict: bool, cfg: Config, m: Model, st: State, x: seq<Tensor>, total: nat, f: Faults)
    requires cfg.Valid() && Inv(cfg, st) && EntriesRight(strict, st) && UniformBatch(x, total)
    ensures var (st', out) := RunCollected(cfg, m, st, x, total, f);
      EntriesRight(strict, st') && out == EagerAnswer(m, Event(x, total, f))
  {
    SetInputsKeepsInv(cfg, st, x, total);
    SetInputsRefinesEager(strict, m, st, x, total);
    var (st1, seen) := SetInputs(st, x, total);
    BatchRows(seen, total);
    if !f.abort && cfg.graphOn {
      ExecuteRefinesEager(strict, cfg, m, st1, seen, f);
    }
  }

  lemma PointingKeepsInv(cfg: Config, st: State, st': State)
    requires Inv(cfg, st) && st' == st.(prestaged := st'.prestaged)
    requires st'.prestaged.Some? ==> st'.prestaged.value in st.cache
    ensures Inv(cfg, st')
  {
    forall b
      ensures Tried(st', b) && RowsBalance(st', b)
    {
      assert Tried(st, b) && RowsBalance(st, b);
    }
  }

  // ---- Whole runs ----

  predicate Batches(evs: seq<Event>) {
    forall i :: 0 <= i < |evs| ==> Batch(evs[i].x, evs[i].total)
  }

  predicate Traffic(evs: seq<Event>) {
    forall i :: 0 <= i < |evs| ==> UniformBatch(evs[i].x, evs[i].total)
  }

  /** All batches in order, uniform or not, from a given state. */
  ghost function RunFrom(cfg: Config, m: Model, st: State, evs: seq<Event>): (p: (State, seq<Option<Outputs>>))
    requires cfg.Valid() && Inv(cfg, st) && Batches(evs)
    ensures Inv(cfg, p.0) && |p.1| == |evs|
  {
    if evs == [] then (st, []) else
    var n := |evs| - 1;
    var (st1, outs) := RunFrom(cfg, m, st, evs[..n]);
    BatchKeepsInv(cfg, m, st1, evs[n].x, evs[n].total, evs[n].faults);
    var (st', out) := ProcessBatch(cfg, m, st1, evs[n].x, evs[n].total, evs[n].faults);
    (st', outs + [out])
  }

  /** All batches in order on the warmed-up instance. */
  ghost function Run(cfg: Config, m: Model, fails: set<int>, evs: seq<Event>): (p: (State, seq<Option<Outputs>>))
    requires cfg.Valid() && Batches(evs)
    ensures Inv(cfg, p.0) && |p.1| == |evs|
  {
    InitialInv(cfg, fails);
    RunFrom(cfg, m, Warmup(cfg, INIT_STATE, fails), evs)
  }

  /** The graph calls of a run that returned normally: those of the batches that got outputs. */
  function Returns(cfg: Config, outs: seq<Option<Outputs>>): nat {
    if outs == [] then 0 else
    Returns(cfg, outs[..|outs| - 1]) + (if cfg.graphOn && outs[|outs| - 1].Some? then 1 else 0)
  }

  /** The last batch of a run. */
  lemma RunStep(cfg: Config, m: Model, st: State, evs: seq<Event>)
    requires cfg.Valid() && Inv(cfg, st) && Batches(evs) && evs != []
    ensures var n := |evs| - 1; var e := evs[n];
      var p, p' := RunFrom(cfg, m, st, evs[..n]), RunFrom(cfg, m, st, evs);
      && p' == (ProcessBatch(cfg, m, p.0, e.x, e.total, e.faults).0,
                p.1 + [ProcessBatch(cfg, m, p.0, e.x, e.total, e.faults).1])
      && p'.0.hist.calls - p'.0.hist.thrown
         == p.0.hist.calls - p.0.hist.thrown + (if cfg.graphOn && p'.1[n].Some? then 1 else 0)
  {
    var n := |evs| - 1;
    BatchKeepsInv(cfg, m, RunFrom(cfg, m, st, evs[..n]).0, evs[n].x, evs[n].total, evs[n].faults);
  }

  /** From any state whose entries are right, uniform traffic gets the eager outputs. */
  lemma {:induction false} RunFromRefinesEager(strict: bool, cfg: Config, m: Model, st: State, evs: seq<Event>)
    requires cfg.Valid() && Inv(cfg, st) && EntriesRight(strict, st) && Traffic(evs)
    ensures RunFrom(cfg, m, st, evs).1 == EagerAnswers(m, evs)
    ensures EntriesRight(strict, RunFrom(cfg, m, st, evs).0)
  {
    if evs != [] {
      var n := |evs| - 1;
      RunFromRefinesEager(strict, cfg, m, st, evs[..n]);
      RunStep(cfg, m, st, evs);
      BatchRefinesEager(strict, cfg, m, RunFrom(cfg, m, st, evs[..n]).0, evs[n].x, evs[n].total, evs[n].faults);
      OneMoreAnswer(m, evs);
    }
  }

  /** Whole-run refinement: with uniform traffic, whatever fails and whichever paths are taken,
      every batch that reaches execution gets the eager outputs of that batch alone. */
  lemma RunRefinesEager(cfg: Config, m: Model, fails: set<int>, evs: seq<Event>)
    requires cfg.Valid() && Traffic(evs)
    ensures Run(cfg, m, fails, evs).1 == EagerAnswers(m, evs)
  {
    InitialInv(cfg, fails);
    RunFromRefinesEager(true, cfg, m, Warmup(cfg, INIT_STATE, fails), evs);
  }

  lemma OneMoreAnswer(m: Model, evs: seq<Event>)
    requires evs != []
    ensures EagerAnswers(m, evs) == EagerAnswers(m, evs[..|evs| - 1]) + [EagerAnswer(m, evs[|evs| - 1])]
  {}

  /** The history counts exactly the graph calls of the run. */
  lemma {:induction false} RunReturns(cfg: Config, m: Model, st: State, evs: seq<Event>)
    requires cfg.Valid() && Inv(cfg, st) && Batches(evs)
    ensures var p := RunFrom(cfg, m, st, evs);
      p.0.hist.calls - p.0.hist.thrown == st.hist.calls - st.hist.thrown + Returns(cfg, p.1)
  {
    if evs != [] {
      var n := |evs| - 1;
      RunReturns(cfg, m, st, evs[..n]);
      RunStep(cfg, m, st, evs);
      assert RunFrom(cfg, m, st, evs).1[..n] == RunFrom(cfg, m, st, evs[..n]).1;
    }
  }

  lemma WarmupCalls(cfg: Config, fails: set<int>)
    requires cfg.Valid()
    ensures var h := Warmup(cfg, INIT_STATE, fails).hist; h.calls == 0 && h.thrown == 0
  {
    if cfg.Warms() {
      WarmupKeepsInv(cfg, fails, |cfg.buckets|);
    }
  }

  /** In every state reachable with uniform traffic each entry's [2] holds the end positions of
      its own width; whatever the traffic, no bucket is both captured and known bad, and the
      prestaged pointer does not dangle. */
  lemma ReachableEntries(cfg: Config, m: Model, fails: set<int>, evs: seq<Event>, b: int)
    requires cfg.Valid() && Batches(evs)
    ensures var st := Run(cfg, m, fails, evs).0;
      && (b in st.cache ==> b !in st.failed && EntryShaped(b, st.cache[b]))
      && (b in st.cache && Traffic(evs) ==> st.cache[b][2].data == Ends32(b, Width(b, st.cache[b])))
      && (st.prestaged == Some(b) ==> b in st.cache)
  {
    if Traffic(evs) {
      InitialInv(cfg, fails);
      RunFromRefinesEager(true, cfg, m, Warmup(cfg, INIT_STATE, fails), evs);
    }
  }

  /** A multiset over `buckets` with at most k copies of each has at most k * |buckets| elements. */
  lemma {:induction false} BoundedCount(s: multiset<int>, buckets: seq<int>, k: nat)
    requires forall b :: b in s ==> b in buckets
    requires forall b :: s[b] <= k
    ensures |s| <= k * |buckets|
    decreases |buckets|
  {
    if buckets == [] {
      assert forall b :: b !in s;
      assert |s| == 0;
    } else {
      var n := |buckets| - 1;
      var b := buckets[n];
      var rest := WithoutLast(s, buckets, b);
      BoundedCount(rest, buckets[..n], k);
      assert |buckets[..n]| == n && s[b] <= k;
      assert k * (n + 1) == k * n + k;
    }
  }

  lemma WithoutLast(s: multiset<int>, buckets: seq<int>, b: int) returns (rest: multiset<int>)
    requires buckets != [] && b == buckets[|buckets| - 1] && forall b :: b in s ==> b in buckets
    ensures |s| == |rest| + s[b]
    ensures forall b :: rest[b] <= s[b]
    ensures forall b :: b in rest ==> b in buckets[..|buckets| - 1]
  {
    rest := s[b := 0];
  }

  lemma AttemptsBounded(cfg: Config, st: State)
    requires AttemptInv(cfg, st)
    ensures forall b :: st.hist.attempts[b] <= st.hist.evictions + 1
    ensures cfg.buckets != [] ==> |st.hist.attempts| <= (st.hist.evictions + 1) * |cfg.buckets|
  {
    forall b
      ensures st.hist.attempts[b] <= st.hist.evictions + 1
    {
      assert Tried(st, b);
    }
    if cfg.buckets != [] {
      BoundedCount(st.hist.attempts, cfg.buckets, st.hist.evictions + 1);
    }
  }

  /** No retry storm: in a run of any length, each bucket is captured at most twice, at most once
      per life of the cache, and the cache is emptied at most once. With an allowlist that bounds
      the attempts altogether. */
  lemma NoRetryStorm(cfg: Config, m: Model, fails: set<int>, evs: seq<Event>)
    requires cfg.Valid() && Batches(evs)
    ensures var h := Run(cfg, m, fails, evs).0.hist;
      && h.evictions <= 1
      && (forall b :: h.attempts[b] <= h.evictions + 1)
      && (cfg.buckets != [] ==> |h.attempts| <= 2 * |cfg.buckets|)
      && (cfg.buckets != [] && h.evictions == 0 ==> |h.attempts| <= |cfg.buckets|)
  {
    AttemptsBounded(cfg, Run(cfg, m, fails, evs).0);
  }

  /** Metric conservation: over any run, replays and fallbacks add up to the graph calls that
      returned normally; for each bucket the rows replayed are the rows served plus the rows
      wasted, and the capture attempts are the captures plus the counted failures. */
  lemma MetricsConserved(cfg: Config, m: Model, fails: set<int>, evs: seq<Event>, b: int)
    requires cfg.Valid() && Batches(evs)
    ensures var (st, outs) := Run(cfg, m, fails, evs);
      && |st.metrics.replays| + st.metrics.eager == Returns(cfg, outs)
      && b * st.metrics.replays[b] == st.hist.served[b] + st.metrics.padWaste[b]
      && st.hist.attempts[b] == st.hist.captured[b] + st.metrics.captureFailures[b]
  {
    InitialInv(cfg, fails);
    WarmupCalls(cfg, fails);
    RunReturns(cfg, m, Warmup(cfg, INIT_STATE, fails), evs);
    var st := Run(cfg, m, fails, evs).0;
    assert RowsBalance(st, b) && Tried(st, b);
  }
}
