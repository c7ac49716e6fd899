/** What the graph path does with batches whose requests differ in width. Uniform traffic is an
    assumption of the code; these are its exact consequences, from any state a run can reach. */
module RaggedTraffic {
  import opened Basics
  import opened Tensors
  import opened Padding
  import opened GraphSpec
  import opened GraphRuns

  /** A batch as the server builds it: the requests differ in width, and their end positions
      account for all of [1]. */
  predicate Complete(x: seq<Tensor>, r: nat) {
    Shaped(x, r) && Ragged(x, r) && EndAt(x[2].data, r - 1) == |x[1].data|
  }

  // ---- How one batch runs ----

  /** The batch is collected into the buffers of a captured entry. */
  predicate Prestages(cfg: Config, st: State, x: seq<Tensor>, r: nat) {
    match FindReady(cfg, st, r)
    case Some(b) => b in st.cache && Viable(st.cache[b], x, r, b)
    case None => false
  }

  /** The state in which a batch that is not prestaged selects its bucket. */
  function Arrived(cfg: Config, st: State, x: seq<Tensor>, r: nat): State
    requires |x| == 3
  {
    Heal(cfg, st.(prestaged := None, hist := st.hist.(calls := st.hist.calls + 1)), x, r)
  }

  function Picked(cfg: Config, st: State, x: seq<Tensor>, r: nat, f: Faults): (p: (State, Pick))
    requires Shaped(x, r)
    ensures p.1.At? ==> p.1.bucket in p.0.cache && r <= p.1.bucket && CanFill(x, r, p.1.bucket)
  {
    Select(cfg, Arrived(cfg, st, x, r), x, r, f.captureFails)
  }

  /** The batch takes the slow path. */
  predicate GoesSlow(cfg: Config, st: State, x: seq<Tensor>, r: nat, f: Faults) {
    cfg.graphOn && !f.abort && !Prestages(cfg, st, x, r)
  }

  lemma SlowStep(cfg: Config, m: Model, st: State, x: seq<Tensor>, r: nat, f: Faults)
    requires EntriesShaped(st) && Shaped(x, r) && GoesSlow(cfg, st, x, r, f)
    ensures var (st1, pick) := Picked(cfg, st, x, r, f);
      ProcessBatch(cfg, m, st, x, r, f) ==
      match pick
      case NoBucket => (EagerFallback(st1), Some(Forward(m, x)))
      case PadThrows => (Thrown(st1), None)
      case At(b) =>
        var (st2, out) := Replay(m, st1, b, r, Some(BucketInputs(x, r, b)), f.throwAt);
        (st2, Some(if out.Some? then out.value else Forward(m, x)))
  {
    FoundIsCached(cfg, st, r);
    BatchRows(x, r);
  }

  lemma PrestagedStep(cfg: Config, m: Model, st: State, x: seq<Tensor>, r: nat, f: Faults)
    requires cfg.Valid() && Inv(cfg, st) && Shaped(x, r) && Prestages(cfg, st, x, r) && cfg.graphOn
    ensures var b := FindReady(cfg, st, r).value; var e' := Prestage(st.cache[b], x, r, b);
      var (st', out) := ProcessBatch(cfg, m, st, x, r, f);
      && st'.cache == st.cache[b := e'] && Viewable(e', r, b)
      && (var counted := if f.abort then st else if f.throwAt <= 3 then EagerFallback(st) else Served(st, b, r);
          st'.metrics == counted.metrics && st'.hist.served == counted.hist.served)
      && st'.failed == st.failed && st'.hist.attempts == st.hist.attempts
      && out == if f.abort then None
                else Some(if f.throwAt <= 3 then Forward(m, Views(e', r, b)) else FirstRows(Forward(m, e'), r))
  {
    var b := FindReady(cfg, st, r).value;
    var st0 := st.(prestaged := Some(b));
    PointingKeepsInv(cfg, st, st0);
    SetInputsKeepsInv(cfg, st0, x, r);
    PrestagedViewable(st.cache[b], x, r, b);
    var (st1, seen) := SetInputs(st0, x, r);
    SeenBatch(st0, x, r);
    BatchRows(seen, r);
    var counted := st1.(hist := st1.hist.(calls := st1.hist.calls + 1));
    assert Heal(cfg, counted, seen, r) == counted.(widthsChecked := true);
  }

  // ---- What one batch leaves behind ----

  /** The bucket whose [2] is written by this batch: the one it captures, or the one it copies
      all three tensors into. */
  function Overwritten(cfg: Config, st: State, x: seq<Tensor>, r: nat, f: Faults): (w: Option<int>)
    requires Shaped(x, r)
    ensures w.Some? ==> CanFill(x, r, w.value)
  {
    if !GoesSlow(cfg, st, x, r, f) then None else
    var cache := Arrived(cfg, st, x, r).cache;
    match Picked(cfg, st, x, r, f).1
    case NoBucket => None
    case PadThrows => None
    case At(b) =>
      if b !in cache || CopyCount(cache[b], BucketInputs(x, r, b), f.throwAt, 0) == 3 then Some(b) else None
  }

  /** The entries the batch finds: those in the cache once the width check is done. */
  function Found(cfg: Config, st: State, x: seq<Tensor>, r: nat, f: Faults): map<int, seq<Tensor>>
    requires Shaped(x, r)
  {
    if GoesSlow(cfg, st, x, r, f) then Arrived(cfg, st, x, r).cache else st.cache
  }

  /** e' has the shapes and the end positions of e. */
  predicate SameEnds(b: int, e: seq<Tensor>, e': seq<Tensor>) {
    && EntryShaped(b, e) && EntryShaped(b, e') && e'[2] == e[2]
    && forall i :: 0 <= i < 3 ==> e'[i].shape == e[i].shape
  }

  /** What selecting a bucket adds to the cache: the batch at the picked bucket, if it is new. */
  lemma {:induction false} SelectAddsPick(
    buckets: seq<int>, st: State, x: seq<Tensor>, r: nat, fails: set<int>, i: nat)
    requires Shaped(x, r) && i <= |buckets|
    ensures var (st', pick) := SelectFrom(buckets, st, x, r, fails, i);
      st'.cache == if !pick.At? || pick.bucket in st.cache then st.cache
                   else st.cache[pick.bucket := BucketInputs(x, r, pick.bucket)]
    decreases |buckets| - i
  {
    if i < |buckets| {
      var b := buckets[i];
      if b < r || b in st.failed {
        SelectAddsPick(buckets, st, x, r, fails, i + 1);
      } else if CanFill(x, r, b) && b !in st.cache && b in fails {
        SelectAddsPick(buckets, Capture(st, BucketInputs(x, r, b), b, false), x, r, fails, i + 1);
      }
    }
  }

  /** The entries found keep their end positions, except that the overwritten one, if any, now
      holds the batch at that bucket. */
  predicate Leaves(found: map<int, seq<Tensor>>, w: Option<int>, x: seq<Tensor>, r: nat, cache: map<int, seq<Tensor>>)
    requires Shaped(x, r) && (w.Some? ==> CanFill(x, r, w.value))
  {
    && cache.Keys == found.Keys + (if w.Some? then {w.value} else {})
    && (w.Some? ==> cache[w.value] == BucketInputs(x, r, w.value))
    && forall b :: b in found && w != Some(b) ==> SameEnds(b, found[b], cache[b])
  }

  lemma BatchLeaves(cfg: Config, m: Model, st: State, x: seq<Tensor>, r: nat, f: Faults)
    requires cfg.Valid() && Inv(cfg, st) && Shaped(x, r)
    ensures Leaves(Found(cfg, st, x, r, f), Overwritten(cfg, st, x, r, f), x, r,
                   ProcessBatch(cfg, m, st, x, r, f).0.cache)
  {
    if GoesSlow(cfg, st, x, r, f) {
      SlowBatchLeaves(cfg, m, st, x, r, f);
    } else if Prestages(cfg, st, x, r) && cfg.graphOn {
      PrestagedStep(cfg, m, st, x, r, f);
      PrestagedBatch(st.cache[FindReady(cfg, st, r).value], x, r, FindReady(cfg, st, r).value);
    } else {
      FoundIsCached(cfg, st, r);
    }
  }

  /** The cache once bucket b was picked, captured if it is new, and copied into. */
  lemma PickedLeaves(found: map<int, seq<Tensor>>, x: seq<Tensor>, r: nat, b: nat, throwAt: nat)
    requires Shaped(x, r) && CanFill(x, r, b) && forall c :: c in found ==> EntryShaped(c, found[c])
    ensures var src := BucketInputs(x, r, b); EntryShaped(b, src)
    ensures var src := BucketInputs(x, r, b); var e := if b in found then found[b] else src;
      Leaves(found, if b !in found || CopyCount(e, src, throwAt, 0) == 3 then Some(b) else None, x, r,
             found[b := CopiedEntry(found, b, src, throwAt)])
  {
    var src := BucketInputs(x, r, b);
    BucketInputsShaped(x, r, b);
    SlowLeaves(b, if b in found then found[b] else src, src, throwAt);
  }

  /** An entry after the picked bucket, new or not, was copied into as far as that goes. */
  function CopiedEntry(found: map<int, seq<Tensor>>, b: int, src: seq<Tensor>, throwAt: nat): seq<Tensor> {
    Refilled(if b in found then found[b] else src, Some(src), throwAt)
  }

  lemma PickedCache(m: Model, st: State, x: seq<Tensor>, r: nat, f: Faults, buckets: seq<int>)
    requires Shaped(x, r) && SelectFrom(buckets, st, x, r, f.captureFails, 0).1.At?
    ensures var (st1, pick) := SelectFrom(buckets, st, x, r, f.captureFails, 0);
      var b, src := pick.bucket, BucketInputs(x, r, pick.bucket);
      Replay(m, st1, b, r, Some(src), f.throwAt).0.cache == st.cache[b := CopiedEntry(st.cache, b, src, f.throwAt)]
  {
    SelectAddsPick(buckets, st, x, r, f.captureFails, 0);
    var (st1, pick) := SelectFrom(buckets, st, x, r, f.captureFails, 0);
    ReplayCache(m, st1, pick.bucket, r, Some(BucketInputs(x, r, pick.bucket)), f.throwAt);
  }

  /** The cache after the slow path. */
  lemma SlowCache(cfg: Config, m: Model, st: State, x: seq<Tensor>, r: nat, f: Faults)
    requires EntriesShaped(st) && Shaped(x, r) && GoesSlow(cfg, st, x, r, f)
    ensures var found := Arrived(cfg, st, x, r).cache; var pick := Picked(cfg, st, x, r, f).1;
      ProcessBatch(cfg, m, st, x, r, f).0.cache ==
      if !pick.At? then found
      else found[pick.bucket := CopiedEntry(found, pick.bucket, BucketInputs(x, r, pick.bucket), f.throwAt)]
  {
    SlowStep(cfg, m, st, x, r, f);
    if Picked(cfg, st, x, r, f).1.At? {
      PickedCache(m, Arrived(cfg, st, x, r), x, r, f, Candidates(cfg, r));
    } else {
      SelectAddsPick(Candidates(cfg, r), Arrived(cfg, st, x, r), x, r, f.captureFails, 0);
    }
  }

  lemma SlowBatchLeaves(cfg: Config, m: Model, st: State, x: seq<Tensor>, r: nat, f: Faults)
    requires EntriesShaped(st) && Shaped(x, r) && GoesSlow(cfg, st, x, r, f)
    ensures Leaves(Arrived(cfg, st, x, r).cache, Overwritten(cfg, st, x, r, f), x, r,
                   ProcessBatch(cfg, m, st, x, r, f).0.cache)
  {
    SlowCache(cfg, m, st, x, r, f);
    var pick := Picked(cfg, st, x, r, f).1;
    if pick.At? {
      PickedLeaves(Arrived(cfg, st, x, r).cache, x, r, pick.bucket, f.throwAt);
    }
  }

  /** A copy pass either replaces the whole entry or leaves its end positions; copying an entry's
      own contents changes nothing. */
  lemma SlowLeaves(b: int, e: seq<Tensor>, src: seq<Tensor>, throwAt: nat)
    requires EntryShaped(b, e) && EntryShaped(b, src)
    ensures var e' := Refilled(e, Some(src), throwAt);
      && (CopyCount(e, src, throwAt, 0) == 3 || e == src ==> e' == src)
      && (CopyCount(e, src, throwAt, 0) != 3 ==> SameEnds(b, e, e'))
  {
    CopiedShapes(b, e, src, throwAt);
    EndsCopied(e, src, CopyCount(e, src, throwAt, 0));
  }

  lemma EndsCopied(e: seq<Tensor>, src: seq<Tensor>, n: nat)
    requires |e| == 3 == |src| && n <= 3
    ensures n == 3 || e == src ==> CopiedIn(e, src, n) == src
    ensures n != 3 ==> CopiedIn(e, src, n)[2] == e[2]
  {
    assert src == src[..n] + src[n..];
  }

  /** After a batch all entries are right exactly when those it found and did not overwrite were,
      and what it wrote is. A padded batch is always right; one that fills its bucket is when its
      end positions are those of equal requests. */
  lemma RightAfterIff(cfg: Config, m: Model, st: State, x: seq<Tensor>, r: nat, f: Faults)
    requires cfg.Valid() && Inv(cfg, st) && Shaped(x, r)
    ensures var found, w := Found(cfg, st, x, r, f), Overwritten(cfg, st, x, r, f);
      EntriesRight(false, ProcessBatch(cfg, m, st, x, r, f).0) <==>
      && (forall b :: b in found && w != Some(b) ==> EntryRight(false, b, found[b]))
      && (w == Some(r) && Reusable(r, x) ==> x[2].data == Ends32(r, Per(x, r)))
  {
    BatchLeaves(cfg, m, st, x, r, f);
    LeavesRightIff(Found(cfg, st, x, r, f), Overwritten(cfg, st, x, r, f), x, r, ProcessBatch(cfg, m, st, x, r, f).0);
  }

  lemma LeavesRightIff(found: map<int, seq<Tensor>>, w: Option<int>, x: seq<Tensor>, r: nat, st: State)
    requires Shaped(x, r) && (w.Some? ==> CanFill(x, r, w.value)) && Leaves(found, w, x, r, st.cache)
    ensures EntriesRight(false, st) <==>
      && (forall b :: b in found && w != Some(b) ==> EntryRight(false, b, found[b]))
      && (w == Some(r) && Reusable(r, x) ==> x[2].data == Ends32(r, Per(x, r)))
  {
    if w.Some? {
      WrittenRightIff(x, r, w.value);
    }
    forall b | b in found && w != Some(b)
      ensures b in st.cache && (EntryRight(false, b, found[b]) <==> EntryRight(false, b, st.cache[b]))
    {
      assert SameEnds(b, found[b], st.cache[b]);
    }
  }

  lemma WrittenRightIff(x: seq<Tensor>, r: nat, b: nat)
    requires Shaped(x, r) && CanFill(x, r, b)
    ensures EntryRight(false, b, BucketInputs(x, r, b)) <==>
            (b == r && Reusable(r, x) ==> x[2].data == Ends32(r, Per(x, r)))
  {
    BucketInputsShaped(x, r, b);
    if b > r {
      PaddedShapes(x, r, b);
    }
  }

  // ---- What follows ----

  /** Whatever uniform traffic follows and whatever fails, it is answered as by the eager run, for
      every model. */
  ghost predicate FutureRight(cfg: Config, st: State)
    requires cfg.Valid() && Inv(cfg, st)
  {
    forall m: Model, evs: seq<Event> :: Traffic(evs) ==> RunFrom(cfg, m, st, evs).1 == EagerAnswers(m, evs)
  }

  predicate EntryFits(b: int, e: seq<Tensor>) {
    EntryShaped(b, e) && b * Width(b, e) < INT32_LIMIT
  }

  /** The end positions of every entry fit the index type. */
  predicate FitsIndex(st: State) {
    forall b :: b in st.cache ==> EntryFits(b, st.cache[b])
  }

  /** If the width model reports the widths of a uniform batch from buffers e, no request of e
      was out of range and the end positions agree. */
  lemma {:induction false} SeenWidths(x: seq<Tensor>, e: seq<Tensor>, r: nat, b: nat, n: nat)
    requires Packed(x, r) && |e| == 3 && r <= b && n <= r && e[0].Rows() == b && |e[2].data| == b
    requires FirstRows(Forward(WidthModel(), e), r) == Forward(WidthModel(), x)
    ensures n > 0 ==> EndAt(e[2].data, n - 1) == EndAt(x[2].data, n - 1)
  {
    if n > 0 {
      var i := n - 1;
      SeenWidths(x, e, r, b, i);
      PackedWidth(x, r, i);
      assert FirstRows(Forward(WidthModel(), e), r)[0] == Forward(WidthModel(), x)[0];
      assert ForwardOutput(WidthModel(), 0, e)[..r][i] == ForwardOutput(WidthModel(), 0, x)[i];
      assert ForwardRow(WidthModel(), 0, e, i) == ForwardRow(WidthModel(), 0, x, i);
    }
  }

  /** Request i of a uniform batch lies in range and owns some elements. */
  lemma PackedWidth(x: seq<Tensor>, r: nat, i: nat)
    requires Packed(x, r) && i < r
    ensures RequestFits(x, i) && EndAt(x[2].data, i) > EndAt(x[2].data, i - 1)
  {
    PackedIsRagged(x, r);
    EndsAt(r, Per(x, r), i);
    EndsAt(r, Per(x, r), i - 1);
    OneMore(i, Per(x, r));
    assert RequestFits(x, i);
  }

  lemma OneMore(i: nat, per: nat)
    ensures (i + 1) * per == i * per + per
  {}

  /** The width model tells whether the end positions are the batch's. */
  lemma WidthModelTells(x: seq<Tensor>, e: seq<Tensor>, r: nat, b: nat)
    requires Packed(x, r) && |e| == 3 && r <= b && e[0].Rows() == b && |e[2].data| == b
    requires FirstRows(Forward(WidthModel(), e), r) == Forward(WidthModel(), x)
    ensures x[2].data <= e[2].data
  {
    FlatLength(x[2], r);
    forall i | 0 <= i < r
      ensures x[2].data[i] == e[2].data[i]
    {
      SeenWidths(x, e, r, b, i + 1);
    }
  }

  /** Prestaging a batch is right for every model exactly when the entry's [2] already begins
      with that batch's end positions. */
  lemma PrestagedRightIff(e: seq<Tensor>, x: seq<Tensor>, r: nat, b: nat)
    requires EntryShaped(b, e) && Packed(x, r) && Viable(e, x, r, b)
    ensures (forall m: Model :: FirstRows(Forward(m, Prestage(e, x, r, b)), r) == Forward(m, x))
            <==> x[2].data <= e[2].data
  {
    PrestagedBatch(e, x, r, b);
    PackedIsRagged(x, r);
    FlatLength(e[2], b);
    FlatLength(x[2], r);
    var e' := Prestage(e, x, r, b);
    if x[2].data <= e[2].data {
      forall m: Model
        ensures FirstRows(Forward(m, e'), r) == Forward(m, x)
      {
        CoveredForward(m, e', x, r);
      }
    }
    if forall m: Model :: FirstRows(Forward(m, e'), r) == Forward(m, x) {
      WidthModelTells(x, e', r, b);
    }
  }

  /** The uniform batch of zeros with the shapes of e. */
  function ZeroBatch(b: nat, e: seq<Tensor>): seq<Tensor>
    requires EntryShaped(b, e)
  {
    [Tensor(e[0].shape, Zeros(|e[0].data|)), Tensor(e[1].shape, Zeros(|e[1].data|)),
     Tensor([b], Ends(b, Width(b, e)))]
  }

  /** A uniform batch of an entry's own shapes can be prestaged there. */
  lemma ExactIsViable(b: nat, e: seq<Tensor>, x: seq<Tensor>)
    requires EntryShaped(b, e) && Reusable(b, e) && Packed(x, b)
    requires forall i :: 0 <= i < 3 ==> x[i].shape == e[i].shape
    ensures Viable(e, x, b, b) && Per(x, b) == Width(b, e)
  {
    var w := Width(b, e);
    FlatLength(e[1], b * w);
    FlatLength(x[1], b * w);
    ExactQuotient(b, w);
    ExactQuotient(b, e[0].Stride());
    ExactQuotient(b, 1);
    forall i | 0 <= i < b
      ensures EndAt(x[2].data, i) - EndAt(x[2].data, i - 1) == EndAt(x[2].data, 0)
    {
      EndsAt(b, w, i);
      EndsAt(b, w, i - 1);
      EndsAt(b, w, 0);
      OneMore(i, w);
    }
  }

  lemma ZeroBatchFills(b: nat, e: seq<Tensor>)
    requires EntryShaped(b, e) && Reusable(b, e) && b * Width(b, e) < INT32_LIMIT
    ensures Packed(ZeroBatch(b, e), b) && Viable(e, ZeroBatch(b, e), b, b)
  {
    var z, w := ZeroBatch(b, e), Width(b, e);
    FlatLength(e[1], b * w);
    FlatLength(e[2], b);
    ExactQuotient(b, w);
    assert z[2].shape[1..] == [];
    ExactIsViable(b, e, z);
  }

  /** A batch as large as a captured bucket is looked up there. */
  lemma {:induction false} FindExact(buckets: seq<int>, st: State, b: nat, i: nat)
    requires forall j, k :: 0 <= j < k < |buckets| ==> buckets[j] < buckets[k]
    requires i <= |buckets| && b in buckets[i..] && b in st.cache && b !in st.failed
    ensures FindFrom(buckets, st, b, i) == Some(b)
    decreases |buckets| - i
  {
    if buckets[i] != b {
      assert buckets[i..] == [buckets[i]] + buckets[i + 1..];
      var k :| i < k < |buckets| && buckets[k] == b;
      FindExact(buckets, st, b, i + 1);
    }
  }

  lemma CachedIsFound(cfg: Config, st: State, b: nat)
    requires cfg.Valid() && Inv(cfg, st) && cfg.graphOn && b in st.cache
    ensures FindReady(cfg, st, b) == Some(b)
  {
    assert Tried(st, b);
    if cfg.buckets != [] {
      assert cfg.buckets[0..] == cfg.buckets;
      FindExact(cfg.buckets, st, b, 0);
    }
  }

  /** An entry with wrong end positions answers a uniform batch wrongly. */
  lemma WrongEntryAnswersWrong(cfg: Config, st: State, b: nat)
    requires cfg.Valid() && Inv(cfg, st) && cfg.graphOn && FitsIndex(st)
    requires b in st.cache && Reusable(b, st.cache[b]) && !EntryOk(b, st.cache[b])
    ensures var z := ZeroBatch(b, st.cache[b]);
      && Packed(z, b)
      && ProcessBatch(cfg, WidthModel(), st, z, b, NO_FAULTS).1 != Some(Forward(WidthModel(), z))
  {
    var e := st.cache[b];
    var z := ZeroBatch(b, e);
    ZeroBatchFills(b, e);
    CachedIsFound(cfg, st, b);
    PrestagedStep(cfg, WidthModel(), st, z, b, NO_FAULTS);
    PrestagedBatch(e, z, b, b);
    var e' := Prestage(e, z, b, b);
    FlatLength(e[2], b);
    Ends32Prefix(b, b, Width(b, e));
    if FirstRows(Forward(WidthModel(), e'), b) == Forward(WidthModel(), z) {
      WidthModelTells(z, e', b, b);
    }
  }

  const NO_FAULTS := Faults({}, 4, false)

  /** In any reachable state, all uniform traffic that may follow is answered rightly for every
      model exactly when every entry a batch can be prestaged into has the end positions of its
      own width. */
  lemma FutureRightIff(cfg: Config, st: State)
    requires cfg.Valid() && Inv(cfg, st) && cfg.graphOn && FitsIndex(st)
    ensures FutureRight(cfg, st) <==> EntriesRight(false, st)
  {
    if EntriesRight(false, st) {
      forall m: Model, evs: seq<Event> | Traffic(evs)
        ensures RunFrom(cfg, m, st, evs).1 == EagerAnswers(m, evs)
      {
        RunFromRefinesEager(false, cfg, m, st, evs);
      }
    } else {
      var b :| b in st.cache && !EntryRight(false, b, st.cache[b]);
      WrongEntryAnswersWrong(cfg, st, b);
      var ev := Event(ZeroBatch(b, st.cache[b]), b, NO_FAULTS);
      RunStep(cfg, WidthModel(), st, [ev]);
      assert [ev][..0] == [];
      assert RunFrom(cfg, WidthModel(), st, [ev]).1[0] != EagerAnswers(WidthModel(), [ev])[0];
    }
  }

  /** From any reachable state with right entries, warmed up or not, and with any faults: after a
      batch of any widths all later uniform traffic is answered rightly, for every model, unless
      the batch filled its bucket exactly, wrote its own end positions there, by capture or by
      copy, and they are not those of equal requests although the elements of [1] could be shared
      out equally. If they could not, no batch is ever prestaged there. */
  lemma ExactFillIff(cfg: Config, m: Model, st: State, x: seq<Tensor>, r: nat, f: Faults)
    requires cfg.Valid() && Inv(cfg, st) && cfg.graphOn && EntriesRight(false, st) && Shaped(x, r)
    requires FitsIndex(st) && forall b :: b in Candidates(cfg, r) ==> b * Per(x, r) < INT32_LIMIT
    ensures Inv(cfg, ProcessBatch(cfg, m, st, x, r, f).0)
    ensures FutureRight(cfg, ProcessBatch(cfg, m, st, x, r, f).0) <==>
            !(Overwritten(cfg, st, x, r, f) == Some(r) && Reusable(r, x) && !UniformEnds(x, r))
  {
    var st' := ProcessBatch(cfg, m, st, x, r, f).0;
    BatchKeepsInv(cfg, m, st, x, r, f);
    StillFits(cfg, m, st, x, r, f);
    FutureRightIff(cfg, st');
    RightAfterIff(cfg, m, st, x, r, f);
    if Overwritten(cfg, st, x, r, f) == Some(r) {
      PickedIsCandidate(Candidates(cfg, r), Arrived(cfg, st, x, r), x, r, f.captureFails, 0);
      Ends32Prefix(r, r, Per(x, r));
    }
  }

  lemma {:induction false} PickedIsCandidate(
    buckets: seq<int>, st: State, x: seq<Tensor>, r: nat, fails: set<int>, i: nat)
    requires Shaped(x, r) && i <= |buckets|
    ensures var pick := SelectFrom(buckets, st, x, r, fails, i).1; pick.At? ==> pick.bucket in buckets
    decreases |buckets| - i
  {
    if i < |buckets| {
      var b := buckets[i];
      if b < r || b in st.failed {
        PickedIsCandidate(buckets, st, x, r, fails, i + 1);
      } else if CanFill(x, r, b) && b !in st.cache && b in fails {
        PickedIsCandidate(buckets, Capture(st, BucketInputs(x, r, b), b, false), x, r, fails, i + 1);
      }
    }
  }

  lemma SameWidth(b: int, e: seq<Tensor>, e': seq<Tensor>)
    requires SameEnds(b, e, e')
    ensures Width(b, e') == Width(b, e)
  {}

  lemma LeavesFits(found: map<int, seq<Tensor>>, w: Option<int>, x: seq<Tensor>, r: nat, cache: map<int, seq<Tensor>>)
    requires Shaped(x, r) && (w.Some? ==> CanFill(x, r, w.value) && w.value * Per(x, r) < INT32_LIMIT)
    requires Leaves(found, w, x, r, cache) && forall b :: b in found ==> EntryFits(b, found[b])
    ensures forall b :: b in cache ==> EntryFits(b, cache[b])
  {
    forall b | b in cache
      ensures EntryFits(b, cache[b])
    {
      if w == Some(b) {
        BucketInputsShaped(x, r, b);
      } else {
        SameWidth(b, found[b], cache[b]);
      }
    }
  }

  lemma StillFits(cfg: Config, m: Model, st: State, x: seq<Tensor>, r: nat, f: Faults)
    requires cfg.Valid() && Inv(cfg, st) && FitsIndex(st) && Shaped(x, r)
    requires forall b :: b in Candidates(cfg, r) ==> b * Per(x, r) < INT32_LIMIT
    ensures FitsIndex(ProcessBatch(cfg, m, st, x, r, f).0)
  {
    var w := Overwritten(cfg, st, x, r, f);
    BatchLeaves(cfg, m, st, x, r, f);
    if w.Some? {
      PickedIsCandidate(Candidates(cfg, r), Arrived(cfg, st, x, r), x, r, f.captureFails, 0);
    }
    LeavesFits(Found(cfg, st, x, r, f), w, x, r, ProcessBatch(cfg, m, st, x, r, f).0.cache);
  }

  /** In particular a batch of unequal requests that fills a captured bucket of its shapes, after
      the width check, is never prestaged and overwrites the end positions there. */
  lemma RaggedFillOverwrites(cfg: Config, st: State, x: seq<Tensor>, r: nat)
    requires cfg.Valid() && Inv(cfg, st) && cfg.graphOn && st.widthsChecked
    requires Complete(x, r) && !UniformEnds(x, r) && r in st.cache
    requires forall i :: 0 <= i < 3 ==> st.cache[r][i].shape == x[i].shape
    ensures Overwritten(cfg, st, x, r, NO_FAULTS) == Some(r)
  {
    CachedIsFound(cfg, st, r);
    if UniformCounts(x, r) {
      UniformCountsUniform(x, r);
    }
    var st0 := Arrived(cfg, st, x, r);
    FindIgnoresHistory(cfg, st, st0, r);
    FindReadyIff(cfg, st0, x, r, {}, r);
    var e := st.cache[r];
    assert CopyCount(e, x, 4, 3) == 3 && CopyCount(e, x, 4, 2) == 3 && CopyCount(e, x, 4, 1) == 3;
  }

  lemma {:induction false} FindFromIgnoresHistory(buckets: seq<int>, st: State, st': State, r: nat, i: nat)
    requires st'.cache == st.cache && st'.failed == st.failed && i <= |buckets|
    ensures FindFrom(buckets, st', r, i) == FindFrom(buckets, st, r, i)
    decreases |buckets| - i
  {
    if i < |buckets| {
      FindFromIgnoresHistory(buckets, st, st', r, i + 1);
    }
  }

  lemma FindIgnoresHistory(cfg: Config, st: State, st': State, r: nat)
    requires st'.cache == st.cache && st'.failed == st.failed
    ensures FindReady(cfg, st', r) == FindReady(cfg, st, r)
  {
    FindFromIgnoresHistory(cfg.buckets, st, st', r, 0);
  }

  /** Equal counts that account for all elements are the mean count. */
  lemma UniformCountsUniform(x: seq<Tensor>, r: nat)
    requires Complete(x, r) && UniformCounts(x, r)
    ensures UniformEnds(x, r)
  {
    var w := EndAt(x[2].data, 0);
    EqualCounts(x, r, r);
    ExactQuotient(r, w);
    FlatLength(x[2], r);
    forall i | 0 <= i < r
      ensures x[2].data[i] == Ends(r, Per(x, r))[i]
    {
      EqualCounts(x, r, i + 1);
    }
  }

  /** Equal end positions account for all elements. */
  lemma EqualLength(x: seq<Tensor>, r: nat)
    requires Complete(x, r) && UniformEnds(x, r)
    ensures |x[1].data| == r * Per(x, r)
  {
    EndsAt(r, Per(x, r), r - 1);
  }

  lemma {:induction false} EqualCounts(x: seq<Tensor>, r: nat, n: nat)
    requires Complete(x, r) && UniformCounts(x, r) && n <= r
    ensures EndAt(x[2].data, 0) >= 0 && EndAt(x[2].data, n - 1) == n * EndAt(x[2].data, 0)
  {
    assert RequestFits(x, 0);
    if n > 0 {
      EqualCounts(x, r, n - 1);
      OneMore(n - 1, EndAt(x[2].data, 0));
    }
  }

  // ---- What the batch itself gets ----

  /** A replay at a larger bucket completes. */
  predicate ReplaysPadded(cfg: Config, st: State, x: seq<Tensor>, r: nat, f: Faults)
    requires Shaped(x, r)
  {
    && GoesSlow(cfg, st, x, r, f)
    && match Picked(cfg, st, x, r, f) {
         case (st1, At(b)) =>
           b > r && f.throwAt > 3 && CopyCount(st1.cache[b], BucketInputs(x, r, b), f.throwAt, 0) == 3
         case _ => false
       }
  }

  /** Padding the batch to the first healthy larger bucket throws, and the whole batch is answered
      with an error. */
  predicate PaddingThrows(cfg: Config, st: State, x: seq<Tensor>, r: nat, f: Faults)
    requires Shaped(x, r)
  {
    GoesSlow(cfg, st, x, r, f) && Picked(cfg, st, x, r, f).1.PadThrows?
  }

  /** From any reachable state with right entries: a batch of any widths that reaches execution is
      answered rightly for every model unless padding it threw, or it was replayed padded and its
      requests are not equally wide. */
  lemma RaggedAnswerIff(cfg: Config, st: State, x: seq<Tensor>, r: nat, f: Faults)
    requires cfg.Valid() && Inv(cfg, st) && EntriesRight(false, st)
    requires Complete(x, r) && |x[1].data| < INT32_LIMIT && !f.abort
    ensures (forall m: Model :: ProcessBatch(cfg, m, st, x, r, f).1 == Some(Forward(m, x))) <==>
            !PaddingThrows(cfg, st, x, r, f) && (ReplaysPadded(cfg, st, x, r, f) ==> UniformEnds(x, r))
  {
    if PaddingThrows(cfg, st, x, r, f) {
      SlowStep(cfg, WidthModel(), st, x, r, f);
    } else if ReplaysPadded(cfg, st, x, r, f) {
      PaddedAnswers(cfg, st, x, r, f);
    } else {
      forall m: Model
        ensures ProcessBatch(cfg, m, st, x, r, f).1 == Some(Forward(m, x))
      {
        UnpaddedAnswers(cfg, m, st, x, r, f);
      }
    }
  }

  /** A completed replay has read the whole batch. */
  lemma CompletedCopies(m: Model, st: State, b: nat, r: nat, src: seq<Tensor>, throwAt: nat)
    requires b in st.cache && |st.cache[b]| == 3 && |src| == 3
    ensures var out := Replay(m, st, b, r, Some(src), throwAt).1;
      && (out.Some? <==> throwAt > 3 && CopyCount(st.cache[b], src, throwAt, 0) == 3)
      && (out.Some? ==> out.value == FirstRows(Forward(m, src), r))
  {
    var e := st.cache[b];
    assert CopiedIn(e, src, 3) == src;
  }

  lemma PaddedOutput(cfg: Config, m: Model, st: State, x: seq<Tensor>, r: nat, f: Faults)
    requires Inv(cfg, st) && Shaped(x, r) && ReplaysPadded(cfg, st, x, r, f)
    ensures var src := BucketInputs(x, r, Picked(cfg, st, x, r, f).1.bucket);
      ProcessBatch(cfg, m, st, x, r, f).1 == Some(FirstRows(Forward(m, src), r))
  {
    var (st1, pick) := Picked(cfg, st, x, r, f);
    SlowStep(cfg, m, st, x, r, f);
    SelectKeepsShapes(Candidates(cfg, r), Arrived(cfg, st, x, r), x, r, f.captureFails, 0);
    BucketInputsShaped(x, r, pick.bucket);
    assert EntryShaped(pick.bucket, st1.cache[pick.bucket]);
    CompletedCopies(m, st1, pick.bucket, r, BucketInputs(x, r, pick.bucket), f.throwAt);
  }

  lemma PaddedAnswers(cfg: Config, st: State, x: seq<Tensor>, r: nat, f: Faults)
    requires Inv(cfg, st) && Complete(x, r) && |x[1].data| < INT32_LIMIT && ReplaysPadded(cfg, st, x, r, f)
    ensures (forall m: Model :: ProcessBatch(cfg, m, st, x, r, f).1 == Some(Forward(m, x))) <==> UniformEnds(x, r)
  {
    var b := Picked(cfg, st, x, r, f).1.bucket;
    PaddedShapes(x, r, b);
    var p := PadRequests(x, r, b).value;
    RegeneratedEndsIff(x, r, b);
    forall m: Model
      ensures ProcessBatch(cfg, m, st, x, r, f).1 == Some(FirstRows(Forward(m, p), r))
    {
      PaddedOutput(cfg, m, st, x, r, f);
    }
    assert forall m: Model :: (ProcessBatch(cfg, m, st, x, r, f).1 == Some(Forward(m, x))
                               <==> FirstRows(Forward(m, p), r) == Forward(m, x));
  }

  lemma UnpaddedAnswers(cfg: Config, m: Model, st: State, x: seq<Tensor>, r: nat, f: Faults)
    requires cfg.Valid() && Inv(cfg, st) && EntriesRight(false, st) && Complete(x, r)
    requires |x[1].data| < INT32_LIMIT && !f.abort
    requires !PaddingThrows(cfg, st, x, r, f) && !ReplaysPadded(cfg, st, x, r, f)
    ensures ProcessBatch(cfg, m, st, x, r, f).1 == Some(Forward(m, x))
  {
    if GoesSlow(cfg, st, x, r, f) {
      SlowStep(cfg, m, st, x, r, f);
      var (st1, pick) := Picked(cfg, st, x, r, f);
      if pick.At? {
        SelectKeepsShapes(Candidates(cfg, r), Arrived(cfg, st, x, r), x, r, f.captureFails, 0);
        assert EntryShaped(pick.bucket, st1.cache[pick.bucket]);
        BucketInputsShaped(x, r, pick.bucket);
        CompletedCopies(m, st1, pick.bucket, r, BucketInputs(x, r, pick.bucket), f.throwAt);
        CoveredForward(m, x, x, r);
      }
    } else if Prestages(cfg, st, x, r) {
      UniformCountsUniform(x, r);
      EqualLength(x, r);
      BatchRefinesEager(false, cfg, m, st, x, r, f);
    } else {
      FoundIsCached(cfg, st, r);
    }
  }

  // ---- When padding throws ----

  /** The batch's own size is a bucket it can use as it is. */
  predicate UsesExact(buckets: seq<int>, st: State, r: nat, fails: set<int>) {
    r in buckets && r !in st.failed && (r in st.cache || r !in fails)
  }

  /** b is the least larger bucket that is not known bad. */
  predicate NextHealthy(buckets: seq<int>, failed: set<int>, r: nat, b: int) {
    && b in buckets && r < b && b !in failed
    && forall c :: c in buckets && r < c < b ==> c in failed
  }

  /** Once the batch fits one bucket it fits all larger ones. */
  lemma {:induction false} NeverThrows(
    buckets: seq<int>, st: State, x: seq<Tensor>, r: nat, fails: set<int>, i: nat)
    requires Shaped(x, r) && i <= |buckets|
    requires forall j :: i <= j < |buckets| && r <= buckets[j] ==> CanFill(x, r, buckets[j])
    ensures !SelectFrom(buckets, st, x, r, fails, i).1.PadThrows?
    decreases |buckets| - i
  {
    if i < |buckets| {
      var b := buckets[i];
      if b < r || b in st.failed {
        NeverThrows(buckets, st, x, r, fails, i + 1);
      } else if b !in st.cache && b in fails {
        NeverThrows(buckets, Capture(st, BucketInputs(x, r, b), b, false), x, r, fails, i + 1);
      }
    }
  }

  lemma LargerFit(x: seq<Tensor>, r: nat, b: nat, c: nat)
    requires Shaped(x, r) && r < b <= c && PadsTo(x, r, b)
    ensures CanFill(x, r, c)
  {
    MulMono(b, c, Per(x, r));
  }

  predicate Ascending(buckets: seq<int>) {
    forall j, k :: 0 <= j < k < |buckets| ==> buckets[j] < buckets[k]
  }

  /** The candidates above r: the first healthy one decides. */
  lemma ThrowsAbove(buckets: seq<int>, st: State, x: seq<Tensor>, r: nat, fails: set<int>, i: nat)
    requires Shaped(x, r) && i < |buckets| && Ascending(buckets) && NextHealthy(buckets, st.failed, r, buckets[i])
    ensures SelectFrom(buckets, st, x, r, fails, i).1.PadThrows? <==> !PadsTo(x, r, buckets[i])
  {
    if PadsTo(x, r, buckets[i]) {
      forall j | i <= j < |buckets|
        ensures CanFill(x, r, buckets[j])
      {
        LargerFit(x, r, buckets[i], buckets[j]);
      }
      NeverThrows(buckets, st, x, r, fails, i);
    }
  }

  /** From candidate i on, everything before being too small or known bad, or r itself. */
  lemma {:induction false} ThrowsFromIff(
    buckets: seq<int>, st: State, x: seq<Tensor>, r: nat, fails: set<int>, i: nat)
    requires Shaped(x, r) && i <= |buckets| && Ascending(buckets)
    requires forall j :: 0 <= j < i ==> buckets[j] < r || buckets[j] in st.failed
    ensures SelectFrom(buckets, st, x, r, fails, i).1.PadThrows? <==>
            && !UsesExact(buckets, st, r, fails)
            && exists b: nat :: NextHealthy(buckets, st.failed, r, b) && !PadsTo(x, r, b)
    decreases |buckets| - i
  {
    if i < |buckets| {
      var b := buckets[i];
      if b < r || b in st.failed {
        ThrowsFromIff(buckets, st, x, r, fails, i + 1);
      } else if b > r {
        assert NextHealthy(buckets, st.failed, r, b);
        ThrowsAbove(buckets, st, x, r, fails, i);
        assert forall c :: NextHealthy(buckets, st.failed, r, c) ==> c == b;
      } else if !UsesExact(buckets, st, r, fails) {
        var st' := Capture(st, x, r, false);
        ThrowsFromIff(buckets, st', x, r, fails, i + 1);
        assert forall c :: NextHealthy(buckets, st'.failed, r, c) <==> NextHealthy(buckets, st.failed, r, c);
      }
    }
  }

  /** Padding throws exactly when the batch cannot be used at its own size, and the next larger
      healthy bucket b has too few elements for it: n / r * b < n. */
  lemma PaddingThrowsIff(cfg: Config, st: State, x: seq<Tensor>, r: nat, f: Faults)
    requires cfg.Valid() && Shaped(x, r) && GoesSlow(cfg, st, x, r, f)
    ensures var st0 := Arrived(cfg, st, x, r);
      PaddingThrows(cfg, st, x, r, f) <==>
      && !UsesExact(Candidates(cfg, r), st0, r, f.captureFails)
      && exists b: nat :: NextHealthy(Candidates(cfg, r), st0.failed, r, b) && !PadsTo(x, r, b)
  {
    ThrowsFromIff(Candidates(cfg, r), Arrived(cfg, st, x, r), x, r, f.captureFails, 0);
  }

  /** What it does: nothing is counted, and all requests of the batch get an error. */
  lemma PaddingThrowsAnswers(cfg: Config, m: Model, st: State, x: seq<Tensor>, r: nat, f: Faults)
    requires EntriesShaped(st) && Shaped(x, r) && PaddingThrows(cfg, st, x, r, f)
    ensures var (st', out) := ProcessBatch(cfg, m, st, x, r, f);
      && out == None && st'.metrics.replays == st.metrics.replays && st'.metrics.eager == st.metrics.eager
  {
    SlowStep(cfg, m, st, x, r, f);
    SelectCountsNothing(Candidates(cfg, r), Arrived(cfg, st, x, r), x, r, f.captureFails, 0);
  }

  /** Three requests of widths 1, 1 and 3 at a bucket for four: 5 / 3 * 4 is less than 5. */
  lemma SmallestThrow(cfg: Config, m: Model)
    requires cfg == Config(true, [4], 0, 0)
    ensures var x := [Tensor([3, 1], [7, 8, 9]), Tensor([5], [1, 2, 3, 4, 5]), Tensor([3], [1, 2, 5])];
      && Complete(x, 3) && ProcessBatch(cfg, m, INIT_STATE, x, 3, NO_FAULTS).1 == None
  {
    var x := [Tensor([3, 1], [7, 8, 9]), Tensor([5], [1, 2, 3, 4, 5]), Tensor([3], [1, 2, 5])];
    OneDimension(1);
    assert [3, 1][1..] == [1] && [5][1..] == [] && [3][1..] == [];
    assert x[0].Valid() && x[1].Valid() && x[2].Valid();
    assert FindReady(cfg, INIT_STATE, 3) == None;
    assert NextHealthy([4], {}, 3, 4) && !PadsTo(x, 3, 4);
    PaddingThrowsIff(cfg, INIT_STATE, x, 3, NO_FAULTS);
    PaddingThrowsAnswers(cfg, m, INIT_STATE, x, 3, NO_FAULTS);
  }
}
