/** What the device's answers are. StreamProtocol says which batch each input was taken from; here
    those numbers are read as the tensors of a run of the state machine. */
module DeviceAnswers {
  import opened Basics
  import opened Tensors
  import opened Padding
  import opened GraphSpec
  import opened GraphRuns
  import opened RaggedTraffic
  import opened DeviceRuns
  import SP = StreamProtocol

  // ---- The end positions of the entries ----

  /** Number a at a static input of graph b stands for batch a brought to bucket b. */
  predicate Fits(evs: seq<Event>, a: int, b: int)
    requires Batches(evs)
  {
    0 <= a < |evs| && |evs[a].x| == 3 && CanFill(evs[a].x, evs[a].total, b)
  }

  function AtBucket(evs: seq<Event>, a: int, b: int): (e: seq<Tensor>)
    requires Batches(evs) && Fits(evs, a, b)
    ensures EntryShaped(b, e)
  {
    BucketInputsShaped(evs[a].x, evs[a].total, b);
    BucketInputs(evs[a].x, evs[a].total, b)
  }

  /** The entries a batch finds, whatever its layout. */
  function FoundBy(cfg: Config, st: State, e: Event): map<int, seq<Tensor>>
    requires Batch(e.x, e.total)
  {
    if |e.x| == 3 then Found(cfg, st, e.x, e.total, e.faults) else st.cache
  }

  /** The bucket whose [2] a batch writes, whatever its layout. */
  function OverwrittenBy(cfg: Config, st: State, e: Event): Option<int>
    requires Batch(e.x, e.total)
  {
    if |e.x| == 3 then Overwritten(cfg, st, e.x, e.total, e.faults) else None
  }

  /** The end positions that the entry of bucket b was captured with. */
  ghost function CapturedEnds(cfg: Config, m: Model, st: State, evs: seq<Event>, b: int): Option<Tensor>
    requires cfg.Valid() && Inv(cfg, st) && Batches(evs)
  {
    if evs == [] then (if b in st.cache then Some(st.cache[b][2]) else None) else
    var n := |evs| - 1;
    var st1 := RunFrom(cfg, m, st, evs[..n]).0;
    if b in FoundBy(cfg, st1, evs[n]) then CapturedEnds(cfg, m, st, evs[..n], b)
    else if OverwrittenBy(cfg, st1, evs[n]) == Some(b) && Fits(evs, n, b) then Some(AtBucket(evs, n, b)[2])
    else None
  }

  /** What number a at input 2 of graph b stands for: the end positions of batch a at that bucket,
      or those of the capture. */
  ghost function EndsRead(cfg: Config, m: Model, st: State, evs: seq<Event>, b: int, a: int): Option<Tensor>
    requires cfg.Valid() && Inv(cfg, st) && Batches(evs)
  {
    if Fits(evs, a, b) then Some(AtBucket(evs, a, b)[2])
    else if a == -1 then CapturedEnds(cfg, m, st, evs, b) else None
  }

  /** The batches that copy their end positions are those that overwrite an entry they found; a
      batch that captures its own entry overwrites it in any case. */
  lemma KindOverwrites(cfg: Config, st: State, e: Event, b: nat)
    requires EntriesShaped(st) && Batch(e.x, e.total)
    ensures var kind := KindOf(cfg, st, e.x, e.total, e.faults); var w := OverwrittenBy(cfg, st, e);
      && (SP.CopiesEnds(kind, b) ==> w == Some(b))
      && (w == Some(b) && b in FoundBy(cfg, st, e) ==> SP.CopiesEnds(kind, b))
  {
    if |e.x| == 3 && GoesSlow(cfg, st, e.x, e.total, e.faults) {
      SlowOverwrites(cfg, st, e, b);
    }
  }

  lemma SlowOverwrites(cfg: Config, st: State, e: Event, b: nat)
    requires EntriesShaped(st) && Shaped(e.x, e.total) && GoesSlow(cfg, st, e.x, e.total, e.faults)
    ensures var kind := KindOf(cfg, st, e.x, e.total, e.faults); var w := OverwrittenBy(cfg, st, e);
      && (SP.CopiesEnds(kind, b) ==> w == Some(b))
      && (w == Some(b) && b in FoundBy(cfg, st, e) ==> SP.CopiesEnds(kind, b))
  {
    var st0 := Arrived(cfg, st, e.x, e.total);
    SelectKeepsShapes(Candidates(cfg, e.total), st0, e.x, e.total, e.faults.captureFails, 0);
    SelectAddsPick(Candidates(cfg, e.total), st0, e.x, e.total, e.faults.captureFails, 0);
    var (st1, pick) := Picked(cfg, st, e.x, e.total, e.faults);
    if pick.At? {
      assert EntryShaped(pick.bucket, st1.cache[pick.bucket]);
      BucketInputsShaped(e.x, e.total, pick.bucket);
      assert KindOf(cfg, st, e.x, e.total, e.faults)
          == SlowKind(pick.bucket, st1.cache[pick.bucket], BucketInputs(e.x, e.total, pick.bucket), e.faults.throwAt);
    }
  }

  /** Once the widths are checked nothing is evicted any more, and the slow path checks them. */
  lemma Checked(cfg: Config, m: Model, st: State, e: Event)
    requires cfg.Valid() && Inv(cfg, st) && Batch(e.x, e.total)
    ensures var st' := ProcessBatch(cfg, m, st, e.x, e.total, e.faults).0;
      && (st.widthsChecked ==> st'.widthsChecked && FoundBy(cfg, st, e) == st.cache)
      && (OverwrittenBy(cfg, st, e).Some? ==> st'.widthsChecked)
      && (forall b :: b in FoundBy(cfg, st, e) ==> b in st.cache && FoundBy(cfg, st, e)[b] == st.cache[b])
  {
    if |e.x| != 3 {
      OtherLayout(cfg, m, st, e.x, e.total, e.faults);
    } else if GoesSlow(cfg, st, e.x, e.total, e.faults) {
      SlowStep(cfg, m, st, e.x, e.total, e.faults);
      SelectCountsNothing(Candidates(cfg, e.total), Arrived(cfg, st, e.x, e.total), e.x, e.total,
                          e.faults.captureFails, 0);
    } else {
      StaysChecked(cfg, m, st, e);
    }
  }

  lemma StaysChecked(cfg: Config, m: Model, st: State, e: Event)
    requires cfg.Valid() && Inv(cfg, st) && Shaped(e.x, e.total) && !GoesSlow(cfg, st, e.x, e.total, e.faults)
    ensures st.widthsChecked ==> ProcessBatch(cfg, m, st, e.x, e.total, e.faults).0.widthsChecked
  {
    FoundIsCached(cfg, st, e.total);
    if e.faults.abort || !cfg.graphOn {
      Unchecked(cfg, m, st, e.x, e.total, e.faults);
    } else {
      PrestagedStep(cfg, m, st, e.x, e.total, e.faults);
    }
  }

  /** What a batch leaves, whatever its layout. */
  lemma EventLeaves(cfg: Config, m: Model, st: State, e: Event)
    requires cfg.Valid() && Inv(cfg, st) && Batch(e.x, e.total)
    ensures var cache := ProcessBatch(cfg, m, st, e.x, e.total, e.faults).0.cache;
      var found, w := FoundBy(cfg, st, e), OverwrittenBy(cfg, st, e);
      && cache.Keys == found.Keys + (if w.Some? then {w.value} else {})
      && (w.Some? ==> |e.x| == 3 && CanFill(e.x, e.total, w.value)
                      && cache[w.value] == BucketInputs(e.x, e.total, w.value))
      && forall b :: b in found && w != Some(b) ==> SameEnds(b, found[b], cache[b])
  {
    if |e.x| == 3 {
      BatchLeaves(cfg, m, st, e.x, e.total, e.faults);
    } else {
      OtherLayout(cfg, m, st, e.x, e.total, e.faults);
    }
  }

  /** The numbers that StreamProtocol gives input 2 stand for what the entries hold. */
  ghost predicate EndsLinked(cfg: Config, m: Model, st: State, evs: seq<Event>, b: nat)
    requires cfg.Valid() && Inv(cfg, st) && Batches(evs)
  {
    var st', a := RunFrom(cfg, m, st, evs).0, SP.EndsOf(Kinds(cfg, m, st, evs), b);
    && (a >= 0 ==> b in st'.cache && st'.widthsChecked)
    && (b in st'.cache ==> EndsRead(cfg, m, st, evs, b, a) == Some(st'.cache[b][2]))
  }

  /** One batch further: st1 is the state it finds, st' the one it leaves. */
  ghost predicate OneBatch(cfg: Config, m: Model, st: State, evs: seq<Event>, st1: State, st': State)
    requires cfg.Valid() && Inv(cfg, st) && Batches(evs)
  {
    evs != [] && st1 == RunFrom(cfg, m, st, evs[..|evs| - 1]).0 && st' == RunFrom(cfg, m, st, evs).0
  }

  /** The batch copied its own end positions. */
  lemma CopiedLinked(cfg: Config, m: Model, st: State, evs: seq<Event>, b: nat, st1: State, st': State)
    requires cfg.Valid() && Inv(cfg, st) && Batches(evs) && OneBatch(cfg, m, st, evs, st1, st')
    requires SP.CopiesEnds(KindAt(cfg, m, st, evs, |evs| - 1), b)
    ensures var a := |evs| - 1;
      b in st'.cache && st'.widthsChecked && EndsRead(cfg, m, st, evs, b, a) == Some(st'.cache[b][2])
  {
    var e := evs[|evs| - 1];
    RunStep(cfg, m, st, evs);
    KindOverwrites(cfg, st1, e, b);
    Checked(cfg, m, st1, e);
    EventLeaves(cfg, m, st1, e);
    assert Fits(evs, |evs| - 1, b);
  }

  /** The batch captured the entry and could not copy into it. */
  lemma CapturedLinked(cfg: Config, m: Model, st: State, evs: seq<Event>, b: nat, st1: State, st': State)
    requires cfg.Valid() && Inv(cfg, st) && Batches(evs) && OneBatch(cfg, m, st, evs, st1, st')
    requires !SP.CopiesEnds(KindAt(cfg, m, st, evs, |evs| - 1), b) && OverwrittenBy(cfg, st1, evs[|evs| - 1]) == Some(b)
    ensures b !in FoundBy(cfg, st1, evs[|evs| - 1])
    ensures b in st'.cache && CapturedEnds(cfg, m, st, evs, b) == Some(st'.cache[b][2])
    ensures st1.widthsChecked ==> b !in st1.cache
  {
    var e := evs[|evs| - 1];
    RunStep(cfg, m, st, evs);
    KindOverwrites(cfg, st1, e, b);
    Checked(cfg, m, st1, e);
    EventLeaves(cfg, m, st1, e);
    assert Fits(evs, |evs| - 1, b);
  }

  /** The batch did not touch these end positions. */
  lemma KeptLinked(cfg: Config, m: Model, st: State, evs: seq<Event>, b: nat, st1: State, st': State)
    requires cfg.Valid() && Inv(cfg, st) && Batches(evs) && OneBatch(cfg, m, st, evs, st1, st')
    requires OverwrittenBy(cfg, st1, evs[|evs| - 1]) != Some(b)
    ensures b in st'.cache ==>
      && b in st1.cache && st'.cache[b][2] == st1.cache[b][2]
      && CapturedEnds(cfg, m, st, evs, b) == CapturedEnds(cfg, m, st, evs[..|evs| - 1], b)
    ensures st1.widthsChecked && b in st1.cache ==> b in st'.cache && st'.widthsChecked
  {
    var e := evs[|evs| - 1];
    RunStep(cfg, m, st, evs);
    Checked(cfg, m, st1, e);
    EventLeaves(cfg, m, st1, e);
    if b in st'.cache {
      assert SameEnds(b, FoundBy(cfg, st1, e)[b], st'.cache[b]);
    }
  }

  lemma ReadsOn(cfg: Config, m: Model, st: State, evs: seq<Event>, b: nat, a: int)
    requires cfg.Valid() && Inv(cfg, st) && Batches(evs) && evs != [] && a < |evs| - 1
    requires CapturedEnds(cfg, m, st, evs, b) == CapturedEnds(cfg, m, st, evs[..|evs| - 1], b) || a >= 0
    ensures EndsRead(cfg, m, st, evs, b, a) == EndsRead(cfg, m, st, evs[..|evs| - 1], b, a)
  {
    var front := evs[..|evs| - 1];
    assert a >= 0 ==> front[a] == evs[a];
    assert Fits(front, a, b) <==> Fits(evs, a, b);
  }

  lemma {:induction false} EndsBelow(kinds: seq<SP.Kind>, b: nat)
    ensures -1 <= SP.EndsOf(kinds, b) < |kinds|
  {
    if kinds != [] {
      EndsBelow(kinds[..|kinds| - 1], b);
    }
  }

  /** In any run the entry of a bucket holds the end positions that the number at its input 2
      stands for: those of the last batch that copied them there, or those of the capture. */
  lemma {:induction false} EntriesHoldEnds(cfg: Config, m: Model, st: State, evs: seq<Event>, b: nat)
    requires cfg.Valid() && Inv(cfg, st) && Batches(evs)
    ensures EndsLinked(cfg, m, st, evs, b)
  {
    if evs != [] {
      var n := |evs| - 1;
      var st1, st' := RunFrom(cfg, m, st, evs[..n]).0, RunFrom(cfg, m, st, evs).0;
      var kinds, kind := Kinds(cfg, m, st, evs[..n]), KindAt(cfg, m, st, evs, n);
      EntriesHoldEnds(cfg, m, st, evs[..n], b);
      KindsStep(cfg, m, st, evs);
      SP.EndsStep(kinds, kind, b);
      EndsBelow(kinds, b);
      if SP.CopiesEnds(kind, b) {
        CopiedLinked(cfg, m, st, evs, b, st1, st');
      } else if OverwrittenBy(cfg, st1, evs[n]) == Some(b) {
        CapturedLinked(cfg, m, st, evs, b, st1, st');
      } else {
        KeptLinked(cfg, m, st, evs, b, st1, st');
        if b in st'.cache {
          ReadsOn(cfg, m, st, evs, b, SP.EndsOf(kinds, b));
        }
      }
    }
  }

  // ---- Reading an answer ----

  /** The temporaries that inputs of these batches make up. */
  function Temporaries(evs: seq<Event>, from: seq<int>): Option<seq<Tensor>>
    requires |from| == 3
  {
    if exists i :: 0 <= i < 3 && !(0 <= from[i] < |evs|) then None
    else if from[0] == from[1] == from[2] then Some(evs[from[0]].x)
    else if exists i :: 0 <= i < 3 && |evs[from[i]].x| != 3 then None
    else Some([evs[from[0]].x[0], evs[from[1]].x[1], evs[from[2]].x[2]])
  }

  /** The static inputs of graph b that these batches make up when batch j runs. */
  ghost function Statics(cfg: Config, m: Model, st: State, evs: seq<Event>, j: nat, b: nat, from: seq<int>)
    : Option<seq<Tensor>>
    requires cfg.Valid() && Inv(cfg, st) && Batches(evs) && j < |evs| && |from| == 3
  {
    var ends := if Fits(evs, from[2], b) then Some(AtBucket(evs, from[2], b)[2])
                else EndsRead(cfg, m, st, evs[..j], b, from[2]);
    if Fits(evs, from[0], b) && Fits(evs, from[1], b) && ends.Some?
    then Some([AtBucket(evs, from[0], b)[0], AtBucket(evs, from[1], b)[1], ends.value]) else None
  }

  /** What the device answers batch j with when its inputs came from these batches: the first rows
      of a replay, or an eager run on the views or the temporaries. */
  ghost function Reading(cfg: Config, m: Model, st: State, evs: seq<Event>, j: nat, from: seq<int>): Option<Outputs>
    requires cfg.Valid() && Inv(cfg, st) && Batches(evs) && j < |evs| && |from| == 3
  {
    var r := evs[j].total;
    match KindAt(cfg, m, st, evs, j)
    case Aborted => None
    case AbortedPrestaged(_) => None
    case Eagerly => Eager(m, Temporaries(evs, from))
    case FailedSlow(_, _) => Eager(m, Temporaries(evs, from))
    case Slow(b) => FirstRowsOf(m, Statics(cfg, m, st, evs, j, b, from), r)
    case Prestaged(b) => FirstRowsOf(m, Statics(cfg, m, st, evs, j, b, from), r)
    case FailedPrestaged(b) => EagerOnViews(m, Statics(cfg, m, st, evs, j, b, from), r, b)
  }

  function Eager(m: Model, x: Option<seq<Tensor>>): Option<Outputs> {
    if x.Some? then Some(Forward(m, x.value)) else None
  }

  function FirstRowsOf(m: Model, e: Option<seq<Tensor>>, r: nat): Option<Outputs> {
    if e.Some? then Some(FirstRows(Forward(m, e.value), r)) else None
  }

  function EagerOnViews(m: Model, e: Option<seq<Tensor>>, r: nat, b: nat): Option<Outputs> {
    if e.Some? && Viewable(e.value, r, b) then Some(Forward(m, Views(e.value, r, b))) else None
  }

  /** The payloads of a uniform batch at bucket b, next to the end positions of its own width. */
  function Beside(x: seq<Tensor>, r: nat, b: nat): (e: seq<Tensor>)
    requires Packed(x, r) && r <= b
  {
    BucketInputsOk(x, r, b);
    var e := BucketInputs(x, r, b);
    [e[0], e[1], Tensor([b], Ends32(b, Per(x, r)))]
  }

  lemma BesideCovers(x: seq<Tensor>, r: nat, b: nat)
    requires Packed(x, r) && r <= b
    ensures var e := Beside(x, r, b); EntryOk(b, e) && Width(b, e) == Per(x, r) && Covers(e, x, r)
  {
    BucketInputsOk(x, r, b);
    BucketInputsShaped(x, r, b);
    Ends32Prefix(r, b, Per(x, r));
    var e := Beside(x, r, b);
    assert e[2].shape[1..] == [];
  }

  /** Which are those of the batch at that bucket. */
  lemma BesideItself(x: seq<Tensor>, r: nat, b: nat)
    requires Packed(x, r) && r <= b
    ensures CanFill(x, r, b) && BucketInputs(x, r, b) == Beside(x, r, b)
  {
    BucketInputsOk(x, r, b);
    BucketInputsShaped(x, r, b);
  }

  /** They are read as that batch. */
  lemma PaddedReading(m: Model, x: seq<Tensor>, r: nat, b: nat)
    requires Packed(x, r) && r <= b
    ensures FirstRowsOf(m, Some(Beside(x, r, b)), r) == Some(Forward(m, x))
    ensures EagerOnViews(m, Some(Beside(x, r, b)), r, b) == Some(Forward(m, x))
  {
    BesideCovers(x, r, b);
    PackedIsRagged(x, r);
    CoveredForward(m, Beside(x, r, b), x, r);
    PaddedViews(m, x, r, b, Beside(x, r, b));
  }

  lemma PaddedViews(m: Model, x: seq<Tensor>, r: nat, b: nat, e: seq<Tensor>)
    requires Packed(x, r) && r <= b && EntryOk(b, e) && Width(b, e) == Per(x, r) && Covers(e, x, r)
    ensures EagerOnViews(m, Some(e), r, b) == Some(Forward(m, x))
  {
    var per := Per(x, r);
    FlatLength(e[1], b * per);
    FlatLength(x[1], r * per);
    FlatLength(e[2], b);
    FlatLength(x[2], r);
    ExactQuotient(b, per);
    ExactQuotient(b, 1);
    MulMono(r, b, per);
    MulMono(r, b, e[0].Stride());
    var v := Views(e, r, b);
    assert v[0].data == x[0].data && v[1].data == x[1].data && v[2].data == x[2].data;
    SameContentsSameForward(m, v, x);
  }

  // ---- Every answer is the eager one ----

  /** A prestaged uniform batch has the width of the entry it is staged into, whose end positions
      are those that the number at input 2 stands for. */
  lemma StagedBeside(cfg: Config, m: Model, st: State, evs: seq<Event>, j: nat, b: nat)
    requires cfg.Valid() && Inv(cfg, st) && EntriesRight(true, st) && Traffic(evs) && j < |evs|
    requires SP.ReadsStaged(KindAt(cfg, m, st, evs, j)) && KindAt(cfg, m, st, evs, j).b == b
    ensures var x, r, kinds := evs[j].x, evs[j].total, Kinds(cfg, m, st, evs[..j]);
      && |x| == 3 && r <= b
      && EndsRead(cfg, m, st, evs[..j], b, SP.EndsOf(kinds, b)) == Some(Beside(x, r, b)[2])
  {
    var x, r := evs[j].x, evs[j].total;
    var st1 := RunFrom(cfg, m, st, evs[..j]).0;
    RunFromRefinesEager(true, cfg, m, st, evs[..j]);
    EntriesHoldEnds(cfg, m, st, evs[..j], b);
    FoundIsCached(cfg, st1, r);
    assert EntryRight(true, b, st1.cache[b]);
    ViableWidths(st1.cache[b], x, r, b);
    FlatLength(st1.cache[b][2], b);
  }

  /** The answer of a batch, from the batches it should be taken from. */
  lemma ExpectedIsEager(cfg: Config, m: Model, st: State, evs: seq<Event>, j: nat)
    requires cfg.Valid() && Inv(cfg, st) && EntriesRight(true, st) && Traffic(evs) && j < |evs|
    requires SP.IsAnswered(KindAt(cfg, m, st, evs, j))
    ensures |Kinds(cfg, m, st, evs)| == |evs|
    ensures var from := SP.Expected(Kinds(cfg, m, st, evs), j);
      Reading(cfg, m, st, evs, j, from) == Some(Forward(m, evs[j].x)) == EagerAnswer(m, evs[j])
  {
    var kind, kinds := KindAt(cfg, m, st, evs, j), Kinds(cfg, m, st, evs);
    assert kinds[j] == kind;
    match kind {
      case Prestaged(b) => StagedExpected(cfg, m, st, evs, j, b);
      case FailedPrestaged(b) => StagedExpected(cfg, m, st, evs, j, b);
      case Slow(b) => SlowExpected(cfg, m, st, evs, j, b);
      case _ =>
    }
  }

  lemma KindsPrefix(cfg: Config, m: Model, st: State, evs: seq<Event>, j: nat)
    requires cfg.Valid() && Inv(cfg, st) && Batches(evs) && j <= |evs|
    ensures Kinds(cfg, m, st, evs)[..j] == Kinds(cfg, m, st, evs[..j])
  {
    forall i | 0 <= i < j
      ensures KindAt(cfg, m, st, evs, i) == KindAt(cfg, m, st, evs[..j], i)
    {
      assert evs[..j][..i] == evs[..i] && evs[..j][i] == evs[i];
    }
  }

  lemma StagedExpected(cfg: Config, m: Model, st: State, evs: seq<Event>, j: nat, b: nat)
    requires cfg.Valid() && Inv(cfg, st) && EntriesRight(true, st) && Traffic(evs) && j < |evs|
    requires SP.ReadsStaged(KindAt(cfg, m, st, evs, j)) && KindAt(cfg, m, st, evs, j).b == b
    ensures var from := [j, j, SP.EndsOf(Kinds(cfg, m, st, evs)[..j], b)];
      Reading(cfg, m, st, evs, j, from) == Some(Forward(m, evs[j].x))
  {
    StagedStatics(cfg, m, st, evs, j, b);
    PaddedReading(m, evs[j].x, evs[j].total, b);
  }

  lemma StagedStatics(cfg: Config, m: Model, st: State, evs: seq<Event>, j: nat, b: nat)
    requires cfg.Valid() && Inv(cfg, st) && EntriesRight(true, st) && Traffic(evs) && j < |evs|
    requires SP.ReadsStaged(KindAt(cfg, m, st, evs, j)) && KindAt(cfg, m, st, evs, j).b == b
    ensures CanFill(evs[j].x, evs[j].total, b)
    ensures Statics(cfg, m, st, evs, j, b, [j, j, SP.EndsOf(Kinds(cfg, m, st, evs)[..j], b)])
            == Some(Beside(evs[j].x, evs[j].total, b))
  {
    KindsPrefix(cfg, m, st, evs, j);
    StagedBeside(cfg, m, st, evs, j, b);
    BucketInputsOk(evs[j].x, evs[j].total, b);
    var a := SP.EndsOf(Kinds(cfg, m, st, evs[..j]), b);
    EndsBelow(Kinds(cfg, m, st, evs[..j]), b);
    assert a >= 0 ==> evs[..j][a] == evs[a];
  }

  lemma SlowExpected(cfg: Config, m: Model, st: State, evs: seq<Event>, j: nat, b: nat)
    requires cfg.Valid() && Inv(cfg, st) && Traffic(evs) && j < |evs|
    requires KindAt(cfg, m, st, evs, j) == SP.Slow(b)
    ensures Reading(cfg, m, st, evs, j, [j, j, j]) == Some(Forward(m, evs[j].x))
  {
    var x, r := evs[j].x, evs[j].total;
    SlowReaches(cfg, RunFrom(cfg, m, st, evs[..j]).0, evs[j], b);
    PaddedReading(m, x, r, b);
    OwnStatics(cfg, m, st, evs, j, b);
  }

  lemma OwnStatics(cfg: Config, m: Model, st: State, evs: seq<Event>, j: nat, b: nat)
    requires cfg.Valid() && Inv(cfg, st) && Batches(evs) && j < |evs| && Packed(evs[j].x, evs[j].total)
    requires evs[j].total <= b
    ensures Statics(cfg, m, st, evs, j, b, [j, j, j]) == Some(Beside(evs[j].x, evs[j].total, b))
  {
    BesideItself(evs[j].x, evs[j].total, b);
    assert Fits(evs, j, b);
  }

  lemma SlowReaches(cfg: Config, st: State, e: Event, b: nat)
    requires EntriesShaped(st) && Batch(e.x, e.total) && KindOf(cfg, st, e.x, e.total, e.faults) == SP.Slow(b)
    ensures |e.x| == 3 && CanFill(e.x, e.total, b)
  {
    KindOverwrites(cfg, st, e, b);
  }

  /** A run of uniform batches on the device: as long as no batch is collected into a graph that a
      failed replay left dirty, every answer given in any interleaving, read as the tensors of the
      batches it was taken from, is the eager answer of that batch. */
  lemma DeviceAnswersEager(
    cfg: Config, m: Model, fails: set<int>, evs: seq<Event>,
    streams: nat -> nat, waits: SP.HostWaits, order: seq<nat>, j: nat)
    requires cfg.Valid() && Traffic(evs) && SP.OwnStreams(streams)
    requires SP.Ordered(RunKinds(cfg, m, fails, evs), streams)
    requires SP.Schedule(SP.Program(RunKinds(cfg, m, fails, evs), streams), order, waits)
    ensures Inv(cfg, Warmup(cfg, INIT_STATE, fails))
    ensures var st := Warmup(cfg, INIT_STATE, fails); var tasks := SP.Program(Kinds(cfg, m, st, evs), streams);
      && (forall i :: i in order ==> i < |tasks|)
      && var results := SP.MemoryAfter(tasks, order).results;
      && (j in results ==>
            j < |evs| && |results[j]| == 3
            && Reading(cfg, m, st, evs, j, results[j]) == EagerAnswer(m, evs[j]) == Some(Forward(m, evs[j].x)))
      && ((forall i :: 0 <= i < |tasks| ==> i in order) && j < |evs| && EagerAnswer(m, evs[j]).Some? ==> j in results)
  {
    var st := Warmup(cfg, INIT_STATE, fails);
    InitialInv(cfg, fails);
    var kinds := Kinds(cfg, m, st, evs);
    var tasks := SP.Program(kinds, streams);
    SP.EveryInterleavingSafe(kinds, streams, waits);
    SP.ScheduleInRange(tasks, order, waits);
    assert SP.OrderRight(kinds, streams, order, waits);
    if j in SP.MemoryAfter(tasks, order).results {
      ExpectedIsEager(cfg, m, st, evs, j);
    }
    if (forall i :: 0 <= i < |tasks| ==> i in order) && j < |evs| {
      SP.EverythingAnswered(kinds, streams, order, waits);
      UniformAnswered(cfg, m, st, evs, j);
    }
  }

  lemma UniformAnswered(cfg: Config, m: Model, st: State, evs: seq<Event>, j: nat)
    requires cfg.Valid() && Inv(cfg, st) && EntriesRight(true, st) && Traffic(evs) && j < |evs|
    ensures EagerAnswer(m, evs[j]).Some? ==> SP.IsAnswered(KindAt(cfg, m, st, evs, j))
  {
    var st1 := RunFrom(cfg, m, st, evs[..j]).0;
    RunFromRefinesEager(true, cfg, m, st, evs[..j]);
    BatchRefinesEager(true, cfg, m, st1, evs[j].x, evs[j].total, evs[j].faults);
    KindMatches(cfg, m, st1, evs[j].x, evs[j].total, evs[j].faults);
  }
}
