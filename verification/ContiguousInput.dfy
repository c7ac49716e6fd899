/** `GetContiguousInputContent`: an input's chunks as one contiguous block, in two passes. */
module ContiguousInput {
  import opened Basics

  /** What the server returns for one buffer of the input: an error, a null pointer (whatever size
      comes with it), or bytes on the CPU or a GPU. */
  datatype Chunk = Fail | Null(size: nat) | Data(bytes: seq<int>, gpu: bool)

  /** NullBytes: bytes were read, or promised to the caller, at a null pointer. */
  datatype Result = Error | NullBytes | Content(bytes: seq<int>)

  datatype Copying = Copied | CopyFailed | ReadNull

  predicate Hollow(c: Chunk) {
    c.Null? && c.size > 0
  }

  function Bytes(c: Chunk): seq<int> {
    if c.Data? then c.bytes else []
  }

  /** The bytes of the first n chunks in order. */
  function Concat(chunks: seq<Chunk>, n: nat): seq<int>
    requires n <= |chunks|
  {
    if n == 0 then [] else Concat(chunks, n - 1) + Bytes(chunks[n - 1])
  }

  /** How many of the first n chunks are not null. */
  function NonNull(chunks: seq<Chunk>, n: nat): (k: nat)
    requires n <= |chunks|
    ensures k <= n
  {
    if n == 0 then 0 else NonNull(chunks, n - 1) + (if chunks[n - 1].Data? then 1 else 0)
  }

  predicate OnGpu(chunks: seq<Chunk>, n: nat)
    requires n <= |chunks|
  {
    exists i :: 0 <= i < n && chunks[i].Data? && chunks[i].gpu
  }

  predicate Fails(chunks: seq<Chunk>) {
    exists i :: 0 <= i < |chunks| && chunks[i].Fail?
  }

  lemma {:induction false} ConcatGrows(chunks: seq<Chunk>, m: nat, n: nat)
    requires m <= n <= |chunks|
    ensures Concat(chunks, m) <= Concat(chunks, n)
    decreases n
  {
    if m < n {
      ConcatGrows(chunks, m, n - 1);
    }
  }

  /** One chunk in CPU memory is returned as it is, without a copy. */
  predicate Single(chunks: seq<Chunk>) {
    NonNull(chunks, |chunks|) == 1 && !OnGpu(chunks, |chunks|)
  }

  /** The copies of the first n chunks; copyFails says which chunks cannot be copied. */
  function CopyPass(chunks: seq<Chunk>, n: nat, copyFails: set<nat>): Copying
    requires n <= |chunks|
  {
    if n == 0 then Copied else
    var before := CopyPass(chunks, n - 1, copyFails);
    if before != Copied then before
    else if n - 1 in copyFails then CopyFailed
    else if Hollow(chunks[n - 1]) then ReadNull else Copied
  }

  /** What the caller gets if all goes well. The copy loop runs over as many leading indices as
      there are non-null chunks; bytes of the resized buffer it does not reach stay zero. */
  function Returned(chunks: seq<Chunk>): seq<int> {
    var k := NonNull(chunks, |chunks|);
    if k == 0 then []
    else if Single(chunks) then Bytes(chunks[0])
    else
      ConcatGrows(chunks, k, |chunks|);
      Concat(chunks, k) + Zeros(|Concat(chunks, |chunks|)| - |Concat(chunks, k)|)
  }

  /** What the caller gets. */
  function Outcome(chunks: seq<Chunk>, copyFails: set<nat>): Result {
    var k := NonNull(chunks, |chunks|);
    if Fails(chunks) then Error
    else if k == 0 then Content([])
    else if Single(chunks) then (if Hollow(chunks[0]) then NullBytes else Content(Returned(chunks)))
    else
      match CopyPass(chunks, k, copyFails)
      case Copied => Content(Returned(chunks))
      case CopyFailed => Error
      case ReadNull => NullBytes
  }

  /** The first pass: how many chunks are not null, their total size, and whether some are on a GPU. */
  method Survey(chunks: seq<Chunk>) returns (failed: bool, chunkCount: nat, totalByteSize: nat, typeMismatch: bool)
    ensures failed == Fails(chunks)
    ensures !failed ==> chunkCount == NonNull(chunks, |chunks|) && totalByteSize == |Concat(chunks, |chunks|)|
    ensures !failed ==> typeMismatch == OnGpu(chunks, |chunks|)
  {
    failed, chunkCount, totalByteSize, typeMismatch := false, 0, 0, false;
    var idx := 0;
    while idx < |chunks|
      invariant 0 <= idx <= |chunks| && forall i :: 0 <= i < idx ==> !chunks[i].Fail?
      invariant chunkCount == NonNull(chunks, idx) && totalByteSize == |Concat(chunks, idx)|
      invariant typeMismatch == OnGpu(chunks, idx)
    {
      var c := chunks[idx];
      if c.Fail? {
        return true, 0, 0, false;
      }
      if c.Data? {
        chunkCount := chunkCount + 1;
        totalByteSize := totalByteSize + |c.bytes|;
        typeMismatch := typeMismatch || c.gpu;
      }
      idx := idx + 1;
    }
  }

  /** `GetContiguousInputContent` */
  method GetContiguousInputContent(chunks: seq<Chunk>, copyFails: set<nat>) returns (r: Result)
    ensures r == Outcome(chunks, copyFails)
  {
    var failed, chunkCount, totalByteSize, typeMismatch := Survey(chunks);
    if failed {
      return Error;
    }
    if chunkCount == 0 {
      return Content([]);
    }
    if chunkCount == 1 && !typeMismatch {
      return if Hollow(chunks[0]) then NullBytes else Content(Bytes(chunks[0]));
    }
    var buffer := new int[totalByteSize](i => 0);
    var status := CopyChunks(buffer, chunks, chunkCount, copyFails);
    match status {
      case Copied => return Content(buffer[..]);
      case CopyFailed => return Error;
      case ReadNull => return NullBytes;
    }
  }

  /** A pass that stopped stays stopped. */
  lemma {:induction false} StopsFor(chunks: seq<Chunk>, m: nat, n: nat, copyFails: set<nat>)
    requires m <= n <= |chunks| && CopyPass(chunks, m, copyFails) != Copied
    ensures CopyPass(chunks, n, copyFails) == CopyPass(chunks, m, copyFails)
    decreases n
  {
    if m < n {
      StopsFor(chunks, m, n - 1, copyFails);
    }
  }

  /** The second pass: the first count chunks one after the other from the buffer's start, up to
      the first that cannot be copied. */
  method CopyChunks(buffer: array<int>, chunks: seq<Chunk>, count: nat, copyFails: set<nat>) returns (status: Copying)
    requires count <= |chunks| && buffer.Length == |Concat(chunks, |chunks|)|
    requires forall k :: 0 <= k < buffer.Length ==> buffer[k] == 0
    modifies buffer
    ensures status == CopyPass(chunks, count, copyFails)
    ensures |Concat(chunks, count)| <= buffer.Length
    ensures status == Copied ==> buffer[..] == Concat(chunks, count) + Zeros(buffer.Length - |Concat(chunks, count)|)
  {
    ConcatGrows(chunks, count, |chunks|);
    var offset, i := 0, 0;
    while i < count
      invariant 0 <= i <= count && offset == |Concat(chunks, i)| <= buffer.Length
      invariant CopyPass(chunks, i, copyFails) == Copied
      invariant buffer[..offset] == Concat(chunks, i)
      invariant forall k :: offset <= k < buffer.Length ==> buffer[k] == 0
    {
      if i in copyFails || Hollow(chunks[i]) {
        StopsFor(chunks, i + 1, count, copyFails);
        return if i in copyFails then CopyFailed else ReadNull;
      }
      ConcatGrows(chunks, i + 1, |chunks|);
      var bytes := Bytes(chunks[i]);
      CopyBytes(buffer, offset, bytes);
      offset := offset + |bytes|;
      i := i + 1;
    }
    assert buffer[..] == buffer[..offset] + Zeros(buffer.Length - offset);
    return Copied;
  }

  method CopyBytes(buffer: array<int>, offset: nat, bytes: seq<int>)
    requires offset + |bytes| <= buffer.Length
    modifies buffer
    ensures buffer[..offset + |bytes|] == old(buffer[..offset]) + bytes
    ensures forall k :: offset + |bytes| <= k < buffer.Length ==> buffer[k] == old(buffer[k])
  {
    var k := 0;
    while k < |bytes|
      invariant 0 <= k <= |bytes|
      invariant forall l :: 0 <= l < offset ==> buffer[l] == old(buffer[l])
      invariant forall l :: 0 <= l < k ==> buffer[offset + l] == bytes[l]
      invariant forall l :: offset + k <= l < buffer.Length ==> buffer[l] == old(buffer[l])
    {
      buffer[offset + k] := bytes[k];
      k := k + 1;
    }
    assert buffer[..offset + |bytes|] == old(buffer[..offset]) + bytes;
  }

  /** Nothing would be noticed if these bytes were missed: there are none, or, when chunks are
      copied, all are the zeros the buffer was resized with. */
  predicate Blank(bytes: seq<int>, single: bool) {
    if single then bytes == [] else forall i :: 0 <= i < |bytes| ==> bytes[i] == 0
  }

  lemma BlankParts(a: seq<int>, b: seq<int>, single: bool)
    ensures Blank(a + b, single) <==> Blank(a, single) && Blank(b, single)
  {
    assert forall i :: 0 <= i < |a| ==> (a + b)[i] == a[i];
    assert forall i :: |a| <= i < |a + b| ==> (a + b)[i] == b[i - |a|];
    if Blank(a + b, single) && !single {
      forall i | 0 <= i < |b|
        ensures b[i] == 0
      {
        assert (a + b)[|a| + i] == b[i];
      }
    }
  }

  lemma BlankIs(bytes: seq<int>, single: bool)
    ensures Blank(bytes, single) <==> bytes == if single then [] else Zeros(|bytes|)
  {
    if !single && bytes == Zeros(|bytes|) {
      assert forall i :: 0 <= i < |bytes| ==> bytes[i] == Zeros(|bytes|)[i];
    }
  }

  lemma AppendSame(a: seq<int>, b: seq<int>, c: seq<int>)
    ensures a + b == a + c <==> b == c
  {
    assert (a + b)[|a|..] == b && (a + c)[|a|..] == c;
  }

  /** The bytes of chunks k to n, which the copy loop does not reach. */
  lemma {:induction false} BehindIff(chunks: seq<Chunk>, k: nat, n: nat, single: bool) returns (behind: seq<int>)
    requires k <= n <= |chunks|
    ensures Concat(chunks, n) == Concat(chunks, k) + behind
    ensures Blank(behind, single) <==> forall i :: k <= i < n ==> Blank(Bytes(chunks[i]), single)
    decreases n
  {
    if k == n {
      behind := [];
    } else {
      var before := BehindIff(chunks, k, n - 1, single);
      BlankParts(before, Bytes(chunks[n - 1]), single);
      behind := before + Bytes(chunks[n - 1]);
    }
  }

  /** What is returned is the concatenation exactly when nothing behind is missed. */
  lemma ReturnedIff(chunks: seq<Chunk>)
    ensures Returned(chunks) == Concat(chunks, |chunks|) <==>
            forall i :: NonNull(chunks, |chunks|) <= i < |chunks| ==> Blank(Bytes(chunks[i]), Single(chunks))
  {
    var k := NonNull(chunks, |chunks|);
    var behind := BehindIff(chunks, k, |chunks|, Single(chunks));
    var front := Concat(chunks, k);
    BlankIs(behind, Single(chunks));
    AppendSame(front, behind, Zeros(|behind|));
    if k == 0 {
      NoneNonNull(chunks, |chunks|);
    } else if Single(chunks) {
      assert Concat(chunks, 1) == Concat(chunks, 0) + Bytes(chunks[0]) == Bytes(chunks[0]);
    } else {
      assert Returned(chunks) == front + Zeros(|behind|);
    }
  }

  lemma {:induction false} CopiedIff(chunks: seq<Chunk>, n: nat)
    requires n <= |chunks|
    ensures CopyPass(chunks, n, {}) == Copied <==> forall i :: 0 <= i < n ==> !Hollow(chunks[i])
  {
    if n > 0 {
      CopiedIff(chunks, n - 1);
    }
  }

  /** When no buffer fails and all copies succeed, the result is the in-order concatenation of all
      non-null chunks, of their total size, exactly when no null chunk of non-zero size is among the
      first `chunk_count` indices, and every chunk behind them is empty, or holds only zero bytes
      and chunks are copied. */
  lemma ContiguousIff(chunks: seq<Chunk>)
    requires !Fails(chunks)
    ensures var k := NonNull(chunks, |chunks|);
      Outcome(chunks, {}) == Content(Concat(chunks, |chunks|)) <==>
      && (forall i :: 0 <= i < k ==> !Hollow(chunks[i]))
      && (forall i :: k <= i < |chunks| ==> Blank(Bytes(chunks[i]), Single(chunks)))
  {
    var k := NonNull(chunks, |chunks|);
    ReturnedIff(chunks);
    CopiedIff(chunks, k);
  }

  /** The copy pass stops at the first chunk that cannot be copied. */
  lemma {:induction false} StopsIff(chunks: seq<Chunk>, n: nat, copyFails: set<nat>)
    requires n <= |chunks|
    ensures CopyPass(chunks, n, copyFails) == CopyFailed <==>
            exists i :: 0 <= i < n && i in copyFails && forall j :: 0 <= j < i ==> !Hollow(chunks[j])
    ensures CopyPass(chunks, n, copyFails) == Copied <==>
            forall i :: 0 <= i < n ==> i !in copyFails && !Hollow(chunks[i])
  {
    if n > 0 {
      StopsIff(chunks, n - 1, copyFails);
    }
  }

  /** The caller gets an error exactly when a buffer cannot be had, or when chunks are copied, one
      of the first `chunk_count` cannot be, and no null chunk with a size comes before it. */
  lemma ErrorIff(chunks: seq<Chunk>, copyFails: set<nat>)
    ensures var k := NonNull(chunks, |chunks|);
      Outcome(chunks, copyFails) == Error <==>
      || (exists i :: 0 <= i < |chunks| && chunks[i].Fail?)
      || (&& (k > 1 || (k == 1 && exists i :: 0 <= i < |chunks| && chunks[i].Data? && chunks[i].gpu))
          && exists i :: 0 <= i < k && i in copyFails && forall j :: 0 <= j < i ==> !Hollow(chunks[j]))
  {
    StopsIff(chunks, NonNull(chunks, |chunks|), copyFails);
  }

  /** A null chunk in front loses data, with or without copying. */
  lemma NullInFront()
    ensures var chunks := [Null(0), Data([1], false)]; Outcome(chunks, {}) == Content([]) && Concat(chunks, 2) == [1]
    ensures var chunks := [Null(0), Data([1], false), Data([2], false)];
      Outcome(chunks, {}) == Content([1, 0]) && Concat(chunks, 3) == [1, 2]
  {
    var one, two := [Null(0), Data([1], false)], [Null(0), Data([1], false), Data([2], false)];
    assert NonNull(one, 0) == 0 && NonNull(one, 1) == 0 && NonNull(one, 2) == 1;
    assert Concat(one, 0) == [] && Concat(one, 1) == [] && Concat(one, 2) == [1];
    assert NonNull(two, 0) == 0 && NonNull(two, 1) == 0 && NonNull(two, 2) == 1 && NonNull(two, 3) == 2;
    assert Concat(two, 0) == [] && Concat(two, 1) == [] && Concat(two, 2) == [1] && Concat(two, 3) == [1, 2];
    CopiedIff(two, 2);
  }

  lemma {:induction false} NoneNonNull(chunks: seq<Chunk>, n: nat)
    requires n <= |chunks| && NonNull(chunks, n) == 0
    ensures Concat(chunks, n) == []
  {
    if n > 0 {
      NoneNonNull(chunks, n - 1);
    }
  }

  /** The non-null chunks come first. */
  predicate NonNullFirst(chunks: seq<Chunk>) {
    forall i, j :: 0 <= i < j < |chunks| && chunks[j].Data? ==> chunks[i].Data?
  }

  /** Up to a chunk with data there are only chunks with data. */
  lemma {:induction false} AllData(chunks: seq<Chunk>, n: nat)
    requires NonNullFirst(chunks) && n <= |chunks| && (n > 0 ==> chunks[n - 1].Data?)
    ensures NonNull(chunks, n) == n
  {
    if n > 0 {
      AllData(chunks, n - 1);
    }
  }

  lemma {:induction false} NonNullGrows(chunks: seq<Chunk>, m: nat, n: nat)
    requires m <= n <= |chunks|
    ensures NonNull(chunks, m) <= NonNull(chunks, n)
    decreases n
  {
    if m < n {
      NonNullGrows(chunks, m, n - 1);
    }
  }

  lemma NullBehind(chunks: seq<Chunk>, i: nat)
    requires NonNullFirst(chunks) && NonNull(chunks, |chunks|) <= i < |chunks|
    ensures Bytes(chunks[i]) == []
  {
    if chunks[i].Data? {
      AllData(chunks, i + 1);
      NonNullGrows(chunks, i + 1, |chunks|);
    }
  }

  /** When the non-null chunks form a prefix nothing is missed. */
  lemma PrefixIsContiguous(chunks: seq<Chunk>)
    requires NonNullFirst(chunks) && !Fails(chunks)
    ensures Outcome(chunks, {}) == Content(Concat(chunks, |chunks|))
  {
    var k := NonNull(chunks, |chunks|);
    forall i | k <= i < |chunks|
      ensures Blank(Bytes(chunks[i]), Single(chunks))
    {
      NullBehind(chunks, i);
    }
    forall i | 0 <= i < k
      ensures chunks[i].Data?
    {
      if !chunks[i].Data? {
        NonNullBounded(chunks, i, |chunks|);
      }
    }
    ContiguousIff(chunks);
  }

  /** From a null chunk on there are only null chunks. */
  lemma {:induction false} NonNullBounded(chunks: seq<Chunk>, i: nat, n: nat)
    requires NonNullFirst(chunks) && i < |chunks| && !chunks[i].Data? && n <= |chunks|
    ensures NonNull(chunks, n) <= i
  {
    if n > 0 {
      NonNullBounded(chunks, i, n - 1);
    }
  }
}
