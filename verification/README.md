# Verification of the PyTorch backend's CUDA-graph path

This project models the stateful core of the Triton PyTorch (AOTInductor) backend and proves what
it is for: that replaying captured CUDA graphs on fixed, padded buffers gives every batch the
outputs the eager run would give that batch alone. That is proved over any run of uniform batches
with any failures, first with the device's work taking effect in the order the host issues it, and
then on the device: it is proved exactly which runs its streams may interleave so that every batch
is answered from its own inputs, and that in those runs every answer is the eager one. Around that
core it models the parts that have real proofs of their own: the bucket allowlist parser, input slots,
gather/scatter of the Python model, response and release handling, loader sharing and the chunk
concatenator.

`dafny verify dfyconfig.toml` checks everything.

## How it is organised

- `Basics.dfy`: options and zeros.
- `Tensors.dfy`: tensors with shapes, the three-tensor request layout (`[0]` one row per request,
  `[1]` flat, `[2]` end positions in 32 bits), and the forward pass as a function of each request
  alone. `Model` is an arbitrary such function, so padding is proved inert, not assumed.
- `Padding.dfy`: padding a batch to a bucket, prestaging it in place instead, and why both agree.
- `GraphSpec.dfy`: the instance as a state machine on values: cache, negative cache, one-time width
  check, prestaged bucket, counters; every capture, copy and replay may fail.
- `GraphRuns.dfy`: invariants and theorems over all runs of that machine; the invariants and the
  counting hold for batches of any widths, the eager answers for uniform ones.
- `WarmStart.dfy`: what warmup captures, when the width check keeps it, and how the batches that
  follow are executed.
- `RaggedTraffic.dfy`: what happens with batches that are not uniform, whatever the number of their
  elements, exactly, from any reachable state.
- `ModelInstance.dfy`: the same operations as classes that overwrite arrays in place, with aliased
  views of the static buffers, proved to compute what `GraphSpec` says. `Serve` carries the
  whole-run theorem over to them.
- `StreamProtocol.dfy`: the instance stream and the graph streams as FIFO queues with events and
  host waits, in every interleaving.
- `DeviceRuns.dfy`: how each batch of a `GraphRuns` run was executed, and what that makes of the
  run on the device.
- `DeviceAnswers.dfy`: the batch numbers of `StreamProtocol` read as the tensors they stand for.
- `Digits.dfy`, `CsvBuckets.dfy`, `ShapeKeys.dfy`, `IndexSlots.dfy`: strings: numbers, the
  allowlist, cache keys, input names.
- `GatherScatter.dfy`, `Responses.dfy`, `LoaderSharing.dfy`, `ContiguousInput.dfy`: the smaller cores.

Integers are unbounded where the source uses `int64_t`; the cast of end positions to the 32-bit
index type is explicit (`Ends32`). Tensor elements are opaque integers with zero. The ascending
`std::set` of buckets is a strictly ascending sequence. Cache keys are the bucket numbers
themselves, which `ShapeKeys.KeysStandForBuckets` justifies. An event is numbered by the batch that
records it: a wait refers to the last record issued before it, so re-recording the same event
object in the next batch is the same thing. The stream theorems hold for every choice of the points
where the host waits for the instance stream (`waits`), so in particular for those of the code.

## What the proofs found

- **A non-uniform batch that exactly fills a bucket can poison it.** Its own end positions are
  stored in static input `[2]`, by capture or by copy, and later prestaged batches skip `[2]` and
  replay with them. `RaggedTraffic.FutureRightIff`: from any reachable state, all uniform traffic
  that may follow is answered rightly for every model if and only if every entry a batch can be
  prestaged into holds the end positions of its own width. `RightAfterIff` says for any state and
  batch when that is so afterwards, and `ExactFillIff` combines the two: from any reachable state
  with right entries, warmed up or not and with any faults, the future stays right unless the batch
  overwrote the end positions of the bucket it fills exactly, its requests are not equally wide, and
  the number of its elements is nevertheless a multiple of the bucket. If it is not, nothing is ever
  prestaged there.
- **Padding a non-uniform batch can throw, and then all its requests get an error.** `[1]` is scaled
  to `n / r * bucket` elements, which may be less than n. `RaggedTraffic.PaddingThrowsIff`: that
  happens exactly when the batch cannot be used at its own size and the next larger bucket that is
  not known bad is too small in this sense. `SmallestThrow`: widths 1, 1 and 3 at bucket 4. No
  replay and no fallback is counted (`PaddingThrowsAnswers`).
- **What a non-uniform batch itself is answered.** `RaggedTraffic.RaggedAnswerIff`: it is answered
  rightly for every model unless padding threw, or a padded replay of unequal requests completed.
- **A replay that throws after enqueuing a copy races with a later batch.** The failure path
  records no output event, so nothing orders the instance stream behind the copies already on the
  graph stream. `StreamProtocol.SafeIff`: all interleavings are safe if and only if no batch is
  prestaged into a graph whose stray copies may still run (no replay has completed on its stream
  since), or whose end positions such a copy may have taken from another batch (and no full copy
  has renewed them since). That holds for graphs that share a pool stream too, and however often the
  host waits for the instance stream. No hardware fault is needed: `DeviceRuns.FreshRace` gets there
  with three uniform batches of alternating widths. `DeviceRuns.OneWidthIsSafe` is the other side:
  traffic of one width is safe as long as nothing throws in a replay.
- **The width check looks at the second dimension only.** `WarmStart.FirstBatchKind` says exactly how
  the first batch after warmup is executed: prestaged without a capture at the configured widths,
  recaptured where the check sees another width, and a fallback to eager where sizes differ but
  `[0]` has no second dimension, or the configured one and more behind it: then nothing is evicted
  and nothing fits.
  Traffic of one width whose rows have one dimension never falls back for its shape
  (`WarmStart.OneWidthReplays`).
- **The early return at a total batch size of zero releases nothing.** `Responses.ProcessRequests`:
  every request is settled if and only if there is no request, or the model does not batch, or some
  readable size is positive; `Responses.UnreadableBatchHasNoSize` gives a family that is not.
- **The copy pass of the chunk concatenator covers only the first `chunk_count` indices, and copies
  from null chunks among them.** `ContiguousInput.ContiguousIff` says exactly when the result is the
  concatenation, and `ContiguousInput.NullInFront` gives inputs where it is not.
- **The names of the outputs decide how input names are read.** Both callers of
  `GetNamingConvention` pass no allowed names, so it examines the outputs.
  `IndexSlots.NamedSlotsFilledOnceIff` says when the slots are filled once each in that case;
  with outputs `y__0` and inputs `a` and `b` they are not (`IndexSlots.PlainInputsCollide`).
- **`name__i` parses back exactly when the name has no delimiter of its own and does not end in an
  underscore** (`IndexSlots.IndexRoundTripIff`).

Code and comments disagree in two places, and the model follows the code: the header says outputs
are cloned (`src/model_instance_state.hh:204`, `:236`) where the code pushes views of the static
outputs, and a comment in the replay (`src/model_instance_state.cc:695`) speaks of a
`e.stream.synchronize()` after it where the code uses an event.

## Model

| member | source | states |
|---|---|---|
| Padding.PadRequestsUp | src/model_instance_state.cc:409-445 | The loop over the tensors computes the padded batch: every packed tensor scaled from r to bucket requests with zero rows, `[2]` regenerated; None where `narrow` throws |
| Padding.PadUpTo | src/model_instance_state.cc:425-443 | The padded batch exists iff every tensor can be padded, and is made of exactly those padded tensors |
| Padding.PadsIff | src/model_instance_state.cc:425-440 | Padding a batch of any widths to b throws iff the elements of `[1]` exceed their integer mean per request times b |
| Padding.PaddedShapes | src/model_instance_state.cc:422-444 | Shapes and contents of a padded batch: leading dimensions scaled, the batch's data a prefix of each packed tensor |
| Tensors.CoveredForward | src/model_instance_state.cc:413-419 | Buffers that hold a batch in their first r slots give its outputs in the first r rows, whatever else they hold |
| Padding.PaddingPreservesMeaning | src/model_instance_state.cc:413-419 | For all r <= b and all models, the forward pass on the padded batch, cut to r rows, is the forward pass on the batch |
| Padding.PaddedIsPackedIff | src/model_instance_state.cc:430-436 | The padded batch is a well-formed batch of b requests iff its last end position fits the 32-bit index type |
| Padding.ZeroExtendedEndsInvalid | src/model_instance_state.cc:417-419 | End positions extended by zeros are never a layout, which is why they are regenerated |
| Padding.RegeneratedEndsIff | src/model_instance_state.cc:422-436 | Regenerating end positions at the mean width is right for every model iff the batch is uniform |
| Padding.PrefixMeetsTail | src/model_instance_state.cc:1577-1648 | The elements the collector writes and the rows that are zeroed partition the buffer: no gap, no overlap |
| Padding.StagingEqualsPadding | src/model_instance_state.cc:1623-1648 | Over any stale contents, a staged static buffer holds exactly the padded tensor |
| GraphRuns.PrestagingEqualsPadding | src/model_instance_state.cc:1617-1711 | A whole prestaged batch leaves in all three buffers what the slow path would have copied in |
| GraphSpec.ViableWidths | src/model_instance_state.cc:1557-1610 | A viable batch has the widths the entry was captured at, and its prefixes are exactly r slots |
| GraphSpec.PrestagedBatch | src/model_instance_state.cc:1617-1651 | The views handed on after staging are an r-request batch with the batch's payload and the entry's own `[2]`, held by the buffers |
| GraphSpec.SeenBatch | src/model_instance_state.cc:1442-1748 | A prestaged batch always has three tensors and its recomputed r is the total; a batch that is not prestaged is passed on unchanged |
| GraphRuns.CaptureKeepsInv | src/model_instance_state.cc:447-534 | A capture attempt on an unknown bucket, failed or not, keeps cache and negative cache disjoint, entries consistent and attempts bounded |
| GraphRuns.WarmupKeepsInv | src/model_instance_state.cc:779-852 | Warmup keeps the invariants, tries no bucket it has not reached, and leaves only entries at the configured widths, with the end positions of those widths; `WarmStart.WarmupCaptures` says which |
| GraphRuns.SelectSettles | src/model_instance_state.cc:636-675 | The slow path settles on the least bucket that holds r requests and is not in the negative cache afterwards, or on eager because all large enough ones are in it, or throws because the batch cannot be padded to the next one |
| GraphRuns.FindReadyIff | src/model_instance_state.hh:225-230 | The prestaging lookup returns b, and the batch can be brought to b requests, iff the slow path from the same state would pick b without capturing |
| GraphRuns.HealKeepsInv | src/model_instance_state.cc:554-591 | The one-time width check keeps the invariants, evicting or not; `WarmStart.WidthCheckIff` says when it evicts |
| GraphRuns.PrestagedNeverEvicts | src/model_instance_state.cc:583-589 | With a prestaged batch the eviction branch cannot fire, so the pointer never dangles |
| GraphRuns.PartialCopyKeepsEntry | src/model_instance_state.cc:701-705 | A copy pass that stops at any tensor leaves the entry consistent and its `[2]` unchanged |
| GraphRuns.CopyOrderMatters | src/model_instance_state.cc:701-705 | Copying `[2]` before `[1]` would break an entry for inputs of another width |
| GraphRuns.CopiesByShape | src/model_instance_state.cc:701-705 | The shapes and the first copy that throws decide how many copies succeed; without a fault a batch of another width fails after exactly one |
| GraphRuns.ReplayKeepsInv | src/model_instance_state.cc:682-744 | A replay counts exactly once, as a replay or as a fallback, and keeps all invariants |
| GraphRuns.ReplayOutputs | src/model_instance_state.cc:701-725 | The sliced outputs of a completed replay are the eager outputs of the batch |
| GraphRuns.ExecuteKeepsInv | src/model_instance_state.cc:536-680 | One graph call on a batch of any widths, by whichever path: exactly one counter moves, or none and the call throws because padding did, and the invariants are kept |
| GraphRuns.ExecuteRefinesEager | src/model_instance_state.cc:536-680 | One graph call on a uniform batch, by whichever path: outputs, if any, are the eager ones, and the entries stay right |
| GraphRuns.BatchKeepsInv | src/model_instance_state.cc:1115-1162 | One batch of any widths through lookup, collection and execution keeps the invariants; a call that threw is one whose batch got an error |
| GraphRuns.BatchRefinesEager | src/model_instance_state.cc:299-347 | One uniform batch through prestaging, graph path and fallback gets the eager outputs of that batch alone |
| GraphRuns.RunFromRefinesEager | src/model_instance_state.cc:299-347 | From any state whose entries are right, uniform traffic gets the eager outputs and leaves the entries right |
| GraphRuns.RunRefinesEager | src/model_instance_state.cc:299-347 | For any sequence of uniform batches and any failures, all outputs are the eager ones, batch by batch, when device work takes effect in the order the host issues it |
| GraphRuns.ReachableEntries | src/model_instance_state.cc:1699-1711 | In every state uniform traffic reaches, each entry's `[2]` is m, 2m, ..., bm for its own width m; with any traffic no bucket is both cached and failed and the pointer points into the cache |
| GraphRuns.NoRetryStorm | src/model_instance_state.cc:608-613 | Any run makes at most one capture attempt per bucket before and one after the at most one eviction; with an allowlist at most twice its size in all |
| GraphRuns.MetricsConserved | src/model_state.cc:171-221 | Over any run replays plus fallbacks are the graph calls that returned normally, b times the replays of b are the rows served at b plus its pad waste, each of which `DeviceRuns.RowsAccounted` gives batch by batch, and the capture attempts of b are its captures plus its counted failures |
| WarmStart.WarmupCaptures | src/model_instance_state.cc:779-852 | With graphs on and both widths configured, warmup captures exactly the non-negative allowlisted buckets that do not fail, once each, as zeros of the configured shapes with their end positions, and marks exactly the others as known bad; otherwise it does nothing |
| WarmStart.WidthCheckIff | src/model_instance_state.cc:554-591 | The first executed batch that is not prestaged: all entries and known bad buckets stay iff it has the warmup widths at its size, or rows without a second dimension, or no widths are configured; otherwise only what this batch captures or fails to is left |
| WarmStart.ViableIff | src/model_instance_state.cc:1557-1610 | A uniform batch that is not larger than an entry is viable there iff its rows and elements per request are as large as the captured ones, and not empty |
| WarmStart.PrestagedIff | src/model_instance_state.cc:746-777 | In any reachable state a uniform batch of r requests is prestaged at b, the least bucket that holds it and is not known bad, iff b is captured with rows and elements per request as large as its own, for every r up to b |
| WarmStart.FirstBatchKind | src/model_instance_state.cc:554-680 | The first uniform batch after warmup, without faults, exactly: prestaged at the least warmed bucket iff its rows and elements per request are as large as configured; else recaptured at the least bucket if the second dimension or the elements differ; else a fallback |
| WarmStart.FirstBatchPrestaged | src/model_instance_state.cc:779-852 | A uniform first batch at the configured widths is prestaged at the least warmed bucket that holds it, answered rightly and counted there, without any capture |
| WarmStart.OneWidthReplays | src/model_instance_state.cc:554-680 | Traffic of one width with rows of one dimension, whatever the warmup widths and the captures that fail: as long as nothing throws in a replay, every batch is replayed at the least bucket that holds it and is not known bad after it, and run eagerly only if there is none |
| RaggedTraffic.PrestagedRightIff | src/model_instance_state.cc:1699-1711 | Skipping `[2]` is right for every model iff the entry's `[2]` begins with the batch's end positions |
| RaggedTraffic.BatchLeaves | src/model_instance_state.cc:649-705 | A batch of any widths leaves the entries it found with their shapes and `[2]`, except that the one it captured or copied completely now holds the batch at that bucket |
| RaggedTraffic.RightAfterIff | src/model_instance_state.cc:649-705 | From any reachable state, for a batch of any widths and number of elements: afterwards all entries are right iff those it found and did not overwrite were, and it did not write other end positions than those of equal requests into the bucket it fills while its elements are a multiple of it |
| RaggedTraffic.WrongEntryAnswersWrong | src/model_instance_state.cc:1699-1711 | An entry with wrong end positions answers a concrete uniform batch (zeros, same shapes) wrongly |
| RaggedTraffic.FutureRightIff | src/model_instance_state.cc:1699-1711 | From any reachable state, all uniform traffic that may follow, with any faults, is answered rightly for every model iff every entry a batch can be prestaged into has the end positions of its own width, these fitting the index type |
| RaggedTraffic.RaggedFillOverwrites | src/model_instance_state.cc:649-664 | Unequal requests that fill a captured bucket of their shapes are never prestaged and overwrite its `[2]` |
| RaggedTraffic.ExactFillIff | src/model_instance_state.cc:701-705 | From any reachable state with right entries and with any faults: after a batch of any widths all later uniform traffic is answered rightly for every model iff it did not write unequal end positions, by capture or copy, into the bucket it fills with a number of elements that is a multiple of it; for buckets whose end positions fit the index type |
| RaggedTraffic.RaggedAnswerIff | src/model_instance_state.cc:422-436 | From any reachable state with right entries, a batch of any widths that reaches execution is answered rightly for every model iff padding it did not throw, and no padded replay of it completed or its requests are equally wide |
| RaggedTraffic.PaddingThrowsIff | src/model_instance_state.cc:638-664 | From any state, padding throws iff the batch cannot be used at its own size, that being no bucket, known bad or failing its capture, and it does not fit the least larger bucket that is not known bad |
| RaggedTraffic.PaddingThrowsAnswers | src/model_instance_state.cc:349-356 | When padding throws the batch gets an error and neither a replay nor a fallback is counted |
| RaggedTraffic.SmallestThrow | src/model_instance_state.cc:425-440 | Three requests of widths 1, 1 and 3 with the one bucket 4 are answered with an error |
| ModelInstance.CloneInputs | src/model_instance_state.cc:478-484 | Static inputs are fresh, pairwise distinct buffers with the given shapes and contents |
| ModelInstance.CopyInputs | src/model_instance_state.cc:701-705 | The in-place copy pass stops at the first copy that throws; the buffers then hold new tensors before it and old ones from it on |
| ModelInstance.StageInput | src/model_instance_state.cc:1623-1648 | One payload written at the start of its static buffer and the tail zeroed, in place |
| ModelInstance.StageEntry | src/model_instance_state.cc:1617-1651 | Both payloads staged into the buffers of an entry, `[2]` untouched |
| ModelInstance.GraphCache.Capture | src/model_instance_state.cc:505-508 | A captured entry is added under its bucket with buffers no other entry uses |
| ModelInstance.GraphCache.CopyIn | src/model_instance_state.cc:701-705 | Copying into one entry changes that entry's contents only |
| ModelInstance.GraphCache.Stage | src/model_instance_state.cc:1617-1651 | Staging into one entry changes that entry's contents only |
| ModelInstance.ModelInstanceState.CaptureBucket | src/model_instance_state.cc:447-534 | The whole new state of a capture: entry or negative cache, counter |
| ModelInstance.ModelInstanceState.ReplayCudaGraphEntry | src/model_instance_state.cc:682-744 | The whole new state and outputs of a replay with or without copies, completed or failed |
| ModelInstance.ModelInstanceState.FindReadyCudaGraphEntry | src/model_instance_state.cc:746-777 | The loop from lower_bound finds what the lookup specifies |
| ModelInstance.ModelInstanceState.SelectBucket | src/model_instance_state.cc:605-675 | The early-exit loop captures, skips and picks as specified, and returns the batch at the picked bucket |
| ModelInstance.ModelInstanceState.WarmupCudaGraphs | src/model_instance_state.cc:779-852 | The warmup loop reaches the specified state, and never meets a bucket it already captured |
| ModelInstance.ModelInstanceState.HealWidths | src/model_instance_state.cc:554-591 | The width check empties both caches and drops the pointer on a mismatch, once |
| ModelInstance.ModelInstanceState.SetInputTensors | src/model_instance_state.cc:1552-1748 | All inputs become views of one entry's buffers or none do; either way their contents are as specified |
| ModelInstance.ModelInstanceState.ExecuteWithCudaGraph | src/model_instance_state.cc:536-680 | The graph call reaches the specified state; views it was given still hold the batch when it falls back |
| ModelInstance.ModelInstanceState.Execute | src/model_instance_state.cc:299-347 | The graph path with its eager fallback on the same inputs computes what the state machine says |
| ModelInstance.ModelInstanceState.ProcessRequests | src/model_instance_state.cc:1115-1162 | Lookup, collection, graph path and eager run together compute one step of the state machine |
| ModelInstance.ModelInstanceState.Serve | src/model_instance_state.cc:969-1284 | Warmup and then any sequence of batches on real buffers is a run of the state machine; with uniform traffic all outputs are the eager ones |
| StreamProtocol.SameAsHostOrder | src/model_instance_state.cc:698-716 | When every change of stream is guarded by a wait on a later record and nothing spoiled is read, any device order has had the effect of a prefix of the host's order, except on static inputs that copies of a failed replay spoil |
| StreamProtocol.NeverStuck | src/model_instance_state.cc:698-716 | No wait of a stream or of the host deadlocks: whatever has run, the oldest task that has not may run |
| StreamProtocol.ProgramHandsOver | src/model_instance_state.cc:682-743 | What the host issues for any sequence of batches, failed and aborted ones included, guards every change of stream |
| StreamProtocol.HostOrderRight | src/model_instance_state.cc:682-743 | In host order every answer is the batch's own, whatever the batches were, and at the end all are given |
| StreamProtocol.EveryInterleavingSafe | src/model_instance_state.cc:682-743 | In every interleaving, over any batches that are not prestaged into a dirty graph, replays read their own batch's inputs and the end positions the host's order says, and responses carry their own batch's outputs; graphs may share streams |
| StreamProtocol.EverythingAnswered | src/model_instance_state.cc:1384-1402 | Under the same condition, when the device has run everything, in any order, every batch that was not aborted has been answered rightly |
| StreamProtocol.DirtyStagingRaces | src/model_instance_state.cc:733-743 | A replay that throws after a copy, and a later batch prestaged on that graph whose stream was not waited for in between: some interleaving that respects any host waits on the instance stream answers that batch from another's inputs |
| StreamProtocol.SpoiledEndsRace | src/model_instance_state.cc:733-743 | A replay that throws after copying the end positions, another batch written to the temporaries before that copy is waited for, and a later batch prestaged on that graph before the end positions are copied again: some interleaving reads them from the batch in between, even if a completed replay has cleared the payload |
| StreamProtocol.SafeIff | src/model_instance_state.cc:682-743 | For any graph streams, shared or not, and any host waits, all interleavings are safe iff no batch is prestaged into a dirty graph and read there: one with stray copies that may still run, or whose end positions they may have spoiled |
| StreamProtocol.FailedReplaySafeIff | src/model_instance_state.cc:733-743 | After any replays without half-done failures, a failed replay is harmless to everything that may follow iff no copy was enqueued, whatever the host waits for |
| DeviceRuns.KindMatches | src/model_instance_state.cc:536-744 | The way each batch of a run is executed on the device is the one the state machine counts and answers: one replay of its bucket and the rows it is short of it, or one fallback, or nothing |
| DeviceRuns.RowsAccounted | src/model_instance_state.cc:726-731 | Over any run, the replays of b are the batches replayed there, its pad waste is the sum of b minus their sizes, and b times the replays is that plus the sum of their sizes |
| DeviceRuns.CleanIff | src/model_instance_state.cc:698-743 | A run leaves no graph dirty iff none of its slow replays stops after its first copy |
| DeviceRuns.DeviceRefinesEager | src/model_instance_state.cc:682-743 | Any run from the start: in every interleaving the device answers every batch from its own inputs iff no batch is prestaged into a dirty graph; with uniform traffic the state machine's answers to it are the eager ones |
| DeviceRuns.OneWidthIsSafe | src/model_instance_state.cc:559-591 | Traffic of one width is safe in every interleaving, whatever the warmup widths, capture failures and aborted batches, as long as nothing throws in a replay |
| DeviceRuns.AlternatingWidthsRace | src/model_instance_state.cc:701-743 | In any run, an entry at the shapes of x, then a uniform batch of another width, then x: some interleaving answers x wrongly without any fault |
| DeviceRuns.FreshRace | src/model_instance_state.cc:701-743 | Three uniform batches without faults, on an instance without warmup, are enough for that |
| DeviceAnswers.EntriesHoldEnds | src/model_instance_state.cc:649-705 | In any run of any batches, static input `[2]` of every entry holds the end positions, at that bucket, of the batch that the stream model says was last copied into it, or those of the capture |
| DeviceAnswers.DeviceAnswersEager | src/model_instance_state.cc:299-347 | Uniform traffic from the start that prestages nothing into a dirty graph: in every interleaving, every answer the device has given, read as the tensors of the batches its parts came from, is the eager answer of that batch alone; when everything has run all batches that reached execution have theirs |
| CsvBuckets.ParseCsvInt64Set | src/cuda_graph_bucketing.h:44-64 | For every string, the set of values of all comma-separated tokens that parse |
| CsvBuckets.TokensSeparate | src/cuda_graph_bucketing.h:49-62 | Tokens contain no comma and join back to the input |
| CsvBuckets.SplitJoin | src/cuda_graph_bucketing.h:49-62 | Splitting undoes joining for any comma-free tokens |
| CsvBuckets.ParsePrinted | src/cuda_graph_bucketing.h:44-64 | Parsing the comma-joined decimal print of any 64-bit numbers gives exactly their set |
| CsvBuckets.StollIff | src/cuda_graph_bucketing.h:53-57 | A token has value v iff it writes v in that way and v fits 64 bits |
| Digits.ReadPrinted | src/cuda_graph_bucketing.h:53-57 | Reading a printed integer gives it back |
| Digits.ReadIntIff | src/cuda_graph_bucketing.h:53-57 | A token reads as v iff it is white space, an optional sign, digits that with the sign write v, and a tail that does not begin with a digit |
| Digits.PrintInjective | src/model_instance_state.cc:452 | Decimal print is injective on all integers |
| ShapeKeys.InputShapeKey | src/model_instance_state.cc:392-407 | The two loops build the key of the list of shapes |
| ShapeKeys.InputShapeKeyInjective | src/model_instance_state.cc:392-407 | Lists of shapes have the same key iff they are equal |
| ShapeKeys.BucketKeyInjective | src/model_instance_state.cc:452 | Buckets have the same key iff they are equal |
| ShapeKeys.KeysStandForBuckets | src/model_instance_state.cc:640-675 | A map by key and the map by bucket it stands for stay in step: lookups agree and inserting keeps the correspondence |
| IndexSlots.GetNamingConvention | src/model_instance_state.cc:855-908 | Named indexes are chosen iff every examined name is of that form; the outputs' names are examined when no names are allowed, as for both callers, the inputs' otherwise |
| IndexSlots.IndexRoundTripIff | src/model_instance_state.cc:219-239 | `name__i` is recognised and gives i back iff the name holds no delimiter and does not end in an underscore |
| IndexSlots.IsIndexedIff | src/model_instance_state.cc:881-905 | A name is of the indexed form iff it is a plain name, the delimiter and digits |
| IndexSlots.NumberedReads | src/model_instance_state.cc:219-231 | A plain name, the delimiter and digits: the index is the number the digits write, 0 if there are none |
| IndexSlots.ValidateInputs | src/model_instance_state.cc:1799-1905 | The outputs' names decide the convention for the inputs: with all of them indexed, a name that is a plain name, the delimiter and digits gets the number they write, otherwise declared inputs take the first slots and batch-input targets the following; later duplicates win |
| IndexSlots.SlotsFilledOnceIff | src/model_instance_state.cc:1457-1742 | Under strict ordering, every slot is filled exactly once iff all names are distinct and each batch input has one target |
| IndexSlots.NamedSlotsFilledOnceIff | src/model_instance_state.cc:1457-1742 | Under named indexes, every slot is filled exactly once iff each batch input has one target and the numbers read off the names are slots, no two equal |
| IndexSlots.NumberedInputsFill | src/model_instance_state.cc:1457-1742 | With indexed outputs and inputs called `name__i`, every slot is filled exactly once iff the indexes are a permutation of the slots, and then slot i ends up with the input of index i |
| IndexSlots.PlainInputsCollide | src/model_instance_state.cc:1819-1820 | An indexed output name makes two plain input names fill slot 0 twice and slot 1 never |
| IndexSlots.SlotsHoldInputs | src/model_instance_state.cc:1457-1742 | With distinct names slot k ends up with the k-th input |
| IndexSlots.FillSlots | src/model_instance_state.cc:1617-1742 | The stores that collection makes: each slot holds the last input stored there, or what it held |
| GatherScatter.GatherTensors | src/model.py:139-155 | Gathering concatenates each tensor over all requests and records the leading dimensions |
| GatherScatter.ScatterTensors | src/model.py:158-170 | Scattering cuts every tensor by the sections, or fails where `torch.split` does |
| GatherScatter.GatherScatterIff | src/model.py:139-170 | Scattering the gathered tensors gives the requests back iff leading dimensions agree within each request |
| GatherScatter.ScatterGather | src/model.py:139-170 | Gathering scattered pieces gives the tensors and the sections back |
| GatherScatter.BatchedEqualsAlone | src/model.py:279-293 | For a row-wise model one batched run, scattered, is every request run alone |
| GatherScatter.Execute | src/model.py:265-307 | One response per request, in order, with the declared outputs of that request run alone, batching or not |
| Responses.RunStages | src/model_instance_state.cc:1100-1218 | After all stages a response is still held iff nothing that failed concerns it; the others were answered once, with an error |
| Responses.TotalIs | src/model_instance_state.cc:1043-1086 | The total is the number of requests without batching, the sum of the readable sizes with it, and positive iff some request brings a size |
| Responses.ProcessRequests | src/model_instance_state.cc:1016-1284 | Each request is answered, reported and released exactly once, success iff its results went out, iff there is none, or the model does not batch, or some readable size is positive; the results of a request go out iff the batch has an allowed size and none of the failures, listed one by one, concerns it |
| Responses.UnreadableBatchHasNoSize | src/model_instance_state.cc:1043-1085 | A batching model whose inputs all cannot be read reaches the early return |
| LoaderSharing.Effective | src/model_state.cc:600-617 | CUDA graphs force weight sharing off and change nothing else |
| LoaderSharing.ModelState.LoadModel | src/model_state.cc:375-474 | The whole new state and loader of one load: reuse, failure, or a new loader with its thread mode and runners |
| LoaderSharing.SharedIff | src/model_state.cc:401-471 | Over any loads, two instances that loaded share a loader iff sharing is on, graphs are off and the devices are equal |
| LoaderSharing.LoadedIff | src/model_state.cc:388-462 | An instance gets a loader iff its package is there, and it loads or, with sharing and without graphs, an earlier one on the same device did |
| LoaderSharing.RunnersByMode | src/model_state.cc:429-446 | Over any loads, a loader is single-threaded iff CUDA graphs are on; it has one runner per instance when it is shared and one runner otherwise |
| LoaderSharing.LoadInstances | src/model_state.cc:375-474 | Loading instances one after the other gives the loaders the theorems speak of |
| ContiguousInput.Survey | src/string_utils.cc:50-69 | The first pass: how many chunks are not null, their total size, whether one is on a GPU, or the first error |
| ContiguousInput.GetContiguousInputContent | src/string_utils.cc:42-107 | Two passes, in place: an error of either pass, a chunk as it is, or the copied block, for every chunk list, null chunks of any size included |
| ContiguousInput.CopyChunks | src/string_utils.cc:81-104 | The copy loop writes the first `count` chunks in order from the start of the buffer and nothing else, or stops at the first copy that fails |
| ContiguousInput.ContiguousIff | src/string_utils.cc:50-104 | The result is the in-order concatenation of all non-null chunks iff no null chunk with a size is among the first `chunk_count` indices and every chunk behind them is empty, or holds zero bytes only and chunks are copied |
| ContiguousInput.ErrorIff | src/string_utils.cc:50-107 | The caller gets an error iff some buffer cannot be had, or chunks are copied, one of the first `chunk_count` cannot be, and no null chunk with a size comes before it |
| ContiguousInput.NullInFront | src/string_utils.cc:50-104 | A null chunk in front loses data, with and without copying |
| ContiguousInput.PrefixIsContiguous | src/string_utils.cc:50-104 | When the non-null chunks form a prefix the result is their concatenation |

## Left out

- Uniform traffic is assumed where the code assumes it (`GraphSpec.UniformBatch`): equal, non-zero elements per request, at least one request. `RaggedTraffic` and `Padding.RegeneratedEndsIff` say what happens otherwise.
- Broadcasting in `copy_`: a copy between different shapes is a failed copy, so size-1 dimensions that PyTorch would broadcast are not modelled.
- The order of `clone` in a capture after the producers of the batch: assumed, since no event enforces it; captures and warmup do not appear in the stream model.
- Outputs with a leading dimension other than the number of requests: every output has one row per request, so `narrow` on outputs never throws and nothing is pushed before a fallback.
- Exceptions of the eager run, and of padding beyond `narrow`: the response side of an exception is in `Responses`.
- Viability checks on data type, contiguity and device, and prestaging with another index map than two declared inputs and one batch input in slots 0, 1, 2.
- GraphSpec.SeenBatch: does not model requests of several rows, or fewer elements in `[1]` than requests. The lookup uses the total batch size (`src/model_instance_state.cc:1115-1121`) and the slow path the smallest leading dimension (`:549-552`); one row per request, one end position per request and an element of `[1]` per request on average are assumed, and then `GraphSpec.BatchRows` shows the two agree.
- Batches for models without batching: the row count of a three-tensor batch is the total batch size.
- Batches that fail before collection: they only clear the prestaged pointer, which the next batch sets anew.
- Reading a shape after `TRITONBACKEND_InputProperties` failed (`src/model_instance_state.cc:1052-1054`): such a request counts as bringing no size.
- Requests whose payload fails to collect while others succeed: the slots they would have filled are not modelled.
- GraphRuns.RunRefinesEager: does not model interleavings; device work takes effect in the order the host issues it. `DeviceAnswers.DeviceAnswersEager` is about the device.
- Waits of the host for a graph stream (in captures), `cudaStreamQuery` and event timing: they only remove interleavings.
- The instance kind with several devices and streams, and the CPU instance beyond the graph path being off.
- IndexSlots.IndexRoundTripIff: numbers are unbounded, so an index beyond the range of `std::atoi` is not covered.
- Output names beyond their part in the convention, empty names, sequence control inputs and their validation.
- Null requests in `ProcessRequests`, statistics values, timestamps, NVTX ranges and logging.
- The server API, JSON configuration, metric handles, the collector and responder libraries: only what their call sites rely on is modelled.
- AOTInductor and CUDA internals: a capture succeeds or fails, a replay applies the forward function to the static inputs. Floating-point values are opaque.
- Model loading, `torch.compile`, DLPack conversion and device moves in `src/model.py`; `torch.cat` and `torch.split` act on rows.
- Data type tables, parameter getters and the remaining string helpers.
