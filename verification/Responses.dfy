/** Who answers and releases what in `ProcessRequests`: every response sent once, every request
    released once, whatever fails along the way. */
module Responses {
  import opened Basics

  /** Sent: the response of request i went out, as an error or with its results. Reported:
      statistics for request i. Released: request i handed back. */
  datatype Event = Sent(i: nat, error: bool) | Reported(i: nat, success: bool) | Released(i: nat)

  /** A step that may fail for single requests and may fail for the whole batch. */
  datatype Stage = Stage(individual: set<nat>, whole: bool)

  /** created: which responses could be created. sizes: the batch size of each request, None when
      its first input cannot be read. The booleans are failures of the whole batch. */
  datatype Faults = Faults(
    created: seq<bool>, sizes: seq<Option<nat>>, maxBatch: nat, startEvent: bool, collect: Stage,
    inputTimestamp: bool, execute: bool, badIndex: bool, outputTimestamp: bool, outputs: Stage)

  predicate Fits(f: Faults, n: nat) {
    |f.created| == n && |f.sizes| == n
  }

  /** `total_batch_size`: without batching every request counts as one. */
  function Total(f: Faults, n: nat): nat
    requires n <= |f.sizes|
  {
    if n == 0 then 0
    else Total(f, n - 1) +
         if f.maxBatch == 0 then 1 else match f.sizes[n - 1] case Some(s) => s case None => 0
  }

  predicate SizeFails(f: Faults, n: nat)
    requires n <= |f.sizes|
  {
    f.maxBatch > 0 && exists i :: 0 <= i < n && f.sizes[i].None?
  }

  /** The sizes that could be read, added up. */
  function ReadableSum(sizes: seq<Option<nat>>): nat {
    if sizes == [] then 0 else
    var last := sizes[|sizes| - 1];
    ReadableSum(sizes[..|sizes| - 1]) + (if last.Some? then last.value else 0)
  }

  /** Some request brings a batch size. */
  predicate Sized(f: Faults, n: nat)
    requires n <= |f.sizes|
  {
    n > 0 && (f.maxBatch == 0 || exists i :: 0 <= i < n && f.sizes[i].Some? && f.sizes[i].value > 0)
  }

  /** The total is the number of requests without batching, the sum of the readable sizes with it,
      and positive exactly when some request brings a size. */
  lemma {:induction false} TotalIs(f: Faults, n: nat)
    requires n <= |f.sizes|
    ensures Total(f, n) == if f.maxBatch == 0 then n else ReadableSum(f.sizes[..n])
    ensures Total(f, n) > 0 <==> Sized(f, n)
  {
    if n > 0 {
      TotalIs(f, n - 1);
      assert f.sizes[..n][..n - 1] == f.sizes[..n - 1];
    }
  }

  /** The batch is larger than allowed: without batching one request is. */
  predicate TooLarge(f: Faults, n: nat)
    requires n <= |f.sizes|
  {
    if f.maxBatch == 0 then n > 1 else ReadableSum(f.sizes[..n]) > f.maxBatch
  }

  predicate BatchFails(f: Faults, n: nat)
    requires Fits(f, n)
  {
    || SizeFails(f, n) || TooLarge(f, n)
    || f.startEvent || f.collect.whole || f.inputTimestamp || f.execute || f.badIndex
    || f.outputTimestamp || f.outputs.whole
  }

  /** Nothing that failed concerns request i. */
  predicate Survives(f: Faults, n: nat, i: nat)
    requires Fits(f, n) && i < n
  {
    f.created[i] && !BatchFails(f, n) && i !in f.collect.individual && i !in f.outputs.individual
  }

  function Count(trace: seq<Event>, e: Event): nat {
    multiset(trace)[e]
  }

  /** While processing: a response is either still held and unsent, or was sent once, as an
      error; nothing has been reported or released. */
  predicate Holds(live: seq<bool>, created: seq<bool>, trace: seq<Event>) {
    && |live| == |created|
    && forall i :: 0 <= i < |live| ==>
      && (live[i] ==> created[i])
      && Count(trace, Sent(i, true)) == (if created[i] && !live[i] then 1 else 0)
      && Count(trace, Sent(i, false)) == 0 && Untouched(trace, i)
  }

  predicate Untouched(trace: seq<Event>, i: nat) {
    Count(trace, Reported(i, true)) == 0 && Count(trace, Reported(i, false)) == 0 && Count(trace, Released(i)) == 0
  }

  /** Send the error and null the response, for those of the given requests that still have one. */
  method Respond(live: seq<bool>, created: seq<bool>, trace: seq<Event>, all: bool, which: set<nat>)
    returns (live': seq<bool>, trace': seq<Event>)
    requires Holds(live, created, trace)
    ensures Holds(live', created, trace')
    ensures forall i :: 0 <= i < |live| ==> live'[i] == (live[i] && !all && i !in which)
  {
    live', trace' := live, trace;
    var i := 0;
    while i < |live|
      invariant 0 <= i <= |live| && Holds(live', created, trace')
      invariant forall j :: 0 <= j < |live| ==> live'[j] == (live[j] && (all || j in which ==> j >= i))
    {
      if (all || i in which) && live'[i] {
        live' := live'[i := false];
        trace' := trace' + [Sent(i, true)];
      }
      i := i + 1;
    }
  }

  /** RESPOND_ALL...: an error of the whole batch goes to everyone still waiting. */
  method RespondAll(live: seq<bool>, created: seq<bool>, trace: seq<Event>, failed: bool, err: bool)
    returns (live': seq<bool>, trace': seq<Event>, failed': bool)
    requires Holds(live, created, trace)
    ensures Holds(live', created, trace') && failed' == (failed || err)
    ensures forall i :: 0 <= i < |live| ==> live'[i] == (live[i] && !err)
  {
    live', trace', failed' := live, trace, failed || err;
    if err {
      live', trace' := Respond(live, created, trace, true, {});
    }
  }

  /** The batch sizes are added up; a request whose input cannot be read fails the batch. */
  method AddSizes(live: seq<bool>, trace: seq<Event>, f: Faults, n: nat)
    returns (live': seq<bool>, trace': seq<Event>, failed: bool, total: nat)
    requires Fits(f, n) && Holds(live, f.created, trace) && live == f.created
    ensures Holds(live', f.created, trace')
    ensures total == Total(f, n) && failed == SizeFails(f, n)
    ensures forall i :: 0 <= i < n ==> live'[i] == (live[i] && !failed)
  {
    live', trace', failed, total := live, trace, false, 0;
    var i := 0;
    while i < n
      invariant 0 <= i <= n && Holds(live', f.created, trace')
      invariant total == Total(f, i) && failed == SizeFails(f, i)
      invariant forall j :: 0 <= j < n ==> live'[j] == (live[j] && !failed)
    {
      if f.maxBatch > 0 {
        if f.sizes[i].Some? {
          total := total + f.sizes[i].value;
        }
        live', trace', failed := RespondAll(live', f.created, trace', failed, f.sizes[i].None?);
      } else {
        total := total + 1;
      }
      i := i + 1;
    }
  }

  /** Everything between the batch size and the final sends, guarded as the code guards it. */
  method RunStages(live: seq<bool>, trace: seq<Event>, f: Faults, n: nat, failedBefore: bool, total: nat)
    returns (live': seq<bool>, trace': seq<Event>)
    requires Fits(f, n) && Holds(live, f.created, trace)
    requires failedBefore == SizeFails(f, n) && total == Total(f, n)
    requires forall i :: 0 <= i < n ==> live[i] == (f.created[i] && !failedBefore)
    ensures Holds(live', f.created, trace')
    ensures forall i :: 0 <= i < n ==> live'[i] == Survives(f, n, i)
  {
    TotalIs(f, n);
    live', trace' := live, trace;
    var failed, invalidIndex := failedBefore, false;
    if !failed {
      live', trace', failed := RespondAll(live', f.created, trace', failed, total != 1 && total > f.maxBatch);
    }
    live', trace', failed := RespondAll(live', f.created, trace', failed, f.startEvent);
    if !failed {
      live', trace' := Respond(live', f.created, trace', false, f.collect.individual);
      live', trace', failed := RespondAll(live', f.created, trace', failed, f.collect.whole);
    }
    live', trace', failed := RespondAll(live', f.created, trace', failed, f.inputTimestamp);
    if !failed {
      // An exception in Execute nulls the responses without setting the flag.
      var ignored;
      live', trace', ignored := RespondAll(live', f.created, trace', failed, f.execute);
    }
    if !failed {
      live', trace', failed := RespondAll(live', f.created, trace', failed, f.badIndex);
      invalidIndex := f.badIndex;
    }
    live', trace', failed := RespondAll(live', f.created, trace', failed, f.outputTimestamp);
    if !failed && !invalidIndex {
      live', trace' := Respond(live', f.created, trace', false, f.outputs.individual);
      live', trace', failed := RespondAll(live', f.created, trace', failed, f.outputs.whole);
    }
  }

  /** Request i was answered once, reported once and released once, and reported as a success
      exactly when its results went out. */
  predicate Settled(f: Faults, n: nat, trace: seq<Event>, i: nat)
    requires Fits(f, n) && i < n
  {
    && Count(trace, Sent(i, false)) == (if Survives(f, n, i) then 1 else 0)
    && Count(trace, Sent(i, true)) == (if f.created[i] && !Survives(f, n, i) then 1 else 0)
    && Count(trace, Reported(i, true)) == (if Survives(f, n, i) then 1 else 0)
    && Count(trace, Reported(i, false)) == (if Survives(f, n, i) then 0 else 1)
    && Count(trace, Released(i)) == 1
  }

  /** All responses answered, nothing reported or released yet. */
  predicate Answered(f: Faults, n: nat, trace: seq<Event>, i: nat)
    requires Fits(f, n) && i < n
  {
    && Count(trace, Sent(i, false)) == (if Survives(f, n, i) then 1 else 0)
    && Count(trace, Sent(i, true)) == (if f.created[i] && !Survives(f, n, i) then 1 else 0)
    && Untouched(trace, i)
  }

  /** Send what is still held; the responses are not nulled. */
  method SendRest(live: seq<bool>, trace: seq<Event>, f: Faults, n: nat) returns (trace': seq<Event>)
    requires Fits(f, n) && Holds(live, f.created, trace) && forall i :: 0 <= i < n ==> live[i] == Survives(f, n, i)
    ensures forall i :: 0 <= i < n ==> Answered(f, n, trace', i)
  {
    trace' := trace;
    var i := 0;
    while i < n
      invariant 0 <= i <= n
      invariant forall j :: 0 <= j < n ==>
        && Count(trace', Sent(j, false)) == (if live[j] && j < i then 1 else 0)
        && Count(trace', Sent(j, true)) == (if f.created[j] && !live[j] then 1 else 0)
        && Untouched(trace', j)
    {
      if live[i] {
        trace' := trace' + [Sent(i, false)];
      }
      i := i + 1;
    }
  }

  lemma AddRelease(trace: seq<Event>, i: nat, success: bool, j: nat)
    ensures var after := trace + [Reported(i, success), Released(i)];
      && Count(after, Sent(j, true)) == Count(trace, Sent(j, true))
      && Count(after, Sent(j, false)) == Count(trace, Sent(j, false))
      && Count(after, Reported(j, true)) == Count(trace, Reported(j, true)) + (if i == j && success then 1 else 0)
      && Count(after, Reported(j, false)) == Count(trace, Reported(j, false)) + (if i == j && !success then 1 else 0)
      && Count(after, Released(j)) == Count(trace, Released(j)) + (if i == j then 1 else 0)
  {}

  /** Report and release every request; success is whether its response was not nulled. */
  method ReleaseAll(live: seq<bool>, trace: seq<Event>, f: Faults, n: nat) returns (trace': seq<Event>)
    requires Fits(f, n) && |live| == n && forall i :: 0 <= i < n ==> live[i] == Survives(f, n, i)
    requires forall i :: 0 <= i < n ==> Answered(f, n, trace, i)
    ensures forall i :: 0 <= i < n ==> Settled(f, n, trace', i)
  {
    trace' := trace;
    var i := 0;
    while i < n
      invariant 0 <= i <= n
      invariant forall j :: 0 <= j < i ==> Settled(f, n, trace', j)
      invariant forall j :: i <= j < n ==> Answered(f, n, trace', j)
    {
      ghost var before := trace';
      trace' := trace' + [Reported(i, live[i]), Released(i)];
      forall j | 0 <= j < n
        ensures j < i ==> Settled(f, n, trace', j)
        ensures j == i ==> Settled(f, n, trace', j)
        ensures j > i ==> Answered(f, n, trace', j)
      {
        AddRelease(before, i, live[i], j);
        if j < i {
          assert Settled(f, n, before, j);
        } else {
          assert Answered(f, n, before, j);
        }
      }
      i := i + 1;
    }
  }

  /** `ProcessRequests` without null requests: every request is settled if and only if there is none,
      or the model does not batch, or some readable size is positive; otherwise the early return
      releases none of them. The results of a request go out exactly when nothing failed that
      concerns it: not one thing of the whole batch, and nothing of its own. */
  method ProcessRequests(f: Faults, n: nat) returns (trace: seq<Event>)
    requires Fits(f, n)
    ensures (forall i :: 0 <= i < n ==> Settled(f, n, trace, i)) <==>
            n == 0 || f.maxBatch == 0 || exists i :: 0 <= i < n && f.sizes[i].Some? && f.sizes[i].value > 0
    ensures !Sized(f, n) ==> forall i :: 0 <= i < n ==> Untouched(trace, i)
    ensures forall i :: 0 <= i < n ==> (Count(trace, Sent(i, false)) == 1 <==>
              && f.created[i] && i !in f.collect.individual && i !in f.outputs.individual
              && (f.maxBatch == 0 ==> n == 1)
              && (f.maxBatch > 0 ==>
                    && (forall j :: 0 <= j < n ==> f.sizes[j].Some?)
                    && 0 < ReadableSum(f.sizes) <= f.maxBatch)
              && !f.startEvent && !f.collect.whole && !f.inputTimestamp && !f.execute && !f.badIndex
              && !f.outputTimestamp && !f.outputs.whole)
    ensures forall i :: 0 <= i < n ==> Count(trace, Sent(i, false)) <= 1
  {
    var live, failed, total;
    TotalIs(f, n);
    assert f.sizes[..n] == f.sizes;
    live, trace, failed, total := AddSizes(f.created, [], f, n);
    if total == 0 {
      assert n > 0 ==> !Settled(f, n, trace, 0);
      return;
    }
    live, trace := RunStages(live, trace, f, n, failed, total);
    trace := SendRest(live, trace, f, n);
    trace := ReleaseAll(live, trace, f, n);
    assert forall i :: 0 <= i < n && Settled(f, n, trace, i) ==>
      Count(trace, Sent(i, false)) == if Survives(f, n, i) then 1 else 0;
  }

  /** The early return loses requests in particular when none of their inputs can be read:
      all are answered, with errors, and none is released. */
  lemma UnreadableBatchHasNoSize(f: Faults, n: nat)
    requires Fits(f, n) && f.maxBatch > 0 && forall i :: 0 <= i < n ==> f.sizes[i].None?
    ensures Total(f, n) == 0
  {
    UnreadablePrefix(f, n, n);
  }

  lemma {:induction false} UnreadablePrefix(f: Faults, n: nat, k: nat)
    requires Fits(f, n) && f.maxBatch > 0 && k <= n && forall i :: 0 <= i < n ==> f.sizes[i].None?
    ensures Total(f, k) == 0
  {
    if k > 0 {
      UnreadablePrefix(f, n, k - 1);
    }
  }
}
