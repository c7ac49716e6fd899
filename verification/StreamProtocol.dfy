/** The two-stream event protocol of a replay. The host only enqueues work; the device runs the
    instance stream and the graph streams as FIFO queues in any interleaving that respects the
    recorded events and the points where the host waits. What is at stake is which batch each
    buffer belongs to, so buffers hold batch numbers. */
module StreamProtocol {

  /** Stream 0 is the instance stream; every graph replays on some other stream. */
  const INSTANCE: nat := 0

  /** Pad: the batch's inputs (padded or not) are written to the temporaries. Stage: they are
      collected into the static inputs of graph b. Copy: static input i of b from its temporary.
      Stray: the same, enqueued on stream g by a replay that then threw. Replay: b's outputs from
      its static inputs. Emit: the response copies read b's outputs. Eager, EagerStaged: the eager
      run on the temporaries, or on views of b's static inputs. Wait: for an event recorded on
      stream g. */
  datatype Op =
    | Pad(n: nat)
    | Stage(n: nat, b: nat)
    | Copy(b: nat, i: nat)
    | Stray(b: nat, i: nat, g: nat)
    | Replay(b: nat)
    | Emit(n: nat, b: nat)
    | Eager(n: nat)
    | EagerStaged(n: nat, b: nat)
    | Record(e: nat)
    | Wait(e: nat, g: nat)

  datatype Task = Task(stream: nat, op: Op)

  /** Which batch the temporaries, static inputs, outputs and responses come from; -1 is the
      contents of the capture. The last two say where stray copies matter in the host's order.
      `pending`: static inputs with a stray copy, and its stream, that may not have run. `spoiled`:
      static inputs that a stray copy may leave with something else than in the host's order. */
  datatype Memory = Memory(
    temp: int, statics: map<(nat, nat), int>, outputs: map<nat, seq<int>>, results: map<nat, seq<int>>,
    pending: set<(nat, nat, nat)>, spoiled: set<(nat, nat)>)

  const BLANK := Memory(-1, map[], map[], map[], {}, {})

  function Static(m: Memory, b: nat, i: nat): int {
    if (b, i) in m.statics then m.statics[(b, i)] else -1
  }

  function Inputs(m: Memory, b: nat): seq<int> {
    [Static(m, b, 0), Static(m, b, 1), Static(m, b, 2)]
  }

  /** A pending stray copy may read the new temporaries. */
  function SpoiledByPad(m: Memory): set<(nat, nat)> {
    m.spoiled + set p | p in m.pending :: (p.1, p.2)
  }

  /** Staging settles the two payload inputs, unless a pending stray copy may come after it. */
  function SpoiledByStage(m: Memory, b: nat): set<(nat, nat)> {
    (set k | k in m.spoiled && !(k.0 == b && k.1 < 2))
    + (set p | p in m.pending && p.1 == b && p.2 < 2 :: (p.1, p.2))
  }

  function Apply(op: Op, m: Memory): Memory {
    match op
    case Pad(n) => m.(temp := n, spoiled := SpoiledByPad(m))
    case Stage(n, b) => m.(statics := m.statics[(b, 0) := n][(b, 1) := n], spoiled := SpoiledByStage(m, b))
    case Copy(b, i) =>
      m.(statics := m.statics[(b, i) := m.temp], spoiled := m.spoiled - {(b, i)},
         pending := set p | p in m.pending && !(p.1 == b && p.2 == i))
    case Stray(b, i, g) =>
      m.(statics := m.statics[(b, i) := m.temp], spoiled := m.spoiled - {(b, i)}, pending := m.pending + {(g, b, i)})
    case Replay(b) => m.(outputs := m.outputs[b := Inputs(m, b)])
    case Emit(n, b) => m.(results := m.results[n := if b in m.outputs then m.outputs[b] else []])
    case Eager(n) => m.(results := m.results[n := [m.temp, m.temp, m.temp]])
    case EagerStaged(n, b) => m.(results := m.results[n := Inputs(m, b)])
    case Record(e) => m
    case Wait(e, g) => if g == INSTANCE then m else m.(pending := set p | p in m.pending && p.0 != g)
  }

  // ---- Device: any interleaving ----

  /** After which operations on the instance stream the host waits for that stream. */
  type HostWaits = Op -> bool

  /** The host has issued task i: every wait it went through before was satisfied. */
  ghost predicate Issued(tasks: seq<Task>, done: set<nat>, i: nat, waits: HostWaits)
    requires i < |tasks|
  {
    forall q, s :: 0 <= q <= s < i && tasks[q].stream == INSTANCE && waits(tasks[s].op) ==> q in done
  }

  /** Task i may run next: it has been issued, it is at the head of its stream, and if it is a
      wait, every record of that event issued before it has run. */
  ghost predicate CanRun(tasks: seq<Task>, done: set<nat>, i: nat, waits: HostWaits) {
    && i < |tasks| && i !in done && Issued(tasks, done, i, waits)
    && (forall j :: 0 <= j < i && tasks[j].stream == tasks[i].stream ==> j in done)
    && (tasks[i].op.Wait? ==> forall j :: 0 <= j < i && tasks[j].op == Record(tasks[i].op.e) ==> j in done)
  }

  function Done(order: seq<nat>): set<nat> {
    set i | i in order
  }

  /** An order in which the device may run some of the tasks. */
  ghost predicate Schedule(tasks: seq<Task>, order: seq<nat>, waits: HostWaits) {
    order == [] ||
    var n := |order| - 1;
    Schedule(tasks, order[..n], waits) && CanRun(tasks, Done(order[..n]), order[n], waits)
  }

  lemma {:induction false} ScheduleInRange(tasks: seq<Task>, order: seq<nat>, waits: HostWaits)
    requires Schedule(tasks, order, waits)
    ensures forall i :: i in order ==> i < |tasks|
  {
    if order != [] {
      ScheduleInRange(tasks, order[..|order| - 1], waits);
      assert order == order[..|order| - 1] + [order[|order| - 1]];
    }
  }

  function MemoryAfter(tasks: seq<Task>, order: seq<nat>): Memory
    requires forall i :: i in order ==> i < |tasks|
  {
    if order == [] then BLANK else
    var front, i := order[..|order| - 1], order[|order| - 1];
    assert i in order && forall j :: j in front ==> j in order;
    Apply(tasks[i].op, MemoryAfter(tasks, front))
  }

  /** The first k tasks in the order the host issued them. */
  function InOrder(tasks: seq<Task>, k: nat): Memory
    requires k <= |tasks|
  {
    if k == 0 then BLANK else Apply(tasks[k - 1].op, InOrder(tasks, k - 1))
  }

  // ---- Serialisation ----

  /** Waits for the instance stream do nothing, and nothing waits for a stray copy in particular. */
  predicate Loose(op: Op) {
    (op.Wait? && op.g == INSTANCE) || op.Stray?
  }

  /** Wherever the tasks change stream, the first task on the new stream waits for an event
      recorded no earlier than the last task that matters on the old one. */
  ghost predicate Handoff(tasks: seq<Task>) {
    forall q, i :: 0 <= q < i < |tasks| && Switches(tasks, q, i) ==> Guarded(tasks, q, i)
  }

  ghost predicate Switches(tasks: seq<Task>, q: nat, i: nat)
    requires q < i < |tasks|
  {
    && !Loose(tasks[q].op)
    && forall j :: q <= j < i ==> tasks[j].stream != tasks[i].stream
  }

  ghost predicate Guarded(tasks: seq<Task>, q: nat, i: nat)
    requires q < i < |tasks|
  {
    tasks[i].op.Wait? && exists p :: q <= p < i && tasks[p].op == Record(tasks[i].op.e)
  }

  /** All copies into the static inputs of b are on b's stream, temporaries are written on the
      instance stream. */
  predicate OnStreams(tasks: seq<Task>, streams: nat -> nat) {
    forall i :: 0 <= i < |tasks| ==> OnStream(tasks[i], streams)
  }

  predicate OnStream(t: Task, streams: nat -> nat) {
    match t.op
    case Copy(b, _) => t.stream == streams(b)
    case Stray(b, _, g) => t.stream == streams(b) == g
    case Pad(_) => t.stream == INSTANCE
    case _ => true
  }

  /** A wait for a graph stream is for an event recorded there after all stray copies on it. */
  ghost predicate JoinsCover(tasks: seq<Task>) {
    forall i :: 0 <= i < |tasks| && tasks[i].op.Wait? && tasks[i].op.g != INSTANCE ==> JoinCovers(tasks, i)
  }

  ghost predicate JoinCovers(tasks: seq<Task>, i: nat)
    requires i < |tasks| && tasks[i].op.Wait?
  {
    exists p :: 0 <= p < i && tasks[p] == Task(tasks[i].op.g, Record(tasks[i].op.e))
      && forall q :: p < q < i && tasks[q].op.Stray? ==> tasks[q].op.g != tasks[i].op.g
  }

  /** No stray copy into static input i of b is pending. */
  predicate Settled(m: Memory, b: nat, i: nat) {
    forall p :: p in m.pending ==> !(p.1 == b && p.2 == i)
  }

  /** No stray copy can change the static inputs of b any more, or has. */
  ghost predicate Unspoiled(m: Memory, b: nat) {
    forall i: nat :: (b, i) !in m.spoiled && Settled(m, b, i)
  }

  predicate Reads(op: Op, b: nat) {
    op == Replay(b) || (op.EagerStaged? && op.b == b)
  }

  /** In host order whatever reads static inputs finds none of them spoiled. */
  ghost predicate ReadsUnspoiled(tasks: seq<Task>) {
    forall i, b :: 0 <= i < |tasks| && Reads(tasks[i].op, b) ==> Unspoiled(InOrder(tasks, i), b)
  }

  /** All stray copies into static input i of b among the first k tasks have run. */
  ghost predicate StraysRan(tasks: seq<Task>, done: set<nat>, k: nat, b: nat, i: nat)
    requires k <= |tasks|
  {
    forall j :: 0 <= j < k && tasks[j].op.Stray? && tasks[j].op.b == b && tasks[j].op.i == i ==> j in done
  }

  /** The device agrees with the host's order, up to static inputs that stray copies spoil or have
      yet to write. */
  ghost predicate Agree(tasks: seq<Task>, done: set<nat>, k: nat, m: Memory)
    requires k <= |tasks|
  {
    var h := InOrder(tasks, k);
    && m.temp == h.temp && m.outputs == h.outputs && m.results == h.results
    && forall b: nat, i: nat :: (b, i) !in h.spoiled && StraysRan(tasks, done, k, b, i) ==>
                                  Static(m, b, i) == Static(h, b, i)
  }

  /** Exactly the first k tasks have run, up to waits nobody depends on any more and pending stray
      copies. */
  ghost predicate AtPrefix(tasks: seq<Task>, done: set<nat>, k: nat) {
    && k <= |tasks|
    && (forall i :: k <= i < |tasks| ==> i !in done)
    && (forall i :: 0 <= i < k && i !in done ==> LeftOver(tasks, k, i))
  }

  ghost predicate LeftOver(tasks: seq<Task>, k: nat, i: nat)
    requires i < k <= |tasks|
  {
    Loose(tasks[i].op) &&
    (tasks[i].op.Stray? ==> (tasks[i].op.g, tasks[i].op.b, tasks[i].op.i) in InOrder(tasks, k).pending)
  }

  /** In host order a pending stray copy that nothing has spoiled would write what is there. */
  ghost predicate PendingFresh(h: Memory) {
    forall g, b, i :: (g, b, i) in h.pending ==> (b, i) in h.spoiled || Static(h, b, i) == h.temp
  }

  lemma {:induction false} StaysFresh(tasks: seq<Task>, k: nat)
    requires k <= |tasks|
    ensures PendingFresh(InOrder(tasks, k))
  {
    if k > 0 {
      StaysFresh(tasks, k - 1);
      FreshStep(tasks[k - 1].op, InOrder(tasks, k - 1));
    }
  }

  lemma FreshStep(op: Op, h: Memory)
    requires PendingFresh(h)
    ensures PendingFresh(Apply(op, h))
  {
    var h' := Apply(op, h);
    forall g, b, i | (g, b, i) in h'.pending
      ensures (b, i) in h'.spoiled || Static(h', b, i) == h'.temp
    {
      if op != Stray(b, i, g) {
        assert (g, b, i) in h.pending;
        assert op.Pad? ==> (g, b, i).1 == b && (b, i) in h'.spoiled;
      }
    }
  }

  /** Where nothing is pending all stray copies have run. */
  lemma NothingPending(tasks: seq<Task>, done: set<nat>, k: nat, b: nat, i: nat)
    requires AtPrefix(tasks, done, k) && Settled(InOrder(tasks, k), b, i)
    ensures StraysRan(tasks, done, k, b, i)
  {
    forall j | 0 <= j < k && tasks[j].op.Stray? && tasks[j].op.b == b && tasks[j].op.i == i
      ensures j in done
    {
      assert j !in done ==> LeftOver(tasks, k, j);
    }
  }

  /** What is not spoiled and not pending reads the same on the device. */
  lemma ReadsSame(tasks: seq<Task>, done: set<nat>, k: nat, m: Memory, b: nat)
    requires AtPrefix(tasks, done, k) && Agree(tasks, done, k, m) && Unspoiled(InOrder(tasks, k), b)
    ensures Inputs(m, b) == Inputs(InOrder(tasks, k), b)
  {
    forall i: nat
      ensures Static(m, b, i) == Static(InOrder(tasks, k), b, i)
    {
      NothingPending(tasks, done, k, b, i);
      assert StraysRan(tasks, done, k, b, i);
    }
  }

  /** A leftover may be skipped. */
  lemma SkipOne(tasks: seq<Task>, done: set<nat>, k: nat, m: Memory)
    requires k < |tasks| && Loose(tasks[k].op) && AtPrefix(tasks, done, k) && Agree(tasks, done, k, m)
    ensures AtPrefix(tasks, done, k + 1) && Agree(tasks, done, k + 1, m)
  {
    forall i | 0 <= i < k + 1 && i !in done
      ensures LeftOver(tasks, k + 1, i)
    {
      assert i < k ==> LeftOver(tasks, k, i);
    }
    var h' := InOrder(tasks, k + 1);
    forall b: nat, i: nat | (b, i) !in h'.spoiled && StraysRan(tasks, done, k + 1, b, i)
      ensures Static(m, b, i) == Static(h', b, i)
    {
      assert k !in done;
      assert StraysRan(tasks, done, k, b, i);
    }
  }

  lemma {:induction false} SkipLoose(tasks: seq<Task>, done: set<nat>, k: nat, i: nat, m: Memory)
    requires k <= i <= |tasks| && forall j :: k <= j < i ==> Loose(tasks[j].op)
    requires AtPrefix(tasks, done, k) && Agree(tasks, done, k, m)
    ensures AtPrefix(tasks, done, i) && Agree(tasks, done, i, m)
    decreases i
  {
    if k < i {
      SkipLoose(tasks, done, k, i - 1, m);
      SkipOne(tasks, done, i - 1, m);
    }
  }

  /** A task that may run from prefix k is either the next that matters or a leftover. */
  lemma NextIsForced(tasks: seq<Task>, done: set<nat>, k: nat, i: nat, waits: HostWaits)
    requires Handoff(tasks) && AtPrefix(tasks, done, k) && CanRun(tasks, done, i, waits) && k <= i
    ensures forall j :: k <= j < i ==> Loose(tasks[j].op)
  {
    forall q | k <= q < i
      ensures Loose(tasks[q].op)
    {
      if !Loose(tasks[q].op) {
        assert Switches(tasks, q, i);
      }
    }
  }

  /** Streams are queues: what has run on a stream is a prefix of it. */
  ghost predicate Fifo(tasks: seq<Task>, done: set<nat>) {
    forall i, j :: 0 <= j < i < |tasks| && i in done && tasks[j].stream == tasks[i].stream ==> j in done
  }

  /** When a task runs, the stray copies it supersedes or waits for have run. */
  lemma StraysBefore(tasks: seq<Task>, done: set<nat>, k: nat, j: nat, streams: nat -> nat, waits: HostWaits)
    requires OnStreams(tasks, streams) && JoinsCover(tasks) && CanRun(tasks, done, k, waits) && Fifo(tasks, done)
    requires j < k && tasks[j].op.Stray?
    ensures tasks[k].op.Copy? && tasks[k].op.b == tasks[j].op.b ==> j in done
    ensures tasks[k].op.Wait? && tasks[k].op.g != INSTANCE && tasks[k].op.g == tasks[j].op.g ==> j in done
  {
    assert OnStream(tasks[j], streams) && OnStream(tasks[k], streams);
    if tasks[k].op.Wait? && tasks[k].op.g != INSTANCE && tasks[k].op.g == tasks[j].op.g {
      assert JoinCovers(tasks, k);
      var p :| 0 <= p < k && tasks[p] == Task(tasks[k].op.g, Record(tasks[k].op.e))
        && forall q :: p < q < k && tasks[q].op.Stray? ==> tasks[q].op.g != tasks[k].op.g;
      assert p in done && j < p;
    }
  }

  /** Task k runs, the next that matters. */
  lemma RunKeepsPrefix(tasks: seq<Task>, done: set<nat>, k: nat, streams: nat -> nat, waits: HostWaits)
    requires OnStreams(tasks, streams) && JoinsCover(tasks) && Fifo(tasks, done)
    requires AtPrefix(tasks, done, k) && CanRun(tasks, done, k, waits)
    ensures AtPrefix(tasks, done + {k}, k + 1)
  {
    forall j | 0 <= j < k + 1 && j !in done + {k}
      ensures LeftOver(tasks, k + 1, j)
    {
      assert LeftOver(tasks, k, j);
      if tasks[j].op.Stray? {
        StraysBefore(tasks, done, k, j, streams, waits);
      }
    }
  }

  /** The same operation on both sides keeps the agreement. */
  lemma RunKeepsAgree(tasks: seq<Task>, done: set<nat>, k: nat, m: Memory)
    requires k < |tasks| && AtPrefix(tasks, done, k) && Agree(tasks, done, k, m)
    requires forall b :: Reads(tasks[k].op, b) ==> Unspoiled(InOrder(tasks, k), b)
    ensures Agree(tasks, done + {k}, k + 1, Apply(tasks[k].op, m))
  {
    var op, h := tasks[k].op, InOrder(tasks, k);
    if op.Replay? || op.EagerStaged? {
      assert Reads(op, op.b);
      ReadsSame(tasks, done, k, m, op.b);
    }
    var m', h' := Apply(op, m), Apply(op, h);
    forall b: nat, i: nat | (b, i) !in h'.spoiled && StraysRan(tasks, done + {k}, k + 1, b, i)
      ensures Static(m', b, i) == Static(h', b, i)
    {
      StraysRanBefore(tasks, done, k, b, i);
      StaticStep(op, m, h, b, i);
    }
  }

  lemma StraysRanBefore(tasks: seq<Task>, done: set<nat>, k: nat, b: nat, i: nat)
    requires k < |tasks| && StraysRan(tasks, done + {k}, k + 1, b, i)
    ensures StraysRan(tasks, done, k, b, i)
  {}

  lemma StaticStep(op: Op, m: Memory, h: Memory, b: nat, i: nat)
    requires m.temp == h.temp && (b, i) !in Apply(op, h).spoiled
    requires (b, i) !in h.spoiled ==> Static(m, b, i) == Static(h, b, i)
    ensures Static(Apply(op, m), b, i) == Static(Apply(op, h), b, i)
  {}

  /** A leftover runs late. A stray copy then writes what the host's order has, or to a spoiled place. */
  lemma RunLate(tasks: seq<Task>, done: set<nat>, k: nat, j: nat, m: Memory)
    requires j < k <= |tasks| && j !in done && AtPrefix(tasks, done, k) && Agree(tasks, done, k, m)
    ensures AtPrefix(tasks, done + {j}, k) && Agree(tasks, done + {j}, k, Apply(tasks[j].op, m))
  {
    assert LeftOver(tasks, k, j);
    StaysFresh(tasks, k);
    forall i | 0 <= i < k && i !in done + {j}
      ensures LeftOver(tasks, k, i)
    {
      assert i !in done;
    }
    var h, m' := InOrder(tasks, k), Apply(tasks[j].op, m);
    forall b: nat, i: nat | (b, i) !in h.spoiled && StraysRan(tasks, done + {j}, k, b, i)
      ensures Static(m', b, i) == Static(h, b, i)
    {
      if !(tasks[j].op.Stray? && tasks[j].op.b == b && tasks[j].op.i == i) {
        assert StraysRan(tasks, done, k, b, i);
      }
    }
  }

  /** What the serialisation argument needs of a program. */
  ghost predicate Disciplined(tasks: seq<Task>, streams: nat -> nat) {
    Handoff(tasks) && OnStreams(tasks, streams) && JoinsCover(tasks) && ReadsUnspoiled(tasks)
  }

  /** One more task on the device. */
  lemma DeviceStep(
    tasks: seq<Task>, done: set<nat>, k: nat, i: nat, m: Memory, streams: nat -> nat, waits: HostWaits)
    returns (k': nat)
    requires Disciplined(tasks, streams) && Fifo(tasks, done)
    requires AtPrefix(tasks, done, k) && Agree(tasks, done, k, m) && CanRun(tasks, done, i, waits)
    ensures AtPrefix(tasks, done + {i}, k') && Agree(tasks, done + {i}, k', Apply(tasks[i].op, m))
  {
    if i < k {
      RunLate(tasks, done, k, i, m);
      k' := k;
    } else {
      NextIsForced(tasks, done, k, i, waits);
      SkipLoose(tasks, done, k, i, m);
      RunKeepsPrefix(tasks, done, i, streams, waits);
      RunKeepsAgree(tasks, done, i, m);
      k' := i + 1;
    }
  }

  /** Serialisation: under this discipline any device order has had the effect of the host's own
      order up to some point, except on static inputs that stray copies spoil or have yet to write. */
  lemma {:induction false} SameAsHostOrder(
    tasks: seq<Task>, order: seq<nat>, streams: nat -> nat, waits: HostWaits) returns (k: nat)
    requires Disciplined(tasks, streams) && Schedule(tasks, order, waits)
    ensures AtPrefix(tasks, Done(order), k) && Fifo(tasks, Done(order))
    ensures forall i :: i in order ==> i < |tasks|
    ensures Agree(tasks, Done(order), k, MemoryAfter(tasks, order))
  {
    ScheduleInRange(tasks, order, waits);
    if order == [] {
      k := 0;
    } else {
      var front, i := order[..|order| - 1], order[|order| - 1];
      assert order == front + [i];
      k := SameAsHostOrder(tasks, front, streams, waits);
      assert Done(order) == Done(front) + {i};
      k := DeviceStep(tasks, Done(front), k, i, MemoryAfter(tasks, front), streams, waits);
    }
  }

  /** No wait deadlocks: whatever has run, the oldest task that has not may run. */
  lemma {:induction false} NeverStuck(tasks: seq<Task>, done: set<nat>, k: nat, waits: HostWaits) returns (i: nat)
    requires k < |tasks| && k !in done
    ensures CanRun(tasks, done, i, waits) && i <= k
  {
    if j :| 0 <= j < k && j !in done {
      i := NeverStuck(tasks, done, j, waits);
    } else {
      i := k;
    }
  }

  // ---- What the host issues ----

  /** How a batch was executed. FailedSlow: the replay threw after that many copies were
      enqueued (3 when the graph launch itself threw); the batch then runs eagerly. Aborted: the
      batch failed after its collection and before anything was executed for it. */
  datatype Kind =
    | Eagerly
    | Slow(b: nat)
    | Prestaged(b: nat)
    | FailedSlow(b: nat, copies: nat)
    | FailedPrestaged(b: nat)
    | Aborted
    | AbortedPrestaged(b: nat)

  function InputReady(n: nat): nat { 2 * n }

  function OutputReady(n: nat): nat { 2 * n + 1 }

  /** An entry has three static inputs. */
  function Strays(b: nat, g: nat, copies: nat): (t: seq<Task>) {
    seq(if copies < 3 then copies else 3, i requires 0 <= i => Task(g, Stray(b, i, g)))
  }

  /** The tasks of batch n in issue order; g is the stream of graph b. */
  function Issue(n: nat, kind: Kind, g: nat): seq<Task> {
    match kind
    case Eagerly => [Task(INSTANCE, Pad(n)), Task(INSTANCE, Eager(n))]
    case Slow(b) =>
      [Task(INSTANCE, Pad(n)), Task(INSTANCE, Record(InputReady(n))), Task(g, Wait(InputReady(n), INSTANCE)),
       Task(g, Copy(b, 0)), Task(g, Copy(b, 1)), Task(g, Copy(b, 2)), Task(g, Replay(b)),
       Task(g, Record(OutputReady(n))), Task(INSTANCE, Wait(OutputReady(n), g)), Task(INSTANCE, Emit(n, b))]
    case Prestaged(b) =>
      [Task(INSTANCE, Stage(n, b)), Task(INSTANCE, Record(InputReady(n))), Task(g, Wait(InputReady(n), INSTANCE)),
       Task(g, Replay(b)),
       Task(g, Record(OutputReady(n))), Task(INSTANCE, Wait(OutputReady(n), g)), Task(INSTANCE, Emit(n, b))]
    case FailedSlow(b, c) =>
      [Task(INSTANCE, Pad(n)), Task(INSTANCE, Record(InputReady(n))), Task(g, Wait(InputReady(n), INSTANCE))]
      + Strays(b, g, c) + [Task(INSTANCE, Eager(n))]
    case FailedPrestaged(b) =>
      [Task(INSTANCE, Stage(n, b)), Task(INSTANCE, Record(InputReady(n))), Task(g, Wait(InputReady(n), INSTANCE)),
       Task(INSTANCE, EagerStaged(n, b))]
    case Aborted => [Task(INSTANCE, Pad(n))]
    case AbortedPrestaged(b) => [Task(INSTANCE, Stage(n, b))]
  }

  function StreamOf(kind: Kind, streams: nat -> nat): nat {
    match kind
    case Slow(b) => streams(b)
    case Prestaged(b) => streams(b)
    case FailedSlow(b, _) => streams(b)
    case FailedPrestaged(b) => streams(b)
    case _ => INSTANCE
  }

  /** All batches, one after the other. Graphs may share streams; none uses the instance stream. */
  function Program(kinds: seq<Kind>, streams: nat -> nat): seq<Task> {
    if kinds == [] then [] else
    var n := |kinds| - 1;
    Program(kinds[..n], streams) + Issue(n, kinds[n], StreamOf(kinds[n], streams))
  }

  ghost predicate OwnStreams(streams: nat -> nat) {
    forall b: nat :: streams(b) != INSTANCE
  }

  /** The replay completed on stream g: the instance stream waited for it. */
  predicate CompletesOn(kind: Kind, streams: nat -> nat, g: nat) {
    (kind.Slow? || kind.Prestaged?) && streams(kind.b) == g
  }

  /** The batch is collected into temporaries. */
  predicate Pads(kind: Kind) {
    kind.Eagerly? || kind.Slow? || kind.FailedSlow? || kind.Aborted?
  }

  /** The batch's end positions are copied into graph b. */
  predicate CopiesEnds(kind: Kind, b: nat) {
    kind == Slow(b) || (kind.FailedSlow? && kind.b == b && kind.copies >= 3)
  }

  /** Some replay on graph b threw after enqueuing a copy, and no replay completed on its stream
      since: the stray copies may still run. */
  predicate Racing(kinds: seq<Kind>, streams: nat -> nat, b: nat) {
    kinds != [] &&
    var n := |kinds| - 1;
    || (kinds[n].FailedSlow? && kinds[n].b == b && kinds[n].copies > 0)
    || (!CompletesOn(kinds[n], streams, streams(b)) && Racing(kinds[..n], streams, b))
  }

  /** The stray copy of the end positions may still run. */
  predicate EndsPending(kinds: seq<Kind>, streams: nat -> nat, b: nat) {
    kinds != [] &&
    var n := |kinds| - 1;
    || (kinds[n].FailedSlow? && kinds[n].b == b && kinds[n].copies >= 3)
    || (!CompletesOn(kinds[n], streams, streams(b)) && EndsPending(kinds[..n], streams, b))
  }

  /** It may have run after another batch was written to the temporaries, and the end positions
      have not been copied again since. */
  predicate EndsSpoiled(kinds: seq<Kind>, streams: nat -> nat, b: nat) {
    kinds != [] &&
    var n := |kinds| - 1;
    && !CopiesEnds(kinds[n], b)
    && (EndsSpoiled(kinds[..n], streams, b) || (EndsPending(kinds[..n], streams, b) && Pads(kinds[n])))
  }

  /** Stray copies make graph b unfit for staging. */
  predicate Dirty(kinds: seq<Kind>, streams: nat -> nat, b: nat) {
    Racing(kinds, streams, b) || EndsSpoiled(kinds, streams, b)
  }

  /** The batch reads the static inputs it was collected into. */
  predicate ReadsStaged(kind: Kind) {
    kind.Prestaged? || kind.FailedPrestaged?
  }

  /** No batch is collected into the static inputs of a dirty graph and read from there. */
  predicate Ordered(kinds: seq<Kind>, streams: nat -> nat) {
    kinds == [] ||
    var n := |kinds| - 1;
    Ordered(kinds[..n], streams) && (ReadsStaged(kinds[n]) ==> !Dirty(kinds[..n], streams, kinds[n].b))
  }

  // ---- Streams are handed over at every switch ----

  /** Every task off the instance stream that matters is followed by one on it. */
  ghost predicate Returns(tasks: seq<Task>) {
    forall q :: 0 <= q < |tasks| && !Loose(tasks[q].op) && tasks[q].stream != INSTANCE ==>
      exists j :: q < j < |tasks| && tasks[j].stream == INSTANCE
  }

  /** The stream a batch replays on is not the instance stream. */
  predicate OffInstance(kind: Kind, g: nat) {
    kind.Eagerly? || kind.Aborted? || kind.AbortedPrestaged? || g != INSTANCE
  }

  lemma BlockHandoff(n: nat, kind: Kind, g: nat)
    requires OffInstance(kind, g)
    ensures Handoff(Issue(n, kind, g)) && Returns(Issue(n, kind, g))
    ensures forall i :: 0 <= i < |Issue(n, kind, g)| && Issue(n, kind, g)[i].stream != INSTANCE ==>
      && i >= 2 && Issue(n, kind, g)[1].op == Record(InputReady(n))
      && Issue(n, kind, g)[2] == Task(Issue(n, kind, g)[i].stream, Wait(InputReady(n), INSTANCE))
  {
    var t := Issue(n, kind, g);
    var last := |t| - 1;
    assert t[last].stream == INSTANCE;
    forall q, i | 0 <= q < i < |t| && Switches(t, q, i)
      ensures Guarded(t, q, i)
    {
      if t[i].stream == INSTANCE {
        assert t[i - 1].stream != INSTANCE;
        if kind.Slow? {
          assert i == 8 && t[7].op == Record(OutputReady(n));
        } else if kind.Prestaged? {
          assert i == 5 && t[4].op == Record(OutputReady(n));
        }
      } else {
        assert t[1].op == Record(InputReady(n)) && t[2].stream == t[i].stream;
      }
    }
  }

  lemma AppendReturns(p: seq<Task>, t: seq<Task>)
    requires Returns(p) && Returns(t)
    ensures Returns(p + t)
  {
    var all, m := p + t, |p|;
    forall q | 0 <= q < |all| && !Loose(all[q].op) && all[q].stream != INSTANCE
      ensures exists j :: q < j < |all| && all[j].stream == INSTANCE
    {
      if q < m {
        var j :| q < j < m && p[j].stream == INSTANCE;
        assert all[j].stream == INSTANCE;
      } else {
        assert t[q - m] == all[q];
        var j :| q - m < j < |t| && t[j].stream == INSTANCE;
        assert all[m + j].stream == INSTANCE;
      }
    }
  }

  /** A switch from an earlier block into a new one goes to the new block's first wait. */
  lemma SwitchIntoBlock(p: seq<Task>, n: nat, kind: Kind, g: nat, q: nat, i: nat)
    requires Returns(p)
    requires OffInstance(kind, g)
    requires q < |p| <= i < |p + Issue(n, kind, g)| && Switches(p + Issue(n, kind, g), q, i)
    ensures Guarded(p + Issue(n, kind, g), q, i)
  {
    var t := Issue(n, kind, g);
    var all, m := p + t, |p|;
    BlockHandoff(n, kind, g);
    assert forall j :: 0 <= j < m ==> all[j] == p[j];
    assert t[i - m] == all[i];
    if all[i].stream != INSTANCE {
      assert all[m + 2] == t[2] && all[m + 1] == t[1];
    }
  }

  lemma SwitchInFront(p: seq<Task>, t: seq<Task>, q: nat, i: nat)
    requires Handoff(p) && q < i < |p| && Switches(p + t, q, i)
    ensures Guarded(p + t, q, i)
  {
    var all := p + t;
    assert forall j :: 0 <= j < |p| ==> all[j] == p[j];
    assert Switches(p, q, i);
    var r :| q <= r < i && p[r].op == Record(p[i].op.e);
    assert all[r].op == Record(all[i].op.e);
  }

  lemma AppendHandoff(p: seq<Task>, n: nat, kind: Kind, g: nat)
    requires Handoff(p) && Returns(p)
    requires OffInstance(kind, g)
    ensures Handoff(p + Issue(n, kind, g)) && Returns(p + Issue(n, kind, g))
  {
    var t := Issue(n, kind, g);
    var all := p + t;
    BlockHandoff(n, kind, g);
    AppendReturns(p, t);
    forall q, i | 0 <= q < i < |all| && Switches(all, q, i)
      ensures Guarded(all, q, i)
    {
      if i < |p| {
        SwitchInFront(p, t, q, i);
      } else if |p| <= q {
        SwitchInBlock(p, t, q, i);
      } else {
        SwitchIntoBlock(p, n, kind, g, q, i);
      }
    }
  }

  lemma SwitchInBlock(p: seq<Task>, t: seq<Task>, q: nat, i: nat)
    requires Handoff(t) && |p| <= q < i < |p + t| && Switches(p + t, q, i)
    ensures Guarded(p + t, q, i)
  {
    var m, all := |p|, p + t;
    forall j | q - m <= j < i - m
      ensures t[j].stream != t[i - m].stream
    {
      assert all[m + j] == t[j] && all[i] == t[i - m];
    }
    assert Switches(t, q - m, i - m);
    assert Guarded(t, q - m, i - m);
    var r :| q - m <= r < i - m && t[r].op == Record(t[i - m].op.e);
    assert all[m + r].op == Record(all[i].op.e);
  }

  lemma BlockOnStreams(n: nat, kind: Kind, streams: nat -> nat)
    ensures OnStreams(Issue(n, kind, StreamOf(kind, streams)), streams)
  {}

  /** A wait for a graph stream directly follows the record it is for. */
  lemma BlockJoins(n: nat, kind: Kind, g: nat)
    ensures JoinsCover(Issue(n, kind, g))
  {
    var t := Issue(n, kind, g);
    forall i | 0 <= i < |t| && t[i].op.Wait? && t[i].op.g != INSTANCE
      ensures JoinCovers(t, i)
    {
      assert t[i - 1] == Task(t[i].op.g, Record(t[i].op.e));
    }
  }

  lemma AppendJoins(p: seq<Task>, t: seq<Task>)
    requires JoinsCover(p) && JoinsCover(t)
    ensures JoinsCover(p + t)
  {
    var all, m := p + t, |p|;
    forall i | 0 <= i < |all| && all[i].op.Wait? && all[i].op.g != INSTANCE
      ensures JoinCovers(all, i)
    {
      if i < m {
        assert JoinCovers(p, i);
        var r :| 0 <= r < i && p[r] == Task(p[i].op.g, Record(p[i].op.e))
          && forall q :: r < q < i && p[q].op.Stray? ==> p[q].op.g != p[i].op.g;
        assert all[r] == p[r] && forall q :: r < q < i ==> all[q] == p[q];
      } else {
        assert JoinCovers(t, i - m);
        var r :| 0 <= r < i - m && t[r] == Task(t[i - m].op.g, Record(t[i - m].op.e))
          && forall q :: r < q < i - m && t[q].op.Stray? ==> t[q].op.g != t[i - m].op.g;
        assert all[m + r] == t[r] && forall q :: m + r < q < i ==> all[q] == t[q - m];
      }
    }
  }

  /** Whatever happens to the batches, the host hands over between streams at every switch. */
  lemma {:induction false} ProgramHandsOver(kinds: seq<Kind>, streams: nat -> nat)
    requires OwnStreams(streams)
    ensures Handoff(Program(kinds, streams)) && Returns(Program(kinds, streams))
    ensures OnStreams(Program(kinds, streams), streams) && JoinsCover(Program(kinds, streams))
  {
    if kinds != [] {
      var n := |kinds| - 1;
      var p, t := Program(kinds[..n], streams), Issue(n, kinds[n], StreamOf(kinds[n], streams));
      ProgramHandsOver(kinds[..n], streams);
      AppendHandoff(p, n, kinds[n], StreamOf(kinds[n], streams));
      BlockOnStreams(n, kinds[n], streams);
      BlockJoins(n, kinds[n], StreamOf(kinds[n], streams));
      AppendJoins(p, t);
      AppendOnStreams(p, t, streams);
    }
  }

  lemma AppendOnStreams(p: seq<Task>, t: seq<Task>, streams: nat -> nat)
    requires OnStreams(p, streams) && OnStreams(t, streams)
    ensures OnStreams(p + t, streams)
  {}

  // ---- The host's order ----

  lemma {:induction false} InOrderAppend(p: seq<Task>, t: seq<Task>, k: nat)
    requires k <= |p|
    ensures InOrder(p + t, k) == InOrder(p, k)
  {
    if k > 0 {
      InOrderAppend(p, t, k - 1);
      assert (p + t)[k - 1] == p[k - 1];
    }
  }

  /** The tasks t[..k] run in order from memory m. */
  function RunTasks(t: seq<Task>, k: nat, m: Memory): Memory
    requires k <= |t|
  {
    if k == 0 then m else Apply(t[k - 1].op, RunTasks(t, k - 1, m))
  }

  lemma {:induction false} InOrderBlock(p: seq<Task>, t: seq<Task>, k: nat)
    requires k <= |t|
    ensures InOrder(p + t, |p| + k) == RunTasks(t, k, InOrder(p, |p|))
  {
    if k == 0 {
      InOrderAppend(p, t, |p|);
    } else {
      InOrderBlock(p, t, k - 1);
      assert (p + t)[|p| + k - 1] == t[k - 1];
    }
  }

  /** The batch whose end positions static input 2 of graph b holds in host order; -1 is the
      captured contents. */
  function EndsOf(kinds: seq<Kind>, b: nat): int {
    if kinds == [] then -1 else
    var n := |kinds| - 1;
    if CopiesEnds(kinds[n], b) then n else EndsOf(kinds[..n], b)
  }

  predicate IsAnswered(kind: Kind) {
    !kind.Aborted? && !kind.AbortedPrestaged?
  }

  /** What batch j should be answered from: its own inputs, and the end positions it was staged
      next to if it was prestaged. */
  function Expected(kinds: seq<Kind>, j: nat): seq<int>
    requires j < |kinds|
  {
    if ReadsStaged(kinds[j]) then [j, j, EndsOf(kinds[..j], kinds[j].b)] else [j, j, j]
  }

  /** Every answer given is one of these batches', and the right one. */
  predicate AnswersRight(kinds: seq<Kind>, m: Memory) {
    forall j :: j in m.results ==> j < |kinds| && IsAnswered(kinds[j]) && m.results[j] == Expected(kinds, j)
  }

  /** All these batches have been answered, except aborted ones. */
  predicate AllAnswered(kinds: seq<Kind>, m: Memory) {
    forall j :: 0 <= j < |kinds| && IsAnswered(kinds[j]) ==> j in m.results
  }

  /** What stray copies may still do after all these batches in host order. */
  ghost predicate MarksRight(kinds: seq<Kind>, streams: nat -> nat, m: Memory) {
    && (forall g, b, i :: (g, b, i) in m.pending ==>
          g == streams(b) && i < 3 && Racing(kinds, streams, b) && (i == 2 ==> EndsPending(kinds, streams, b)))
    && (forall b, i :: (b, i) in m.spoiled ==> i < 3 && (i == 2 ==> EndsSpoiled(kinds, streams, b)))
  }

  /** The memory after all these batches in host order. */
  ghost predicate HostState(kinds: seq<Kind>, streams: nat -> nat, m: Memory) {
    && AnswersRight(kinds, m) && AllAnswered(kinds, m) && MarksRight(kinds, streams, m)
    && (forall b: nat :: Static(m, b, 2) == EndsOf(kinds, b))
  }

  /** Tasks that answer a batch; in every block only the last one does. */
  predicate Answers(op: Op) {
    op.Emit? || op.Eager? || op.EagerStaged?
  }

  lemma {:induction false} ResultsKept(t: seq<Task>, k: nat, m: Memory)
    requires k <= |t| && forall i :: 0 <= i < k ==> !Answers(t[i].op)
    ensures RunTasks(t, k, m).results == m.results
  {
    if k > 0 {
      ResultsKept(t, k - 1, m);
    }
  }

  /** The memory once the batch's three inputs have been copied. */
  function Copied(n: nat, b: nat, m: Memory): Memory {
    Apply(Copy(b, 2), Apply(Copy(b, 1), Apply(Copy(b, 0), Apply(Pad(n), m))))
  }

  /** The memory once c stray copies have been made. */
  function Strayed(n: nat, b: nat, g: nat, c: nat, m: Memory): Memory {
    if c == 0 then Apply(Pad(n), m) else Apply(Stray(b, c - 1, g), Strayed(n, b, g, c - 1, m))
  }

  /** A completed replay that the instance stream waits for. */
  function Finished(n: nat, b: nat, g: nat, m: Memory): Memory {
    Apply(Emit(n, b), Apply(Wait(OutputReady(n), g), Apply(Replay(b), m)))
  }

  /** The memory after the tasks of one batch in host order. */
  function After(n: nat, kind: Kind, g: nat, m: Memory): Memory {
    match kind
    case Eagerly => Apply(Eager(n), Apply(Pad(n), m))
    case Slow(b) => Finished(n, b, g, Copied(n, b, m))
    case Prestaged(b) => Finished(n, b, g, Apply(Stage(n, b), m))
    case FailedSlow(b, c) => Apply(Eager(n), Strayed(n, b, g, if c < 3 then c else 3, m))
    case FailedPrestaged(b) => Apply(EagerStaged(n, b), Apply(Stage(n, b), m))
    case Aborted => Apply(Pad(n), m)
    case AbortedPrestaged(b) => Apply(Stage(n, b), m)
  }

  lemma SlowCopies(n: nat, b: nat, g: nat, m: Memory)
    ensures RunTasks(Issue(n, Slow(b), g), 6, m) == Copied(n, b, m)
  {
    var t, m1 := Issue(n, Slow(b), g), Apply(Pad(n), m);
    assert RunTasks(t, 0, m) == m;
    assert RunTasks(t, 3, m) == RunTasks(t, 2, m) == RunTasks(t, 1, m) == m1;
    assert RunTasks(t, 4, m) == Apply(Copy(b, 0), m1);
    assert RunTasks(t, 5, m) == Apply(Copy(b, 1), Apply(Copy(b, 0), m1));
  }

  lemma SlowRuns(n: nat, b: nat, g: nat, m: Memory)
    ensures RunTasks(Issue(n, Slow(b), g), 10, m) == Finished(n, b, g, Copied(n, b, m))
  {
    var t := Issue(n, Slow(b), g);
    SlowCopies(n, b, g, m);
    assert RunTasks(t, 8, m) == RunTasks(t, 7, m) == Apply(Replay(b), RunTasks(t, 6, m));
    assert RunTasks(t, 9, m) == Apply(Wait(OutputReady(n), g), RunTasks(t, 8, m));
  }

  /** A batch in its static inputs: the first three tasks, and the rest. */
  lemma StagedRuns(n: nat, b: nat, g: nat, m: Memory)
    ensures RunTasks(Issue(n, Prestaged(b), g), 3, m) == Apply(Stage(n, b), m)
    ensures RunTasks(Issue(n, FailedPrestaged(b), g), 3, m) == Apply(Stage(n, b), m)
  {
    var t, t', m1 := Issue(n, Prestaged(b), g), Issue(n, FailedPrestaged(b), g), Apply(Stage(n, b), m);
    assert RunTasks(t, 0, m) == m == RunTasks(t', 0, m);
    assert RunTasks(t, 2, m) == RunTasks(t, 1, m) == m1;
    assert RunTasks(t', 2, m) == RunTasks(t', 1, m) == m1;
  }

  lemma PrestagedRuns(n: nat, b: nat, g: nat, m: Memory)
    ensures RunTasks(Issue(n, Prestaged(b), g), 7, m) == Finished(n, b, g, Apply(Stage(n, b), m))
  {
    var t := Issue(n, Prestaged(b), g);
    StagedRuns(n, b, g, m);
    assert RunTasks(t, 5, m) == RunTasks(t, 4, m) == Apply(Replay(b), RunTasks(t, 3, m));
    assert RunTasks(t, 6, m) == Apply(Wait(OutputReady(n), g), RunTasks(t, 5, m));
  }

  lemma {:induction false} StraysRun(n: nat, b: nat, g: nat, c: nat, m: Memory, k: nat)
    requires k <= |Strays(b, g, c)|
    ensures RunTasks(Issue(n, FailedSlow(b, c), g), 3 + k, m) == Strayed(n, b, g, k, m)
  {
    var t := Issue(n, FailedSlow(b, c), g);
    if k == 0 {
      assert RunTasks(t, 0, m) == m;
      assert RunTasks(t, 3, m) == RunTasks(t, 2, m) == RunTasks(t, 1, m) == Apply(Pad(n), m);
    } else {
      StraysRun(n, b, g, c, m, k - 1);
      assert t[2 + k] == Task(g, Stray(b, k - 1, g));
    }
  }

  lemma FailedSlowRuns(n: nat, b: nat, g: nat, c: nat, m: Memory)
    ensures var t := Issue(n, FailedSlow(b, c), g); RunTasks(t, |t|, m) == After(n, FailedSlow(b, c), g, m)
  {
    var t := Issue(n, FailedSlow(b, c), g);
    StraysRun(n, b, g, c, m, |Strays(b, g, c)|);
    assert t[|t| - 1] == Task(INSTANCE, Eager(n));
  }

  lemma ShortRuns(n: nat, kind: Kind, g: nat, m: Memory)
    requires kind.Eagerly? || kind.Aborted? || kind.AbortedPrestaged?
    ensures var t := Issue(n, kind, g); RunTasks(t, |t|, m) == After(n, kind, g, m)
  {
    var t := Issue(n, kind, g);
    assert RunTasks(t, 0, m) == m;
    assert RunTasks(t, 1, m) == Apply(t[0].op, m);
  }

  lemma BlockRuns(n: nat, kind: Kind, g: nat, m: Memory)
    ensures var t := Issue(n, kind, g); RunTasks(t, |t|, m) == After(n, kind, g, m)
  {
    match kind {
      case Slow(b) => SlowRuns(n, b, g, m);
      case Prestaged(b) => PrestagedRuns(n, b, g, m);
      case FailedPrestaged(b) => StagedRuns(n, b, g, m);
      case FailedSlow(b, c) => FailedSlowRuns(n, b, g, c, m);
      case _ => ShortRuns(n, kind, g, m);
    }
  }

  // ---- What one batch does in host order ----

  lemma {:induction false} StrayedEffect(n: nat, b: nat, g: nat, c: nat, m: Memory)
    requires c <= 3
    ensures var m' := Strayed(n, b, g, c, m);
      && m'.temp == n && m'.results == m.results
      && forall d: nat :: Static(m', d, 2) == if d == b && c == 3 then n else Static(m, d, 2)
  {
    if c > 0 {
      StrayedEffect(n, b, g, c - 1, m);
    }
  }

  lemma FinishedResults(n: nat, b: nat, g: nat, m: Memory)
    ensures Finished(n, b, g, m).results == m.results[n := Inputs(m, b)] && Finished(n, b, g, m).statics == m.statics
  {}

  lemma AfterResults(n: nat, kind: Kind, g: nat, m: Memory)
    ensures After(n, kind, g, m).results ==
            if !IsAnswered(kind) then m.results
            else m.results[n := [n, n, if ReadsStaged(kind) then Static(m, kind.b, 2) else n]]
  {
    match kind {
      case Slow(b) =>
        FinishedResults(n, b, g, Copied(n, b, m));
        assert Inputs(Copied(n, b, m), b) == [n, n, n];
      case Prestaged(b) =>
        FinishedResults(n, b, g, Apply(Stage(n, b), m));
        assert Inputs(Apply(Stage(n, b), m), b) == [n, n, Static(m, b, 2)];
      case FailedPrestaged(b) =>
        assert Inputs(Apply(Stage(n, b), m), b) == [n, n, Static(m, b, 2)];
      case FailedSlow(b, c) => StrayedEffect(n, b, g, if c < 3 then c else 3, m);
      case _ =>
    }
  }

  lemma AfterEnds(n: nat, kind: Kind, g: nat, m: Memory, b: nat)
    ensures Static(After(n, kind, g, m), b, 2) == if CopiesEnds(kind, b) then n else Static(m, b, 2)
  {
    match kind {
      case Slow(c) => FinishedResults(n, c, g, Copied(n, c, m));
      case Prestaged(c) => FinishedResults(n, c, g, Apply(Stage(n, c), m));
      case FailedSlow(c, k) => StrayedEffect(n, c, g, if k < 3 then k else 3, m);
      case _ =>
    }
  }

  // ---- What stray copies may still do ----

  lemma EndsStep(kinds: seq<Kind>, kind: Kind, b: nat)
    ensures EndsOf(kinds + [kind], b) == if CopiesEnds(kind, b) then |kinds| else EndsOf(kinds, b)
  {
    assert (kinds + [kind])[..|kinds|] == kinds;
  }

  lemma LastKind(kinds: seq<Kind>, kind: Kind, streams: nat -> nat, b: nat)
    ensures Racing(kinds + [kind], streams, b) <==>
      || (kind.FailedSlow? && kind.b == b && kind.copies > 0)
      || (!CompletesOn(kind, streams, streams(b)) && Racing(kinds, streams, b))
    ensures EndsPending(kinds + [kind], streams, b) <==>
      || (kind.FailedSlow? && kind.b == b && kind.copies >= 3)
      || (!CompletesOn(kind, streams, streams(b)) && EndsPending(kinds, streams, b))
    ensures EndsSpoiled(kinds + [kind], streams, b) <==>
      && !CopiesEnds(kind, b)
      && (EndsSpoiled(kinds, streams, b) || (EndsPending(kinds, streams, b) && Pads(kind)))
  {
    assert (kinds + [kind])[..|kinds|] == kinds;
  }

  /** What may be pending or spoiled after a batch, from what was before it. */
  ghost predicate PendingAfter(kind: Kind, g: nat, m: Memory, m': Memory) {
    forall p :: p in m'.pending ==>
      || (p in m.pending && !((kind.Slow? || kind.Prestaged?) && p.0 == g))
      || (kind.FailedSlow? && p.0 == g && p.1 == kind.b && p.2 < kind.copies && p.2 < 3)
  }

  ghost predicate SpoiledAfter(kind: Kind, m: Memory, m': Memory) {
    forall k :: k in m'.spoiled ==>
      && (k in m.spoiled || ((Pads(kind) || k.1 < 2) && exists p :: p in m.pending && p.1 == k.0 && p.2 == k.1))
      && !(k.1 == 2 && CopiesEnds(kind, k.0))
  }

  lemma FinishedMarks(n: nat, b: nat, g: nat, m: Memory)
    ensures Finished(n, b, g, m).spoiled == m.spoiled
    ensures forall p :: p in Finished(n, b, g, m).pending ==> p in m.pending && (g != INSTANCE ==> p.0 != g)
  {}

  lemma {:induction false} StrayedMarks(n: nat, b: nat, g: nat, c: nat, m: Memory)
    ensures var m' := Strayed(n, b, g, c, m);
      && (forall p :: p in m'.pending ==> p in m.pending || (p.0 == g && p.1 == b && p.2 < c))
      && (forall k :: k in m'.spoiled ==> k in SpoiledByPad(m) && !(k.0 == b && k.1 < c))
  {
    if c > 0 {
      StrayedMarks(n, b, g, c - 1, m);
    }
  }

  lemma CopiedMarks(n: nat, b: nat, m: Memory)
    ensures var m' := Copied(n, b, m);
      && (forall p :: p in m'.pending ==> p in m.pending && !(p.1 == b && p.2 < 3))
      && (forall k :: k in m'.spoiled ==> k in SpoiledByPad(m) && !(k.0 == b && k.1 < 3))
  {}

  lemma AfterMarks(n: nat, kind: Kind, g: nat, m: Memory)
    requires OffInstance(kind, g)
    ensures PendingAfter(kind, g, m, After(n, kind, g, m)) && SpoiledAfter(kind, m, After(n, kind, g, m))
  {
    match kind {
      case Slow(b) => CopiedMarks(n, b, m); FinishedMarks(n, b, g, Copied(n, b, m));
      case Prestaged(b) => FinishedMarks(n, b, g, Apply(Stage(n, b), m));
      case FailedSlow(b, c) => StrayedMarks(n, b, g, if c < 3 then c else 3, m);
      case _ =>
    }
  }

  lemma MarksStep(kinds: seq<Kind>, kind: Kind, streams: nat -> nat, m: Memory, m': Memory)
    requires MarksRight(kinds, streams, m)
    requires PendingAfter(kind, StreamOf(kind, streams), m, m') && SpoiledAfter(kind, m, m')
    ensures MarksRight(kinds + [kind], streams, m')
  {
    var more := kinds + [kind];
    forall g, b, i | (g, b, i) in m'.pending
      ensures g == streams(b) && i < 3 && Racing(more, streams, b) && (i == 2 ==> EndsPending(more, streams, b))
    {
      LastKind(kinds, kind, streams, b);
    }
    forall b, i | (b, i) in m'.spoiled
      ensures i < 3 && (i == 2 ==> EndsSpoiled(more, streams, b))
    {
      LastKind(kinds, kind, streams, b);
    }
  }

  /** In host order a batch answers itself and no one else, and leaves the state of one more. */
  lemma BlockEffect(kinds: seq<Kind>, kind: Kind, streams: nat -> nat, m: Memory)
    requires HostState(kinds, streams, m) && OwnStreams(streams)
    ensures var t := Issue(|kinds|, kind, StreamOf(kind, streams));
      HostState(kinds + [kind], streams, RunTasks(t, |t|, m))
  {
    var n, g, more := |kinds|, StreamOf(kind, streams), kinds + [kind];
    var m' := After(n, kind, g, m);
    assert more[..n] == kinds && more[n] == kind;
    BlockRuns(n, kind, g, m);
    AfterResults(n, kind, g, m);
    OneMoreAnswered(kinds, kind, m, m');
    AfterMarks(n, kind, g, m);
    MarksStep(kinds, kind, streams, m, m');
    forall b: nat
      ensures Static(m', b, 2) == EndsOf(more, b)
    {
      AfterEnds(n, kind, g, m, b);
      EndsStep(kinds, kind, b);
    }
  }

  lemma OneMoreAnswered(kinds: seq<Kind>, kind: Kind, m: Memory, m': Memory)
    requires AnswersRight(kinds, m) && AllAnswered(kinds, m)
    requires var more := kinds + [kind];
      m'.results == if IsAnswered(kind) then m.results[|kinds| := Expected(more, |kinds|)] else m.results
    ensures AnswersRight(kinds + [kind], m') && AllAnswered(kinds + [kind], m')
  {
    var more := kinds + [kind];
    forall j | 0 <= j < |kinds|
      ensures more[j] == kinds[j] && Expected(more, j) == Expected(kinds, j)
    {
      assert more[..j] == kinds[..j];
    }
  }

  /** Within a block no answer is given before its last task. */
  lemma BlockSilent(n: nat, kind: Kind, g: nat, m: Memory, k: nat)
    requires k < |Issue(n, kind, g)|
    ensures RunTasks(Issue(n, kind, g), k, m).results == m.results
  {
    ResultsKept(Issue(n, kind, g), k, m);
  }

  lemma MoreKindsRight(kinds: seq<Kind>, kind: Kind, m: Memory)
    requires AnswersRight(kinds, m)
    ensures AnswersRight(kinds + [kind], m)
  {
    var more := kinds + [kind];
    forall j | 0 <= j < |kinds|
      ensures more[j] == kinds[j] && Expected(more, j) == Expected(kinds, j)
    {
      assert more[..j] == kinds[..j];
    }
  }

  /** After k of the tasks of these batches, in host order, every answer given so far is right; at
      the end all have been given. */
  ghost predicate HostRight(kinds: seq<Kind>, streams: nat -> nat, tasks: seq<Task>, k: nat)
    requires k <= |tasks|
  {
    AnswersRight(kinds, InOrder(tasks, k)) && (k == |tasks| ==> HostState(kinds, streams, InOrder(tasks, k)))
  }

  lemma FrontRight(kinds: seq<Kind>, kind: Kind, streams: nat -> nat, p: seq<Task>, t: seq<Task>, k: nat)
    requires k < |p| && HostRight(kinds, streams, p, k)
    ensures HostRight(kinds + [kind], streams, p + t, k)
  {
    InOrderAppend(p, t, k);
    MoreKindsRight(kinds, kind, InOrder(p, k));
  }

  lemma BlockRight(kinds: seq<Kind>, kind: Kind, streams: nat -> nat, p: seq<Task>, k: nat)
    requires HostRight(kinds, streams, p, |p|) && OwnStreams(streams)
    requires k <= |Issue(|kinds|, kind, StreamOf(kind, streams))|
    ensures HostRight(kinds + [kind], streams, p + Issue(|kinds|, kind, StreamOf(kind, streams)), |p| + k)
  {
    var g := StreamOf(kind, streams);
    var t := Issue(|kinds|, kind, g);
    InOrderBlock(p, t, k);
    if k < |t| {
      BlockSilent(|kinds|, kind, g, InOrder(p, |p|), k);
      MoreKindsRight(kinds, kind, RunTasks(t, k, InOrder(p, |p|)));
    } else {
      BlockEffect(kinds, kind, streams, InOrder(p, |p|));
    }
  }

  lemma HostStart(streams: nat -> nat)
    ensures HostRight([], streams, [], 0)
  {}

  /** One batch more. */
  lemma HostStep(kinds: seq<Kind>, streams: nat -> nat, k: nat)
    requires kinds != [] && k <= |Program(kinds, streams)| && OwnStreams(streams)
    requires var front := kinds[..|kinds| - 1]; var p := Program(front, streams);
      HostRight(front, streams, p, if k < |p| then k else |p|)
    ensures HostRight(kinds, streams, Program(kinds, streams), k)
  {
    var front, last := kinds[..|kinds| - 1], kinds[|kinds| - 1];
    HostNext(front, last, streams, k);
    assert front + [last] == kinds;
  }

  lemma HostNext(kinds: seq<Kind>, kind: Kind, streams: nat -> nat, k: nat)
    requires OwnStreams(streams)
    requires var p, t := Program(kinds, streams), Issue(|kinds|, kind, StreamOf(kind, streams));
      k <= |p + t| && HostRight(kinds, streams, p, if k < |p| then k else |p|)
    ensures var p, t := Program(kinds, streams), Issue(|kinds|, kind, StreamOf(kind, streams));
      HostRight(kinds + [kind], streams, p + t, k)
  {
    var p := Program(kinds, streams);
    if k < |p| {
      FrontRight(kinds, kind, streams, p, Issue(|kinds|, kind, StreamOf(kind, streams)), k);
    } else {
      BlockRight(kinds, kind, streams, p, k - |p|);
    }
  }

  /** In host order every answer is right, whatever the batches were. */
  lemma {:induction false} HostOrderRight(kinds: seq<Kind>, streams: nat -> nat, k: nat)
    requires k <= |Program(kinds, streams)| && OwnStreams(streams)
    ensures HostRight(kinds, streams, Program(kinds, streams), k)
    decreases |kinds|
  {
    if kinds == [] {
      HostStart(streams);
    } else {
      var n := |kinds| - 1;
      var before := |Program(kinds[..n], streams)|;
      HostOrderRight(kinds[..n], streams, if k < before then k else before);
      HostStep(kinds, streams, k);
    }
  }

  // ---- Ordered programs read nothing spoiled ----

  lemma CopiedUnspoiled(n: nat, b: nat, kinds: seq<Kind>, streams: nat -> nat, m: Memory)
    requires MarksRight(kinds, streams, m)
    ensures Unspoiled(Copied(n, b, m), b)
  {
    CopiedMarks(n, b, m);
  }

  lemma StagedUnspoiled(n: nat, b: nat, kinds: seq<Kind>, streams: nat -> nat, m: Memory)
    requires MarksRight(kinds, streams, m) && !Dirty(kinds, streams, b)
    ensures Unspoiled(Apply(Stage(n, b), m), b)
  {}

  lemma BlockReads(kinds: seq<Kind>, kind: Kind, streams: nat -> nat, m: Memory, k: nat, b: nat)
    requires HostState(kinds, streams, m) && (ReadsStaged(kind) ==> !Dirty(kinds, streams, kind.b))
    requires k < |Issue(|kinds|, kind, StreamOf(kind, streams))|
    requires Reads(Issue(|kinds|, kind, StreamOf(kind, streams))[k].op, b)
    ensures Unspoiled(RunTasks(Issue(|kinds|, kind, StreamOf(kind, streams)), k, m), b)
  {
    var n, g := |kinds|, StreamOf(kind, streams);
    if kind.Slow? {
      SlowCopies(n, b, g, m);
      CopiedUnspoiled(n, b, kinds, streams, m);
    } else {
      StagedRuns(n, b, g, m);
      StagedUnspoiled(n, b, kinds, streams, m);
    }
  }

  lemma AppendReads(p: seq<Task>, t: seq<Task>)
    requires ReadsUnspoiled(p)
    requires forall k, b :: 0 <= k < |t| && Reads(t[k].op, b) ==> Unspoiled(RunTasks(t, k, InOrder(p, |p|)), b)
    ensures ReadsUnspoiled(p + t)
  {
    var all := p + t;
    forall i, b | 0 <= i < |all| && Reads(all[i].op, b)
      ensures Unspoiled(InOrder(all, i), b)
    {
      if i < |p| {
        assert Reads(p[i].op, b);
        InOrderAppend(p, t, i);
      } else {
        assert Reads(t[i - |p|].op, b);
        InOrderBlock(p, t, i - |p|);
      }
    }
  }

  lemma {:induction false} OrderedReadsUnspoiled(kinds: seq<Kind>, streams: nat -> nat)
    requires Ordered(kinds, streams) && OwnStreams(streams)
    ensures ReadsUnspoiled(Program(kinds, streams))
  {
    if kinds != [] {
      var n := |kinds| - 1;
      OrderedReadsUnspoiled(kinds[..n], streams);
      HostOrderRight(kinds[..n], streams, |Program(kinds[..n], streams)|);
      var p, g := Program(kinds[..n], streams), StreamOf(kinds[n], streams);
      var t := Issue(n, kinds[n], g);
      forall k, b | 0 <= k < |t| && Reads(t[k].op, b)
        ensures Unspoiled(RunTasks(t, k, InOrder(p, |p|)), b)
      {
        BlockReads(kinds[..n], kinds[n], streams, InOrder(p, |p|), k, b);
      }
      AppendReads(p, t);
    }
  }

  // ---- Every interleaving ----

  /** Safety over all interleavings: every answer given so far is the batch's own. */
  ghost predicate Safe(kinds: seq<Kind>, streams: nat -> nat, waits: HostWaits) {
    forall order :: Schedule(Program(kinds, streams), order, waits) ==> OrderRight(kinds, streams, order, waits)
  }

  ghost predicate OrderRight(kinds: seq<Kind>, streams: nat -> nat, order: seq<nat>, waits: HostWaits)
    requires Schedule(Program(kinds, streams), order, waits)
  {
    ScheduleInRange(Program(kinds, streams), order, waits);
    AnswersRight(kinds, MemoryAfter(Program(kinds, streams), order))
  }

  /** In every interleaving of the instance stream and the graph streams, over any batches that do
      not stage into a dirty graph, replays read their own batch's inputs, responses carry their
      own batch's outputs, and no temporary is reused before the copy that matters has read it. */
  lemma EveryInterleavingSafe(kinds: seq<Kind>, streams: nat -> nat, waits: HostWaits)
    requires Ordered(kinds, streams) && OwnStreams(streams)
    ensures Safe(kinds, streams, waits)
  {
    var tasks := Program(kinds, streams);
    ProgramHandsOver(kinds, streams);
    OrderedReadsUnspoiled(kinds, streams);
    forall order | Schedule(tasks, order, waits)
      ensures OrderRight(kinds, streams, order, waits)
    {
      var k := SameAsHostOrder(tasks, order, streams, waits);
      HostOrderRight(kinds, streams, k);
    }
  }

  /** When the device has run everything, every batch has been answered. */
  lemma EverythingAnswered(kinds: seq<Kind>, streams: nat -> nat, order: seq<nat>, waits: HostWaits)
    requires Ordered(kinds, streams) && OwnStreams(streams)
    requires Schedule(Program(kinds, streams), order, waits)
    requires forall i :: 0 <= i < |Program(kinds, streams)| ==> i in order
    ensures forall i :: i in order ==> i < |Program(kinds, streams)|
    ensures var m := MemoryAfter(Program(kinds, streams), order); AnswersRight(kinds, m) && AllAnswered(kinds, m)
  {
    var tasks := Program(kinds, streams);
    ProgramHandsOver(kinds, streams);
    OrderedReadsUnspoiled(kinds, streams);
    var k := SameAsHostOrder(tasks, order, streams, waits);
    assert k < |tasks| ==> k in Done(order);
    HostOrderRight(kinds, streams, k);
  }

  // ---- Reading from a dirty graph ----

  lemma Extend(tasks: seq<Task>, order: seq<nat>, i: nat, waits: HostWaits)
    requires Schedule(tasks, order, waits) && CanRun(tasks, Done(order), i, waits)
    ensures Schedule(tasks, order + [i], waits) && Done(order + [i]) == Done(order) + {i}
    ensures forall j :: j in order + [i] ==> j < |tasks|
    ensures forall j :: j in order ==> j < |tasks|
    ensures MemoryAfter(tasks, order + [i]) == Apply(tasks[i].op, MemoryAfter(tasks, order))
  {
    ScheduleInRange(tasks, order, waits);
    assert (order + [i])[..|order|] == order;
  }

  /** From l on stream g holds nothing that anyone waits for. */
  predicate Quiet(tasks: seq<Task>, l: nat, g: nat) {
    forall j :: l <= j < |tasks| && tasks[j].stream == g ==> Loose(tasks[j].op)
  }

  /** The operation does not write static input i of b. */
  predicate Spares(op: Op, b: nat, i: nat) {
    !(op.Copy? && op.b == b && op.i == i) && !(op.Stray? && op.b == b && op.i == i)
    && !(op.Stage? && op.b == b && i < 2)
  }

  predicate AllSpare(tasks: seq<Task>, from: nat, b: nat, i: nat) {
    forall j :: from <= j < |tasks| ==> Spares(tasks[j].op, b, i)
  }

  /** Task l is a stray copy into static input i of a graph. Nothing on the graph's stream is waited
      for before the instance stream reaches task s. From task q on batch n is staged and read, and
      nothing in between writes that input again. */
  ghost predicate Race(tasks: seq<Task>, l: nat, s: nat, q: nat, n: nat, kind: Kind, g: nat, i: nat) {
    && g != INSTANCE && l < s <= q && i < 3 && (s < q ==> i == 2)
    && ReadsStaged(kind) && q + |Issue(n, kind, g)| <= |tasks|
    && tasks[l] == Task(g, Stray(kind.b, i, g)) && Quiet(tasks[..s], l, g) && tasks[s].stream == INSTANCE
    && AllSpare(tasks[..q], s + 1, kind.b, i)
    && (forall k :: 0 <= k < |Issue(n, kind, g)| ==> tasks[q + k] == Issue(n, kind, g)[k])
    && (forall j :: 0 <= j < |tasks| && tasks[j].op.Pad? ==> tasks[j].stream == INSTANCE)
  }

  /** The tasks the graph's stream is late with. */
  predicate Late(tasks: seq<Task>, l: nat, g: nat, j: nat)
    requires j < |tasks|
  {
    l <= j && tasks[j].stream == g
  }

  /** Exactly the tasks before k that are not late have run. */
  ghost predicate AheadTo(tasks: seq<Task>, order: seq<nat>, l: nat, g: nat, k: nat, waits: HostWaits) {
    && Schedule(tasks, order, waits) && (forall j :: j in order ==> j < |tasks|) && k <= |tasks|
    && (forall j: nat :: j in Done(order) <==> j < k && !Late(tasks, l, g, j))
  }

  /** Exactly the first k tasks have run, and those up to s that are not late. */
  ghost predicate RanAhead(
    tasks: seq<Task>, order: seq<nat>, l: nat, s: nat, g: nat, k: nat, waits: HostWaits)
    requires s < |tasks|
  {
    && Schedule(tasks, order, waits) && (forall j :: j in order ==> j < |tasks|)
    && forall j: nat :: j in Done(order) <==> j < k || (j <= s && !Late(tasks, l, g, j))
  }

  /** What the instance stream needs to run ahead. */
  ghost predicate Quietly(tasks: seq<Task>, l: nat, s: nat, g: nat) {
    && g != INSTANCE && s < |tasks| && tasks[s].stream == INSTANCE && Quiet(tasks[..s], l, g)
    && (forall j :: 0 <= j < |tasks| && tasks[j].op.Pad? ==> tasks[j].stream == INSTANCE)
  }

  lemma AheadCanRun(tasks: seq<Task>, l: nat, s: nat, g: nat, order: seq<nat>, k: nat, waits: HostWaits)
    requires Quietly(tasks, l, s, g) && k <= s && !Late(tasks, l, g, k) && AheadTo(tasks, order, l, g, k, waits)
    ensures CanRun(tasks, Done(order), k, waits)
  {
    forall j | 0 <= j < k && tasks[j].op.Record?
      ensures !Late(tasks, l, g, j)
    {
      assert tasks[..s][j] == tasks[j];
    }
  }

  lemma AheadStep(tasks: seq<Task>, l: nat, s: nat, g: nat, order: seq<nat>, k: nat, waits: HostWaits)
    requires Quietly(tasks, l, s, g) && k <= s && !Late(tasks, l, g, k) && AheadTo(tasks, order, l, g, k, waits)
    ensures AheadTo(tasks, order + [k], l, g, k + 1, waits)
    ensures MemoryAfter(tasks, order + [k]) == Apply(tasks[k].op, MemoryAfter(tasks, order))
  {
    AheadCanRun(tasks, l, s, g, order, k, waits);
    Extend(tasks, order, k, waits);
  }

  /** The instance stream runs ahead, up to task s, as far as the host's waits go. */
  lemma {:induction false} RunAhead(tasks: seq<Task>, l: nat, s: nat, g: nat, k: nat, waits: HostWaits)
    returns (order: seq<nat>)
    requires Quietly(tasks, l, s, g) && k <= s + 1
    ensures AheadTo(tasks, order, l, g, k, waits)
    ensures MemoryAfter(tasks, order).temp == InOrder(tasks, k).temp
  {
    if k == 0 {
      order := [];
    } else {
      order := RunAhead(tasks, l, s, g, k - 1, waits);
      TempStep(tasks[k - 1].op, MemoryAfter(tasks, order), InOrder(tasks, k - 1));
      if !Late(tasks, l, g, k - 1) {
        AheadStep(tasks, l, s, g, order, k - 1, waits);
        order := order + [k - 1];
      }
    }
  }

  /** Only collecting a batch writes the temporaries. */
  lemma TempStep(op: Op, m: Memory, h: Memory)
    requires m.temp == h.temp
    ensures Apply(op, m).temp == Apply(op, h).temp && (!op.Pad? ==> Apply(op, h).temp == m.temp)
  {}

  /** The oldest task that has not run. */
  lemma OldestRuns(tasks: seq<Task>, order: seq<nat>, l: nat, s: nat, g: nat, k: nat, waits: HostWaits)
    requires s < |tasks| && k < |tasks| && RanAhead(tasks, order, l, s, g, k, waits) && k !in Done(order)
    ensures RanAhead(tasks, order + [k], l, s, g, k + 1, waits)
    ensures MemoryAfter(tasks, order + [k]) == Apply(tasks[k].op, MemoryAfter(tasks, order))
  {
    Extend(tasks, order, k, waits);
  }

  /** The static input holds what the temporaries held when the instance stream had run ahead. */
  ghost predicate Overrun(tasks: seq<Task>, s: nat, b: nat, i: nat, m: Memory)
    requires s < |tasks|
  {
    Static(m, b, i) == InOrder(tasks, s + 1).temp
  }

  /** A task the graph's stream was late with: the stray copy itself, or a later loose one. */
  lemma LateStep(
    tasks: seq<Task>, l: nat, s: nat, q: nat, n: nat, kind: Kind, g: nat, i: nat, k: nat, m: Memory)
    requires Race(tasks, l, s, q, n, kind, g, i) && k < s && Late(tasks, l, g, k)
    requires m.temp == InOrder(tasks, s + 1).temp && (k == l || Overrun(tasks, s, kind.b, i, m))
    ensures Apply(tasks[k].op, m).temp == m.temp && Overrun(tasks, s, kind.b, i, Apply(tasks[k].op, m))
  {
    assert tasks[..s][k] == tasks[k] && Loose(tasks[k].op);
  }

  lemma AheadIsRan(tasks: seq<Task>, order: seq<nat>, l: nat, s: nat, g: nat, waits: HostWaits)
    requires l < s < |tasks| && AheadTo(tasks, order, l, g, s + 1, waits)
    ensures RanAhead(tasks, order, l, s, g, l, waits)
  {}

  /** A task that has run already. */
  lemma AlreadyRan(tasks: seq<Task>, order: seq<nat>, l: nat, s: nat, g: nat, k: nat, waits: HostWaits)
    requires k <= s < |tasks| && RanAhead(tasks, order, l, s, g, k, waits) && !Late(tasks, l, g, k)
    ensures RanAhead(tasks, order, l, s, g, k + 1, waits)
  {}

  /** Then the graph's stream catches up with what it is late with, stray copies first. */
  lemma {:induction false} CatchUp(
    tasks: seq<Task>, l: nat, s: nat, q: nat, n: nat, kind: Kind, g: nat, i: nat, k: nat, waits: HostWaits)
    returns (order: seq<nat>)
    requires Race(tasks, l, s, q, n, kind, g, i) && l < k <= s + 1
    ensures RanAhead(tasks, order, l, s, g, k, waits)
    ensures var m := MemoryAfter(tasks, order); m.temp == InOrder(tasks, s + 1).temp && Overrun(tasks, s, kind.b, i, m)
    decreases k
  {
    if k - 1 == l {
      order := RunAhead(tasks, l, s, g, s + 1, waits);
      AheadIsRan(tasks, order, l, s, g, waits);
    } else {
      order := CatchUp(tasks, l, s, q, n, kind, g, i, k - 1, waits);
    }
    order := CatchStep(tasks, l, s, q, n, kind, g, i, k - 1, order, waits);
  }

  lemma CatchStep(
    tasks: seq<Task>, l: nat, s: nat, q: nat, n: nat, kind: Kind, g: nat, i: nat, k: nat, order: seq<nat>,
    waits: HostWaits)
    returns (more: seq<nat>)
    requires Race(tasks, l, s, q, n, kind, g, i) && l <= k <= s && RanAhead(tasks, order, l, s, g, k, waits)
    requires var m := MemoryAfter(tasks, order);
      m.temp == InOrder(tasks, s + 1).temp && (k == l || Overrun(tasks, s, kind.b, i, m))
    ensures RanAhead(tasks, more, l, s, g, k + 1, waits)
    ensures var m := MemoryAfter(tasks, more); m.temp == InOrder(tasks, s + 1).temp && Overrun(tasks, s, kind.b, i, m)
  {
    if Late(tasks, l, g, k) {
      LateStep(tasks, l, s, q, n, kind, g, i, k, MemoryAfter(tasks, order));
      OldestRuns(tasks, order, l, s, g, k, waits);
      more := order + [k];
    } else {
      AlreadyRan(tasks, order, l, s, g, k, waits);
      more := order;
    }
  }

  /** What goes wrong by the time k tasks of the staged batch have run: the input still holds v, the
      replay reads it, and the response carries it. */
  ghost predicate Mixed(kind: Kind, m: Memory, n: nat, i: nat, v: int, k: int)
    requires ReadsStaged(kind) && i < 3
  {
    && Static(m, kind.b, i) == v
    && (kind.Prestaged? && k >= 4 ==> kind.b in m.outputs && |m.outputs[kind.b]| == 3 && m.outputs[kind.b][i] == v)
    && (k == (if kind.Prestaged? then 7 else 4) ==> n in m.results && |m.results[n]| == 3 && m.results[n][i] == v)
  }

  lemma StaysMixed(kind: Kind, m: Memory, n: nat, g: nat, i: nat, v: int, k: nat)
    requires ReadsStaged(kind) && i < 3 && (k == 0 ==> i == 2)
    requires k < |Issue(n, kind, g)| && Mixed(kind, m, n, i, v, k)
    ensures Mixed(kind, Apply(Issue(n, kind, g)[k].op, m), n, i, v, k + 1)
  {
    assert Inputs(m, kind.b)[i] == v by {
      assert i == 0 || i == 1 || i == 2;
    }
    assert k == 0 || k == 1 || k == 2 || k == 3 || k == 4 || k == 5 || k == 6;
  }

  lemma SparesKeeps(op: Op, m: Memory, b: nat, i: nat)
    requires Spares(op, b, i)
    ensures Static(Apply(op, m), b, i) == Static(m, b, i)
  {}

  lemma MixedStep(
    tasks: seq<Task>, l: nat, s: nat, q: nat, n: nat, kind: Kind, g: nat, i: nat, k: nat, m: Memory)
    requires Race(tasks, l, s, q, n, kind, g, i) && s < k < q + |Issue(n, kind, g)|
    requires Mixed(kind, m, n, i, InOrder(tasks, s + 1).temp, k - q)
    ensures Mixed(kind, Apply(tasks[k].op, m), n, i, InOrder(tasks, s + 1).temp, k + 1 - q)
  {
    if k < q {
      assert tasks[..q][k] == tasks[k];
      SparesKeeps(tasks[k].op, m, kind.b, i);
    } else {
      assert tasks[q + (k - q)] == Issue(n, kind, g)[k - q];
      StaysMixed(kind, m, n, g, i, InOrder(tasks, s + 1).temp, k - q);
    }
  }

  /** And everything else runs in order, up to task k. */
  lemma {:induction false} RunOn(
    tasks: seq<Task>, l: nat, s: nat, q: nat, n: nat, kind: Kind, g: nat, i: nat, k: nat, waits: HostWaits)
    returns (order: seq<nat>)
    requires Race(tasks, l, s, q, n, kind, g, i) && s < k <= q + |Issue(n, kind, g)|
    ensures RanAhead(tasks, order, l, s, g, k, waits)
    ensures Mixed(kind, MemoryAfter(tasks, order), n, i, InOrder(tasks, s + 1).temp, k - q)
    decreases k
  {
    if k == s + 1 {
      order := CatchUp(tasks, l, s, q, n, kind, g, i, s + 1, waits);
    } else {
      order := RunOn(tasks, l, s, q, n, kind, g, i, k - 1, waits);
      MixedStep(tasks, l, s, q, n, kind, g, i, k - 1, MemoryAfter(tasks, order));
      OldestRuns(tasks, order, l, s, g, k - 1, waits);
      order := order + [k - 1];
    }
  }

  /** The whole wrong run. */
  lemma MixedAnswer(
    tasks: seq<Task>, l: nat, s: nat, q: nat, n: nat, kind: Kind, g: nat, i: nat, waits: HostWaits)
    returns (order: seq<nat>)
    requires Race(tasks, l, s, q, n, kind, g, i)
    ensures Schedule(tasks, order, waits) && forall j :: j in order ==> j < |tasks|
    ensures var m := MemoryAfter(tasks, order);
      n in m.results && |m.results[n]| == 3 && m.results[n][i] == InOrder(tasks, s + 1).temp
  {
    order := RunOn(tasks, l, s, q, n, kind, g, i, q + |Issue(n, kind, g)|, waits);
  }

  lemma WrongAnswer(kinds: seq<Kind>, streams: nat -> nat, order: seq<nat>, n: nat, i: nat, waits: HostWaits)
    requires n < |kinds| && i < 3 && Schedule(Program(kinds, streams), order, waits)
    requires forall j :: j in order ==> j < |Program(kinds, streams)|
    requires var m := MemoryAfter(Program(kinds, streams), order);
      n in m.results && |m.results[n]| == 3 && m.results[n][i] != Expected(kinds, n)[i]
    ensures !Safe(kinds, streams, waits)
  {
    assert !OrderRight(kinds, streams, order, waits);
  }

  // ---- Where it happens ----

  lemma {:induction false} ProgramPrefix(kinds: seq<Kind>, streams: nat -> nat, n: nat)
    requires n <= |kinds|
    ensures Program(kinds[..n], streams) <= Program(kinds, streams)
    decreases |kinds|
  {
    if n == |kinds| {
      assert kinds[..n] == kinds;
    } else {
      ProgramPrefix(kinds[..|kinds| - 1], streams, n);
      assert kinds[..|kinds| - 1][..n] == kinds[..n];
    }
  }

  lemma BlockAt(kinds: seq<Kind>, streams: nat -> nat, n: nat)
    requires n < |kinds|
    ensures Program(kinds[..n + 1], streams)
            == Program(kinds[..n], streams) + Issue(n, kinds[n], StreamOf(kinds[n], streams))
  {
    assert kinds[..n + 1][..n] == kinds[..n];
  }

  lemma BlockIn(kinds: seq<Kind>, streams: nat -> nat, n: nat)
    requires n < |kinds|
    ensures Program(kinds[..n], streams) + Issue(n, kinds[n], StreamOf(kinds[n], streams)) <= Program(kinds, streams)
  {
    BlockAt(kinds, streams, n);
    ProgramPrefix(kinds, streams, n + 1);
  }

  lemma BlockIsQuiet(n: nat, kind: Kind, streams: nat -> nat, g: nat)
    requires g != INSTANCE && !CompletesOn(kind, streams, g)
    ensures Quiet(Issue(n, kind, StreamOf(kind, streams)), 0, g)
  {}

  lemma AppendQuiet(p: seq<Task>, t: seq<Task>, l: nat, g: nat)
    requires Quiet(p, l, g) && Quiet(t, 0, g)
    ensures Quiet(p + t, l, g)
  {
    assert forall j :: |p| <= j < |p + t| ==> (p + t)[j] == t[j - |p|];
  }

  predicate StrayThenQuiet(tasks: seq<Task>, l: nat, b: nat, g: nat, i: nat) {
    l < |tasks| && tasks[l] == Task(g, Stray(b, i, g)) && Quiet(tasks, l, g)
  }

  /** Where stray copy i of batch j is. */
  function StrayIndex(kinds: seq<Kind>, streams: nat -> nat, j: nat, i: nat): nat
    requires j <= |kinds|
  {
    |Program(kinds[..j], streams)| + 3 + i
  }

  lemma FirstStray(kinds: seq<Kind>, streams: nat -> nat, j: nat, b: nat, c: nat, g: nat, i: nat)
    requires j < |kinds| && kinds[j] == FailedSlow(b, c) && g == streams(b) != INSTANCE && i < c && i < 3
    ensures StrayThenQuiet(Program(kinds[..j + 1], streams), StrayIndex(kinds, streams, j, i), b, g, i)
  {
    var t := Issue(j, kinds[j], g);
    assert t[3 + i] == Strays(b, g, c)[i];
    BlockAt(kinds, streams, j);
    BlockIsQuiet(j, kinds[j], streams, g);
    AppendQuiet(Program(kinds[..j], streams), t, StrayIndex(kinds, streams, j, i), g);
  }

  /** From the stray copy on the graph's stream is quiet until a replay completes there. */
  lemma {:induction false} QuietBetween(kinds: seq<Kind>, streams: nat -> nat, j: nat, n: nat, i: nat)
    requires j < n <= |kinds| && kinds[j].FailedSlow? && i < kinds[j].copies && i < 3 && OwnStreams(streams)
    requires forall k :: j < k < n ==> !CompletesOn(kinds[k], streams, streams(kinds[j].b))
    ensures var b := kinds[j].b;
      StrayThenQuiet(Program(kinds[..n], streams), StrayIndex(kinds, streams, j, i), b, streams(b), i)
    decreases n
  {
    var b := kinds[j].b;
    if n - 1 > j {
      QuietBetween(kinds, streams, j, n - 1, i);
      QuietStep(kinds, streams, n - 1, StrayIndex(kinds, streams, j, i), b, streams(b), i);
    } else {
      FirstStray(kinds, streams, j, b, kinds[j].copies, streams(b), i);
    }
  }

  lemma QuietStep(kinds: seq<Kind>, streams: nat -> nat, n: nat, l: nat, b: nat, g: nat, i: nat)
    requires n < |kinds| && OwnStreams(streams) && g != INSTANCE && !CompletesOn(kinds[n], streams, g)
    requires StrayThenQuiet(Program(kinds[..n], streams), l, b, g, i)
    ensures StrayThenQuiet(Program(kinds[..n + 1], streams), l, b, g, i)
  {
    var t := Issue(n, kinds[n], StreamOf(kinds[n], streams));
    BlockAt(kinds, streams, n);
    BlockIsQuiet(n, kinds[n], streams, g);
    AppendQuiet(Program(kinds[..n], streams), t, l, g);
  }

  lemma BlockSpares(n: nat, kind: Kind, g: nat, b: nat)
    requires !CopiesEnds(kind, b)
    ensures AllSpare(Issue(n, kind, g), 0, b, 2)
  {}

  lemma AppendSpares(p: seq<Task>, t: seq<Task>, from: nat, b: nat, i: nat)
    requires AllSpare(p, from, b, i) && AllSpare(t, 0, b, i)
    ensures AllSpare(p + t, from, b, i)
  {
    assert forall j :: |p| <= j < |p + t| ==> (p + t)[j] == t[j - |p|];
  }

  /** Batches that do not copy end positions into b leave them alone. */
  lemma {:induction false} SparesBetween(kinds: seq<Kind>, streams: nat -> nat, p: nat, n: nat, b: nat)
    requires p <= n <= |kinds| && forall k :: p <= k < n ==> !CopiesEnds(kinds[k], b)
    ensures AllSpare(Program(kinds[..n], streams), |Program(kinds[..p], streams)|, b, 2)
    decreases n
  {
    if p < n {
      SparesBetween(kinds, streams, p, n - 1, b);
      BlockAt(kinds, streams, n - 1);
      BlockSpares(n - 1, kinds[n - 1], StreamOf(kinds[n - 1], streams), b);
      AppendSpares(Program(kinds[..n - 1], streams), Issue(n - 1, kinds[n - 1], StreamOf(kinds[n - 1], streams)),
                   |Program(kinds[..p], streams)|, b, 2);
    }
  }

  /** The temporaries hold a batch that was collected by then. */
  lemma {:induction false} TempBelow(tasks: seq<Task>, k: nat, n: nat)
    requires k <= |tasks| && forall j :: 0 <= j < k && tasks[j].op.Pad? ==> tasks[j].op.n < n
    ensures InOrder(tasks, k).temp < n
  {
    if k > 0 {
      TempBelow(tasks, k - 1, n);
    }
  }

  /** Only these batches are collected. */
  predicate PadsBelow(tasks: seq<Task>, n: nat) {
    forall j :: 0 <= j < |tasks| && tasks[j].op.Pad? ==> tasks[j].op.n < n
  }

  lemma AppendPads(p: seq<Task>, t: seq<Task>, n: nat)
    requires PadsBelow(p, n) && PadsBelow(t, n)
    ensures PadsBelow(p + t, n)
  {
    assert forall j :: |p| <= j < |p + t| ==> (p + t)[j] == t[j - |p|];
  }

  lemma BlockPads(n: nat, kind: Kind, g: nat)
    ensures PadsBelow(Issue(n, kind, g), n + 1)
  {}

  lemma {:induction false} PadsBefore(kinds: seq<Kind>, streams: nat -> nat)
    ensures PadsBelow(Program(kinds, streams), |kinds|)
  {
    if kinds != [] {
      var n := |kinds| - 1;
      PadsBefore(kinds[..n], streams);
      BlockPads(n, kinds[n], StreamOf(kinds[n], streams));
      AppendPads(Program(kinds[..n], streams), Issue(n, kinds[n], StreamOf(kinds[n], streams)), n + 1);
    }
  }

  lemma PartsOf(tasks: seq<Task>, front: seq<Task>, p: seq<Task>, t: seq<Task>)
    requires front <= p && p + t <= tasks
    ensures |p| + |t| <= |tasks| && tasks[..|front|] == front && tasks[..|p|] == p
    ensures forall k :: 0 <= k < |t| ==> tasks[|p| + k] == t[k]
  {
    assert forall k :: 0 <= k < |t| ==> (p + t)[|p| + k] == t[k];
  }

  /** Putting the pieces of a race together. */
  lemma RaceIn(
    tasks: seq<Task>, streams: nat -> nat, front: seq<Task>, p: seq<Task>, l: nat, n: nat, kind: Kind, g: nat, i: nat)
    requires OnStreams(tasks, streams) && g != INSTANCE && ReadsStaged(kind) && i < 3
    requires front <= p && p + Issue(n, kind, g) <= tasks && (front != p ==> i == 2)
    requires StrayThenQuiet(front, l, kind.b, g, i) && AllSpare(p, |front| + 1, kind.b, i)
    requires |front| < |tasks| && tasks[|front|].stream == INSTANCE
    ensures Race(tasks, l, |front|, |p|, n, kind, g, i)
  {
    PartsOf(tasks, front, p, Issue(n, kind, g));
    assert tasks[l] == front[l];
    forall j | 0 <= j < |tasks| && tasks[j].op.Pad?
      ensures tasks[j].stream == INSTANCE
    {
      assert OnStream(tasks[j], streams);
    }
  }

  /** Stray copies into graph b may still run when batch n is collected into its static inputs: some
      interleaving answers n from another batch's inputs, however often the host waits for the
      instance stream. Graphs may share streams. */
  lemma DirtyStagingRaces(kinds: seq<Kind>, streams: nat -> nat, j: nat, n: nat, waits: HostWaits)
    requires OwnStreams(streams) && j < n < |kinds|
    requires kinds[j].FailedSlow? && kinds[j].copies > 0 && ReadsStaged(kinds[n]) && kinds[n].b == kinds[j].b
    requires forall k :: j < k < n ==> !CompletesOn(kinds[k], streams, streams(kinds[j].b))
    ensures !Safe(kinds, streams, waits)
  {
    var p, g := Program(kinds[..n], streams), streams(kinds[j].b);
    ProgramHandsOver(kinds, streams);
    QuietBetween(kinds, streams, j, n, 0);
    BlockIn(kinds, streams, n);
    PadsBefore(kinds[..n], streams);
    var l := StrayIndex(kinds, streams, j, 0);
    var order := PayloadRace(Program(kinds, streams), streams, p, l, n, kinds[n], g, waits);
    WrongAnswer(kinds, streams, order, n, 0, waits);
  }

  /** When a batch is staged, the temporaries hold an earlier one. */
  lemma StagedTemp(tasks: seq<Task>, p: seq<Task>, t: seq<Task>, n: nat)
    requires p + t <= tasks && t != [] && t[0].stream == INSTANCE && t[0].op.Stage? && PadsBelow(p, n)
    ensures |p| < |tasks| && tasks[|p|].stream == INSTANCE && InOrder(tasks, |p| + 1).temp < n
  {
    assert tasks[|p|] == (p + t)[|p|] == t[0];
    TempBelow(p, |p|, n);
    InOrderAppend(p, tasks[|p|..], |p|);
    assert tasks == p + tasks[|p|..];
  }

  /** The wrong run of a payload race. */
  lemma PayloadRace(
    tasks: seq<Task>, streams: nat -> nat, p: seq<Task>, l: nat, n: nat, kind: Kind, g: nat, waits: HostWaits)
    returns (order: seq<nat>)
    requires OnStreams(tasks, streams) && g != INSTANCE && ReadsStaged(kind)
    requires p + Issue(n, kind, g) <= tasks && PadsBelow(p, n) && StrayThenQuiet(p, l, kind.b, g, 0)
    ensures Schedule(tasks, order, waits) && forall j :: j in order ==> j < |tasks|
    ensures var m := MemoryAfter(tasks, order); n in m.results && |m.results[n]| == 3 && m.results[n][0] < n
  {
    StagedTemp(tasks, p, Issue(n, kind, g), n);
    RaceIn(tasks, streams, p, p, l, n, kind, g, 0);
    order := MixedAnswer(tasks, l, |p|, |p|, n, kind, g, 0, waits);
  }

  /** The end positions of graph b were last copied by batch j, whose replay threw, and batch p may
      have been collected before that copy ran: some interleaving reads them from p. */
  lemma SpoiledEndsRace(kinds: seq<Kind>, streams: nat -> nat, j: nat, p: nat, n: nat, waits: HostWaits)
    requires OwnStreams(streams) && j < p < n < |kinds|
    requires kinds[j].FailedSlow? && kinds[j].copies >= 3 && ReadsStaged(kinds[n]) && kinds[n].b == kinds[j].b
    requires Pads(kinds[p]) && forall k :: j < k < p ==> !CompletesOn(kinds[k], streams, streams(kinds[j].b))
    requires forall k :: j < k < n ==> !CopiesEnds(kinds[k], kinds[j].b)
    ensures !Safe(kinds, streams, waits)
  {
    var tasks, g, l := Program(kinds, streams), streams(kinds[j].b), StrayIndex(kinds, streams, j, 2);
    var front, back := Program(kinds[..p], streams), Program(kinds[..n], streams);
    ProgramHandsOver(kinds, streams);
    QuietBetween(kinds, streams, j, p, 2);
    SparesBetween(kinds, streams, p, n, kinds[j].b);
    FrontOf(kinds, streams, p, n);
    BlockIn(kinds, streams, p);
    BlockIn(kinds, streams, n);
    var t := Issue(p, kinds[p], StreamOf(kinds[p], streams));
    assert tasks[|front|] == (front + t)[|front|] == t[0] == Task(INSTANCE, Pad(p));
    RaceIn(tasks, streams, front, back, l, n, kinds[n], g, 2);
    var order := MixedAnswer(tasks, l, |front|, |back|, n, kinds[n], g, 2, waits);
    LastEnds(kinds, j, n, kinds[j].b);
    WrongAnswer(kinds, streams, order, n, 2, waits);
  }

  lemma FrontOf(kinds: seq<Kind>, streams: nat -> nat, p: nat, n: nat)
    requires p <= n <= |kinds|
    ensures Program(kinds[..p], streams) <= Program(kinds[..n], streams)
  {
    ProgramPrefix(kinds[..n], streams, p);
    assert kinds[..n][..p] == kinds[..p];
  }

  lemma {:induction false} LastEnds(kinds: seq<Kind>, j: nat, n: nat, b: nat)
    requires j < n <= |kinds| && CopiesEnds(kinds[j], b) && forall k :: j < k < n ==> !CopiesEnds(kinds[k], b)
    ensures EndsOf(kinds[..n], b) == j
    decreases n
  {
    assert kinds[..n][..n - 1] == kinds[..n - 1];
    if n - 1 > j {
      LastEnds(kinds, j, n - 1, b);
    }
  }

  // ---- Exactly when ----

  /** The last failed replay whose stray copies may still run. */
  lemma {:induction false} LastFailure(kinds: seq<Kind>, streams: nat -> nat, b: nat) returns (j: nat)
    requires Racing(kinds, streams, b)
    ensures j < |kinds| && kinds[j].FailedSlow? && kinds[j].b == b && kinds[j].copies > 0
    ensures forall k :: j < k < |kinds| ==> !CompletesOn(kinds[k], streams, streams(b))
  {
    var n := |kinds| - 1;
    if kinds[n].FailedSlow? && kinds[n].b == b && kinds[n].copies > 0 {
      j := n;
    } else {
      j := LastFailure(kinds[..n], streams, b);
    }
  }

  /** The failed replay whose stray copy of the end positions may still run. */
  lemma {:induction false} LastEndsFailure(kinds: seq<Kind>, streams: nat -> nat, b: nat) returns (j: nat)
    requires EndsPending(kinds, streams, b)
    ensures j < |kinds| && kinds[j].FailedSlow? && kinds[j].b == b && kinds[j].copies >= 3
    ensures forall k :: j < k < |kinds| ==> !CompletesOn(kinds[k], streams, streams(b)) && !CopiesEnds(kinds[k], b)
  {
    var n := |kinds| - 1;
    if kinds[n].FailedSlow? && kinds[n].b == b && kinds[n].copies >= 3 {
      j := n;
    } else {
      j := LastEndsFailure(kinds[..n], streams, b);
    }
  }

  /** That replay, and the batch collected before the copy may have run. */
  lemma {:induction false} SpoilingBatch(kinds: seq<Kind>, streams: nat -> nat, b: nat) returns (j: nat, p: nat)
    requires EndsSpoiled(kinds, streams, b)
    ensures j < p < |kinds| && kinds[j].FailedSlow? && kinds[j].b == b && kinds[j].copies >= 3 && Pads(kinds[p])
    ensures forall k :: j < k < p ==> !CompletesOn(kinds[k], streams, streams(b))
    ensures forall k :: j < k < |kinds| ==> !CopiesEnds(kinds[k], b)
  {
    var n := |kinds| - 1;
    if EndsSpoiled(kinds[..n], streams, b) {
      j, p := SpoilingBatch(kinds[..n], streams, b);
    } else {
      j := LastEndsFailure(kinds[..n], streams, b);
      p := n;
    }
  }

  /** The first batch read from a dirty graph. */
  lemma {:induction false} FirstDirtyRead(kinds: seq<Kind>, streams: nat -> nat) returns (n: nat)
    requires !Ordered(kinds, streams)
    ensures n < |kinds| && ReadsStaged(kinds[n]) && Dirty(kinds[..n], streams, kinds[n].b)
  {
    var last := |kinds| - 1;
    if Ordered(kinds[..last], streams) {
      n := last;
    } else {
      n := FirstDirtyRead(kinds[..last], streams);
      assert kinds[..last][..n] == kinds[..n];
    }
  }

  /** For any streams, shared or not, and however often the host waits, all interleavings are safe
      exactly when no batch is collected into the static inputs of a dirty graph and read there. */
  lemma SafeIff(kinds: seq<Kind>, streams: nat -> nat, waits: HostWaits)
    requires OwnStreams(streams)
    ensures Safe(kinds, streams, waits) <==> Ordered(kinds, streams)
  {
    if Ordered(kinds, streams) {
      EveryInterleavingSafe(kinds, streams, waits);
    } else {
      var n := FirstDirtyRead(kinds, streams);
      DirtyReadUnsafe(kinds, streams, n, waits);
    }
  }

  lemma DirtyReadUnsafe(kinds: seq<Kind>, streams: nat -> nat, n: nat, waits: HostWaits)
    requires OwnStreams(streams) && n < |kinds| && ReadsStaged(kinds[n]) && Dirty(kinds[..n], streams, kinds[n].b)
    ensures !Safe(kinds, streams, waits)
  {
    var front, b := kinds[..n], kinds[n].b;
    assert forall k :: 0 <= k < n ==> front[k] == kinds[k];
    if Racing(front, streams, b) {
      var j := LastFailure(front, streams, b);
      DirtyStagingRaces(kinds, streams, j, n, waits);
    } else {
      var j, p := SpoilingBatch(front, streams, b);
      SpoiledEndsRace(kinds, streams, j, p, n, waits);
    }
  }

  // ---- One failed replay ----

  /** No replay failed with copies already enqueued. */
  predicate Clean(kinds: seq<Kind>) {
    forall n :: 0 <= n < |kinds| && kinds[n].FailedSlow? ==> kinds[n].copies == 0
  }

  lemma {:induction false} CleanIsSpotless(kinds: seq<Kind>, streams: nat -> nat, b: nat)
    requires Clean(kinds)
    ensures !Racing(kinds, streams, b) && !EndsPending(kinds, streams, b) && !EndsSpoiled(kinds, streams, b)
  {
    if kinds != [] {
      CleanIsSpotless(kinds[..|kinds| - 1], streams, b);
    }
  }

  lemma {:induction false} CleanIsOrdered(kinds: seq<Kind>, streams: nat -> nat)
    requires Clean(kinds)
    ensures Ordered(kinds, streams)
  {
    if kinds != [] {
      var n := |kinds| - 1;
      CleanIsOrdered(kinds[..n], streams);
      if ReadsStaged(kinds[n]) {
        CleanIsSpotless(kinds[..n], streams, kinds[n].b);
      }
    }
  }

  /** Whatever ran before, a failed replay is harmless to everything that may follow exactly when
      it failed before its first copy. */
  lemma FailedReplaySafeIff(kinds: seq<Kind>, b: nat, c: nat, streams: nat -> nat, waits: HostWaits)
    requires Clean(kinds) && OwnStreams(streams)
    ensures (forall more: seq<Kind> :: Clean(more) ==> Safe(kinds + [FailedSlow(b, c)] + more, streams, waits))
            <==> c == 0
  {
    if c == 0 {
      forall more: seq<Kind> | Clean(more)
        ensures Safe(kinds + [FailedSlow(b, c)] + more, streams, waits)
      {
        CleanIsOrdered(kinds + [FailedSlow(b, c)] + more, streams);
        EveryInterleavingSafe(kinds + [FailedSlow(b, c)] + more, streams, waits);
      }
    } else {
      DirtyStagingRaces(kinds + [FailedSlow(b, c)] + [Prestaged(b)], streams, |kinds|, |kinds| + 1, waits);
      assert Clean([Prestaged(b)]);
    }
  }
}
