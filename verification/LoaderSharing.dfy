/** Which instances of a model share a loader. */
module LoaderSharing {
  import opened Basics

  /** A target device: the CPU, or the GPU with an index. */
  datatype Device = Device(gpu: bool, index: int)

  datatype Loader = Loader(id: nat, singleThreaded: bool, runners: nat)

  /** One instance load: its device, whether the package file exists and whether it loads. */
  datatype Load = Load(device: Device, present: bool, loads: bool)

  datatype Flags = Flags(cudaGraph: bool, weightSharing: bool, instances: nat)

  /** The self-protecting override of `ParseParameters`: graphs force sharing off. */
  function Effective(flags: Flags): (f: Flags)
    ensures f.cudaGraph == flags.cudaGraph && f.instances == flags.instances
    ensures f.weightSharing <==> flags.weightSharing && !flags.cudaGraph
  {
    if flags.cudaGraph && flags.weightSharing then flags.(weightSharing := false) else flags
  }

  function RunnersOf(flags: Flags): nat {
    if flags.cudaGraph then 1 else if flags.weightSharing then flags.instances else 1
  }

  /** The model state: effective flags, the shared loaders by device, and how many were built. */
  datatype State = State(flags: Flags, shared: map<Device, Loader>, built: nat)

  /** One call of `LoadModel`; None is an error. */
  function LoadSpec(st: State, load: Load): (State, Option<Loader>) {
    if !load.present then (st, None)
    else if st.flags.weightSharing && load.device in st.shared then (st, Some(st.shared[load.device]))
    else if !load.loads then (st, None)
    else
      var loader := Loader(st.built, st.flags.cudaGraph, RunnersOf(st.flags));
      (st.(built := st.built + 1,
           shared := if st.flags.weightSharing then st.shared[load.device := loader] else st.shared),
       Some(loader))
  }

  class ModelState {
    var flags: Flags
    var aotiModels: map<Device, Loader>
    var built: nat

    function Abs(): State
      reads this
    {
      State(flags, aotiModels, built)
    }

    /** `ParseParameters` runs before any load. */
    constructor (parsed: Flags)
      ensures Abs() == State(Effective(parsed), map[], 0)
    {
      flags := Effective(parsed);
      aotiModels := map[];
      built := 0;
    }

    method LoadModel(load: Load) returns (loader: Option<Loader>)
      modifies this
      ensures (Abs(), loader) == LoadSpec(old(Abs()), load)
    {
      if !load.present {
        return None;
      }
      if flags.weightSharing {
        if load.device in aotiModels {
          return Some(aotiModels[load.device]);
        }
      }
      var runners := if flags.weightSharing then flags.instances else 1;
      if flags.cudaGraph {
        runners := 1;
      }
      if !load.loads {
        return None;
      }
      loader := Some(Loader(built, flags.cudaGraph, runners));
      built := built + 1;
      if flags.weightSharing {
        aotiModels := aotiModels[load.device := loader.value];
      }
    }
  }

  /** All loads in order, and the loader each instance got. */
  function LoadAll(flags: Flags, loads: seq<Load>): (p: (State, seq<Option<Loader>>))
    ensures |p.1| == |loads| && p.0.flags == Effective(flags)
  {
    if loads == [] then (State(Effective(flags), map[], 0), []) else
    var n := |loads| - 1;
    var (st, got) := LoadAll(flags, loads[..n]);
    var (st', loader) := LoadSpec(st, loads[n]);
    (st', got + [loader])
  }

  predicate HasMode(flags: Flags, loader: Loader) {
    loader.singleThreaded == flags.cudaGraph && loader.runners == RunnersOf(flags)
  }

  /** Every loader handed out was built before, in the mode of the flags; the shared ones are
      registered under the device of each instance that got them, and under no two at once. */
  ghost predicate Consistent(st: State, loads: seq<Load>, got: seq<Option<Loader>>)
    requires |got| == |loads|
  {
    && (forall i :: 0 <= i < |got| && got[i].Some? ==> got[i].value.id < st.built && HasMode(st.flags, got[i].value))
    && (forall d :: d in st.shared ==> st.shared[d].id < st.built && HasMode(st.flags, st.shared[d]))
    && (forall d, e :: d in st.shared && e in st.shared && st.shared[d].id == st.shared[e].id ==> d == e)
    && (st.flags.weightSharing ==> forall i :: 0 <= i < |got| && got[i].Some? ==>
          loads[i].device in st.shared && st.shared[loads[i].device] == got[i].value)
    && (!st.flags.weightSharing ==> st.shared == map[])
  }

  lemma LoadKeepsConsistent(st: State, loads: seq<Load>, got: seq<Option<Loader>>, load: Load)
    requires |got| == |loads| && Consistent(st, loads, got)
    ensures Consistent(LoadSpec(st, load).0, loads + [load], got + [LoadSpec(st, load).1])
  {
    var st', loader := LoadSpec(st, load).0, LoadSpec(st, load).1;
    var loads', got' := loads + [load], got + [loader];
    forall i | 0 <= i < |got'| && got'[i].Some?
      ensures got'[i].value.id < st'.built && HasMode(st'.flags, got'[i].value)
      ensures st'.flags.weightSharing ==>
        loads'[i].device in st'.shared && st'.shared[loads'[i].device] == got'[i].value
    {
      if i < |got| {
        assert got'[i] == got[i] && loads'[i] == loads[i];
      }
    }
  }

  lemma {:induction false} LoadsConsistent(flags: Flags, loads: seq<Load>)
    ensures Consistent(LoadAll(flags, loads).0, loads, LoadAll(flags, loads).1)
  {
    if loads != [] {
      var n := |loads| - 1;
      LoadsConsistent(flags, loads[..n]);
      LoadKeepsConsistent(LoadAll(flags, loads[..n]).0, loads[..n], LoadAll(flags, loads[..n]).1, loads[n]);
      assert loads[..n] + [loads[n]] == loads;
    }
  }

  /** The package is there and loads. */
  predicate Loads(load: Load) {
    load.present && load.loads
  }

  /** A loader is registered for exactly the devices for which some package loaded. */
  lemma {:induction false} SharedKeys(flags: Flags, loads: seq<Load>, d: Device)
    ensures d in LoadAll(flags, loads).0.shared <==>
            && flags.weightSharing && !flags.cudaGraph
            && exists j :: 0 <= j < |loads| && loads[j].device == d && Loads(loads[j])
  {
    if loads != [] {
      var n := |loads| - 1;
      SharedKeys(flags, loads[..n], d);
      assert forall j :: 0 <= j < |loads| ==> loads[j] == if j < n then loads[..n][j] else loads[n];
    }
  }

  /** An instance gets a loader exactly when its package is there, and it loads or, with sharing and
      without graphs, an earlier one on the same device did. */
  lemma {:induction false} LoadedIff(flags: Flags, loads: seq<Load>, i: nat)
    requires i < |loads|
    ensures LoadAll(flags, loads).1[i].Some? <==>
            && loads[i].present
            && (loads[i].loads ||
                (flags.weightSharing && !flags.cudaGraph &&
                 exists j :: 0 <= j < i && loads[j].device == loads[i].device && Loads(loads[j])))
    decreases |loads|
  {
    var n := |loads| - 1;
    if i < n {
      LoadedIff(flags, loads[..n], i);
    } else {
      SharedKeys(flags, loads[..n], loads[n].device);
    }
    assert forall j :: 0 <= j < n ==> loads[..n][j] == loads[j];
  }

  /** Two instances that loaded share a loader exactly when sharing is on, graphs are off and
      they are on the same device. In particular with graphs no loader is ever shared. */
  lemma {:induction false} SharedIff(flags: Flags, loads: seq<Load>, i: nat, j: nat)
    requires i < j < |loads|
    requires LoadAll(flags, loads).1[i].Some? && LoadAll(flags, loads).1[j].Some?
    ensures LoadAll(flags, loads).1[i].value.id == LoadAll(flags, loads).1[j].value.id
            <==> flags.weightSharing && !flags.cudaGraph && loads[i].device == loads[j].device
  {
    var n := |loads| - 1;
    LoadsConsistent(flags, loads);
    LoadsConsistent(flags, loads[..n]);
    if j < n {
      SharedIff(flags, loads[..n], i, j);
    }
  }

  /** Every instance that loaded has a loader that is single-threaded exactly with graphs, with
      one runner per instance when it may be shared and a single runner otherwise. */
  lemma RunnersByMode(flags: Flags, loads: seq<Load>, i: nat)
    requires i < |loads| && LoadAll(flags, loads).1[i].Some?
    ensures var loader := LoadAll(flags, loads).1[i].value;
      && (loader.singleThreaded <==> flags.cudaGraph)
      && loader.runners == if flags.weightSharing && !flags.cudaGraph then flags.instances else 1
  {
    LoadsConsistent(flags, loads);
    assert HasMode(Effective(flags), LoadAll(flags, loads).1[i].value);
  }

  /** `Create` for every instance in turn. */
  method LoadInstances(flags: Flags, loads: seq<Load>) returns (got: seq<Option<Loader>>)
    ensures got == LoadAll(flags, loads).1
  {
    var model := new ModelState(flags);
    got := [];
    var i := 0;
    while i < |loads|
      invariant 0 <= i <= |loads| && (model.Abs(), got) == LoadAll(flags, loads[..i])
    {
      assert loads[..i + 1][..i] == loads[..i];
      var loader := model.LoadModel(loads[i]);
      got := got + [loader];
      i := i + 1;
    }
    assert loads[..i] == loads;
  }
}
