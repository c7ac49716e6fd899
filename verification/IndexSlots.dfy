/** How input names become input slots: `<name>__<index>` or the order of the configuration. */
module IndexSlots {
  import opened Basics
  import opened Digits

  datatype NamingConvention = NamedIndex | StrictConfigOrdering

  /** `io_name.find("__")`, from position i on; None when there is no delimiter. */
  function FindDelimiter(name: string, i: nat): (p: Option<nat>)
    requires i <= |name|
    ensures p.Some? ==> i <= p.value && p.value + 1 < |name| && name[p.value] == '_' && name[p.value + 1] == '_'
    ensures forall j :: i <= j < (if p.Some? then p.value else |name| - 1) ==> name[j] != '_' || name[j + 1] != '_'
    decreases |name| - i
  {
    if i + 1 >= |name| then None
    else if name[i] == '_' && name[i + 1] == '_' then Some(i)
    else FindDelimiter(name, i + 1)
  }

  /** The part after the delimiter. */
  function IndexPart(name: string): Option<string> {
    match FindDelimiter(name, 0)
    case None => None
    case Some(p) => Some(name[p + 2..])
  }

  /** The name passes the validation of `GetNamingConvention`. */
  predicate IsIndexed(name: string) {
    IndexPart(name).Some? && AllDigits(IndexPart(name).value)
  }

  /** `std::atoi` of the index part: 0 when there is no number. */
  function IndexOf(name: string): int
    requires IndexPart(name).Some?
  {
    match ReadInt(IndexPart(name).value)
    case Some(x) => x
    case None => 0
  }

  /** The names `GetNamingConvention` examines: those of the outputs when the list of allowed names
      is empty, those of the inputs otherwise. */
  function Examined(allowed: seq<string>, inputs: seq<string>, outputs: seq<string>): seq<string> {
    if allowed == [] then outputs else inputs
  }

  predicate AllIndexed(names: seq<string>) {
    forall i :: 0 <= i < |names| ==> IsIndexed(names[i])
  }

  /** `GetNamingConvention`: the first name that is not of the indexed form decides. */
  method GetNamingConvention(allowed: seq<string>, inputs: seq<string>, outputs: seq<string>)
    returns (convention: NamingConvention)
    ensures convention.NamedIndex? <==> AllIndexed(Examined(allowed, inputs, outputs))
  {
    var names := Examined(allowed, inputs, outputs);
    var i := 0;
    while i < |names|
      invariant 0 <= i <= |names|
      invariant forall j :: 0 <= j < i ==> IsIndexed(names[j])
    {
      var part := IndexPart(names[i]);
      if part.None? {
        return StrictConfigOrdering;
      }
      var isInt := true;
      var k := 0;
      while k < |part.value|
        invariant 0 <= k <= |part.value|
        invariant isInt <==> forall j :: 0 <= j < k ==> IsDigit(part.value[j])
      {
        if !IsDigit(part.value[k]) {
          isInt := false;
        }
        k := k + 1;
      }
      if !isInt {
        return StrictConfigOrdering;
      }
      i := i + 1;
    }
    return NamedIndex;
  }

  /** Names that an index can be appended to. */
  predicate Plain(name: string) {
    FindDelimiter(name, 0).None? && (name != "" ==> name[|name| - 1] != '_')
  }

  /** `name__i` is recognised and gives i back exactly when the name itself holds no delimiter
      and does not end in an underscore. */
  lemma IndexRoundTripIff(name: string, i: nat)
    ensures var full := name + "__" + Print(i);
      (IsIndexed(full) && IndexOf(full) == i) <==> Plain(name)
  {
    var full := name + "__" + Print(i);
    var n := |name|;
    assert full[n] == '_' && full[n + 1] == '_';
    var p := FindDelimiter(full, 0).value;
    if p < n {
      EarlyDelimiter(name, full, p);
    } else {
      assert full[n + 2..] == Print(i);
      ReadPrinted(i);
      LateDelimiter(name, full);
    }
  }

  /** A delimiter that starts inside the name leaves an underscore in the index part. */
  lemma EarlyDelimiter(name: string, full: string, p: nat)
    requires name <= full && |name| + 2 <= |full| && full[|name|] == '_' && full[|name| + 1] == '_'
    requires FindDelimiter(full, 0) == Some(p) && p < |name|
    ensures !IsIndexed(full) && !Plain(name)
  {}

  lemma LateDelimiter(name: string, full: string)
    requires name <= full && |name| + 2 <= |full| && full[|name|] == '_' && full[|name| + 1] == '_'
    requires FindDelimiter(full, 0).Some? && |name| <= FindDelimiter(full, 0).value
    ensures Plain(name) && FindDelimiter(full, 0) == Some(|name|)
  {}

  // ---- Slots in configuration order ----

  /** The index map after the first n names were added in order: later duplicates win. */
  function IndexMap(names: seq<string>, n: nat): map<string, int>
    requires n <= |names|
  {
    if n == 0 then map[] else IndexMap(names, n - 1)[names[n - 1] := n - 1]
  }

  /** The index `AddInputToMap` reads off a name: after the delimiter, or after the first character
      of a name without one; 0 when there is no number. Names are not empty. */
  function NamedSlot(name: string): int
    requires name != ""
  {
    if IndexPart(name).Some? then IndexOf(name)
    else match ReadInt(name[1..]) case Some(x) => x case None => 0
  }

  /** The name is a plain one, the delimiter and digits. */
  predicate Numbered(name: string, plain: string, digits: string) {
    Plain(plain) && AllDigits(digits) && name == plain + "__" + digits
  }

  /** The index of such a name is the number its digits write, 0 when there are none. */
  lemma NumberedReads(name: string, plain: string, digits: string)
    requires Numbered(name, plain, digits)
    ensures name != "" && IsIndexed(name) && NamedSlot(name) == NatValue(digits)
  {
    var n := |plain|;
    assert name[n] == '_' && name[n + 1] == '_';
    LateDelimiter(plain, name);
    assert name[n + 2..] == digits;
    if digits != "" {
      assert "" + ("" + (digits + "")) == digits;
      ReadWritten(digits, "", "", digits, "");
    } else {
      assert SkipSpace("") == "";
    }
  }

  /** Exactly those names are of the indexed form. */
  lemma IsIndexedIff(name: string)
    ensures IsIndexed(name) <==> exists plain, digits :: Numbered(name, plain, digits)
  {
    if IsIndexed(name) {
      var p := FindDelimiter(name, 0).value;
      var plain, digits := name[..p], name[p + 2..];
      assert name == plain + "__" + digits;
      assert Numbered(name, plain, digits);
    }
    forall plain, digits | Numbered(name, plain, digits)
      ensures IsIndexed(name)
    {
      NumberedReads(name, plain, digits);
    }
  }

  predicate NonEmpty(names: seq<string>) {
    forall i :: 0 <= i < |names| ==> names[i] != ""
  }

  /** The index map under the named-index convention. */
  function NamedMap(names: seq<string>, n: nat): map<string, int>
    requires n <= |names| && NonEmpty(names)
  {
    if n == 0 then map[] else NamedMap(names, n - 1)[names[n - 1] := NamedSlot(names[n - 1])]
  }

  /** The map under either convention. */
  function InputMap(convention: NamingConvention, names: seq<string>, n: nat): map<string, int>
    requires n <= |names| && NonEmpty(names)
  {
    if convention.NamedIndex? then NamedMap(names, n) else IndexMap(names, n)
  }

  lemma InputMapStep(convention: NamingConvention, names: seq<string>, n: nat)
    requires n < |names| && NonEmpty(names)
    ensures InputMap(convention, names, n + 1) ==
            InputMap(convention, names, n)[names[n] := if convention.NamedIndex? then NamedSlot(names[n]) else n]
  {}

  /** `ValidateInputs`: it passes no allowed names, so the outputs decide the convention for the
      inputs. Then declared inputs are added and batch-input targets after them. */
  method ValidateInputs(inputs: seq<string>, outputs: seq<string>, targets: seq<string>)
    returns (indexMap: map<string, int>)
    requires NonEmpty(inputs + targets)
    ensures indexMap == if AllIndexed(outputs) then NamedMap(inputs + targets, |inputs| + |targets|)
                        else IndexMap(inputs + targets, |inputs| + |targets|)
    ensures AllIndexed(outputs) ==> forall name, plain, digits ::
              name in inputs + targets && Numbered(name, plain, digits) ==>
                name in indexMap && indexMap[name] == NatValue(digits)
  {
    var convention := GetNamingConvention([], inputs, outputs);
    ghost var names := inputs + targets;
    indexMap := map[];
    var i := 0;
    while i < |inputs|
      invariant 0 <= i <= |inputs| && indexMap == InputMap(convention, names, i)
    {
      InputMapStep(convention, names, i);
      indexMap := indexMap[inputs[i] := if convention.NamedIndex? then NamedSlot(inputs[i]) else i];
      i := i + 1;
    }
    i := 0;
    while i < |targets|
      invariant 0 <= i <= |targets| && indexMap == InputMap(convention, names, |inputs| + i)
    {
      InputMapStep(convention, names, |inputs| + i);
      indexMap := indexMap[targets[i] := if convention.NamedIndex? then NamedSlot(targets[i]) else i + |inputs|];
      i := i + 1;
    }
    forall name, plain, digits | AllIndexed(outputs) && name in names && Numbered(name, plain, digits)
      ensures name in indexMap && indexMap[name] == NatValue(digits)
    {
      NumberedReads(name, plain, digits);
      var j :| 0 <= j < |names| && names[j] == name;
      NamedMapAt(names, |names|, j);
    }
  }

  lemma {:induction false} LastIndexWins(names: seq<string>, n: nat, j: nat)
    requires j < n <= |names|
    ensures var m := IndexMap(names, n);
      && names[j] in m && j <= m[names[j]] < n && names[m[names[j]]] == names[j]
  {
    if j < n - 1 {
      LastIndexWins(names, n - 1, j);
    }
  }

  predicate Distinct(names: seq<string>) {
    forall i, j :: 0 <= i < j < |names| ==> names[i] != names[j]
  }

  /** How many of the first n inputs are stored into slot k. */
  function Stores(names: seq<string>, m: map<string, int>, n: nat, k: int): nat
    requires n <= |names| && forall j :: 0 <= j < n ==> names[j] in m
  {
    if n == 0 then 0 else Stores(names, m, n - 1, k) + (if m[names[n - 1]] == k then 1 else 0)
  }

  /** Every store hits one of the slots and every slot is stored into exactly once. */
  ghost predicate FillsEachOnce(names: seq<string>, m: map<string, int>, slots: nat)
    requires forall j :: 0 <= j < |names| ==> names[j] in m
  {
    && (forall j :: 0 <= j < |names| ==> 0 <= m[names[j]] < slots)
    && (forall k :: 0 <= k < slots ==> Stores(names, m, |names|, k) == 1)
  }

  // ---- Every slot once ----

  lemma {:induction false} NamedMapAt(names: seq<string>, n: nat, j: nat)
    requires j < n <= |names| && NonEmpty(names)
    ensures names[j] in NamedMap(names, n) && NamedMap(names, n)[names[j]] == NamedSlot(names[j])
  {
    if j < n - 1 {
      NamedMapAt(names, n - 1, j);
    }
  }

  /** Every store hits one of the slots before bound. */
  predicate InRange(names: seq<string>, m: map<string, int>, bound: nat) {
    forall j :: 0 <= j < |names| ==> names[j] in m && 0 <= m[names[j]] < bound
  }

  /** No two stores hit the same slot. */
  predicate Injective(names: seq<string>, m: map<string, int>)
    requires forall j :: 0 <= j < |names| ==> names[j] in m
  {
    forall i, j :: 0 <= i < j < |names| ==> m[names[i]] != m[names[j]]
  }

  /** How many of the first n inputs are stored into slots before bound. */
  function StoresBelow(names: seq<string>, m: map<string, int>, n: nat, bound: nat): nat
    requires n <= |names| && forall j :: 0 <= j < n ==> names[j] in m
  {
    if bound == 0 then 0 else StoresBelow(names, m, n, bound - 1) + Stores(names, m, n, bound - 1)
  }

  /** One more input is one more store. */
  lemma {:induction false} OneMoreStore(names: seq<string>, m: map<string, int>, n: nat, bound: nat)
    requires 1 <= n <= |names| && forall j :: 0 <= j < n ==> names[j] in m
    ensures StoresBelow(names, m, n, bound) ==
            StoresBelow(names, m, n - 1, bound) + (if 0 <= m[names[n - 1]] < bound then 1 else 0)
  {
    if bound > 0 {
      OneMoreStore(names, m, n, bound - 1);
    }
  }

  lemma {:induction false} NoStores(names: seq<string>, m: map<string, int>, bound: nat)
    ensures StoresBelow(names, m, 0, bound) == 0
  {
    if bound > 0 {
      NoStores(names, m, bound - 1);
    }
  }

  lemma {:induction false} AllStored(names: seq<string>, m: map<string, int>, n: nat, bound: nat)
    requires n <= |names| && InRange(names, m, bound)
    ensures StoresBelow(names, m, n, bound) == n
  {
    if n == 0 {
      NoStores(names, m, bound);
    } else {
      AllStored(names, m, n - 1, bound);
      OneMoreStore(names, m, n, bound);
    }
  }

  lemma {:induction false} StoredOnce(names: seq<string>, m: map<string, int>, n: nat, k: int)
    requires n <= |names| && (forall j :: 0 <= j < |names| ==> names[j] in m) && Injective(names, m)
    ensures Stores(names, m, n, k) <= 1
    ensures Stores(names, m, n, k) == 1 ==> exists j :: 0 <= j < n && m[names[j]] == k
  {
    if n > 0 {
      StoredOnce(names, m, n - 1, k);
    }
  }

  lemma {:induction false} StoredTwice(names: seq<string>, m: map<string, int>, n: nat, i: nat, j: nat)
    requires i < j < n <= |names| && forall l :: 0 <= l < n ==> names[l] in m
    requires m[names[i]] == m[names[j]]
    ensures Stores(names, m, n, m[names[i]]) >= 2
  {
    if j < n - 1 {
      StoredTwice(names, m, n - 1, i, j);
    } else {
      StoredAtLeastOnce(names, m, n - 1, i);
    }
  }

  lemma {:induction false} StoredAtLeastOnce(names: seq<string>, m: map<string, int>, n: nat, i: nat)
    requires i < n <= |names| && forall l :: 0 <= l < n ==> names[l] in m
    ensures Stores(names, m, n, m[names[i]]) >= 1
  {
    if i < n - 1 {
      StoredAtLeastOnce(names, m, n - 1, i);
    }
  }

  /** Slots that hold at most one store each hold one each exactly when there are as many stores. */
  lemma {:induction false} Pigeonhole(names: seq<string>, m: map<string, int>, bound: nat)
    requires forall j :: 0 <= j < |names| ==> names[j] in m
    requires forall k :: 0 <= k < bound ==> Stores(names, m, |names|, k) <= 1
    ensures StoresBelow(names, m, |names|, bound) <= bound
    ensures StoresBelow(names, m, |names|, bound) == bound <==>
            forall k :: 0 <= k < bound ==> Stores(names, m, |names|, k) == 1
  {
    if bound > 0 {
      var k := bound - 1;
      Pigeonhole(names, m, k);
      assert Stores(names, m, |names|, k) <= 1;
    }
  }

  lemma InjectiveFills(names: seq<string>, m: map<string, int>)
    requires InRange(names, m, |names|) && Injective(names, m)
    ensures FillsEachOnce(names, m, |names|)
  {
    AllStored(names, m, |names|, |names|);
    forall k | 0 <= k < |names|
      ensures Stores(names, m, |names|, k) <= 1
    {
      StoredOnce(names, m, |names|, k);
    }
    Pigeonhole(names, m, |names|);
  }

  lemma FillsInjective(names: seq<string>, m: map<string, int>, slots: nat)
    requires (forall j :: 0 <= j < |names| ==> names[j] in m) && FillsEachOnce(names, m, slots)
    ensures |names| == slots && InRange(names, m, slots) && Injective(names, m)
  {
    AllStored(names, m, |names|, slots);
    Pigeonhole(names, m, slots);
    forall i, j | 0 <= i < j < |names|
      ensures m[names[i]] != m[names[j]]
    {
      if m[names[i]] == m[names[j]] {
        StoredTwice(names, m, |names|, i, j);
      }
    }
  }

  /** For any map: every slot is stored into exactly once if and only if there are as many inputs as
      slots, all indices are slots, and no two are equal. */
  lemma FillsIff(names: seq<string>, m: map<string, int>, slots: nat)
    requires forall j :: 0 <= j < |names| ==> names[j] in m
    ensures FillsEachOnce(names, m, slots) <==> |names| == slots && InRange(names, m, slots) && Injective(names, m)
  {
    if FillsEachOnce(names, m, slots) {
      FillsInjective(names, m, slots);
    } else if |names| == slots && InRange(names, m, slots) && Injective(names, m) {
      InjectiveFills(names, m);
    }
  }

  /** Under strict ordering, with one slot per declared input and per batch input, `SetInputTensors`
      fills every slot exactly once if and only if all names are distinct and each batch input has
      one target. */
  lemma SlotsFilledOnceIff(inputs: seq<string>, targets: seq<string>, batchInputs: nat)
    ensures var names := inputs + targets;
      && (forall j :: 0 <= j < |names| ==> names[j] in IndexMap(names, |names|))
      && (FillsEachOnce(names, IndexMap(names, |names|), |inputs| + batchInputs)
          <==> Distinct(names) && |targets| == batchInputs)
  {
    var names := inputs + targets;
    var m := IndexMap(names, |names|);
    forall j | 0 <= j < |names|
      ensures names[j] in m && j <= m[names[j]] < |names| && names[m[names[j]]] == names[j]
    {
      LastIndexWins(names, |names|, j);
    }
    FillsIff(names, m, |inputs| + batchInputs);
    assert Injective(names, m) <==> Distinct(names);
  }

  /** When all outputs are of the indexed form, every slot is filled exactly once if and only if the
      numbers read off the input names are the slots, each once. */
  lemma NamedSlotsFilledOnceIff(inputs: seq<string>, targets: seq<string>, batchInputs: nat)
    requires NonEmpty(inputs + targets)
    ensures var names, slots := inputs + targets, |inputs| + batchInputs; var m := NamedMap(names, |names|);
      && (forall j :: 0 <= j < |names| ==> names[j] in m)
      && (FillsEachOnce(names, m, slots) <==>
          && |targets| == batchInputs
          && (forall j :: 0 <= j < |names| ==> 0 <= NamedSlot(names[j]) < slots)
          && (forall i, j :: 0 <= i < j < |names| ==> NamedSlot(names[i]) != NamedSlot(names[j])))
  {
    var names, slots := inputs + targets, |inputs| + batchInputs;
    var m := NamedMap(names, |names|);
    forall j | 0 <= j < |names|
      ensures names[j] in m && m[names[j]] == NamedSlot(names[j])
    {
      NamedMapAt(names, |names|, j);
    }
    FillsIff(names, m, slots);
  }

  /** Input j is called plain[j]__index[j]. */
  predicate NumberedInputs(names: seq<string>, plain: seq<string>, index: seq<nat>) {
    && |plain| == |index| == |names|
    && forall j :: 0 <= j < |names| ==> Plain(plain[j]) && names[j] == plain[j] + "__" + Print(index[j])
  }

  lemma NumberedMapAt(names: seq<string>, plain: seq<string>, index: seq<nat>, j: nat)
    requires NumberedInputs(names, plain, index) && NonEmpty(names) && j < |names|
    ensures var m := NamedMap(names, |names|); names[j] in m && m[names[j]] == index[j]
  {
    NumberedReads(names[j], plain[j], Print(index[j]));
    PrintedValue(index[j]);
    NamedMapAt(names, |names|, j);
  }

  /** With indexed outputs and inputs called plain__index, every slot is filled exactly once if and
      only if the indexes are a permutation of the slots, and then slot i ends up with the input
      whose index is i. */
  lemma NumberedInputsFill(names: seq<string>, plain: seq<string>, index: seq<nat>, slots: nat)
    requires NumberedInputs(names, plain, index)
    ensures NonEmpty(names)
    ensures var m := NamedMap(names, |names|);
      && (forall j :: 0 <= j < |names| ==> names[j] in m)
      && (FillsEachOnce(names, m, slots) <==>
          && |index| == slots && (forall j :: 0 <= j < |index| ==> index[j] < slots)
          && (forall i, j :: 0 <= i < j < |index| ==> index[i] != index[j]))
      && (FillsEachOnce(names, m, slots) ==>
          forall j :: 0 <= j < |names| ==> HeldBy(names, m, |names|, index[j]) == Some(j))
  {
    assert forall j :: 0 <= j < |names| ==> names[j] != "";
    var m := NamedMap(names, |names|);
    forall j | 0 <= j < |names|
      ensures names[j] in m && m[names[j]] == index[j]
    {
      NumberedMapAt(names, plain, index, j);
    }
    FillsIff(names, m, slots);
    if FillsEachOnce(names, m, slots) {
      forall j | 0 <= j < |names|
        ensures HeldBy(names, m, |names|, index[j]) == Some(j)
      {
        HeldByOwn(names, m, |names|, j);
      }
    }
  }

  lemma {:induction false} HeldByOwn(names: seq<string>, m: map<string, int>, n: nat, j: nat)
    requires j < n <= |names| && (forall l :: 0 <= l < |names| ==> names[l] in m) && Injective(names, m)
    ensures HeldBy(names, m, n, m[names[j]]) == Some(j)
  {
    if j < n - 1 {
      HeldByOwn(names, m, n - 1, j);
    }
  }

  /** The outputs alone can turn plain input names into colliding slots: slot 0 is stored into twice
      and slot 1 never. */
  lemma PlainInputsCollide()
    ensures AllIndexed(["y__0"])
    ensures var names := ["a", "b"]; var m := NamedMap(names, 2);
      (forall j :: 0 <= j < 2 ==> names[j] in m && m[names[j]] == 0) && !FillsEachOnce(names, m, 2)
  {
    assert FindDelimiter("y__0", 0) == FindDelimiter("y__0", 1) == Some(1);
    assert "y__0"[3..] == "0";
    assert "a"[1..] == "" && "b"[1..] == "";
    var names := ["a", "b"];
    NamedMapAt(names, 2, 0);
    NamedMapAt(names, 2, 1);
    FillsIff(names, NamedMap(names, 2), 2);
  }

  // ---- Stores ----

  /** The input that slot k holds after the first n were stored, None if none was stored there. */
  function HeldBy(names: seq<string>, m: map<string, int>, n: nat, k: int): Option<nat>
    requires n <= |names| && forall j :: 0 <= j < n ==> names[j] in m
  {
    if n == 0 then None
    else if m[names[n - 1]] == k then Some(n - 1) else HeldBy(names, m, n - 1, k)
  }

  lemma {:induction false} HoldsOwn(names: seq<string>, m: map<string, int>, n: nat, k: nat)
    requires n <= |names| && forall j :: 0 <= j < |names| ==> names[j] in m && m[names[j]] == j
    ensures HeldBy(names, m, n, k) == if k < n then Some(k) else None
  {
    if n > 0 {
      HoldsOwn(names, m, n - 1, k);
    }
  }

  /** With distinct names slot k ends up with the k-th input: the map is a bijection onto the slots. */
  lemma SlotsHoldInputs(names: seq<string>, k: nat)
    requires Distinct(names) && k < |names|
    ensures (forall j :: 0 <= j < |names| ==> names[j] in IndexMap(names, |names|))
    ensures HeldBy(names, IndexMap(names, |names|), |names|, k) == Some(k)
  {
    var m := IndexMap(names, |names|);
    forall j | 0 <= j < |names|
      ensures names[j] in m && m[names[j]] == j
    {
      LastIndexWins(names, |names|, j);
    }
    HoldsOwn(names, m, |names|, k);
  }

  /** The stores of `SetInputTensors`; a tensor is named by the number of its input. */
  method FillSlots(names: seq<string>, m: map<string, int>, slots: array<Option<nat>>)
    requires forall j :: 0 <= j < |names| ==> names[j] in m && 0 <= m[names[j]] < slots.Length
    modifies slots
    ensures forall k :: 0 <= k < slots.Length ==>
      slots[k] == var held := HeldBy(names, m, |names|, k); if held.Some? then held else old(slots[k])
  {
    var j := 0;
    while j < |names|
      invariant 0 <= j <= |names|
      invariant forall k :: 0 <= k < slots.Length ==>
        slots[k] == var held := HeldBy(names, m, j, k); if held.Some? then held else old(slots[k])
    {
      slots[m[names[j]]] := Some(j);
      j := j + 1;
    }
  }
}
