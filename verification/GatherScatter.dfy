/** The batched pipeline of the Python model: gathering the tensors of all requests, running the
    model once, and scattering its outputs back. A tensor is the sequence of its rows. */
module GatherScatter {
  import opened Basics

  type Tensor<T> = seq<T>

  // ---- What gathering and scattering mean ----

  /** Tensor j of the first n requests, one after the other. */
  function Column<T>(requests: seq<seq<Tensor<T>>>, j: nat, n: nat): Tensor<T>
    requires n <= |requests| && forall i :: 0 <= i < n ==> j < |requests[i]|
  {
    if n == 0 then [] else Column(requests, j, n - 1) + requests[n - 1][j]
  }

  /** Every request has k tensors. */
  predicate Rectangular<T>(requests: seq<seq<Tensor<T>>>, k: nat) {
    forall i :: 0 <= i < |requests| ==> |requests[i]| == k
  }

  function Gathered<T>(requests: seq<seq<Tensor<T>>>, k: nat): seq<Tensor<T>>
    requires Rectangular(requests, k)
  {
    seq(k, j requires 0 <= j < k => Column(requests, j, |requests|))
  }

  /** The leading dimension of each request's first tensor. */
  function Sections<T>(requests: seq<seq<Tensor<T>>>): seq<nat>
    requires forall i :: 0 <= i < |requests| ==> requests[i] != []
  {
    seq(|requests|, i requires 0 <= i < |requests| => |requests[i][0]|)
  }

  function Sum(sections: seq<nat>, n: nat): nat
    requires n <= |sections|
  {
    if n == 0 then 0 else Sum(sections, n - 1) + sections[n - 1]
  }

  lemma {:induction false} SumMonotone(sections: seq<nat>, m: nat, n: nat)
    requires m <= n <= |sections|
    ensures Sum(sections, m) <= Sum(sections, n)
    decreases n
  {
    if m < n {
      SumMonotone(sections, m, n - 1);
    }
  }

  /** `torch.split`: consecutive pieces of the given lengths; it throws unless they add up. */
  function Split<T>(t: Tensor<T>, sections: seq<nat>): (pieces: Option<seq<Tensor<T>>>)
    ensures pieces.Some? <==> Sum(sections, |sections|) == |t|
    ensures pieces.Some? ==> |pieces.value| == |sections|
  {
    if Sum(sections, |sections|) != |t| then None
    else Some(seq(|sections|, i requires 0 <= i < |sections| => Piece(t, sections, i)))
  }

  function Piece<T>(t: Tensor<T>, sections: seq<nat>, i: nat): (p: Tensor<T>)
    requires i < |sections| && Sum(sections, |sections|) == |t|
    ensures |p| == sections[i]
  {
    SumMonotone(sections, i + 1, |sections|);
    t[Sum(sections, i)..Sum(sections, i + 1)]
  }

  predicate Splittable<T>(tensors: seq<Tensor<T>>, sections: seq<nat>) {
    forall j :: 0 <= j < |tensors| ==> Sum(sections, |sections|) == |tensors[j]|
  }

  /** Response i holds piece i of every tensor. */
  function Response<T>(tensors: seq<Tensor<T>>, sections: seq<nat>, i: nat): (row: seq<Tensor<T>>)
    requires Splittable(tensors, sections) && i < |sections|
    ensures |row| == |tensors| && forall j :: 0 <= j < |row| ==> row[j] == Piece(tensors[j], sections, i)
  {
    seq(|tensors|, j requires 0 <= j < |tensors| => Piece(tensors[j], sections, i))
  }

  /** With no tensors there are no responses. */
  function Scattered<T>(tensors: seq<Tensor<T>>, sections: seq<nat>): (rows: Option<seq<seq<Tensor<T>>>>)
    ensures rows.Some? <==> Splittable(tensors, sections)
    ensures rows.Some? && tensors != [] ==> |rows.value| == |sections|
    ensures rows.Some? && tensors != [] ==>
      forall i :: 0 <= i < |sections| ==> rows.value[i] == Response(tensors, sections, i)
  {
    if !Splittable(tensors, sections) then None
    else if tensors == [] then Some([])
    else Some(seq(|sections|, i requires 0 <= i < |sections| => Response(tensors, sections, i)))
  }

  /** Rows that hold the right pieces are what scattering gives. */
  lemma PiecesAreScattered<T>(tensors: seq<Tensor<T>>, sections: seq<nat>, rows: seq<seq<Tensor<T>>>)
    requires tensors != [] && Splittable(tensors, sections) && |rows| == |sections|
    requires forall i :: 0 <= i < |rows| ==> |rows[i]| == |tensors|
    requires forall i, j :: 0 <= i < |rows| && 0 <= j < |tensors| ==> rows[i][j] == Piece(tensors[j], sections, i)
    ensures Scattered(tensors, sections) == Some(rows)
  {
    forall i | 0 <= i < |sections|
      ensures rows[i] == Response(tensors, sections, i)
    {}
    assert Scattered(tensors, sections).value == rows;
  }

  // ---- The loops ----

  /** The inner loop of the gather: the tensors of request i extend the gathered ones, or start
      them for the first request. */
  method AddRequest<T>(gather: seq<Tensor<T>>, scatter: seq<seq<Tensor<T>>>, i: nat, k: nat)
    returns (gather': seq<Tensor<T>>)
    requires Rectangular(scatter, k) && i < |scatter| && |gather| == (if i == 0 then 0 else k)
    requires forall j :: 0 <= j < |gather| ==> gather[j] == Column(scatter, j, i)
    ensures |gather'| == k && forall j :: 0 <= j < k ==> gather'[j] == Column(scatter, j, i + 1)
  {
    gather' := gather;
    var tensors := scatter[i];
    var j := 0;
    while j < |tensors|
      invariant 0 <= j <= k
      invariant |gather'| == if i == 0 then j else k
      invariant forall l :: 0 <= l < j ==> gather'[l] == Column(scatter, l, i + 1)
      invariant forall l :: j <= l < |gather'| ==> gather'[l] == gather[l]
    {
      if j < |gather'| {
        gather' := gather'[j := gather'[j] + tensors[j]];
      } else {
        assert Column(scatter, j, 0) + tensors[j] == tensors[j];
        gather' := gather' + [tensors[j]];
      }
      j := j + 1;
    }
  }

  /** `_gather_torch_tensors` */
  method GatherTensors<T>(scatter: seq<seq<Tensor<T>>>, k: nat) returns (gather: seq<Tensor<T>>, sections: seq<nat>)
    requires k >= 1 && Rectangular(scatter, k) && scatter != []
    ensures gather == Gathered(scatter, k) && sections == Sections(scatter)
  {
    gather, sections := [], [];
    var i := 0;
    while i < |scatter|
      invariant 0 <= i <= |scatter| && |sections| == i
      invariant |gather| == if i == 0 then 0 else k
      invariant forall j :: 0 <= j < |gather| ==> gather[j] == Column(scatter, j, i)
      invariant forall l :: 0 <= l < i ==> sections[l] == |scatter[l][0]|
    {
      gather := AddRequest(gather, scatter, i, k);
      sections := sections + [|scatter[i][0]|];
      i := i + 1;
    }
  }

  /** `_scatter_torch_tensors` */
  method ScatterTensors<T>(gather: seq<Tensor<T>>, sections: seq<nat>) returns (scatter: Option<seq<seq<Tensor<T>>>>)
    ensures scatter == Scattered(gather, sections)
  {
    var rows: seq<seq<Tensor<T>>> := [];
    var j := 0;
    while j < |gather|
      invariant 0 <= j <= |gather|
      invariant forall l :: 0 <= l < j ==> Sum(sections, |sections|) == |gather[l]|
      invariant |rows| == if j == 0 then 0 else |sections|
      invariant forall i :: 0 <= i < |rows| ==> |rows[i]| == j
      invariant forall i, l :: 0 <= i < |rows| && 0 <= l < j ==> rows[i][l] == Piece(gather[l], sections, i)
    {
      var pieces := Split(gather[j], sections);
      if pieces.None? {
        return None;
      }
      var i := 0;
      while i < |pieces.value|
        invariant 0 <= i <= |sections|
        invariant |rows| == if j == 0 then i else |sections|
        invariant forall l :: 0 <= l < i ==> |rows[l]| == j + 1
        invariant forall l :: i <= l < |rows| ==> |rows[l]| == j
        invariant forall l, o :: 0 <= l < |rows| && 0 <= o < |rows[l]| ==> rows[l][o] == Piece(gather[o], sections, l)
      {
        if i < |rows| {
          rows := rows[i := rows[i] + [pieces.value[i]]];
        } else {
          rows := rows + [[pieces.value[i]]];
        }
        i := i + 1;
      }
      j := j + 1;
    }
    if gather != [] {
      PiecesAreScattered(gather, sections, rows);
    }
    return Some(rows);
  }

  // ---- Gathering and scattering undo each other ----

  /** Within each request all tensors have the same leading dimension. */
  predicate LeadingAgree<T>(requests: seq<seq<Tensor<T>>>)
    requires forall i :: 0 <= i < |requests| ==> requests[i] != []
  {
    forall i, j :: 0 <= i < |requests| && 0 <= j < |requests[i]| ==> |requests[i][j]| == |requests[i][0]|
  }

  lemma {:induction false} ColumnLength<T>(requests: seq<seq<Tensor<T>>>, k: nat, j: nat, n: nat)
    requires Rectangular(requests, k) && j < k && LeadingAgree(requests) && n <= |requests|
    ensures |Column(requests, j, n)| == Sum(Sections(requests), n)
  {
    if n > 0 {
      ColumnLength(requests, k, j, n - 1);
    }
  }

  /** Where request i sits in the gathered tensor. */
  lemma {:induction false} ColumnPiece<T>(requests: seq<seq<Tensor<T>>>, k: nat, j: nat, n: nat, i: nat)
    requires Rectangular(requests, k) && j < k && LeadingAgree(requests) && i < n <= |requests|
    ensures var s := Sections(requests);
      && Sum(s, i) <= Sum(s, i + 1) <= |Column(requests, j, n)|
      && Column(requests, j, n)[Sum(s, i)..Sum(s, i + 1)] == requests[i][j]
  {
    ColumnLength(requests, k, j, n);
    ColumnLength(requests, k, j, n - 1);
    if i < n - 1 {
      ColumnPiece(requests, k, j, n - 1, i);
    }
  }

  /** Scattering the gathered tensors by the recorded sections gives the requests back exactly
      when the leading dimensions agree within each request. */
  lemma GatherScatterIff<T>(requests: seq<seq<Tensor<T>>>, k: nat)
    requires k >= 1 && requests != [] && Rectangular(requests, k)
    ensures Scattered(Gathered(requests, k), Sections(requests)) == Some(requests) <==> LeadingAgree(requests)
  {
    if LeadingAgree(requests) {
      GatheredLengths(requests, k);
      forall i, j | 0 <= i < |requests| && 0 <= j < k
        ensures requests[i][j] == Piece(Gathered(requests, k)[j], Sections(requests), i)
      {
        ColumnPiece(requests, k, j, |requests|, i);
      }
      PiecesAreScattered(Gathered(requests, k), Sections(requests), requests);
    } else if Scattered(Gathered(requests, k), Sections(requests)) == Some(requests) {
      ScatteredAgrees(Gathered(requests, k), Sections(requests), requests);
    }
  }

  /** In scattered responses all tensors of a response have the length of its section. */
  lemma ScatteredAgrees<T>(tensors: seq<Tensor<T>>, sections: seq<nat>, rows: seq<seq<Tensor<T>>>)
    requires tensors != [] && Scattered(tensors, sections) == Some(rows)
    ensures forall i, j :: 0 <= i < |rows| && 0 <= j < |rows[i]| ==> |rows[i][j]| == sections[i]
  {}

  lemma GatheredLengths<T>(requests: seq<seq<Tensor<T>>>, k: nat)
    requires k >= 1 && Rectangular(requests, k) && LeadingAgree(requests)
    ensures Splittable(Gathered(requests, k), Sections(requests))
  {
    forall j | 0 <= j < k
      ensures |Gathered(requests, k)[j]| == Sum(Sections(requests), |requests|)
    {
      ColumnLength(requests, k, j, |requests|);
    }
  }

  lemma {:induction false} PiecesJoin<T>(tensors: seq<Tensor<T>>, sections: seq<nat>, j: nat, n: nat)
    requires Splittable(tensors, sections) && j < |tensors| && n <= |sections|
    ensures Sum(sections, n) <= |tensors[j]|
    ensures Column(Scattered(tensors, sections).value, j, n) == tensors[j][..Sum(sections, n)]
  {
    SumMonotone(sections, n, |sections|);
    if n > 0 {
      PiecesJoin(tensors, sections, j, n - 1);
      SumMonotone(sections, n - 1, n);
      assert Scattered(tensors, sections).value[n - 1][j] == Piece(tensors[j], sections, n - 1);
    }
  }

  /** Gathering the scattered pieces gives back the tensors and the sections. */
  lemma ScatterGather<T>(tensors: seq<Tensor<T>>, sections: seq<nat>)
    requires tensors != [] && sections != [] && Splittable(tensors, sections)
    ensures var back := Scattered(tensors, sections).value;
      Rectangular(back, |tensors|) && Gathered(back, |tensors|) == tensors && Sections(back) == sections
  {
    var back := Scattered(tensors, sections).value;
    forall j | 0 <= j < |tensors|
      ensures Column(back, j, |sections|) == tensors[j]
    {
      PiecesJoin(tensors, sections, j, |sections|);
    }
    ScatteredAgrees(tensors, sections, back);
  }

  // ---- Batched execution ----

  /** Row r of all inputs. */
  function RowOf<T>(inputs: seq<Tensor<T>>, r: nat): seq<T>
    requires forall j :: 0 <= j < |inputs| ==> r < |inputs[j]|
  {
    seq(|inputs|, j requires 0 <= j < |inputs| => inputs[j][r])
  }

  /** A row-wise model: row r of each output depends on row r of the inputs only. */
  function RunModel<T>(f: (nat, seq<T>) -> T, outs: nat, inputs: seq<Tensor<T>>): seq<Tensor<T>>
    requires inputs != [] && forall j :: 0 <= j < |inputs| ==> |inputs[j]| == |inputs[0]|
  {
    seq(outs, o requires 0 <= o => seq(|inputs[0]|, r requires 0 <= r < |inputs[0]| => f(o, RowOf(inputs, r))))
  }

  /** Every request run alone. */
  function Alone<T>(f: (nat, seq<T>) -> T, outs: nat, requests: seq<seq<Tensor<T>>>): seq<seq<Tensor<T>>>
    requires forall i :: 0 <= i < |requests| ==> requests[i] != []
    requires LeadingAgree(requests)
  {
    seq(|requests|, i requires 0 <= i < |requests| => RunModel(f, outs, requests[i]))
  }

  /** Row r of request i is row Sum(i) + r of the gathered inputs. */
  lemma GatheredRow<T>(requests: seq<seq<Tensor<T>>>, k: nat, i: nat, r: nat)
    requires k >= 1 && Rectangular(requests, k) && LeadingAgree(requests)
    requires i < |requests| && r < |requests[i][0]|
    ensures var g, at := Gathered(requests, k), Sum(Sections(requests), i) + r;
      && (forall j :: 0 <= j < k ==> at < |g[j]|)
      && RowOf(g, at) == RowOf(requests[i], r)
  {
    var g, s := Gathered(requests, k), Sections(requests);
    forall j | 0 <= j < k
      ensures Sum(s, i) + r < |g[j]| && g[j][Sum(s, i) + r] == requests[i][j][r]
    {
      ColumnPiece(requests, k, j, |requests|, i);
      assert g[j][Sum(s, i)..Sum(s, i + 1)][r] == requests[i][j][r];
    }
  }

  /** Batched execution of a row-wise model equals running each request alone, one response each
      and in order. */
  lemma BatchedEqualsAlone<T>(f: (nat, seq<T>) -> T, outs: nat, requests: seq<seq<Tensor<T>>>, k: nat)
    requires k >= 1 && outs >= 1 && requests != [] && Rectangular(requests, k) && LeadingAgree(requests)
    ensures forall j :: 0 <= j < k ==> |Gathered(requests, k)[j]| == |Gathered(requests, k)[0]|
    ensures Scattered(RunModel(f, outs, Gathered(requests, k)), Sections(requests)) == Some(Alone(f, outs, requests))
  {
    var g, s := Gathered(requests, k), Sections(requests);
    GatheredLengths(requests, k);
    var y, alone := RunModel(f, outs, g), Alone(f, outs, requests);
    forall i, o | 0 <= i < |requests| && 0 <= o < outs
      ensures alone[i][o] == Piece(y[o], s, i)
    {
      OutputPiece(f, outs, requests, k, i, o);
    }
    PiecesAreScattered(y, s, alone);
  }

  /** Request i's part of output o is that output of the request run alone. */
  lemma OutputPiece<T>(f: (nat, seq<T>) -> T, outs: nat, requests: seq<seq<Tensor<T>>>, k: nat, i: nat, o: nat)
    requires k >= 1 && Rectangular(requests, k) && LeadingAgree(requests) && i < |requests| && o < outs
    requires Splittable(Gathered(requests, k), Sections(requests))
    ensures RunModel(f, outs, requests[i])[o]
            == Piece(RunModel(f, outs, Gathered(requests, k))[o], Sections(requests), i)
  {
    var s := Sections(requests);
    SumMonotone(s, i + 1, |s|);
    forall r | 0 <= r < |requests[i][0]|
      ensures RunModel(f, outs, requests[i])[o][r] == RunModel(f, outs, Gathered(requests, k))[o][Sum(s, i) + r]
    {
      GatheredRow(requests, k, i, r);
    }
  }

  /** `execute`: with batching one model run for all requests, otherwise one run each; a
      response carries the first `declared` outputs. */
  method Execute<T>(
    f: (nat, seq<T>) -> T, outs: nat, declared: nat, batching: bool, requests: seq<seq<Tensor<T>>>, k: nat)
    returns (responses: seq<seq<Tensor<T>>>)
    requires k >= 1 && 1 <= declared <= outs && requests != [] && Rectangular(requests, k) && LeadingAgree(requests)
    ensures |responses| == |requests|
    ensures forall i :: 0 <= i < |requests| ==> responses[i] == RunModel(f, outs, requests[i])[..declared]
  {
    var outputs: seq<seq<Tensor<T>>> := [];
    if batching {
      var gathered, sections := GatherTensors(requests, k);
      BatchedEqualsAlone(f, outs, requests, k);
      var scattered := ScatterTensors(RunModel(f, outs, gathered), sections);
      outputs := scattered.value;
    } else {
      var i := 0;
      while i < |requests|
        invariant 0 <= i <= |requests| && |outputs| == i
        invariant forall l :: 0 <= l < i ==> outputs[l] == RunModel(f, outs, requests[l])
      {
        outputs := outputs + [RunModel(f, outs, requests[i])];
        i := i + 1;
      }
    }
    responses := [];
    var i := 0;
    while i < |outputs|
      invariant 0 <= i <= |outputs| && |responses| == i
      invariant forall l :: 0 <= l < i ==> responses[l] == RunModel(f, outs, requests[l])[..declared]
    {
      var response: seq<Tensor<T>> := [];
      var o := 0;
      while o < declared
        invariant 0 <= o <= declared && response == outputs[i][..o]
      {
        response := response + [outputs[i][o]];
        o := o + 1;
      }
      responses := responses + [response];
      i := i + 1;
    }
  }
}
