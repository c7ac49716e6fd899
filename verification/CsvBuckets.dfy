/** `ParseCsvInt64Set`: the bucket allowlist from its comma-separated parameter. */
module CsvBuckets {
  import opened Basics
  import opened Digits

  const INT64_LIMIT := 0x8000_0000_0000_0000

  /** `std::stoll`: None stands for the exception, thrown when there is no number or it does
      not fit 64 bits. */
  function Stoll(tok: string): Option<int> {
    match ReadInt(tok)
    case Some(x) => if -INT64_LIMIT <= x < INT64_LIMIT then Some(x) else None
    case None => None
  }

  /** A token that writes a number of 64 bits has that value, whatever white space, sign and tail it
      is written with; a number that does not fit and a token that writes none have no value. */
  lemma StollIff(tok: string, v: int)
    ensures Stoll(tok) == Some(v) <==>
            && -INT64_LIMIT <= v < INT64_LIMIT
            && exists space, sign, digits, tail ::
                 Writes(tok, space, sign, digits, tail) && v == Signed(sign, NatValue(digits))
  {
    ReadIntIff(tok, v);
  }

  /** Index of the first comma, |s| if there is none. */
  function Comma(s: string): (i: nat)
    ensures i <= |s| && (i < |s| ==> s[i] == ',')
  {
    if s == [] || s[0] == ',' then 0 else 1 + Comma(s[1..])
  }

  /** What the commas separate; always at least one token. */
  function Tokens(s: string): (ts: seq<string>)
    ensures ts != []
    decreases |s|
  {
    var i := Comma(s);
    if i == |s| then [s] else [s[..i]] + Tokens(s[i + 1..])
  }

  function Join(ts: seq<string>): string {
    if ts == [] then "" else if |ts| == 1 then ts[0] else ts[0] + ("," + Join(ts[1..]))
  }

  /** The values of the tokens that parse. */
  function Values(ts: seq<string>): set<int> {
    set t | t in ts && Stoll(t).Some? :: Stoll(t).value
  }

  function ValueOf(t: string): set<int> {
    if Stoll(t).Some? then {Stoll(t).value} else {}
  }

  lemma ValuesOfFirst(t: string, ts: seq<string>)
    ensures Values([t] + ts) == ValueOf(t) + Values(ts)
  {}

  lemma NoValues()
    ensures Values([]) == {} && ValueOf("") == {}
  {}

  lemma LastToken(s: string)
    requires Comma(s) == |s|
    ensures Values(Tokens(s)) == ValueOf(s)
  {}

  lemma TokensStep(s: string, i: nat)
    requires i == Comma(s) < |s|
    ensures Tokens(s) == [s[..i]] + Tokens(s[i + 1..])
  {}

  lemma OneMoreToken(s: string, i: nat)
    requires i == Comma(s) < |s|
    ensures Values(Tokens(s)) == ValueOf(s[..i]) + Values(Tokens(s[i + 1..]))
  {
    TokensStep(s, i);
    ValuesOfFirst(s[..i], Tokens(s[i + 1..]));
  }

  /** `csv.find(',', start)` */
  function FindComma(csv: string, start: nat): (i: nat)
    requires start <= |csv|
    ensures start <= i <= |csv|
  {
    start + Comma(csv[start..])
  }

  function ValuesFrom(csv: string, start: nat): set<int>
    requires start <= |csv|
  {
    Values(Tokens(csv[start..]))
  }

  /** The values from start on, one token at a time. */
  lemma NextTokenFrom(csv: string, start: nat, i: nat)
    requires start <= |csv| && i == FindComma(csv, start)
    ensures ValuesFrom(csv, start) ==
            ValueOf(csv[start..i]) + (if i == |csv| then {} else ValuesFrom(csv, i + 1))
  {
    var s := csv[start..];
    assert s[..i - start] == csv[start..i];
    if i < |csv| {
      assert s[i - start + 1..] == csv[i + 1..];
      OneMoreToken(s, i - start);
    } else {
      assert csv[start..i] == s;
      LastToken(s);
    }
  }

  lemma NothingLeft(csv: string)
    ensures ValuesFrom(csv, |csv|) == {}
  {}

  /** The set of values of all comma-separated tokens that parse, including after empty tokens
      and out-of-range numbers; the trailing token that the loop never looks at has no value. */
  method ParseCsvInt64Set(csv: string) returns (out: set<int>)
    ensures out == Values(Tokens(csv))
  {
    out := {};
    var start := 0;
    ghost var all := Values(Tokens(csv));
    assert csv[0..] == csv;
    while start < |csv|
      invariant 0 <= start <= |csv|
      invariant all == out + ValuesFrom(csv, start)
    {
      var comma := FindComma(csv, start);
      NextTokenFrom(csv, start, comma);
      var v := Stoll(csv[start..comma]);
      ghost var rest := if comma == |csv| then {} else ValuesFrom(csv, comma + 1);
      assert all == out + (ValueOf(csv[start..comma]) + rest);
      if v.Some? {
        out := out + {v.value};
      }
      assert all == out + rest;
      if comma == |csv| {
        return;
      }
      start := comma + 1;
    }
    NothingLeft(csv);
  }

  predicate CommaFree(ts: seq<string>) {
    forall i :: 0 <= i < |ts| ==> ',' !in ts[i]
  }

  lemma {:induction false} NoCommaBefore(s: string)
    ensures ',' !in s[..Comma(s)]
  {
    if s != [] && s[0] != ',' {
      NoCommaBefore(s[1..]);
      assert s[..Comma(s)] == [s[0]] + s[1..][..Comma(s[1..])];
    }
  }

  /** Tokens are what the commas separate: they contain none, and joined they are the input. */
  lemma {:induction false} TokensSeparate(s: string)
    ensures CommaFree(Tokens(s)) && Join(Tokens(s)) == s
    decreases |s|
  {
    var i := Comma(s);
    NoCommaBefore(s);
    if i < |s| {
      TokensSeparate(s[i + 1..]);
      assert s == s[..i] + ("," + s[i + 1..]);
    } else {
      assert s[..i] == s;
    }
  }

  lemma {:induction false} CommaAfter(t: string, rest: string)
    requires ',' !in t && (rest != "" ==> rest[0] == ',')
    ensures Comma(t + rest) == |t|
  {
    if t == "" {
      assert t + rest == rest;
    } else {
      CommaAfter(t[1..], rest);
      assert (t + rest)[1..] == t[1..] + rest;
    }
  }

  lemma SplitFirst(t: string, rest: string)
    requires ',' !in t
    ensures Tokens(t + ("," + rest)) == [t] + Tokens(rest)
  {
    var s := t + ("," + rest);
    CommaAfter(t, "," + rest);
    assert s[..|t|] == t && s[|t| + 1..] == rest;
  }

  /** Splitting undoes joining, for any comma-free tokens. */
  lemma {:induction false} SplitJoin(ts: seq<string>)
    requires ts != [] && CommaFree(ts)
    ensures Tokens(Join(ts)) == ts
  {
    if |ts| == 1 {
      CommaAfter(ts[0], "");
      assert ts[0] + "" == ts[0];
    } else {
      SplitFirst(ts[0], Join(ts[1..]));
      SplitJoin(ts[1..]);
      assert [ts[0]] + ts[1..] == ts;
    }
  }

  lemma PrintedHasNoComma(n: int)
    ensures ',' !in Print(n)
  {}

  function Prints(xs: seq<int>): seq<string> {
    seq(|xs|, i requires 0 <= i < |xs| => Print(xs[i]))
  }

  /** Parsing the comma-joined decimal print of any 64-bit numbers, in any order and with
      repetitions, gives exactly the set of those numbers. */
  lemma ParsePrinted(xs: seq<int>)
    requires forall i :: 0 <= i < |xs| ==> -INT64_LIMIT <= xs[i] < INT64_LIMIT
    ensures Values(Tokens(Join(Prints(xs)))) == set x | x in xs
  {
    var ts := Prints(xs);
    if xs == [] {
      LastToken("");
      NoValues();
    } else {
      forall i | 0 <= i < |ts|
        ensures ',' !in ts[i]
      {
        PrintedHasNoComma(xs[i]);
      }
      SplitJoin(ts);
      forall x | x in xs
        ensures x in Values(ts)
      {
        ReadPrinted(x);
        var i :| 0 <= i < |xs| && xs[i] == x;
        assert ts[i] == Print(x) && ts[i] in ts && Stoll(ts[i]) == Some(x);
      }
      forall v | v in Values(ts)
        ensures v in xs
      {
        var t :| t in ts && Stoll(t).Some? && Stoll(t).value == v;
        var i :| 0 <= i < |ts| && ts[i] == t;
        ReadPrinted(xs[i]);
      }
    }
  }
}
