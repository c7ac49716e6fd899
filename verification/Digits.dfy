/** Decimal printing and reading of integers, as `std::to_string`, `stoll` and `atoi` do it. */
module Digits {
  import opened Basics

  predicate IsDigit(c: char) {
    '0' <= c <= '9'
  }

  function DigitValue(c: char): nat
    requires IsDigit(c)
  {
    c as int - '0' as int
  }

  predicate AllDigits(s: string) {
    forall i :: 0 <= i < |s| ==> IsDigit(s[i])
  }

  function PrintNat(n: nat): (s: string)
    ensures s != [] && AllDigits(s)
  {
    var last := [('0' as int + n % 10) as char];
    if n < 10 then last else PrintNat(n / 10) + last
  }

  /** `std::to_string` */
  function Print(n: int): string {
    if n < 0 then "-" + PrintNat(-n) else PrintNat(n)
  }

  function NatValue(s: string): nat
    requires AllDigits(s)
  {
    if s == [] then 0 else 10 * NatValue(s[..|s| - 1]) + DigitValue(s[|s| - 1])
  }

  lemma {:induction false} PrintedValue(n: nat)
    ensures NatValue(PrintNat(n)) == n
  {
    var s := PrintNat(n);
    if n < 10 {
      assert s[..0] == [];
    } else {
      PrintedValue(n / 10);
      assert s[..|s| - 1] == PrintNat(n / 10);
    }
  }

  lemma PrintSign(n: int)
    ensures Print(n)[0] == '-' <==> n < 0
    ensures (if n < 0 then Print(n)[1..] else Print(n)) == PrintNat(if n < 0 then -n else n)
  {}

  /** Printing is injective. */
  lemma PrintInjective(m: int, n: int)
    requires Print(m) == Print(n)
    ensures m == n
  {
    PrintSign(m);
    PrintSign(n);
    PrintedValue(if m < 0 then -m else m);
    PrintedValue(if n < 0 then -n else n);
  }

  /** The number of digits a string starts with. */
  function DigitRun(s: string): (k: nat)
    ensures k <= |s| && AllDigits(s[..k]) && (k < |s| ==> !IsDigit(s[k]))
  {
    if s != [] && IsDigit(s[0]) then 1 + DigitRun(s[1..]) else 0
  }

  lemma {:induction false} DigitRunAll(s: string, t: string)
    requires AllDigits(s) && (t != [] ==> !IsDigit(t[0]))
    ensures DigitRun(s + t) == |s|
  {
    if s == [] {
      assert s + t == t;
    } else {
      DigitRunAll(s[1..], t);
      assert (s + t)[1..] == s[1..] + t;
    }
  }

  predicate IsSpace(c: char) {
    c == ' ' || '\t' <= c <= '\r'
  }

  function SkipSpace(s: string): string {
    if s != [] && IsSpace(s[0]) then SkipSpace(s[1..]) else s
  }

  /** White space, an optional sign and at least one digit; what follows is ignored. */
  function ReadInt(tok: string): Option<int> {
    var s := SkipSpace(tok);
    var negative := s != [] && s[0] == '-';
    var t := if s != [] && (s[0] == '-' || s[0] == '+') then s[1..] else s;
    var k := DigitRun(t);
    var v: int := NatValue(t[..k]);
    if k == 0 then None else Some(if negative then -v else v)
  }

  /** The sign of a number. */
  function Signed(sign: string, n: int): int {
    if sign == "-" then -n else n
  }

  /** How a number is written: white space, a sign or none, at least one digit, and a tail that
      starts with anything but a digit. */
  predicate Writes(tok: string, space: string, sign: string, digits: string, tail: string) {
    && tok == space + (sign + (digits + tail))
    && (forall i :: 0 <= i < |space| ==> space[i] in " \t\n\r\U{0B}\U{0C}")
    && (sign == "" || sign == "+" || sign == "-")
    && digits != "" && AllDigits(digits) && (tail == "" || !IsDigit(tail[0]))
  }

  lemma {:induction false} SkipsSpace(space: string, s: string)
    requires (forall i :: 0 <= i < |space| ==> IsSpace(space[i])) && (s == "" || !IsSpace(s[0]))
    ensures SkipSpace(space + s) == s
  {
    if space == "" {
      assert space + s == s;
    } else {
      SkipsSpace(space[1..], s);
      assert (space + s)[1..] == space[1..] + s;
    }
  }

  /** A number is read in whatever way it is written. */
  lemma ReadWritten(tok: string, space: string, sign: string, digits: string, tail: string)
    requires Writes(tok, space, sign, digits, tail)
    ensures ReadInt(tok) == Some(Signed(sign, NatValue(digits)))
  {
    var t := digits + tail;
    assert t[0] == digits[0];
    assert sign + t == (if sign == "" then t else [sign[0]] + t);
    SkipsSpace(space, sign + t);
    DigitRunAll(digits, tail);
    assert t[..|digits|] == digits;
    assert sign != "" ==> (sign + t)[1..] == t;
  }

  lemma {:induction false} SpaceSkipped(s: string) returns (space: string)
    ensures s == space + SkipSpace(s) && forall i :: 0 <= i < |space| ==> space[i] in " \t\n\r\U{0B}\U{0C}"
  {
    if s != "" && IsSpace(s[0]) {
      var rest := SpaceSkipped(s[1..]);
      space := [s[0]] + rest;
    } else {
      space := "";
    }
  }

  lemma ReadWrites(tok: string) returns (space: string, sign: string, digits: string, tail: string)
    requires ReadInt(tok).Some?
    ensures Writes(tok, space, sign, digits, tail)
  {
    space := SpaceSkipped(tok);
    var s := SkipSpace(tok);
    sign := if s != "" && (s[0] == '-' || s[0] == '+') then s[..1] else "";
    var t := s[|sign|..];
    digits, tail := t[..DigitRun(t)], t[DigitRun(t)..];
    assert t == digits + tail && s == sign + t;
  }

  /** And nothing else is read: a token has a value exactly when it writes one. */
  lemma ReadIntIff(tok: string, v: int)
    ensures ReadInt(tok) == Some(v) <==>
            exists space, sign, digits, tail ::
              Writes(tok, space, sign, digits, tail) && v == Signed(sign, NatValue(digits))
  {
    if ReadInt(tok) == Some(v) {
      var space, sign, digits, tail := ReadWrites(tok);
      ReadWritten(tok, space, sign, digits, tail);
    }
    forall space, sign, digits, tail | Writes(tok, space, sign, digits, tail) && v == Signed(sign, NatValue(digits))
      ensures ReadInt(tok) == Some(v)
    {
      ReadWritten(tok, space, sign, digits, tail);
    }
  }

  /** What was printed is read back. */
  lemma ReadPrinted(n: int)
    ensures ReadInt(Print(n)) == Some(n)
  {
    var s := Print(n);
    var digits := PrintNat(if n < 0 then -n else n);
    PrintSign(n);
    assert IsDigit(digits[0]) && SkipSpace(s) == s;
    DigitRunAll(digits, []);
    assert digits + [] == digits && digits[..|digits|] == digits;
    PrintedValue(if n < 0 then -n else n);
  }
}
