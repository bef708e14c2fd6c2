/**
 What the round trip asks of the library calls can be met: a small library that
 reads what its printer writes.  Numbers are unary, flags a row of bits, and in a
 token every character follows a backslash.
 */
module StreamSpecifierLibrary {
  import opened Wrappers
  import opened StreamSpecifierModel
  import opened StreamSpecifierRoundTrip

  function Ones(n: nat): string { seq(n, _ => '1') }

  function NumberText(v: int): string { if v >= 0 then Ones(v + 1) else "-" + Ones(-v) }

  function CountOnes(s: string): nat { if s != "" && s[0] == '1' then 1 + CountOnes(s[1..]) else 0 }

  function Saturated(v: int): int {
    if v >= 0x8000_0000_0000_0000 then 0x7fff_ffff_ffff_ffff
    else if v < -0x8000_0000_0000_0000 then -0x8000_0000_0000_0000
    else v
  }

  function ReadNumber(s: string): (int, nat) {
    if s != "" && s[0] == '-' then
      var n: int := CountOnes(s[1..]);
      (Saturated(-n), 1 + n)
    else
      var n: int := CountOnes(s);
      (Saturated(n - 1), n)
  }

  lemma {:induction false} OnesAreCounted(n: nat, rest: string)
    requires Stops(rest)
    ensures CountOnes(Ones(n) + rest) == n
  {
    if n == 0 {
      assert Ones(0) + rest == rest;
    } else {
      assert (Ones(n) + rest)[1..] == Ones(n - 1) + rest;
      OnesAreCounted(n - 1, rest);
    }
  }

  lemma NumbersAreRead(v: int, rest: string)
    requires Int64(v) && Stops(rest)
    ensures ReadNumber(NumberText(v) + rest) == (v, |NumberText(v)|)
  {
    if v >= 0 {
      OnesAreCounted(v + 1, rest);
    } else {
      OnesAreCounted(-v, rest);
      assert (NumberText(v) + rest)[1..] == Ones(-v) + rest;
    }
  }

  function FlagsText(f: Flags): string { seq(FLAG_BITS, i => if i in f then '1' else '0') }

  function ReadFlags(t: string): Option<Flags> {
    Some(set b | 0 <= b < FLAG_BITS && b < |t| && t[b] == '1')
  }

  lemma FlagsAreReadBack(f: Flags)
    ensures ReadFlags(FlagsText(f)) == Some(f) && AllFlagChars(FlagsText(f))
  {
    var t := FlagsText(f);
    assert forall b :: 0 <= b < FLAG_BITS ==> (t[b] == '1' <==> b in f);
    assert (set b | 0 <= b < FLAG_BITS && b < |t| && t[b] == '1') == f;
  }

  function TokenText(t: string): string { if t == "" then "" else ['\\', t[0]] + TokenText(t[1..]) }

  function ReadToken(s: string): (string, nat) {
    if |s| >= 2 && s[0] == '\\' then
      var (t, n) := ReadToken(s[2..]);
      ([s[1]] + t, n + 2)
    else ("", 0)
  }

  lemma TokenTextSplits(t: string, rest: string)
    requires t != ""
    ensures var s := TokenText(t) + rest;
            |s| >= 2 && s[0] == '\\' && s[1] == t[0] && s[2..] == TokenText(t[1..]) + rest
  {
    TwoInFront('\\', t[0], TokenText(t[1..]), rest);
  }

  lemma TwoInFront(a: char, b: char, more: string, rest: string)
    ensures var s := ([a, b] + more) + rest;
            |s| >= 2 && s[0] == a && s[1] == b && s[2..] == more + rest
  {
  }

  lemma ReadTokenSplits(s: string, c: char, t: string, n: nat)
    requires |s| >= 2 && s[0] == '\\' && s[1] == c && ReadToken(s[2..]) == (t, n)
    ensures ReadToken(s) == ([c] + t, n + 2)
  {
  }

  lemma {:induction false} TokensAreRead(t: string, rest: string)
    requires Stops(rest)
    ensures ReadToken(TokenText(t) + rest) == (t, |TokenText(t)|)
  {
    if t == "" {
      assert TokenText(t) + rest == rest;
    } else {
      TokensAreRead(t[1..], rest);
      TokenTextSplits(t, rest);
      ReadTokenSplits(TokenText(t) + rest, t[0], t[1..], |TokenText(t[1..])|);
      assert [t[0]] + t[1..] == t;
    }
  }

  function SmallLib(): Lib { Lib(ReadNumber, ReadFlags, ReadToken) }

  function SmallPrinter(): Printer { Printer(NumberText, FlagsText, TokenText) }

  lemma SmallLibReads()
    ensures Reads(SmallLib(), SmallPrinter()) && InRange(SmallLib())
  {
    forall v, rest | Int64(v) && Stops(rest)
      ensures ReadNumber(NumberText(v) + rest) == (v, |NumberText(v)|)
    {
      NumbersAreRead(v, rest);
    }
    forall f: Flags
      ensures ReadFlags(FlagsText(f)) == Some(f) && AllFlagChars(FlagsText(f))
    {
      FlagsAreReadBack(f);
    }
    forall t, rest | Stops(rest)
      ensures ReadToken(TokenText(t) + rest) == (t, |TokenText(t)|)
    {
      TokensAreRead(t, rest);
    }
  }
}
