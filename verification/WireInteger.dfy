/** Integer tokens: read nine digits at a time from the top, written nine digits at a time from the bottom,
  * and both agreeing with plain decimal notation. */
module WireInteger {
  import opened Prelude
  import opened Text
  import opened WireValue

  const CHUNK: nat := 9
  const BASE: nat := 1_000_000_000

  // ---------------------------------------------------------------- plain decimal notation

  predicate AllDigits(s: Str) {
    forall i :: 0 <= i < |s| ==> Digit(s[i])
  }

  /** -?(0|[1-9][0-9]*) as a whole. */
  predicate IsInteger(t: Str) {
    IsNatural(if t != [] && t[0] == '-' as int then t[1..] else t)
  }

  predicate IsNatural(s: Str) {
    s != [] && AllDigits(s) && (s[0] == '0' as int ==> |s| == 1)
  }

  /** The number that digits denote. */
  function ValueOf(s: Str): (n: nat)
    requires AllDigits(s)
  {
    if s == [] then 0 else ValueOf(s[..|s| - 1]) * 10 + (s[|s| - 1] - '0' as int)
  }

  /** The shortest digits that denote a number. */
  function Decimal(n: nat): (s: Str)
    ensures AllDigits(s)
  {
    if n < 10 then ['0' as int + n] else Decimal(n / 10) + ['0' as int + n % 10]
  }

  /** The last w digits of a number, zeros included. */
  function Padded(n: nat, w: nat): (s: Str)
    ensures AllDigits(s) && |s| == w
  {
    if w == 0 then [] else Padded(n / 10, w - 1) + ['0' as int + n % 10]
  }

  function IntegerOf(t: Str): int
    requires IsInteger(t)
  {
    if t[0] == '-' as int then 0 - ValueOf(t[1..]) else ValueOf(t)
  }

  function TokenOf(n: int): Str {
    if n < 0 then ['-' as int] + Decimal(-n) else Decimal(n)
  }

  function Pow10(k: nat): (p: nat)
    ensures p >= 1
  {
    if k == 0 then 1 else 10 * Pow10(k - 1)
  }

  // ---------------------------------------------------------------- notation and value

  lemma {:induction false} DecimalNatural(n: nat)
    ensures IsNatural(Decimal(n)) && ValueOf(Decimal(n)) == n && (Decimal(n)[0] == '0' as int <==> n == 0)
  {
    if n >= 10 {
      DecimalNatural(n / 10);
      assert Decimal(n)[..|Decimal(n)| - 1] == Decimal(n / 10);
    }
  }

  /** Digits without a leading zero are the notation of their value. */
  lemma {:induction false} NaturalIsDecimal(s: Str)
    requires IsNatural(s)
    ensures Decimal(ValueOf(s)) == s && (s[0] != '0' as int ==> ValueOf(s) > 0)
  {
    var init := s[..|s| - 1];
    if init != [] {
      NaturalIsDecimal(init);
      assert s == init + [s[|s| - 1]];
    } else {
      assert s == [s[0]];
    }
  }

  lemma {:induction false} ValueOfConcat(a: Str, b: Str)
    requires AllDigits(a) && AllDigits(b)
    ensures AllDigits(a + b) && ValueOf(a + b) == ValueOf(a) * Pow10(|b|) + ValueOf(b)
    decreases |b|
  {
    if b == [] {
      assert a + b == a;
    } else {
      var init := b[..|b| - 1];
      ValueOfConcat(a, init);
      assert (a + b)[..|a + b| - 1] == a + init;
      Regroup(ValueOf(a), Pow10(|init|));
    }
  }

  lemma Regroup(a: nat, p: nat)
    ensures a * (10 * p) == 10 * (a * p)
  {
  }

  /** Splitting off w digits at the bottom. */
  lemma {:induction false} DecimalSplit(q: nat, c: nat, w: nat)
    requires q > 0 && c < Pow10(w)
    ensures Decimal(q * Pow10(w) + c) == Decimal(q) + Padded(c, w)
    decreases w
  {
    if w == 0 {
      assert Decimal(q) + [] == Decimal(q);
    } else {
      var t := q * Pow10(w - 1);
      Regroup(q, Pow10(w - 1));
      var n := 10 * t + c;
      assert n == q * Pow10(w) + c;
      assert t >= 1 by { Positive(q, Pow10(w - 1)); }
      assert n / 10 == t + c / 10 && n % 10 == c % 10;
      DecimalSplit(q, c / 10, w - 1);
      assert Decimal(n) == Decimal(t + c / 10) + ['0' as int + c % 10];
      assert Decimal(q) + Padded(c / 10, w - 1) + ['0' as int + c % 10] == Decimal(q) + Padded(c, w);
    }
  }

  lemma Positive(a: nat, b: nat)
    requires a > 0 && b > 0
    ensures a * b >= 1
  {
  }

  lemma ChunkPower()
    ensures Pow10(CHUNK) == BASE
  {
    assert Pow10(3) == 1000;
    assert Pow10(6) == 1000_000;
  }

  // ---------------------------------------------------------------- theorems

  /** Writing and reading back gives the number, and what is written matches the grammar. */
  lemma TokenInverts(n: int)
    ensures IsInteger(TokenOf(n)) && IntegerOf(TokenOf(n)) == n
  {
    DecimalNatural(if n < 0 then -n else n);
    if n < 0 { assert TokenOf(n)[1..] == Decimal(-n); }
  }

  /** Reading and writing back gives the token, except that minus zero loses its sign. */
  lemma IntegerInverts(t: Str)
    requires IsInteger(t)
    ensures TokenOf(IntegerOf(t)) == t <==> t != ['-' as int, '0' as int]
  {
    if t[0] == '-' as int {
      NaturalIsDecimal(t[1..]);
      assert t == [t[0]] + t[1..];
    } else {
      NaturalIsDecimal(t);
    }
  }

  lemma {:induction false} RunOfDigits(s: Str)
    requires AllDigits(s)
    ensures DigitRun(s) == |s|
  {
    if s != [] { RunOfDigits(s[1..]); }
  }

  /** The integer tokens are the number tokens without fraction and exponent. */
  lemma IntegerTokens(t: Str)
    ensures IsInteger(t) <==>
              IsNumber(t) && forall i :: 0 <= i < |t| ==> t[i] != '.' as int && t[i] != 'e' as int && t[i] != 'E' as int
  {
    var a := if t != [] && t[0] == '-' as int then t[1..] else t;
    var n := IntegerPart(a);
    if IsInteger(t) {
      RunOfDigits(a);
      assert n == |a| && a[n..] == [];
    } else if IsNumber(t) {
      assert n < |a|;
      assert a[n..][0] == a[n];
      if FractionPart(a[n..]).value == 0 {
        assert a[n..][0..] == a[n..];
        assert a[n] == 'e' as int || a[n] == 'E' as int;
      } else {
        assert a[n] == '.' as int;
      }
      assert a[n] == t[n + |t| - |a|];
    }
  }

  // ---------------------------------------------------------------- the loops

  function Least(a: nat, b: nat): nat {
    if a < b then a else b
  }

  /** The value of the digits up to the end of a chunk. */
  lemma NextChunk(digits: Str, start: nat, stop: nat)
    requires start <= stop <= |digits| && AllDigits(digits)
    ensures AllDigits(digits[start..stop]) && AllDigits(digits[..start]) && AllDigits(digits[..stop])
    ensures ValueOf(digits[..stop]) == ValueOf(digits[..start]) * Pow10(stop - start) + ValueOf(digits[start..stop])
  {
    hide ValueOf, Pow10;
    var chunk := digits[start..stop];
    forall i | 0 <= i < |chunk| ensures Digit(chunk[i]) { assert chunk[i] == digits[start + i]; }
    ValueOfConcat(digits[..start], chunk);
    assert digits[..start] + chunk == digits[..stop];
  }

  /** Reads an integer token in chunks from the top; any other token is refused. */
  method ToInt(token: Str) returns (r: Option<int>)
    ensures r == if IsInteger(token) then Some(IntegerOf(token)) else None
  {
    hide Pow10, IsNumber;
    if !IsInteger(token) {
      return None;
    }
    var negative := token[0] == '-' as int;
    var digits := if negative then token[1..] else token;
    var result, start := 0, 0;
    while start < |digits|
      invariant 0 <= start <= |digits| && AllDigits(digits[..start])
      invariant result == ValueOf(digits[..start])
    {
      var stop := Least(start + CHUNK, |digits|);
      var chunk := digits[start..stop];
      NextChunk(digits, start, stop);
      result := result * Pow10(|chunk|) + ValueOf(chunk);
      start := stop;
    }
    assert digits[..start] == digits;
    return Some(if negative then -result else result);
  }

  /** The digits that chunks stand for, the most significant chunk first. */
  function Joined(chunks: seq<nat>): Str
    requires chunks != []
  {
    if |chunks| == 1 then Decimal(chunks[0]) else Joined(chunks[..|chunks| - 1]) + Padded(chunks[|chunks| - 1], CHUNK)
  }

  /** One more chunk split off at the bottom. */
  lemma {:induction false} JoinedSplit(q: nat, c: nat, below: seq<nat>)
    requires q > 0 && c < BASE
    ensures Joined([q * BASE + c] + below) == Joined([q, c] + below)
    decreases |below|
  {
    if below == [] {
      ChunkPower();
      DecimalSplit(q, c, CHUNK);
      assert [q * BASE + c] + below == [q * BASE + c] && [q, c] + below == [q, c];
      assert [q, c][..1] == [q];
    } else {
      var init := below[..|below| - 1];
      JoinedSplit(q, c, init);
      assert ([q * BASE + c] + below)[..|below|] == [q * BASE + c] + init;
      assert ([q, c] + below)[..|below| + 1] == [q, c] + init;
    }
  }

  /** Writes a number in chunks from the bottom. */
  method IntegerToken(value: int) returns (token: Str)
    ensures token == TokenOf(value)
  {
    if value == 0 {
      return ['0' as int];
    }
    var negative := value < 0;
    var size: nat := if negative then -value else value;
    var remaining: nat, chunks: seq<nat> := size, [];  // the most significant chunk first
    while remaining != 0
      invariant remaining > 0 ==> Joined([remaining] + chunks) == Decimal(size)
      invariant remaining == 0 ==> chunks != [] && Joined(chunks) == Decimal(size)
      decreases remaining
    {
      ghost var below := chunks;
      var chunk := remaining % BASE;
      if remaining / BASE > 0 { JoinedSplit(remaining / BASE, chunk, below); }
      remaining := remaining / BASE;
      chunks := [chunk] + chunks;
      assert [remaining] + chunks == [remaining, chunk] + below;
    }
    token := Decimal(chunks[0]);
    var i := 1;
    while i < |chunks|
      invariant 1 <= i <= |chunks| && token == Joined(chunks[..i])
    {
      token := token + Padded(chunks[i], CHUNK);
      assert chunks[..i + 1][..i] == chunks[..i];
      i := i + 1;
    }
    assert chunks[..i] == chunks;
    if negative {
      token := ['-' as int] + token;
    }
  }
}
