/** UTF-8 as in sections 3 and 4 of RFC 3629, and the strict incremental decoder over byte chunks. */
module Utf8 {
  import opened Prelude
  import opened Text

  type Byte = b: int | 0 <= b < 256

  /** Unicode scalar values: code points that are not surrogates. */
  predicate Scalar(c: int) {
    0 <= c < 0xD800 || 0xE000 <= c < 0x110000
  }

  predicate AllScalar(s: Str) {
    forall i :: 0 <= i < |s| ==> Scalar(s[i])
  }

  // ---------------------------------------------------------------- encoding

  function Width(c: int): nat {
    if c < 0x80 then 1 else if c < 0x800 then 2 else if c < 0x10000 then 3 else 4
  }

  function EncodeChar(c: int): (r: seq<Byte>)
    requires Scalar(c)
    ensures |r| == Width(c)
  {
    if c < 0x80 then [c]
    else if c < 0x800 then [0xC0 + c / 64, 0x80 + c % 64]
    else if c < 0x10000 then [0xE0 + c / 4096, 0x80 + c / 64 % 64, 0x80 + c % 64]
    else [0xF0 + c / 262144, 0x80 + c / 4096 % 64, 0x80 + c / 64 % 64, 0x80 + c % 64]
  }

  function Encode(s: Str): (r: seq<Byte>)
    requires AllScalar(s)
    ensures |r| == ByteLength(s)
  {
    if s == [] then [] else EncodeChar(s[0]) + Encode(s[1..])
  }

  /** Bytes that a text occupies. */
  function ByteLength(s: Str): nat {
    if s == [] then 0 else Width(s[0]) + ByteLength(s[1..])
  }

  lemma {:induction false} ByteLengthConcat(a: Str, b: Str)
    ensures ByteLength(a + b) == ByteLength(a) + ByteLength(b)
  {
    if a == [] {
      assert a + b == b;
    } else {
      ByteLengthConcat(a[1..], b);
      assert (a + b)[1..] == a[1..] + b;
    }
  }

  lemma {:induction false} EncodeConcat(a: Str, b: Str)
    requires AllScalar(a) && AllScalar(b)
    ensures AllScalar(a + b) && Encode(a + b) == Encode(a) + Encode(b)
  {
    hide EncodeChar, ByteLength, Width;
    if a == [] {
      assert a + b == b;
    } else {
      EncodeConcat(a[1..], b);
      assert (a + b)[1..] == a[1..] + b;
      assert Encode(a + b) == EncodeChar(a[0]) + (Encode(a[1..]) + Encode(b));
    }
  }

  // ---------------------------------------------------------------- decoding

  /** The start of a byte sequence: a character with its number of bytes, a proper prefix of one that
    * more bytes may complete, or neither. */
  datatype Head = Character(c: int, length: nat) | Partial | Invalid

  predicate Continuation(b: Byte) {
    0x80 <= b < 0xC0
  }

  /** The bytes that may follow a lead byte: no overlong form, no surrogate, nothing above U+10FFFF. */
  predicate Second(lead: Byte, b: Byte) {
    && Continuation(b)
    && (lead == 0xE0 ==> b >= 0xA0)
    && (lead == 0xED ==> b < 0xA0)
    && (lead == 0xF0 ==> b >= 0x90)
    && (lead == 0xF4 ==> b < 0x90)
  }

  /** The six payload bits of a continuation byte. */
  function Six(b: Byte): int {
    b as int - 0x80
  }

  function HeadOf(bs: seq<Byte>): (h: Head)
    requires bs != []
    ensures h.Character? ==> 1 <= h.length <= |bs| && Scalar(h.c) && h.length == Width(h.c)
  {
    var b: int := bs[0];
    if b < 0x80 then Character(b, 1)
    else if b < 0xC2 || b > 0xF4 then Invalid
    else if |bs| == 1 then Partial
    else if !Second(b, bs[1]) then Invalid
    else if b < 0xE0 then Character((b - 0xC0) * 64 + Six(bs[1]), 2)
    else if |bs| == 2 then Partial
    else if !Continuation(bs[2]) then Invalid
    else if b < 0xF0 then Character((b - 0xE0) * 4096 + Six(bs[1]) * 64 + Six(bs[2]), 3)
    else if |bs| == 3 then Partial
    else if !Continuation(bs[3]) then Invalid
    else Character((b - 0xF0) * 262144 + Six(bs[1]) * 4096 + Six(bs[2]) * 64 + Six(bs[3]), 4)
  }

  /** What the incremental decoder makes of its bytes: characters and an unfinished rest, or an error. */
  datatype Decoded = Chars(text: Str, rest: seq<Byte>) | Malformed

  function Prepend(s: Str, d: Decoded): Decoded {
    match d case Malformed => Malformed case Chars(text, rest) => Chars(s + text, rest)
  }

  lemma PrependTwice(a: Str, b: Str, d: Decoded)
    ensures Prepend(a, Prepend(b, d)) == Prepend(a + b, d)
  {
    if d.Chars? { assert a + (b + d.text) == (a + b) + d.text; }
  }

  function DecodeSome(bs: seq<Byte>): (r: Decoded)
    ensures r.Chars? ==> AllScalar(r.text)
  {
    if bs == [] then Chars([], []) else
    match HeadOf(bs)
    case Invalid => Malformed
    case Partial => Chars([], bs)
    case Character(c, n) =>
      Prepend([c], DecodeSome(bs[n..]))
  }

  /** Strict decoding of a complete byte sequence. */
  function Decode(bs: seq<Byte>): Option<Str> {
    match DecodeSome(bs)
    case Chars(text, rest) => if rest == [] then Some(text) else None
    case Malformed => None
  }

  // ---------------------------------------------------------------- round trip

  lemma HeadOfEncoded(c: int, more: seq<Byte>)
    requires Scalar(c)
    ensures HeadOf(EncodeChar(c) + more) == Character(c, Width(c))
  {
    var bs := EncodeChar(c) + more;
    if c < 0x80 {
    } else if c < 0x800 {
      assert bs[0] == 0xC0 + c / 64 && bs[1] == 0x80 + c % 64;
    } else if c < 0x10000 {
      HeadOfThree(c, more);
    } else {
      HeadOfFour(c, more);
    }
  }

  lemma HeadOfThree(c: int, more: seq<Byte>)
    requires Scalar(c) && 0x800 <= c < 0x10000
    ensures HeadOf(EncodeChar(c) + more) == Character(c, 3)
  {
    var bs := EncodeChar(c) + more;
    assert bs[0] == 0xE0 + c / 4096 && bs[1] == 0x80 + c / 64 % 64 && bs[2] == 0x80 + c % 64;
    ThreeDigits(c);
  }

  lemma HeadOfFour(c: int, more: seq<Byte>)
    requires Scalar(c) && 0x10000 <= c
    ensures HeadOf(EncodeChar(c) + more) == Character(c, 4)
  {
    var bs := EncodeChar(c) + more;
    assert bs[0] == 0xF0 + c / 262144 && bs[1] == 0x80 + c / 4096 % 64;
    assert bs[2] == 0x80 + c / 64 % 64 && bs[3] == 0x80 + c % 64;
    FourDigits(c);
  }

  lemma ThreeDigits(c: int)
    requires 0 <= c
    ensures c == c / 4096 * 4096 + c / 64 % 64 * 64 + c % 64
  {
    assert c / 64 / 64 == c / 4096;
  }

  lemma FourDigits(c: int)
    requires 0 <= c
    ensures c == c / 262144 * 262144 + c / 4096 % 64 * 4096 + c / 64 % 64 * 64 + c % 64
  {
    ThreeDigits(c);
    assert c / 4096 / 64 == c / 262144;
  }

  lemma DecodeOneMore(c: int, more: seq<Byte>)
    requires Scalar(c)
    ensures DecodeSome(EncodeChar(c) + more) == Prepend([c], DecodeSome(more))
  {
    HeadOfEncoded(c, more);
    assert (EncodeChar(c) + more)[Width(c)..] == more;
  }

  /** Decoding what encoding produced gives the text back, followed by whatever comes next. */
  lemma {:induction false} DecodeEncoded(s: Str, more: seq<Byte>)
    requires AllScalar(s)
    ensures DecodeSome(Encode(s) + more) == Prepend(s, DecodeSome(more))
  {
    if s == [] {
      assert Encode(s) + more == more;
      if DecodeSome(more).Chars? { assert [] + DecodeSome(more).text == DecodeSome(more).text; }
    } else {
      var tail := Encode(s[1..]) + more;
      assert Encode(s) + more == EncodeChar(s[0]) + tail;
      DecodeOneMore(s[0], tail);
      DecodeEncoded(s[1..], more);
      PrependTwice([s[0]], s[1..], DecodeSome(more));
      assert [s[0]] + s[1..] == s;
    }
  }

  lemma DecodeInvertsEncode(s: Str)
    requires AllScalar(s)
    ensures Decode(Encode(s)) == Some(s)
  {
    DecodeEncoded(s, []);
    assert Encode(s) + [] == Encode(s) && s + [] == s;
  }

  lemma Digits(x: int, y: int)
    requires 0 <= y < 64
    ensures (x * 64 + y) / 64 == x && (x * 64 + y) % 64 == y
  {
  }

  lemma CharacterEncodes(bs: seq<Byte>)
    requires bs != [] && HeadOf(bs).Character?
    ensures var h := HeadOf(bs);
            EncodeChar(h.c) == bs[..h.length]
  {
    var h := HeadOf(bs);
    var b: int := bs[0];
    if h.length == 2 {
      Digits(b - 0xC0, Six(bs[1]));
    } else if h.length == 3 {
      ThreeParts(b - 0xE0, Six(bs[1]), Six(bs[2]));
    } else if h.length == 4 {
      FourParts(b - 0xF0, Six(bs[1]), Six(bs[2]), Six(bs[3]));
    }
  }

  /** The parts of a number are its digits to the base 64. */
  lemma ThreeParts(x: int, y: int, z: int)
    requires 0 <= x && 0 <= y < 64 && 0 <= z < 64
    ensures var c := x * 4096 + y * 64 + z;
            c / 4096 == x && c / 64 % 64 == y && c % 64 == z && c / 64 == x * 64 + y
  {
    Digits(x * 64 + y, z);
    Digits(x, y);
    var c := x * 4096 + y * 64 + z;
    assert c / 64 / 64 == c / 4096;
  }

  lemma FourParts(w: int, x: int, y: int, z: int)
    requires 0 <= w && 0 <= x < 64 && 0 <= y < 64 && 0 <= z < 64
    ensures var c := w * 262144 + x * 4096 + y * 64 + z;
            c / 262144 == w && c / 4096 % 64 == x && c / 64 % 64 == y && c % 64 == z
  {
    ThreeParts(w * 64 + x, y, z);
    Digits(w, x);
    var c := w * 262144 + x * 4096 + y * 64 + z;
    assert c == (w * 64 + x) * 4096 + y * 64 + z;
    assert c / 4096 / 64 == c / 262144;
  }

  lemma EncodeOneMore(c: int, s: Str)
    requires Scalar(c) && AllScalar(s)
    ensures AllScalar([c] + s) && Encode([c] + s) == EncodeChar(c) + Encode(s)
  {
    assert ([c] + s)[1..] == s;
  }

  /** A decoded text is encoded by exactly the bytes it came from: the decoder accepts no second form. */
  lemma {:induction false} EncodeInvertsDecode(bs: seq<Byte>)
    ensures var d := DecodeSome(bs);
            d.Chars? ==> bs == Encode(d.text) + d.rest
  {
    if bs != [] && HeadOf(bs).Character? {
      var h := HeadOf(bs);
      var d := DecodeSome(bs[h.length..]);
      EncodeInvertsDecode(bs[h.length..]);
      CharacterEncodes(bs);
      if d.Chars? { EncodeRejoins(bs, h.length, h.c, d.text, d.rest); }
    } else {
      assert Encode([]) + bs == bs;
    }
  }

  lemma EncodeRejoins(bs: seq<Byte>, n: nat, c: int, text: Str, rest: seq<Byte>)
    requires n <= |bs| && Scalar(c) && AllScalar(text)
    requires bs[..n] == EncodeChar(c) && bs[n..] == Encode(text) + rest
    ensures AllScalar([c] + text) && bs == Encode([c] + text) + rest
  {
    EncodeOneMore(c, text);
    Rejoin(bs, n, EncodeChar(c), Encode(text), rest);
  }

  lemma Rejoin(bs: seq<Byte>, n: nat, x: seq<Byte>, y: seq<Byte>, rest: seq<Byte>)
    requires n <= |bs| && bs[..n] == x && bs[n..] == y + rest
    ensures bs == (x + y) + rest
  {
    assert bs == bs[..n] + bs[n..];
    assert x + (y + rest) == (x + y) + rest;
  }

  // ---------------------------------------------------------------- chunks

  /** A head that is not partial does not depend on the bytes after it. */
  lemma HeadStable(bs: seq<Byte>, more: seq<Byte>)
    requires bs != [] && !HeadOf(bs).Partial?
    ensures HeadOf(bs + more) == HeadOf(bs)
  {
  }

  /** Feeding bytes in two pieces, keeping the unfinished rest, is feeding them at once. */
  lemma {:induction false} DecodeInPieces(a: seq<Byte>, b: seq<Byte>)
    ensures DecodeSome(a + b) ==
            match DecodeSome(a)
            case Malformed => Malformed
            case Chars(text, rest) => Prepend(text, DecodeSome(rest + b))
  {
    if a == [] {
      assert a + b == b && [] + b == b;
      if DecodeSome(b).Chars? { assert [] + DecodeSome(b).text == DecodeSome(b).text; }
    } else {
      var h := HeadOf(a);
      if h.Character? {
        HeadStable(a, b);
        assert (a + b)[h.length..] == a[h.length..] + b;
        DecodeInPieces(a[h.length..], b);
        var d := DecodeSome(a[h.length..]);
        if d.Chars? { PrependTwice([h.c], d.text, DecodeSome(d.rest + b)); }
      } else if h.Invalid? {
        HeadStable(a, b);
      } else if DecodeSome(a + b).Chars? {
        assert [] + DecodeSome(a + b).text == DecodeSome(a + b).text;
      }
    }
  }
}
