/** What decoding and encoding mean in terms of JSON texts and of the table of UTF-8: which bytes are
  * accepted and as what, and what the one canonical text of a value looks like. */
module WireCanonical {
  import opened Prelude
  import opened Text
  import opened Utf8
  import opened WireValue
  import opened WireParse
  import opened WireTidy
  import opened WireRoundTrip
  import opened WireSyntax
  import opened WireReading
  import opened WireSpelling
  import opened Wire

  // ---------------------------------------------------------------- UTF-8

  /** The table of section 3 of RFC 3629: the bytes of a character, of the row of its range. */
  predicate InTable(c: int, bs: seq<Byte>) {
    if c < 0x80 then bs == [c]
    else if c < 0x800 then
      |bs| == 2 && Lead(bs[0], 0xC0, 32) && Tail(bs, 1) && c == (bs[0] - 0xC0) * 64 + Low(bs, 1)
    else if c < 0x10000 then
      |bs| == 3 && Lead(bs[0], 0xE0, 16) && Tail(bs, 1) && Tail(bs, 2)
      && c == ((bs[0] - 0xE0) * 64 + Low(bs, 1)) * 64 + Low(bs, 2)
    else
      |bs| == 4 && Lead(bs[0], 0xF0, 8) && Tail(bs, 1) && Tail(bs, 2) && Tail(bs, 3)
      && c == (((bs[0] - 0xF0) * 64 + Low(bs, 1)) * 64 + Low(bs, 2)) * 64 + Low(bs, 3)
  }

  predicate Lead(b: Byte, marker: int, n: int) {
    marker <= b < marker + n
  }

  predicate Tail(bs: seq<Byte>, i: nat)
    requires i < |bs|
  {
    0x80 <= bs[i] < 0xC0
  }

  /** The bits that a later byte carries. */
  function Low(bs: seq<Byte>, i: nat): int
    requires i < |bs|
  {
    bs[i] as int - 0x80
  }

  /** A character is encoded as the table says, and in no other way. */
  lemma EncodedByTable(c: int, bs: seq<Byte>)
    requires Scalar(c)
    ensures bs == EncodeChar(c) <==> InTable(c, bs)
  {
    if c >= 0x10000 {
      FourByTable(c, bs);
    } else if c >= 0x800 {
      ThreeByTable(c, bs);
    }
  }

  lemma ThreeByTable(c: int, bs: seq<Byte>)
    requires Scalar(c) && 0x800 <= c < 0x10000
    ensures bs == EncodeChar(c) <==> InTable(c, bs)
  {
    ThreeDigits(c);
    if InTable(c, bs) { ThreeParts(bs[0] - 0xE0, Low(bs, 1), Low(bs, 2)); }
  }

  lemma FourByTable(c: int, bs: seq<Byte>)
    requires Scalar(c) && 0x10000 <= c
    ensures bs == EncodeChar(c) <==> InTable(c, bs)
  {
    FourDigits(c);
    if InTable(c, bs) { FourParts(bs[0] - 0xF0, Low(bs, 1), Low(bs, 2), Low(bs, 3)); }
  }

  // ---------------------------------------------------------------- decoding

  /** The bytes are those of a document of RFC 8259 in UTF-8, which means the value within the limits. */
  ghost predicate Transmits(bs: seq<Byte>, d: Item, v: Value, limits: Limits) {
    && |bs| <= limits.maxBody && AllScalar(ItemText(d)) && bs == Encode(ItemText(d))
    && Spells(d, ItemText(d), v, limits)
  }

  /** A stream is decoded to a value exactly if its bytes are those of a document that means the value and
    * that is within the limits. */
  lemma DecodesExactly(chunks: Chunks, limits: Limits, v: Value)
    ensures DecodeStream(chunks, limits) == Ok(v) <==> exists d :: Transmits(Joined(chunks), d, v, limits)
  {
    hide DecodeStream, ParseDocument, Spells, Decode, ItemText;
    var bs := Joined(chunks);
    DecodeMeans(chunks, limits, v);
    if DecodeStream(chunks, limits) == Ok(v) {
      var text := Decode(bs).value;
      DecodedLength(bs);
      DecodedIsEncoded(bs);
      var d := DocumentWritten(text, limits);
      SpelledText(d, text, v, limits);
      assert Transmits(bs, d, v, limits);
    }
    forall d | Transmits(bs, d, v, limits) ensures DecodeStream(chunks, limits) == Ok(v) {
      Utf8.DecodeInvertsEncode(ItemText(d));
      DocumentReads(d, ItemText(d), v, limits);
    }
  }

  lemma SpelledText(d: Item, text: Str, v: Value, limits: Limits)
    requires Spells(d, text, v, limits)
    ensures ItemText(d) == text
  {
  }

  lemma DecodedIsEncoded(bs: seq<Byte>)
    requires Decode(bs).Some?
    ensures AllScalar(Decode(bs).value) && bs == Encode(Decode(bs).value)
  {
    EncodeInvertsDecode(bs);
    assert Encode(Decode(bs).value) + [] == Encode(Decode(bs).value);
  }

  // ---------------------------------------------------------------- encoding

  /** The bytes of a document are those of a tidy text that means its value, and no other bytes are. */
  lemma EncodesExactly(v: Value, limits: Limits, bs: seq<Byte>)
    requires Fits(v, limits)
    ensures bs == Bytes(v, limits) <==>
            exists t :: Correct(t) && Tidy(t) && Meaning(t) == v && AllScalar(Written(t)) && bs == Encode(Written(t))
  {
    hide Encode, Canon, Written, Meaning, Tidy, Correct, ContentFits;
    CanonHere(v, limits);
    var t := TidyTreeOf(v, limits);
    TidyIsCanon(t);
    forall u | Correct(u) && Tidy(u) && Meaning(u) == v ensures Written(u) == Canon(v) { TidyIsCanon(u); }
  }
}
