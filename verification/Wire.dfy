/** Wire documents: construction, canonical bytes, and decoding from a stream of byte chunks. */
module Wire {
  import opened Prelude
  import opened Text
  import opened Utf8
  import opened WireValue
  import opened WireParse
  import opened WireRoundTrip
  import opened WireNormal

  datatype Outcome<+T> = Ok(value: T) | Err(error: WireError) {
    predicate IsFailure() { Err? }
    function PropagateFailure<U>(): Outcome<U>
      requires Err?
    { Err(error) }
    function Extract(): T
      requires Ok?
    { value }
  }

  type Chunks = seq<seq<Byte>>

  // ---------------------------------------------------------------- documents

  /** A value can be frozen under the limits and its canonical bytes are within the byte limit. */
  predicate Constructible(v: Value, limits: Limits) {
    Fits(v, limits) && Size(v) <= limits.maxBody
  }

  lemma {:induction false} EscapeTextScalar(s: Str)
    requires AllScalar(s)
    ensures AllScalar(EscapeText(s))
  {
    if s != [] { EscapeTextScalar(s[1..]); }
  }

  lemma QuotedScalar(s: Str)
    requires AllScalar(s)
    ensures AllScalar(Quoted(s))
  {
    EscapeTextScalar(s);
  }

  lemma {:induction false} CanonItemsScalar(items: seq<Value>, limits: Limits)
    requires forall i :: 0 <= i < |items| ==> ContentFits(items[i], limits)
    ensures AllScalar(CanonItems(items))
    decreases items, 0
  {
    if items != [] {
      CanonScalar(items[0], limits);
      if |items| > 1 { CanonItemsScalar(items[1..], limits); }
    }
  }

  lemma {:induction false} CanonMembersScalar(v: Value, ks: seq<Str>, limits: Limits)
    requires v.Object? && ContentFits(v, limits) && forall k :: k in ks ==> k in v.members
    ensures AllScalar(CanonMembers(v, ks))
    decreases v, 0, |ks|
  {
    if ks != [] {
      assert ks[0] in ks && StringFits(ks[0], limits) && ContentFits(v.members[ks[0]], limits);
      QuotedScalar(ks[0]);
      CanonScalar(v.members[ks[0]], limits);
      if |ks| > 1 { CanonMembersScalar(v, ks[1..], limits); }
    }
  }

  /** Canonical text is scalar, so it has bytes. */
  lemma {:induction false} CanonScalar(v: Value, limits: Limits)
    requires ContentFits(v, limits)
    ensures AllScalar(Canon(v))
    decreases v, 1
  {
    match v
    case Number(token) => NumberShape(token);
    case Text(s) => QuotedScalar(s);
    case Array(items) => CanonItemsScalar(items, limits);
    case Object(m) => CanonObjectScalar(v, limits);
    case _ =>
  }

  lemma {:induction false} CanonObjectScalar(v: Value, limits: Limits)
    requires v.Object? && ContentFits(v, limits)
    ensures AllScalar(Canon(v))
    decreases v, 0, |v.members| + 1
  {
    hide Sorted, CanonMembers, NodesFor, ContentFits, Nodes;
    SortedCounts(v);
    CanonMembersScalar(v, Sorted(v.members.Keys), limits);
    assert Canon(v) == [OPEN_BRACE] + CanonMembers(v, Sorted(v.members.Keys)) + [CLOSE_BRACE];
  }

  /** The deterministic bytes of a document. */
  function Bytes(v: Value, limits: Limits): (r: seq<Byte>)
    requires Fits(v, limits)
    ensures |r| == Size(v)
  {
    CanonScalar(v, limits);
    CanonSize(v);
    Encode(Canon(v))
  }

  // ---------------------------------------------------------------- streams

  /** What a generator over the remaining chunks will still yield, given the bytes of an unfinished
    * character and the number of bytes read so far. */
  function StreamOf(chunks: Chunks, pending: seq<Byte>, size: nat, maximum: nat): Input {
    if chunks == [] then Input([], if pending == [] then End else Broken(Syntax))
    else if size + |chunks[0]| > maximum then Input([], Broken(Limit))
    else match DecodeSome(pending + chunks[0])
         case Malformed => Input([], Broken(Syntax))
         case Chars(text, rest) => Then(text, StreamOf(chunks[1..], rest, size + |chunks[0]|, maximum))
  }

  function Joined(chunks: Chunks): seq<Byte> {
    if chunks == [] then [] else chunks[0] + Joined(chunks[1..])
  }

  /** A stream ends without error exactly when its bytes, taken together, are within the limit and are
    * well-formed UTF-8; then it yields the decoded text. */
  lemma {:induction false} StreamEnds(chunks: Chunks, pending: seq<Byte>, size: nat, maximum: nat)
    requires DecodeSome(pending) == Chars([], pending)
    requires size <= maximum || chunks != []
    ensures var s := StreamOf(chunks, pending, size, maximum);
            var d := DecodeSome(pending + Joined(chunks));
            && (s.tail.End? <==> size + |Joined(chunks)| <= maximum && d.Chars? && d.rest == [])
            && (s.tail.End? ==> s.chars == d.text)
  {
    if chunks == [] {
      assert pending + Joined(chunks) == pending;
    } else if size + |chunks[0]| <= maximum {
      var here := pending + chunks[0];
      assert pending + Joined(chunks) == here + Joined(chunks[1..]);
      DecodeInPieces(here, Joined(chunks[1..]));
      if DecodeSome(here).Chars? {
        RestIsPartial(here);
        StreamEnds(chunks[1..], DecodeSome(here).rest, size + |chunks[0]|, maximum);
      }
    }
  }

  /** The unfinished rest of a decoded sequence yields nothing by itself. */
  lemma {:induction false} RestIsPartial(bs: seq<Byte>)
    requires DecodeSome(bs).Chars?
    ensures DecodeSome(DecodeSome(bs).rest) == Chars([], DecodeSome(bs).rest)
  {
    if bs != [] && HeadOf(bs).Character? {
      RestIsPartial(bs[HeadOf(bs).length..]);
    }
  }

  // ---------------------------------------------------------------- decoding

  /** Parses the stream and constructs the document from what was parsed. */
  function DecodeStream(chunks: Chunks, limits: Limits): Outcome<Value> {
    match ParseDocument(StreamOf(chunks, [], 0, limits.maxBody), limits)
    case Failed(e) => Err(e)
    case Got(v, _) => if Constructible(v, limits) then Ok(v) else Err(Limit)
  }

  /** A document is accepted only at the end of a source that ended without error. */
  lemma ParsedWhole(s: Input, limits: Limits)
    requires AllScalar(s.chars)
    ensures ParseDocument(s, limits).Got? ==> s.tail.End? && ParseDocument(s, limits).rest == Input([], End)
  {
    hide ParseValue, SkipSpace, Tight, ByteLength;
    if ParseDocument(s, limits).Got? {
      var c := ParseValue(s, 0, 0, limits);
      ValueTight(s, 0, 0, limits);
      TightFacts(s, 0, 0, limits, c.value, c.rest);
      SpaceConsumes(c.rest);
      assert Shorter(c.rest, s) && Shorter(SkipSpace(c.rest).rest, c.rest);
    }
  }

  lemma {:induction false} StreamScalar(chunks: Chunks, pending: seq<Byte>, size: nat, maximum: nat)
    ensures AllScalar(StreamOf(chunks, pending, size, maximum).chars)
  {
    if chunks != [] && DecodeSome(pending + chunks[0]).Chars? {
      StreamScalar(chunks[1..], DecodeSome(pending + chunks[0]).rest, size + |chunks[0]|, maximum);
    }
  }

  /** The constructor after a successful parse never rejects, and never needs more bytes than arrived. */
  lemma ParsedIsConstructible(s: Input, limits: Limits)
    requires AllScalar(s.chars) && ByteLength(s.chars) <= limits.maxBody
    ensures var r := ParseDocument(s, limits);
            r.Got? ==> Constructible(r.value, limits) && Size(r.value) <= ByteLength(s.chars)
  {
    hide SkipSpace, Size, ContentFits, DepthFits, Nodes;
    if ParseDocument(s, limits).Got? {
      ValueTight(s, 0, 0, limits);
    }
  }

  /** Decoding, by what it means: the chunks' bytes are within the limit, decode as UTF-8, and the text
    * parses as one document. The constructor adds no condition. */
  lemma DecodeMeans(chunks: Chunks, limits: Limits, v: Value)
    ensures DecodeStream(chunks, limits) == Ok(v) <==>
              && |Joined(chunks)| <= limits.maxBody
              && Decode(Joined(chunks)).Some?
              && ParseDocument(Input(Decode(Joined(chunks)).value, End), limits) == Got(v, Input([], End))
  {
    hide ParseDocument, DecodeSome, Constructible;
    var s := StreamOf(chunks, [], 0, limits.maxBody);
    NothingDecodes();
    StreamEnds(chunks, [], 0, limits.maxBody);
    assert [] + Joined(chunks) == Joined(chunks);
    StreamScalar(chunks, [], 0, limits.maxBody);
    ParsedWhole(s, limits);
    if s.tail.End? {
      var text := Decode(Joined(chunks)).value;
      assert s == Input(text, End);
      DecodedLength(Joined(chunks));
      ParsedIsConstructible(s, limits);
    }
  }

  lemma NothingDecodes()
    ensures DecodeSome([]) == Chars([], [])
  {
  }

  /** Well-formed bytes are as many as the widths of their characters. */
  lemma DecodedLength(bs: seq<Byte>)
    requires Decode(bs).Some?
    ensures AllScalar(Decode(bs).value) && ByteLength(Decode(bs).value) == |bs|
  {
    EncodeInvertsDecode(bs);
    var text := Decode(bs).value;
    assert Encode(text) + [] == Encode(text);
  }

  // ---------------------------------------------------------------- theorems

  /** Decoding the bytes of a document, however they are cut into chunks, under the limits it was
    * constructed with, succeeds and gives the same value. */
  lemma DecodeInvertsEncode(v: Value, limits: Limits, chunks: Chunks)
    requires Constructible(v, limits) && Joined(chunks) == Bytes(v, limits)
    ensures DecodeStream(chunks, limits) == Ok(v)
  {
    hide ParseDocument, Fits, Encode, Decode, Canon, Size;
    CanonHere(v, limits);
    Utf8.DecodeInvertsEncode(Canon(v));
    DocumentInverts(v, limits);
    DecodeMeans(chunks, limits, v);
  }

  lemma CanonHere(v: Value, limits: Limits)
    requires Fits(v, limits)
    ensures AllScalar(Canon(v)) && Bytes(v, limits) == Encode(Canon(v))
  {
    CanonScalar(v, limits);
  }

  /** Whether a stream is accepted, and its value, depend on its bytes alone and not on the chunks. */
  lemma ChunkingIsInvisible(a: Chunks, b: Chunks, limits: Limits, v: Value)
    requires Joined(a) == Joined(b)
    ensures DecodeStream(a, limits) == Ok(v) <==> DecodeStream(b, limits) == Ok(v)
  {
    DecodeMeans(a, limits, v);
    DecodeMeans(b, limits, v);
  }

  /** Every accepted input re-encodes, in no more bytes than it had, and its encoding decodes to the same
    * value: the canonical bytes are a normal form. */
  lemma NormalForm(chunks: Chunks, limits: Limits)
    requires DecodeStream(chunks, limits).Ok?
    ensures var v := DecodeStream(chunks, limits).value;
            && Constructible(v, limits)
            && |Bytes(v, limits)| <= |Joined(chunks)|
            && DecodeStream([Bytes(v, limits)], limits) == Ok(v)
  {
    hide ParseDocument, Fits, Size;
    var v := DecodeStream(chunks, limits).value;
    DecodeMeans(chunks, limits, v);
    DecodedLength(Joined(chunks));
    ParsedIsConstructible(Input(Decode(Joined(chunks)).value, End), limits);
    assert Joined([Bytes(v, limits)]) == Bytes(v, limits) by {
      assert [Bytes(v, limits)][1..] == [];
      assert Bytes(v, limits) + [] == Bytes(v, limits);
    }
    DecodeInvertsEncode(v, limits, [Bytes(v, limits)]);
  }

  /** Two documents with the same bytes hold the same value. */
  lemma BytesAreFaithful(v: Value, w: Value, limits: Limits)
    requires Constructible(v, limits) && Constructible(w, limits) && Bytes(v, limits) == Bytes(w, limits)
    ensures v == w
  {
    hide Fits, Size, ParseDocument, Bytes;
    assert Joined([Bytes(v, limits)]) == Bytes(v, limits) by {
      assert [Bytes(v, limits)][1..] == [];
      assert Bytes(v, limits) + [] == Bytes(v, limits);
    }
    DecodeInvertsEncode(v, limits, [Bytes(v, limits)]);
    DecodeInvertsEncode(w, limits, [Bytes(v, limits)]);
  }
}
