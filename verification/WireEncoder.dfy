/** Constructing and encoding a document as it is written: a counting visit of the value, and the canonical
  * pieces gathered under the byte limit. */
module WireEncoder {
  import opened Prelude
  import opened Text
  import opened Utf8
  import opened WireValue
  import opened WireParse
  import opened WireRoundTrip
  import opened WireNormal
  import opened Wire
  import opened WireParser

  // ---------------------------------------------------------------- pieces

  /** The pieces of the canonical text, in the order in which they are produced. */
  function Pieces(v: Value): seq<Str>
    decreases v, 3
  {
    match v
    case Number(token) => [token]
    case Text(s) => [Quoted(s)]
    case Array(items) => [[OPEN_BRACKET]] + ItemPieces(items) + [[CLOSE_BRACKET]]
    case Object(m) => [[OPEN_BRACE]] + MemberPieces(v, Sorted(m.Keys)) + [[CLOSE_BRACE]]
    case _ => [Literal(v)]
  }

  function ItemPieces(items: seq<Value>): seq<Str> {
    if items == [] then []
    else Pieces(items[0]) + if |items| == 1 then [] else [[COMMA]] + ItemPieces(items[1..])
  }

  function MemberPieces(v: Value, ks: seq<Str>): seq<Str>
    requires v.Object? && forall k :: k in ks ==> k in v.members
    decreases v, 2, |ks|
  {
    if ks == [] then []
    else [Quoted(ks[0]), [COLON]] + Pieces(v.members[ks[0]])
         + if |ks| == 1 then [] else [[COMMA]] + MemberPieces(v, ks[1..])
  }

  function Flat(pieces: seq<Str>): Str {
    if pieces == [] then [] else pieces[0] + Flat(pieces[1..])
  }

  lemma {:induction false} FlatConcat(a: seq<Str>, b: seq<Str>)
    ensures Flat(a + b) == Flat(a) + Flat(b)
  {
    if a == [] {
      assert a + b == b;
    } else {
      FlatConcat(a[1..], b);
      assert (a + b)[0] == a[0] && (a + b)[1..] == a[1..] + b;
    }
  }

  lemma FlatOne(p: Str)
    ensures Flat([p]) == p
  {
    assert [p][1..] == [];
  }

  lemma FlatAround(open: Str, inner: seq<Str>, close: Str)
    ensures Flat([open] + inner + [close]) == open + Flat(inner) + close
  {
    FlatConcat([open] + inner, [close]);
    FlatConcat([open], inner);
    FlatOne(open);
    FlatOne(close);
  }

  lemma FlatPair(a: Str, b: Str)
    ensures Flat([a, b]) == a + b
  {
    assert [a, b] == [a] + [b];
    FlatConcat([a], [b]);
    FlatOne(a);
    FlatOne(b);
  }

  /** The pieces, put together, are the canonical text. */
  lemma {:induction false} FlatIsCanon(v: Value)
    ensures Flat(Pieces(v)) == Canon(v)
    decreases v, 3
  {
    match v
    case Array(items) =>
      FlatItems(items);
      FlatAround([OPEN_BRACKET], ItemPieces(items), [CLOSE_BRACKET]);
    case Object(m) => FlatObject(v);
    case Number(token) => FlatOne(token);
    case Text(s) => FlatOne(Quoted(s));
    case _ => FlatOne(Literal(v));
  }

  lemma {:induction false} FlatObject(v: Value)
    requires v.Object?
    ensures Flat(Pieces(v)) == Canon(v)
    decreases v, 2, |v.members| + 1
  {
    hide Sorted, MemberPieces, CanonMembers, Flat;
    var ks := Sorted(v.members.Keys);
    SortedCounts(v);
    FlatMembers(v, ks);
    FlatAround([OPEN_BRACE], MemberPieces(v, ks), [CLOSE_BRACE]);
  }

  lemma {:induction false} FlatItems(items: seq<Value>)
    ensures Flat(ItemPieces(items)) == CanonItems(items)
    decreases items, 2
  {
    if items != [] {
      FlatIsCanon(items[0]);
      if |items| == 1 {
        assert Pieces(items[0]) + [] == Pieces(items[0]);
      } else {
        FlatItems(items[1..]);
        FlatConcat([[COMMA]], ItemPieces(items[1..]));
        FlatOne([COMMA]);
        FlatConcat(Pieces(items[0]), [[COMMA]] + ItemPieces(items[1..]));
      }
    }
  }

  lemma {:induction false} FlatMembers(v: Value, ks: seq<Str>)
    requires v.Object? && forall k :: k in ks ==> k in v.members
    ensures Flat(MemberPieces(v, ks)) == CanonMembers(v, ks)
    decreases v, 2, |ks|
  {
    if ks != [] {
      assert ks[0] in ks;
      var value := v.members[ks[0]];
      FlatIsCanon(value);
      var head := [Quoted(ks[0]), [COLON]];
      FlatPair(Quoted(ks[0]), [COLON]);
      FlatConcat(head, Pieces(value));
      if |ks| == 1 {
        assert head + Pieces(value) + [] == head + Pieces(value);
      } else {
        FlatMembers(v, ks[1..]);
        FlatConcat([[COMMA]], MemberPieces(v, ks[1..]));
        FlatOne([COMMA]);
        FlatConcat(head + Pieces(value), [[COMMA]] + MemberPieces(v, ks[1..]));
      }
    }
  }

  lemma {:induction false} FlatScalar(pieces: seq<Str>, i: nat)
    requires i < |pieces| && AllScalar(Flat(pieces))
    ensures AllScalar(pieces[i])
    decreases i
  {
    var rest := Flat(pieces[1..]);
    if i == 0 {
      forall j | 0 <= j < |pieces[0]| ensures Scalar(pieces[0][j]) { assert Flat(pieces)[j] == pieces[0][j]; }
    } else {
      forall j | 0 <= j < |rest| ensures Scalar(rest[j]) { assert Flat(pieces)[|pieces[0]| + j] == rest[j]; }
      FlatScalar(pieces[1..], i - 1);
    }
  }

  /** The bytes of the first pieces are a prefix of the document's bytes. */
  lemma PrefixBytes(pieces: seq<Str>, i: nat)
    requires i < |pieces| && AllScalar(Flat(pieces))
    ensures AllScalar(pieces[i]) && AllScalar(Flat(pieces[..i])) && AllScalar(Flat(pieces[..i + 1]))
    ensures Encode(Flat(pieces[..i + 1])) == Encode(Flat(pieces[..i])) + Encode(pieces[i])
    ensures |Encode(pieces[i])| >= |pieces[i]|
    ensures |Encode(Flat(pieces[..i + 1]))| <= |Encode(Flat(pieces))|
  {
    hide Flat, Encode;
    FlatScalar(pieces, i);
    assert pieces[..i + 1] + pieces[i + 1..] == pieces && pieces[..i] + [pieces[i]] == pieces[..i + 1];
    FlatConcat(pieces[..i + 1], pieces[i + 1..]);
    FlatConcat(pieces[..i], [pieces[i]]);
    FlatOne(pieces[i]);
    ScalarSplit(Flat(pieces[..i + 1]), Flat(pieces[i + 1..]));
    ScalarSplit(Flat(pieces[..i]), pieces[i]);
    EncodeConcat(Flat(pieces[..i]), pieces[i]);
    EncodeConcat(Flat(pieces[..i + 1]), Flat(pieces[i + 1..]));
    EncodeGrows(pieces[i]);
  }

  lemma ScalarSplit(a: Str, b: Str)
    requires AllScalar(a + b)
    ensures AllScalar(a) && AllScalar(b)
  {
    forall j | 0 <= j < |a| ensures Scalar(a[j]) { assert (a + b)[j] == a[j]; }
    forall j | 0 <= j < |b| ensures Scalar(b[j]) { assert (a + b)[|a| + j] == b[j]; }
  }

  /** Every character takes at least one byte. */
  lemma {:induction false} EncodeGrows(s: Str)
    requires AllScalar(s)
    ensures |Encode(s)| >= |s|
  {
    if s != [] { EncodeGrows(s[1..]); }
  }

  // ---------------------------------------------------------------- the loops

  /** The canonical bytes, gathered piece by piece; refused exactly when there are more than the limit. */
  method EncodeDocument(v: Value, limits: Limits) returns (r: Outcome<seq<Byte>>)
    requires Fits(v, limits)
    ensures r == if Constructible(v, limits) then Ok(Bytes(v, limits)) else Err(Limit)
  {
    hide Fits, Size, Pieces, Canon, Encode, Flat;
    CanonHere(v, limits);
    FlatIsCanon(v);
    var pieces := Pieces(v);
    var output: seq<Byte> := [];
    var i := 0;
    NoPieces(pieces);
    while i < |pieces|
      invariant 0 <= i <= |pieces| && AllScalar(Flat(pieces[..i])) && AllScalar(Flat(pieces))
      invariant output == Encode(Flat(pieces[..i])) && |output| <= limits.maxBody
    {
      PrefixBytes(pieces, i);
      if |pieces[i]| > limits.maxBody - |output| {
        return Err(Limit);
      }
      var encoded := Encode(pieces[i]);
      if |encoded| > limits.maxBody - |output| {
        return Err(Limit);
      }
      output := output + encoded;
      i := i + 1;
    }
    assert pieces[..i] == pieces;
    return Ok(output);
  }

  lemma NoPieces(pieces: seq<Str>)
    ensures pieces[..0] == [] && Flat(pieces[..0]) == [] && Encode([]) == []
  {
  }

  /** Visits a value and counts as it goes. */
  class Freezer {
    const limits: Limits
    var count: nat

    constructor (limits: Limits)
      ensures count == 0 && this.limits == limits
    {
      this.limits, count := limits, 0;
    }

    /** Accepts exactly the values that fit what is left of the item limit, at their depth. */
    method Visit(item: Value, depth: nat) returns (ok: bool)
      modifies this`count
      ensures ok <==> DepthFits(item, depth, limits) && ContentFits(item, limits)
                      && old(count) + Nodes(item) <= limits.maxItems
      ensures ok ==> count == old(count) + Nodes(item)
      ensures count > old(count)
      decreases item, 1
    {
      hide IsNumber, StringFits, NodesAt, Total, NodesOfAll;
      count := count + 1;
      if count > limits.maxItems || depth > limits.maxDepth {
        return false;
      }
      match item {
        case Null => return true;
        case Bool(_) => return true;
        case Number(token) => return IsNumber(token);
        case Text(s) => return StringFits(s, limits);
        case Array(items) => ok := VisitItems(item, depth + 1);
        case Object(m) =>
          NodesAtAll(m);
          ok := VisitMembers(item, depth + 1);
      }
    }

    /** The items of an array, in order. */
    method VisitItems(item: Value, depth: nat) returns (ok: bool)
      requires item.Array? && count <= limits.maxItems
      modifies this`count
      ensures ok <==> (forall i | 0 <= i < |item.items| :: DepthFits(item.items[i], depth, limits))
                      && (forall i | 0 <= i < |item.items| :: ContentFits(item.items[i], limits))
                      && old(count) + NodesOfAll(item.items) <= limits.maxItems
      ensures ok ==> count == old(count) + NodesOfAll(item.items)
      ensures count >= old(count)
      decreases item, 0
    {
      hide DepthFits, ContentFits;
      var items := item.items;
      var i := 0;
      while i < |items|
        invariant 0 <= i <= |items| && old(count) <= count
        invariant count + NodesOfAll(items[i..]) == old(count) + NodesOfAll(items)
        invariant count <= limits.maxItems
        invariant forall j | 0 <= j < i :: DepthFits(items[j], depth, limits)
        invariant forall j | 0 <= j < i :: ContentFits(items[j], limits)
      {
        assert items[i..][0] == items[i] && items[i..][1..] == items[i + 1..];
        var fine := Visit(items[i], depth);
        if !fine {
          return false;
        }
        i := i + 1;
      }
      return true;
    }

    /** The members of a mapping, in whatever order the mapping holds them. */
    method VisitMembers(item: Value, depth: nat) returns (ok: bool)
      requires item.Object? && count <= limits.maxItems
      modifies this`count
      ensures ok <==> (forall k | k in item.members :: DepthFits(item.members[k], depth, limits))
                      && (forall k | k in item.members :: StringFits(k, limits) && ContentFits(item.members[k], limits))
                      && old(count) + NodesAt(item.members, item.members.Keys) <= limits.maxItems
      ensures ok ==> count == old(count) + NodesAt(item.members, item.members.Keys)
      ensures count >= old(count)
      decreases item, 0
    {
      hide DepthFits, ContentFits, StringFits, NodesAt, Total;
      var m := item.members;
      var rest := m.Keys;
      while rest != {}
        invariant rest <= m.Keys && old(count) <= count
        invariant count + NodesAt(m, rest) == old(count) + NodesAt(m, m.Keys)
        invariant count <= limits.maxItems
        invariant forall k | k in m && k !in rest :: DepthFits(m[k], depth, limits)
        invariant forall k | k in m && k !in rest :: StringFits(k, limits) && ContentFits(m[k], limits)
        decreases |rest|
      {
        var key :| key in rest;
        if !StringFits(key, limits) {
          return false;
        }
        NodesWithout(m, rest, key);
        var fine := Visit(m[key], depth);
        if !fine {
          return false;
        }
        rest := rest - {key};
      }
      NodesAtNone(m);
      return true;
    }
  }

  /** The nodes of some of an object's members. */
  function NodesAt(m: map<Str, Value>, ks: set<Str>): nat
    requires ks <= m.Keys
  {
    Total(map k | k in ks :: Nodes(m[k]))
  }

  lemma NodesWithout(m: map<Str, Value>, ks: set<Str>, k: Str)
    requires ks <= m.Keys && k in ks
    ensures NodesAt(m, ks) == Nodes(m[k]) + NodesAt(m, ks - {k})
  {
    var all := map j | j in ks :: Nodes(m[j]);
    TotalWithout(all, k);
    assert all - {k} == map j | j in ks - {k} :: Nodes(m[j]);
  }

  lemma NodesAtNone(m: map<Str, Value>)
    ensures NodesAt(m, {}) == 0
  {
  }

  lemma NodesAtAll(m: map<Str, Value>)
    ensures Nodes(Object(m)) == 1 + NodesAt(m, m.Keys)
  {
    assert (map k | k in m.Keys :: Nodes(m[k])) == (map k | k in m :: Nodes(m[k]));
  }

  /** Constructs a document: the visit, then the encoding. */
  method Construct(v: Value, limits: Limits) returns (r: Option<seq<Byte>>)
    ensures r == if Constructible(v, limits) then Some(Bytes(v, limits)) else None
  {
    var freezer := new Freezer(limits);
    var ok := freezer.Visit(v, 0);
    if !ok {
      return None;
    }
    var bytes := EncodeDocument(v, limits);
    return if bytes.Ok? then Some(bytes.value) else None;
  }

  /** Decodes a stream: one value, white space, the end, and the construction of the document. */
  method DecodeWireStream(chunks: Chunks, limits: Limits) returns (r: Outcome<Value>)
    ensures r == DecodeStream(chunks, limits)
  {
    var parser := new Parser(chunks, limits);
    var v :- parser.Value(0);
    var _ :- parser.Whitespace();
    var next :- parser.Peek();
    if next != EOF {
      return Err(Syntax);
    }
    var bytes := Construct(v, limits);
    return if bytes.Some? then Ok(v) else Err(Limit);
  }
}
