/** The canonical form is the shortest spelling: what the parser accepts always fits the limits again,
  * in no more bytes than it came in. */
module WireNormal {
  import opened Prelude
  import opened Text
  import opened Utf8
  import opened WireValue
  import opened WireParse
  import opened WireRoundTrip

  // ---------------------------------------------------------------- sizes

  function SizeOfAll(items: seq<Value>): nat {
    if items == [] then 0 else Size(items[0]) + 1 + SizeOfAll(items[1..])
  }

  /** Bytes of the canonical text. */
  function Size(v: Value): nat {
    match v
    case Number(token) => ByteLength(token)
    case Text(s) => ByteLength(Quoted(s))
    case Array(items) => if items == [] then 2 else 1 + SizeOfAll(items)
    case Object(m) =>
      if m == map[] then 2
      else 1 + Total(map k | k in m :: ByteLength(Quoted(k)) + 1 + Size(m[k]) + 1)
    case Bool(b) => if b then 4 else 5
    case Null => 4
  }

  /** Bytes of each member with one separator. */
  function MemberSizes(m: map<Str, Value>): map<Str, nat> {
    map k | k in m :: ByteLength(Quoted(k)) + 1 + Size(m[k]) + 1
  }

  lemma ObjectSize(m: map<Str, Value>)
    ensures Size(Object(m)) == if m == map[] then 2 else 1 + Total(MemberSizes(m))
  {
    hide Total, ByteLength, Quoted;
    assert (map k | k in m :: ByteLength(Quoted(k)) + 1 + Size(m[k]) + 1) == MemberSizes(m);
  }

  function SizeFor(v: Value, ks: seq<Str>): nat
    requires v.Object? && forall k :: k in ks ==> k in v.members
  {
    if ks == [] then 0
    else ByteLength(Quoted(ks[0])) + 1 + Size(v.members[ks[0]]) + 1 + SizeFor(v, ks[1..])
  }

  lemma {:induction false} SizeForTotal(v: Value, ks: seq<Str>, w: map<Str, nat>)
    requires v.Object? && (forall k :: k in ks ==> k in v.members) && Distinct(ks)
    requires w.Keys == Members(ks)
    requires forall k :: k in w ==> w[k] == ByteLength(Quoted(k)) + 1 + Size(v.members[k]) + 1
    ensures SizeFor(v, ks) == Total(w)
    decreases |ks|
  {
    hide Size, ByteLength, Total;
    if ks != [] {
      assert ks[0] in w;
      TotalWithout(w, ks[0]);
      assert ks == [ks[0]] + ks[1..];
      MembersOfCons(ks[0], ks[1..]);
      assert (w - {ks[0]}).Keys == Members(ks[1..]);
      SizeForTotal(v, ks[1..], w - {ks[0]});
    } else {
      assert w.Keys == {};
      NoTotal(w);
    }
  }

  lemma AsciiLength(s: Str)
    requires forall i :: 0 <= i < |s| ==> 0 <= s[i] < 0x80
    ensures ByteLength(s) == |s|
  {
  }

  lemma ByteLengthOne(c: int, s: Str)
    ensures ByteLength([c] + s) == Width(c) + ByteLength(s)
    ensures ByteLength([c]) == Width(c)
  {
    assert ([c] + s)[1..] == s && [c][1..] == [];
  }

  lemma {:induction false} CanonItemsSize(items: seq<Value>)
    ensures items != [] ==> ByteLength(CanonItems(items)) + 1 == SizeOfAll(items)
    decreases items, 0
  {
    if items != [] {
      CanonSize(items[0]);
      if |items| == 1 {
        assert CanonItems(items) == Canon(items[0]) + [];
        ByteLengthConcat(Canon(items[0]), []);
        assert items[1..] == [];
      } else {
        CanonItemsSize(items[1..]);
        ByteLengthConcat(Canon(items[0]), [COMMA] + CanonItems(items[1..]));
        ByteLengthOne(COMMA, CanonItems(items[1..]));
      }
    }
  }

  lemma {:induction false} CanonMembersSize(v: Value, ks: seq<Str>)
    requires v.Object? && forall k :: k in ks ==> k in v.members
    ensures ks != [] ==> ByteLength(CanonMembers(v, ks)) + 1 == SizeFor(v, ks)
    decreases v, 0, |ks|
  {
    if ks != [] {
      hide Canon, Size, Quoted;
      var k := ks[0];
      CanonSize(v.members[k]);
      ByteLengthConcat(Quoted(k) + [COLON], Canon(v.members[k]));
      ByteLengthConcat(Quoted(k), [COLON]);
      ByteLengthOne(COLON, []);
      if |ks| == 1 {
        assert CanonMembers(v, ks) == CanonMember(v, k) + [];
        ByteLengthConcat(CanonMember(v, k), []);
        assert ks[1..] == [];
      } else {
        CanonMembersSize(v, ks[1..]);
        ByteLengthConcat(CanonMember(v, k), [COMMA] + CanonMembers(v, ks[1..]));
        ByteLengthOne(COMMA, CanonMembers(v, ks[1..]));
      }
    }
  }

  lemma Wrapped(open: int, body: Str, close: int)
    requires 0 <= open < 0x80 && 0 <= close < 0x80
    ensures ByteLength([open] + body + [close]) == 2 + ByteLength(body)
  {
    ByteLengthConcat([open] + body, [close]);
    ByteLengthOne(open, body);
    ByteLengthOne(close, []);
  }

  /** The canonical text occupies as many bytes as its size says. */
  lemma {:induction false} CanonSize(v: Value)
    ensures ByteLength(Canon(v)) == Size(v)
    decreases v, 1
  {
    match v
    case Array(items) =>
      Wrapped(OPEN_BRACKET, CanonItems(items), CLOSE_BRACKET);
      CanonItemsSize(items);
    case Object(m) => CanonObjectSize(v);
    case Null => AsciiLength(Literal(v));
    case Bool(b) => AsciiLength(Literal(v));
    case _ =>
  }

  lemma {:induction false} CanonObjectSize(v: Value)
    requires v.Object?
    ensures ByteLength(Canon(v)) == Size(v)
    decreases v, 0, |v.members| + 1
  {
    hide Sorted, CanonMembers, Total, NodesFor, ByteLength, Nodes;
    var ks := Sorted(v.members.Keys);
    SortedCounts(v);
    Wrapped(OPEN_BRACE, CanonMembers(v, ks), CLOSE_BRACE);
    assert Canon(v) == [OPEN_BRACE] + CanonMembers(v, ks) + [CLOSE_BRACE];
    if ks == [] {
      EmptyText(v);
    } else {
      CanonMembersSize(v, ks);
      SizeForTotal(v, ks, MemberSizes(v.members));
      ObjectSize(v.members);
    }
  }

  lemma EmptyText(v: Value)
    requires v.Object?
    ensures ByteLength(CanonMembers(v, [])) == 0
  {
  }

  // ---------------------------------------------------------------- what parsing consumes

  /** Bytes of the characters still to come. */
  function Room(s: Input): nat {
    ByteLength(s.chars)
  }

  ghost predicate Clean(s: Input) {
    AllScalar(s.chars)
  }

  /** The rest is later in the same clean input, at least n bytes further on. */
  ghost predicate Consumed(s: Input, rest: Input, n: nat) {
    Clean(rest) && Room(rest) + n <= Room(s)
  }

  lemma ConsumedTwice(s: Input, t: Input, u: Input, m: nat, n: nat)
    requires Consumed(s, t, m) && Consumed(t, u, n)
    ensures Consumed(s, u, m + n)
  {
  }

  lemma TakeConsumes(s: Input)
    requires Clean(s)
    ensures var r := Take(s);
            r.Got? ==>
              && (r.value != EOF ==> Scalar(r.value) && Consumed(s, r.rest, Width(r.value)))
              && (r.value == EOF ==> Consumed(s, r.rest, 0))
  {
  }

  lemma {:induction false} SpaceConsumes(s: Input)
    requires Clean(s)
    ensures SkipSpace(s).Got? ==> Consumed(s, SkipSpace(s).rest, 0)
    decreases |s.chars|
  {
    if s.chars != [] && Space(s.chars[0]) {
      TakeConsumes(s);
      SpaceConsumes(Input(s.chars[1..], s.tail));
    }
  }

  lemma RequireConsumes(s: Input, c: int)
    requires Clean(s) && c != EOF
    ensures Require(s, c).Got? ==> Consumed(s, Require(s, c).rest, Width(c))
  {
    TakeConsumes(s);
  }

  lemma HexWidth(c: int)
    ensures HexValue(c).Some? ==> Width(c) == 1 && c != EOF
  {
  }

  lemma HexQuadConsumes(s: Input)
    requires Clean(s)
    ensures HexQuad(s).Got? ==> Consumed(s, HexQuad(s).rest, 4)
  {
    if HexQuad(s).Got? {
      hide Width, Clean, ByteLength;
      var (a, b) := (Take(s), Take(Take(s).rest));
      var (c, d) := (Take(b.rest), Take(Take(b.rest).rest));
      TakeConsumes(s);
      HexWidth(a.value);
      TakeConsumes(a.rest);
      HexWidth(b.value);
      TakeConsumes(b.rest);
      HexWidth(c.value);
      TakeConsumes(c.rest);
      HexWidth(d.value);
    }
  }

  /** An escape, with its backslash, is never shorter than the canonical spelling of what it means. */
  lemma EscapeConsumes(s: Input)
    requires Clean(s)
    ensures var r := Escape(s);
            r.Got? ==> Scalar(r.value) && ByteLength(EscapeChar(r.value)) >= 1
                       && Consumed(s, r.rest, ByteLength(EscapeChar(r.value)) - 1)
  {
    var r := Escape(s);
    if r.Got? {
      TakeConsumes(s);
      var e := Take(s);
      if e.value == 'u' as int {
        HexQuadConsumes(e.rest);
        var q := HexQuad(e.rest);
        if 0xD800 <= q.value <= 0xDBFF {
          RequireConsumes(q.rest, BACKSLASH);
          var s3 := Require(q.rest, BACKSLASH).rest;
          RequireConsumes(s3, 'u' as int);
          HexQuadConsumes(Require(s3, 'u' as int).rest);
          AboveControls(r.value);
        } else {
          EscapeAtMostSix(q.value);
        }
      } else {
        EscapedAtMostTwo(e.value);
      }
    }
  }

  lemma AboveControls(c: int)
    requires c >= 0x80
    ensures ByteLength(EscapeChar(c)) == Width(c)
  {
    ByteLengthOne(c, []);
  }

  lemma EscapeAtMostSix(c: int)
    requires 0 <= c < 0x10000
    ensures 1 <= ByteLength(EscapeChar(c)) <= 6
  {
    if c < 0x80 { AsciiLength(EscapeChar(c)); } else { AboveControls(c); }
  }

  lemma EscapedAtMostTwo(e: int)
    requires SimpleEscape(e).Some?
    ensures var c := SimpleEscape(e).value; Scalar(c) && 1 <= ByteLength(EscapeChar(c)) <= 2
  {
    AsciiLength(EscapeChar(SimpleEscape(e).value));
  }

  lemma {:induction false} EscapeTextAppend(s: Str, c: int)
    ensures EscapeText(s + [c]) == EscapeText(s) + EscapeChar(c)
  {
    hide EscapeChar;
    if s == [] {
      assert EscapeText([]) == [] && ([c][1..]) == [];
      assert EscapeText([c]) == EscapeChar(c) + EscapeText([]);
      assert s + [c] == [c];
    } else {
      EscapeTextAppend(s[1..], c);
      assert (s + [c])[1..] == s[1..] + [c];
    }
  }

  /** The canonical spelling of what was gathered so far. */
  function Spelled(gathered: Str): nat {
    ByteLength(EscapeText(gathered))
  }

  lemma SpelledAppend(gathered: Str, c: int)
    ensures Spelled(gathered + [c]) == Spelled(gathered) + ByteLength(EscapeChar(c))
  {
    EscapeTextAppend(gathered, c);
    ByteLengthConcat(EscapeText(gathered), EscapeChar(c));
  }

  /** One character of a string body, escaped or not, in the input and in canonical spelling. */
  lemma BodyTurn(s: Input, gathered: Str, limits: Limits) returns (d: int, t: Input)
    requires Clean(s) && StringBody(s, gathered, limits).Got?
    requires !(s.chars != [] && s.chars[0] == QUOTE)
    ensures |t.chars| < |s.chars| && |gathered| < limits.maxString && Scalar(d)
    ensures StringBody(s, gathered, limits) == StringBody(t, gathered + [d], limits)
    ensures Consumed(s, t, ByteLength(EscapeChar(d)))
  {
    TakeConsumes(s);
    var c := Take(s);
    if c.value == BACKSLASH {
      EscapeConsumes(c.rest);
      d, t := Escape(c.rest).value, Escape(c.rest).rest;
    } else {
      d, t := c.value, c.rest;
      ByteLengthOne(d, []);
    }
  }

  lemma {:induction false} BodyConsumes(s: Input, gathered: Str, limits: Limits)
    requires Clean(s) && AllScalar(gathered) && |gathered| <= limits.maxString
    ensures var r := StringBody(s, gathered, limits);
            r.Got? ==>
              && StringFits(r.value, limits) && Clean(r.rest)
              && Room(r.rest) + Spelled(r.value) + 1 <= Room(s) + Spelled(gathered)
    decreases |s.chars|
  {
    if StringBody(s, gathered, limits).Got? {
      if s.chars != [] && s.chars[0] == QUOTE {
        TakeConsumes(s);
      } else {
        var d, t := BodyTurn(s, gathered, limits);
        hide StringBody, EscapeChar, ByteLength, EscapeText;
        SpelledAppend(gathered, d);
        BodyConsumes(t, gathered + [d], limits);
      }
    }
  }

  lemma QuotedSize(s: Str)
    ensures ByteLength(Quoted(s)) == 2 + Spelled(s)
  {
    Wrapped(QUOTE, EscapeText(s), QUOTE);
  }

  lemma StringConsumes(s: Input, limits: Limits)
    requires Clean(s)
    ensures var r := ParseString(s, limits);
            r.Got? ==> StringFits(r.value, limits) && Consumed(s, r.rest, ByteLength(Quoted(r.value)))
  {
    if Require(s, QUOTE).Got? {
      RequireConsumes(s, QUOTE);
      BodyConsumes(Require(s, QUOTE).rest, [], limits);
      assert EscapeText([]) == [];
      var r := ParseString(s, limits);
      if r.Got? { QuotedSize(r.value); }
    }
  }

  lemma {:induction false} RunConsumes(s: Input, gathered: Str)
    requires Clean(s)
    ensures var r := NumberRun(s, gathered);
            r.Got? ==> Clean(r.rest) && Room(r.rest) + ByteLength(r.value) <= Room(s) + ByteLength(gathered)
    decreases |s.chars|
  {
    if s.chars != [] && NumberChar(s.chars[0]) {
      TakeConsumes(s);
      ByteLengthConcat(gathered, [s.chars[0]]);
      ByteLengthOne(s.chars[0], []);
      RunConsumes(Input(s.chars[1..], s.tail), gathered + [s.chars[0]]);
    }
  }

  lemma {:induction false} WordConsumes(s: Input, w: Str)
    requires Clean(s) && forall i :: 0 <= i < |w| ==> 0 <= w[i] < 0x80
    ensures RequireAll(s, w).Got? ==> Consumed(s, RequireAll(s, w).rest, |w|)
    decreases |w|
  {
    if w != [] && Require(s, w[0]).Got? {
      RequireConsumes(s, w[0]);
      WordConsumes(Require(s, w[0]).rest, w[1..]);
    }
  }

  // ---------------------------------------------------------------- values

  /** A parsed value is counted, fits where it stands, and is no larger than what was consumed. */
  ghost predicate Tight(s: Input, count: nat, depth: nat, limits: Limits, c: Counted, rest: Input) {
    && Consumed(s, rest, Size(c.value))
    && count + Nodes(c.value) <= c.count <= limits.maxItems
    && DepthFits(c.value, depth, limits) && ContentFits(c.value, limits)
  }

  /** The same of a container under construction: what it holds already is charged separately. */
  ghost predicate MembersTight(s: Input, m: map<Str, Value>, count: nat, depth: nat, limits: Limits,
                               c: Counted, rest: Input) {
    && c.value.Object? && c.value.members != map[]
    && Clean(rest)
    && Room(rest) + Total(MemberSizes(c.value.members)) <= Room(s) + Total(MemberSizes(m))
    && count + Total(Weights(c.value)) <= c.count + Total(Weights(Object(m))) && c.count <= limits.maxItems
    && MembersFit(c.value.members, depth, limits)
  }

  ghost predicate MembersFit(m: map<Str, Value>, depth: nat, limits: Limits) {
    forall k :: k in m ==>
      StringFits(k, limits) && ContentFits(m[k], limits) && DepthFits(m[k], depth + 1, limits)
  }

  ghost predicate ItemsTight(s: Input, items: seq<Value>, count: nat, depth: nat, limits: Limits,
                             c: Counted, rest: Input) {
    && c.value.Array? && c.value.items != []
    && Clean(rest)
    && Room(rest) + SizeOfAll(c.value.items) <= Room(s) + SizeOfAll(items)
    && count + NodesOfAll(c.value.items) <= c.count + NodesOfAll(items) && c.count <= limits.maxItems
    && ItemsFit(c.value.items, depth, limits)
  }

  ghost predicate ItemsFit(items: seq<Value>, depth: nat, limits: Limits) {
    forall i :: 0 <= i < |items| ==> ContentFits(items[i], limits) && DepthFits(items[i], depth + 1, limits)
  }

  lemma {:induction false} SizeOfAllAppend(items: seq<Value>, v: Value)
    ensures SizeOfAll(items + [v]) == SizeOfAll(items) + Size(v) + 1
    ensures NodesOfAll(items + [v]) == NodesOfAll(items) + Nodes(v)
  {
    if items == [] {
      assert items + [v] == [v] && [v][1..] == [];
    } else {
      SizeOfAllAppend(items[1..], v);
      assert (items + [v])[1..] == items[1..] + [v];
    }
  }

  /** Setting a member adds at most its own size and nodes, also when it replaces another. */
  lemma MemberAdds(m: map<Str, Value>, k: Str, v: Value)
    ensures Total(MemberSizes(m[k := v])) <= Total(MemberSizes(m)) + ByteLength(Quoted(k)) + 1 + Size(v) + 1
    ensures Total(Weights(Object(m[k := v]))) <= Total(Weights(Object(m))) + Nodes(v)
  {
    hide MemberSizes, Weights, Total;
    TotalUpdate(MemberSizes(m), k, ByteLength(Quoted(k)) + 1 + Size(v) + 1);
    MemberSizesUpdate(m, k, v);
    TotalUpdate(Weights(Object(m)), k, Nodes(v));
    WeightsUpdate(m, k, v);
  }

  lemma MemberSizesUpdate(m: map<Str, Value>, k: Str, v: Value)
    ensures MemberSizes(m[k := v]) == MemberSizes(m)[k := ByteLength(Quoted(k)) + 1 + Size(v) + 1]
  {
    hide Size, ByteLength, Quoted;
    var n := ByteLength(Quoted(k)) + 1 + Size(v) + 1;
    var (a, b) := (MemberSizes(m[k := v]), MemberSizes(m)[k := n]);
    assert a.Keys == b.Keys;
    forall x | x in a ensures a[x] == b[x] {
      if x != k { assert x in m && m[k := v][x] == m[x]; }
    }
  }

  lemma WeightsUpdate(m: map<Str, Value>, k: Str, v: Value)
    ensures Weights(Object(m[k := v])) == Weights(Object(m))[k := Nodes(v)]
  {
    hide Nodes;
  }

  // ---------------------------------------------------------------- inverting one call

  /** The intermediate results of one turn of the member loop, which ends the loop or goes on at s7. */
  ghost predicate MembersTurn(s: Input, m: map<Str, Value>, count: nat, depth: nat, limits: Limits, k: Str, s1: Input,
                              s3: Input, c: Counted, s4: Input, s5: Input, next: Option<Input>)
  {
    && ParseString(s, limits) == Got(k, s1)
    && SkipSpace(s1).Got? && Require(SkipSpace(s1).rest, COLON) == Got((), s3)
    && |s3.chars| < |s.chars| && ParseValue(s3, count, depth + 1, limits) == Got(c, s4)
    && SkipSpace(s4).Got? && SkipSpace(s4).rest == s5
    && match next
       case None =>
         && Require(s5, CLOSE_BRACE).Got?
         && ParseMembers(s, m, count, depth, limits) ==
            Got(Counted(Object(m[k := c.value]), c.count), Require(s5, CLOSE_BRACE).rest)
       case Some(s7) =>
         && Require(s5, COMMA).Got?
         && SkipSpace(Require(s5, COMMA).rest).Got? && SkipSpace(Require(s5, COMMA).rest).rest == s7
         && |s7.chars| < |s.chars|
         && ParseMembers(s, m, count, depth, limits) ==
            ParseMembers(s7, m[k := c.value], c.count, depth, limits)
  }

  lemma MembersStep(s: Input, m: map<Str, Value>, count: nat, depth: nat, limits: Limits)
    returns (k: Str, s1: Input, s3: Input, c: Counted, s4: Input, s5: Input, next: Option<Input>)
    requires ParseMembers(s, m, count, depth, limits).Got?
    ensures MembersTurn(s, m, count, depth, limits, k, s1, s3, c, s4, s5, next)
  {
    var ps := ParseString(s, limits);
    k, s1 := ps.value, ps.rest;
    s3 := Require(SkipSpace(s1).rest, COLON).rest;
    var pv := ParseValue(s3, count, depth + 1, limits);
    c, s4 := pv.value, pv.rest;
    s5 := SkipSpace(s4).rest;
    next := if Peek(s5).value == CLOSE_BRACE then None else Some(SkipSpace(Require(s5, COMMA).rest).rest);
  }

  /** The intermediate results of one turn of the item loop. */
  ghost predicate ItemsTurn(s: Input, items: seq<Value>, count: nat, depth: nat, limits: Limits, c: Counted, s1: Input,
                            s2: Input, next: Option<Input>)
  {
    && ParseValue(s, count, depth + 1, limits) == Got(c, s1)
    && SkipSpace(s1).Got? && SkipSpace(s1).rest == s2
    && match next
       case None =>
         && Require(s2, CLOSE_BRACKET).Got?
         && ParseItems(s, items, count, depth, limits) ==
            Got(Counted(Array(items + [c.value]), c.count), Require(s2, CLOSE_BRACKET).rest)
       case Some(s4) =>
         && Require(s2, COMMA).Got?
         && SkipSpace(Require(s2, COMMA).rest).Got? && SkipSpace(Require(s2, COMMA).rest).rest == s4
         && |s4.chars| < |s.chars|
         && ParseItems(s, items, count, depth, limits) ==
            ParseItems(s4, items + [c.value], c.count, depth, limits)
  }

  lemma ItemsStep(s: Input, items: seq<Value>, count: nat, depth: nat, limits: Limits)
    returns (c: Counted, s1: Input, s2: Input, next: Option<Input>)
    requires ParseItems(s, items, count, depth, limits).Got?
    ensures ItemsTurn(s, items, count, depth, limits, c, s1, s2, next)
  {
    var pv := ParseValue(s, count, depth + 1, limits);
    c, s1 := pv.value, pv.rest;
    s2 := SkipSpace(s1).rest;
    next := if Peek(s2).value == CLOSE_BRACKET then None else Some(SkipSpace(Require(s2, COMMA).rest).rest);
  }

  /** Which of its branches a successful value took. */
  datatype Branch =
    | OfText(text: Str)
    | Empty(isObject: bool)
    | Inside(isObject: bool, s3: Input)
    | OfWord(v: Value)
    | OfNumber

  /** What follows the white space in front of a value, and the branch it takes. */
  ghost predicate ValueTurn(s: Input, count: nat, depth: nat, limits: Limits, s1: Input, branch: Branch) {
    && ParseValue(s, count, depth, limits).Got?
    && count + 1 <= limits.maxItems && depth <= limits.maxDepth
    && SkipSpace(s).Got? && SkipSpace(s).rest == s1
    && var r := ParseValue(s, count, depth, limits);
       match branch
       case OfText(text) => ParseString(s1, limits) == Got(text, r.rest) && r.value == Counted(Text(text), count + 1)
       case Empty(isObject) =>
         && s1.chars != [] && 0 <= s1.chars[0] < 0x80
         && var close := if isObject then CLOSE_BRACE else CLOSE_BRACKET;
         && SkipSpace(Take(s1).rest).Got?
         && Require(SkipSpace(Take(s1).rest).rest, close) == Got((), r.rest)
         && r.value == Counted(if isObject then Object(map[]) else Array([]), count + 1)
       case Inside(isObject, s3) =>
         && s1.chars != [] && 0 <= s1.chars[0] < 0x80
         && SkipSpace(Take(s1).rest).Got? && SkipSpace(Take(s1).rest).rest == s3
         && |s3.chars| < |s.chars|
         && r == if isObject then ParseMembers(s3, map[], count + 1, depth, limits)
                 else ParseItems(s3, [], count + 1, depth, limits)
       case OfWord(v) =>
         && (v.Null? || v.Bool?) && s1.chars != []
         && Word(s1, v, count + 1) == r && r.value == Counted(v, count + 1)
       case OfNumber =>
         && ParseNumber(s1).Got? && r.rest == ParseNumber(s1).rest
         && r.value == Counted(ParseNumber(s1).value, count + 1)
  }

  lemma ValueStep(s: Input, count: nat, depth: nat, limits: Limits) returns (s1: Input, branch: Branch)
    requires ParseValue(s, count, depth, limits).Got?
    ensures ValueTurn(s, count, depth, limits, s1, branch)
  {
    hide ParseMembers, ParseItems, ParseString, ParseNumber, Literal, RequireAll;
    s1 := SkipSpace(s).rest;
    var first := Peek(s1).value;
    if first == QUOTE {
      branch := OfText(ParseString(s1, limits).value);
    } else if first == OPEN_BRACE || first == OPEN_BRACKET {
      var s3 := SkipSpace(Take(s1).rest).rest;
      var isObject := first == OPEN_BRACE;
      branch := if Peek(s3).value == (if isObject then CLOSE_BRACE else CLOSE_BRACKET)
                then Empty(isObject) else Inside(isObject, s3);
    } else if first == 'n' as int {
      branch := OfWord(Null);
    } else if first == 't' as int {
      branch := OfWord(Bool(true));
    } else if first == 'f' as int {
      branch := OfWord(Bool(false));
    } else {
      branch := OfNumber;
    }
  }

  // ---------------------------------------------------------------- parsing is tight

  lemma WordTight(s: Input, v: Value, n: nat, depth: nat, limits: Limits)
    requires Clean(s) && s.chars != [] && (v.Null? || v.Bool?) && Word(s, v, n).Got?
    ensures Consumed(s, Word(s, v, n).rest, Size(v))
    ensures Nodes(v) == 1 && ContentFits(v, limits) && (depth <= limits.maxDepth ==> DepthFits(v, depth, limits))
  {
    WordConsumes(s, Literal(v));
  }

  lemma NumberTight(s: Input, depth: nat, limits: Limits)
    requires Clean(s) && ParseNumber(s).Got? && depth <= limits.maxDepth
    ensures var r := ParseNumber(s);
            && Consumed(s, r.rest, Size(r.value)) && Nodes(r.value) == 1
            && ContentFits(r.value, limits) && DepthFits(r.value, depth, limits)
  {
    RunConsumes(s, []);
  }

  lemma TextTight(text: Str, depth: nat, limits: Limits)
    requires StringFits(text, limits) && depth <= limits.maxDepth
    ensures var v := Text(text);
            && Size(v) == ByteLength(Quoted(text)) && Nodes(v) == 1
            && ContentFits(v, limits) && DepthFits(v, depth, limits)
  {
  }

  /** A finished object, from its members. */
  lemma ObjectTight(m: map<Str, Value>, depth: nat, limits: Limits)
    requires depth <= limits.maxDepth && MembersFit(m, depth, limits)
    ensures var v := Object(m);
            && Size(v) <= 2 + Total(MemberSizes(m)) && (m != map[] ==> Size(v) == 1 + Total(MemberSizes(m)))
            && Nodes(v) == 1 + Total(Weights(v))
            && ContentFits(v, limits) && DepthFits(v, depth, limits)
  {
    hide Size, Total;
    ObjectSize(m);
    var v := Object(m);
    assert (map k | k in m :: Nodes(m[k])) == Weights(v);
  }

  lemma ArrayTight(items: seq<Value>, depth: nat, limits: Limits)
    requires depth <= limits.maxDepth && ItemsFit(items, depth, limits)
    ensures var v := Array(items);
            && Size(v) == (if items == [] then 2 else 1 + SizeOfAll(items))
            && Nodes(v) == 1 + NodesOfAll(items)
            && ContentFits(v, limits) && DepthFits(v, depth, limits)
  {
  }

  /** Every accepted value is counted within the limits and printed in no more bytes than it took. */
  lemma {:induction false} ValueTight(s: Input, count: nat, depth: nat, limits: Limits)
    requires Clean(s) && ParseValue(s, count, depth, limits).Got?
    ensures var r := ParseValue(s, count, depth, limits);
            Tight(s, count, depth, limits, r.value, r.rest)
    decreases |s.chars|, 1
  {
    hide ParseValue, ParseMembers, ParseItems, ParseString, ParseNumber, Word, SkipSpace, Size, Nodes, ContentFits,
         DepthFits, Total, MemberSizes, Weights, Clean, ByteLength, Quoted;
    var r := ParseValue(s, count, depth, limits);
    var s1, branch := ValueStep(s, count, depth, limits);
    SpaceConsumes(s);
    match branch {
      case OfText(text) =>
        StringConsumes(s1, limits);
        TextTight(text, depth, limits);
      case OfWord(v) => WordTight(s1, v, count + 1, depth, limits);
      case OfNumber => NumberTight(s1, depth, limits);
      case Empty(isObject) =>
        EmptyTight(s1, isObject, depth, limits, r.rest);
      case Inside(isObject, s3) =>
        TakeConsumes(s1);
        SpaceConsumes(Take(s1).rest);
        if isObject {
          MembersAreTight(s3, map[], count + 1, depth, limits);
          ObjectTight(r.value.value.members, depth, limits);
          NoMembers();
        } else {
          ItemsAreTight(s3, [], count + 1, depth, limits);
          ArrayTight(r.value.value.items, depth, limits);
        }
    }
  }

  lemma NoMembers()
    ensures Total(MemberSizes(map[])) == 0 && Total(Weights(Object(map[]))) == 0
  {
    assert MemberSizes(map[]) == map[] && Weights(Object(map[])) == map[];
  }

  lemma EmptyTight(s1: Input, isObject: bool, depth: nat, limits: Limits, rest: Input)
    requires Clean(s1) && s1.chars != [] && 0 <= s1.chars[0] < 0x80 && depth <= limits.maxDepth
    requires SkipSpace(Take(s1).rest).Got?
    requires Require(SkipSpace(Take(s1).rest).rest, if isObject then CLOSE_BRACE else CLOSE_BRACKET) == Got((), rest)
    ensures var v := if isObject then Object(map[]) else Array([]);
            && Consumed(s1, rest, Size(v)) && Nodes(v) == 1
            && ContentFits(v, limits) && DepthFits(v, depth, limits)
  {
    TakeConsumes(s1);
    SpaceConsumes(Take(s1).rest);
    RequireConsumes(SkipSpace(Take(s1).rest).rest, if isObject then CLOSE_BRACE else CLOSE_BRACKET);
  }

  lemma {:induction false} MembersAreTight(s: Input, m: map<Str, Value>, count: nat, depth: nat, limits: Limits)
    requires Clean(s) && ParseMembers(s, m, count, depth, limits).Got?
    requires MembersFit(m, depth, limits)
    ensures var r := ParseMembers(s, m, count, depth, limits);
            MembersTight(s, m, count, depth, limits, r.value, r.rest)
    decreases |s.chars|, 0
  {
    hide ParseValue, ParseMembers, ParseString, SkipSpace, Require, Size, Nodes, ContentFits, DepthFits, Quoted,
         Clean, ByteLength, StringFits, MembersFit, MembersTight, Consumed;
    var k, s1, s3, c, s4, s5, next := MembersStep(s, m, count, depth, limits);
    var n := ByteLength(Quoted(k)) + 1;
    KeyConsumes(s, k, s1, s3, limits);
    ConsumedClean(s, s3, n);
    ValueTight(s3, count, depth + 1, limits);
    TightFacts(s3, count, depth + 1, limits, c, s4);
    SpaceConsumes(s4);
    ConsumedClean(s4, s5, 0);
    ConsumedTwice(s, s3, s4, n, Size(c.value));
    ConsumedTwice(s, s4, s5, n + Size(c.value), 0);
    MembersFitMore(m, k, c.value, depth, limits);
    match next {
      case None =>
        RequireConsumes(s5, CLOSE_BRACE);
        MembersLast(s, m, k, c, s5, Require(s5, CLOSE_BRACE).rest, count, depth, limits);
      case Some(s7) =>
        var s6 := Require(s5, COMMA).rest;
        RequireConsumes(s5, COMMA);
        ConsumedClean(s5, s6, 1);
        SpaceConsumes(s6);
        ConsumedTwice(s5, s6, s7, 1, 0);
        ConsumedClean(s6, s7, 0);
        MembersAreTight(s7, m[k := c.value], c.count, depth, limits);
        var r := ParseMembers(s, m, count, depth, limits);
        MembersChain(s, m, k, c, s5, s7, r.value, r.rest, count, depth, limits);
    }
  }

  lemma ConsumedClean(s: Input, t: Input, n: nat)
    requires Consumed(s, t, n)
    ensures Clean(t)
  {
  }

  lemma TightFacts(s: Input, count: nat, depth: nat, limits: Limits, c: Counted, rest: Input)
    requires Tight(s, count, depth, limits, c, rest)
    ensures Clean(rest) && Consumed(s, rest, Size(c.value))
    ensures count + Nodes(c.value) <= c.count <= limits.maxItems
    ensures DepthFits(c.value, depth, limits) && ContentFits(c.value, limits)
  {
  }

  lemma MembersLast(s: Input, m: map<Str, Value>, k: Str, c: Counted, s5: Input, rest: Input,
                    count: nat, depth: nat, limits: Limits)
    requires Consumed(s, s5, ByteLength(Quoted(k)) + 1 + Size(c.value)) && Consumed(s5, rest, 1)
    requires count + Nodes(c.value) <= c.count <= limits.maxItems && MembersFit(m[k := c.value], depth, limits)
    ensures MembersTight(s, m, count, depth, limits, Counted(Object(m[k := c.value]), c.count), rest)
  {
    hide Size, Nodes, Total, MemberSizes, Weights, ByteLength, Clean, MembersFit;
    MemberAdds(m, k, c.value);
    assert k in m[k := c.value];
  }

  lemma MembersChain(s: Input, m: map<Str, Value>, k: Str, c: Counted, s5: Input, s7: Input, out: Counted,
                     rest: Input, count: nat, depth: nat, limits: Limits)
    requires Consumed(s, s5, ByteLength(Quoted(k)) + 1 + Size(c.value)) && Consumed(s5, s7, 1)
    requires count + Nodes(c.value) <= c.count
    requires MembersTight(s7, m[k := c.value], c.count, depth, limits, out, rest)
    ensures MembersTight(s, m, count, depth, limits, out, rest)
  {
    hide Size, Nodes, Total, MemberSizes, Weights, ByteLength, Clean, MembersFit;
    MemberAdds(m, k, c.value);
  }

  lemma KeyConsumes(s: Input, k: Str, s1: Input, s3: Input, limits: Limits)
    requires Clean(s) && ParseString(s, limits) == Got(k, s1)
    requires SkipSpace(s1).Got? && Require(SkipSpace(s1).rest, COLON) == Got((), s3)
    ensures Consumed(s, s3, ByteLength(Quoted(k)) + 1) && StringFits(k, limits)
  {
    hide ParseString, SkipSpace, Quoted, StringFits;
    StringConsumes(s, limits);
    SpaceConsumes(s1);
    RequireConsumes(SkipSpace(s1).rest, COLON);
  }

  lemma MembersFitMore(m: map<Str, Value>, k: Str, v: Value, depth: nat, limits: Limits)
    requires MembersFit(m, depth, limits) && StringFits(k, limits)
    requires ContentFits(v, limits) && DepthFits(v, depth + 1, limits)
    ensures MembersFit(m[k := v], depth, limits)
  {
  }

  lemma {:induction false} ItemsAreTight(s: Input, items: seq<Value>, count: nat, depth: nat, limits: Limits)
    requires Clean(s) && ParseItems(s, items, count, depth, limits).Got?
    requires ItemsFit(items, depth, limits)
    ensures var r := ParseItems(s, items, count, depth, limits);
            ItemsTight(s, items, count, depth, limits, r.value, r.rest)
    decreases |s.chars|, 2
  {
    hide ParseValue, ParseItems, SkipSpace, Size, Nodes, ContentFits, DepthFits, Clean, ByteLength, SizeOfAll,
         NodesOfAll;
    var c, s1, s2, next := ItemsStep(s, items, count, depth, limits);
    ValueTight(s, count, depth + 1, limits);
    SpaceConsumes(s1);
    SizeOfAllAppend(items, c.value);
    assert ItemsFit(items + [c.value], depth, limits);
    match next {
      case None => RequireConsumes(s2, CLOSE_BRACKET);
      case Some(s4) =>
        RequireConsumes(s2, COMMA);
        SpaceConsumes(Require(s2, COMMA).rest);
        ItemsAreTight(s4, items + [c.value], c.count, depth, limits);
    }
  }
}
