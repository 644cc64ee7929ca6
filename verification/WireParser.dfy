/** The bounded parser as it is written: one character of lookahead over an incremental decoder, a
  * counter of values, and methods that read as they go. Every method computes what the parse functions
  * say of the characters still to come. */
module WireParser {
  import opened Prelude
  import opened Text
  import opened Utf8
  import opened WireValue
  import opened WireParse
  import opened WireReading
  import opened WireNormal
  import opened Wire
  import Ops = WireParse

  /** A method that returned r, leaving the given input, agrees with the function it implements. */
  ghost predicate Agrees<T(!new)>(p: Parsed<T>, r: Outcome<T>, rest: Input) {
    match p case Got(v, t) => r == Ok(v) && rest == t case Failed(e) => r == Err(e)
  }

  class Parser {
    const limits: Limits
    var chunks: Chunks      // not yet read
    var pending: seq<Byte>  // bytes of an unfinished character
    var size: nat           // bytes read so far
    var ready: Str          // decoded, not yet yielded
    var exhausted: bool     // the generator has returned
    var lookahead: Option<int>
    var count: nat

    constructor (chunks: Chunks, limits: Limits)
      ensures Valid() && Rest() == StreamOf(chunks, [], 0, limits.maxBody) && count == 0 && this.limits == limits
    {
      this.limits := limits;
      this.chunks, pending, size, ready, exhausted, lookahead, count := chunks, [], 0, [], false, None, 0;
      new;
      Nothings(StreamOf(chunks, [], 0, limits.maxBody));
    }

    /** The lookahead is a character or the end, and the end only when nothing is left. */
    ghost predicate Valid()
      reads this`ready, this`exhausted, this`lookahead
    {
      && AllScalar(ready)
      && (lookahead.Some? ==> Scalar(lookahead.value) || lookahead.value == EOF)
      && (lookahead == Some(EOF) ==> exhausted && ready == [])
    }

    /** What the generator will still yield. */
    ghost function Source(): Input
      reads this`chunks, this`pending, this`size, this`ready, this`exhausted
    {
      if exhausted then Input(ready, End) else Then(ready, StreamOf(chunks, pending, size, limits.maxBody))
    }

    /** The characters still to come, the lookahead first. */
    ghost function Rest(): Input
      reads this`chunks, this`pending, this`size, this`ready, this`exhausted, this`lookahead
    {
      if lookahead.Some? && lookahead.value != EOF then Then([lookahead.value], Source()) else Source()
    }

    /** Reads one chunk, or finds that there is none. */
    method Refill() returns (r: Outcome<()>)
      requires Valid() && ready == [] && !exhausted
      modifies this`chunks, this`pending, this`size, this`ready, this`exhausted
      ensures match r
              case Err(e) => old(Source()) == Input([], Broken(e))
              case Ok(_) => Valid() && Source() == old(Source())
                            && (exhausted || |chunks| < |old(chunks)|) && (exhausted ==> ready == [])
    {
      Nothings(StreamOf(chunks, pending, size, limits.maxBody));
      if chunks == [] {
        if pending != [] {
          return Err(Syntax);
        }
        exhausted := true;
        return Ok(());
      }
      var chunk := chunks[0];
      if size + |chunk| > limits.maxBody {
        size := size + |chunk|;
        return Err(Limit);
      }
      match DecodeSome(pending + chunk) {
        case Malformed => return Err(Syntax);
        case Chars(text, rest) =>
          chunks, pending, ready, size := chunks[1..], rest, text, size + |chunk|;
          return Ok(());
      }
    }

    /** The next character of the generator, or the end; decodes one chunk at a time. */
    method Next() returns (r: Outcome<int>)
      requires Valid() && lookahead == None
      modifies this`chunks, this`pending, this`size, this`ready, this`exhausted
      ensures Agrees(Ops.Take(old(Source())), r, Source())
      ensures r.Ok? ==> Valid() && (Scalar(r.value) || (r.value == EOF && exhausted && ready == []))
      ensures r == Ok(EOF) ==> Source() == old(Source())
    {
      hide StreamOf, DecodeSome;
      while ready == [] && !exhausted
        invariant Valid() && lookahead == None && Source() == old(Source())
        decreases !exhausted, |chunks|
      {
        var _ :- Refill();
      }
      if ready == [] {
        return Ok(EOF);
      }
      r := Ok(ready[0]);
      ready := ready[1..];
      assert Source().chars == old(Source()).chars[1..];
    }

    method Peek() returns (r: Outcome<int>)
      requires Valid()
      modifies this`chunks, this`pending, this`size, this`ready, this`exhausted, this`lookahead
      ensures Agrees(Ops.Peek(old(Rest())), r, Rest())
      ensures r.Ok? ==> Valid() && lookahead == Some(r.value)
    {
      if lookahead == None {
        ghost var before := Source();
        var c :- Next();
        lookahead := Some(c);
        if c != EOF { PutBack(before, c, Source()); }
      }
      return Ok(lookahead.value);
    }

    method TakeChar() returns (r: Outcome<int>)
      requires Valid()
      modifies this`chunks, this`pending, this`size, this`ready, this`exhausted, this`lookahead
      ensures Agrees(Ops.Take(old(Rest())), r, Rest())
      ensures r.Ok? ==> Valid() && (Scalar(r.value) || r.value == EOF)
    {
      var value :- Peek();
      if value != EOF { ThenCons(value, [], Source()); Nothings(Source()); }
      lookahead := None;
      return Ok(value);
    }

    method Whitespace() returns (r: Outcome<()>)
      requires Valid()
      modifies this
      ensures r.Ok? ==> Valid() && count == old(count) && Ops.SkipSpace(old(Rest())).Got?
                        && Ops.SkipSpace(old(Rest())).rest == Rest()
      ensures r.Err? ==> Ops.SkipSpace(old(Rest())) == Failed(r.error)
    {
      var c :- Peek();
      while c != EOF && Space(c)
        invariant Valid() && lookahead == Some(c) && count == old(count)
        invariant Ops.SkipSpace(Rest()) == Ops.SkipSpace(old(Rest())) && Ops.Peek(Rest()) == Got(c, Rest())
        decreases |Rest().chars|
      {
        ghost var before := Rest();
        var _ := TakeChar();
        c :- Peek();
      }
      return Ok(());
    }

    method Require(expected: int) returns (r: Outcome<()>)
      requires Valid()
      modifies this
      ensures Agrees(Ops.Require(old(Rest()), expected), r, Rest()) && (r.Ok? ==> Valid() && count == old(count))
    {
      var c :- TakeChar();
      if c != expected {
        return Err(Syntax);
      }
      return Ok(());
    }

    method Hex() returns (r: Outcome<int>)
      requires Valid()
      modifies this
      ensures Agrees(Ops.HexQuad(old(Rest())), r, Rest()) && (r.Ok? ==> Valid() && count == old(count))
    {
      hide HexValue, StreamOf, Source, Rest, Valid, AllScalar, Scalar;
      var a :- TakeChar();
      var b :- TakeChar();
      var c :- TakeChar();
      var d :- TakeChar();
      if HexValue(a).None? || HexValue(b).None? || HexValue(c).None? || HexValue(d).None? {
        return Err(Syntax);
      }
      return Ok(((HexValue(a).value * 16 + HexValue(b).value) * 16 + HexValue(c).value) * 16 + HexValue(d).value);
    }

    method Units() returns (r: Outcome<int>)
      requires Valid()
      modifies this
      ensures Agrees(Ops.CodeUnits(old(Rest())), r, Rest()) && (r.Ok? ==> Valid() && count == old(count))
    {
      hide Ops.HexQuad, Ops.Take, Ops.Peek, Source, Rest, Valid, AllScalar, Scalar;
      var code :- Hex();
      if 0xD800 <= code <= 0xDBFF {
        var _ :- Require(BACKSLASH);
        var _ :- Require('u' as int);
        var low :- Hex();
        if !(0xDC00 <= low <= 0xDFFF) {
          return Err(Syntax);
        }
        code := 0x10000 + (code - 0xD800) * 1024 + low - 0xDC00;
      } else if 0xDC00 <= code <= 0xDFFF {
        return Err(Syntax);
      }
      return Ok(code);
    }

    method EscapeSequence() returns (r: Outcome<int>)
      requires Valid()
      modifies this
      ensures Agrees(Ops.Escape(old(Rest())), r, Rest()) && (r.Ok? ==> Valid() && count == old(count))
    {
      var escape :- TakeChar();
      if escape == 'u' as int {
        r := Units();
        return;
      }
      if SimpleEscape(escape).None? {
        return Err(Syntax);
      }
      return Ok(SimpleEscape(escape).value);
    }

    method String() returns (r: Outcome<Str>)
      requires Valid()
      modifies this
      ensures Agrees(Ops.ParseString(old(Rest()), limits), r, Rest()) && (r.Ok? ==> Valid() && count == old(count))
    {
      var _ :- Require(QUOTE);
      var characters: Str := [];
      while true
        invariant Valid() && count == old(count)
        invariant Ops.StringBody(Rest(), characters, limits) == Ops.ParseString(old(Rest()), limits)
        decreases |Rest().chars|
      {
        var character :- TakeChar();
        if character == QUOTE {
          return Ok(characters);
        }
        if character < 0x20 {
          return Err(Syntax);
        }
        if character == BACKSLASH {
          character :- EscapeSequence();
        }
        if |characters| >= limits.maxString {
          return Err(Limit);
        }
        characters := characters + [character];
      }
    }

    method NumberToken() returns (r: Outcome<Value>)
      requires Valid()
      modifies this
      ensures Agrees(Ops.ParseNumber(old(Rest())), r, Rest()) && (r.Ok? ==> Valid() && count == old(count))
    {
      var token: Str := [];
      var c :- Peek();
      while c != EOF && NumberChar(c)
        invariant Valid() && lookahead == Some(c) && count == old(count)
        invariant Ops.Peek(Rest()) == Got(c, Rest())
        invariant Ops.NumberRun(Rest(), token) == Ops.NumberRun(old(Rest()), [])
        decreases |Rest().chars|
      {
        var _ := TakeChar();
        token := token + [c];
        c :- Peek();
      }
      if !IsNumber(token) {
        return Err(Syntax);
      }
      return Ok(Number(token));
    }

    /** One of the three literal words, character by character. */
    method LiteralValue(v: Value) returns (r: Outcome<Value>)
      requires Valid() && (v.Null? || v.Bool?)
      modifies this
      ensures match Ops.RequireAll(old(Rest()), Literal(v))
              case Got(_, t) => r == Ok(v) && Rest() == t && Valid() && count == old(count)
              case Failed(e) => r == Err(e)
    {
      var w := Literal(v);
      var i := 0;
      while i < |w|
        invariant i <= |w| && Valid() && count == old(count)
        invariant Ops.RequireAll(Rest(), w[i..]) == Ops.RequireAll(old(Rest()), w)
      {
        assert w[i..][0] == w[i] && w[i..][1..] == w[i + 1..];
        var _ :- Require(w[i]);
        i := i + 1;
      }
      return Ok(v);
    }

    /** One value; every value is charged, also one that a repeated key replaces. */
    method Value(depth: nat) returns (r: Outcome<Value>)
      requires Valid()
      modifies this
      ensures match Ops.ParseValue(old(Rest()), old(count), depth, limits)
              case Got(c, t) => r == Ok(c.value) && Valid() && count == c.count && Rest() == t
              case Failed(e) => r == Err(e)
      decreases |Rest().chars|, 1
    {
      hide Ops.ParseContainer, Ops.ParseString, Ops.ParseNumber, Ops.RequireAll, Ops.SkipSpace, Ops.Take, Ops.Peek,
           Literal, StreamOf, DecodeSome, Source, Rest, AllScalar, Scalar, Valid;
      count := count + 1;
      if count > limits.maxItems || depth > limits.maxDepth {
        return Err(Limit);
      }
      var _ :- Whitespace();
      var first :- Peek();
      if first == QUOTE {
        var text :- String();
        return Ok(Text(text));
      }
      if first == OPEN_BRACE || first == OPEN_BRACKET {
        TakesPeeked(Rest());
        var _ := TakeChar();
        r := Container(first == OPEN_BRACE, depth);
        return;
      }
      if first == 'n' as int {
        r := LiteralValue(Null);
        return;
      }
      if first == 't' as int {
        r := LiteralValue(Bool(true));
        return;
      }
      if first == 'f' as int {
        r := LiteralValue(Bool(false));
        return;
      }
      if Digit(first) || first == '-' as int {
        r := NumberToken();
        return;
      }
      return Err(Syntax);
    }

    /** What follows an opening brace or bracket: members or items in a loop, up to its counterpart. */
    method Container(isObject: bool, depth: nat) returns (r: Outcome<Value>)
      requires Valid()
      modifies this
      ensures match Ops.ParseContainer(old(Rest()), isObject, old(count), depth, limits)
              case Got(c, t) => r == Ok(c.value) && Valid() && count == c.count && Rest() == t
              case Failed(e) => r == Err(e)
      decreases |Rest().chars|, 3
    {
      hide Ops.ParseValue, Ops.ParseString, Ops.SkipSpace;
      var _ :- Whitespace();
      var close := if isObject then CLOSE_BRACE else CLOSE_BRACKET;
      var next :- Peek();
      if next == close {
        var _ :- Require(close);
        return Ok(if isObject then Object(map[]) else Array([]));
      }
      if isObject {
        r := MemberLoop(depth);
      } else {
        r := ItemLoop(depth);
      }
    }

    /** Members separated by commas; a repeated key keeps its last value. */
    method MemberLoop(depth: nat) returns (r: Outcome<Value>)
      requires Valid()
      modifies this
      ensures match Ops.ParseMembers(old(Rest()), map[], old(count), depth, limits)
              case Got(c, t) => r == Ok(c.value) && Valid() && count == c.count && Rest() == t
              case Failed(e) => r == Err(e)
      decreases |Rest().chars|, 1
    {
      hide Ops.ParseValue, Ops.ParseString, Ops.SkipSpace, Ops.Require, Ops.Peek, Ops.Take, Source, Rest, Valid,
           AllScalar, Scalar;
      var mapping: map<Str, Value> := map[];
      while true
        invariant Valid() && |Rest().chars| <= |old(Rest()).chars|
        invariant Ops.ParseMembers(Rest(), mapping, count, depth, limits) ==
                  Ops.ParseMembers(old(Rest()), map[], old(count), depth, limits)
        decreases |Rest().chars|
      {
        var key :- String();
        var _ :- Whitespace();
        var _ :- Require(COLON);
        var value :- Value(depth + 1);
        mapping := mapping[key := value];
        var _ :- Whitespace();
        var next :- Peek();
        if next == CLOSE_BRACE {
          var _ :- Require(CLOSE_BRACE);
          return Ok(Object(mapping));
        }
        var _ :- Require(COMMA);
        var _ :- Whitespace();
      }
    }

    /** Items separated by commas. */
    method ItemLoop(depth: nat) returns (r: Outcome<Value>)
      requires Valid()
      modifies this
      ensures match Ops.ParseItems(old(Rest()), [], old(count), depth, limits)
              case Got(c, t) => r == Ok(c.value) && Valid() && count == c.count && Rest() == t
              case Failed(e) => r == Err(e)
      decreases |Rest().chars|, 2
    {
      hide Ops.ParseValue, Ops.SkipSpace, Source, Rest, Valid, AllScalar, Scalar;
      var sequence: seq<Value> := [];
      while true
        invariant Valid() && |Rest().chars| <= |old(Rest()).chars|
        invariant Ops.ParseItems(Rest(), sequence, count, depth, limits) ==
                  Ops.ParseItems(old(Rest()), [], old(count), depth, limits)
        decreases |Rest().chars|
      {
        var value :- Value(depth + 1);
        sequence := sequence + [value];
        var _ :- Whitespace();
        var next :- Peek();
        if next == CLOSE_BRACKET {
          var _ :- Require(CLOSE_BRACKET);
          return Ok(Array(sequence));
        }
        var _ :- Require(COMMA);
        var _ :- Whitespace();
      }
    }
  }

  lemma PutBack(before: Input, c: int, after: Input)
    requires Ops.Take(before) == Got(c, after) && c != EOF
    ensures Then([c], after) == before
  {
    assert before.chars == [before.chars[0]] + before.chars[1..];
  }
}
