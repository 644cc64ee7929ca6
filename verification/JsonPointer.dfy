/** JSON values with ordered members, and JSON Pointers (RFC 6901) into them. */
module JsonPointer {
  import opened Prelude
  import opened Text
  import opened WireInteger

  type Atom(==,!new)  // numbers, booleans and null

  datatype Json =
    | Plain(atom: Atom)
    | String(text: Str)
    | List(items: seq<Json>)
    | Object(members: seq<Member>)

  datatype Member = Member(key: Str, value: Json)

  /** The first member with a key; a document has no other. */
  function Find(ms: seq<Member>, key: Str): (r: Option<Json>)
    ensures r.Some? ==> exists m :: m in ms && m.key == key && m.value == r.value
    ensures r.None? ==> forall m :: m in ms ==> m.key != key
  {
    if ms == [] then None
    else if ms[0].key == key then
      assert ms[0] in ms;
      Some(ms[0].value)
    else Find(ms[1..], key)
  }

  const TILDE: int := '~' as int
  const SLASH: int := '/' as int

  // ---------------------------------------------------------------- tokens (RFC 6901, section 3)

  /** Undoes the escapes ~0 and ~1; any other tilde is an error. */
  function DecodeToken(t: Str): Option<Str> {
    if t == [] then Some([])
    else if t[0] != TILDE then
      var rest := DecodeToken(t[1..]);
      if rest.None? then None else Some([t[0]] + rest.value)
    else if |t| < 2 || (t[1] != '0' as int && t[1] != '1' as int) then None
    else
      var rest := DecodeToken(t[2..]);
      if rest.None? then None else Some([if t[1] == '0' as int then TILDE else SLASH] + rest.value)
  }

  function EncodeToken(s: Str): Str {
    if s == [] then []
    else (if s[0] == TILDE then [TILDE, '0' as int] else if s[0] == SLASH then [TILDE, '1' as int] else [s[0]])
         + EncodeToken(s[1..])
  }

  /** Every text is the meaning of its encoded token, which holds no slash. */
  lemma {:induction false} DecodeInvertsEncode(s: Str)
    ensures DecodeToken(EncodeToken(s)) == Some(s) && SLASH !in EncodeToken(s)
  {
    if s != [] {
      DecodeInvertsEncode(s[1..]);
      var e, rest := EncodeToken(s), EncodeToken(s[1..]);
      assert s == [s[0]] + s[1..];
      if s[0] == TILDE || s[0] == SLASH { assert e[2..] == rest; } else { assert e[1..] == rest; }
    }
  }

  /** What each part of a token means: ~0 a tilde, ~1 a slash, and every other character itself. */
  lemma TokenParts(rest: Str, c: int)
    requires c != TILDE
    ensures DecodeToken([]) == Some([])
    ensures DecodeToken(rest).Some? ==>
              var r := DecodeToken(rest).value;
              && DecodeToken(Codes("~0") + rest) == Some(Codes("~") + r)
              && DecodeToken(Codes("~1") + rest) == Some(Codes("/") + r)
              && DecodeToken([c] + rest) == Some([c] + r)
  {
    var (x, y, z) := (Codes("~0") + rest, Codes("~1") + rest, [c] + rest);
    assert x[2..] == rest && y[2..] == rest && z[1..] == rest;
    assert Codes("~") == [TILDE] && Codes("/") == [SLASH];
  }

  /** A token without a slash that has a meaning is the encoding of that meaning. */
  lemma {:induction false} EncodeInvertsDecode(t: Str)
    requires SLASH !in t && DecodeToken(t).Some?
    ensures EncodeToken(DecodeToken(t).value) == t
    decreases |t|
  {
    if t != [] {
      var n := if t[0] == TILDE then 2 else 1;
      EncodeInvertsDecode(t[n..]);
      assert DecodeToken(t).value[1..] == DecodeToken(t[n..]).value;
      assert t[0] in t;
      assert t == t[..n] + t[n..];
      if n == 2 { assert t[..2] == [TILDE, t[1]]; } else { assert t[..1] == [t[0]]; }
    }
  }

  /** Decodes a token, character by character. */
  method Decode(token: Str) returns (r: Option<Str>)
    ensures r == DecodeToken(token)
  {
    var output: Str := [];
    var index := 0;
    Continues([], DecodeToken(token));
    assert token[0..] == token;
    while index < |token|
      invariant 0 <= index <= |token|
      invariant DecodeToken(token) == After(output, DecodeToken(token[index..]))
    {
      var rest := token[index..];
      if token[index] != TILDE {
        assert rest[1..] == token[index + 1..];
        ContinuesOne(output, token[index], DecodeToken(rest[1..]));
        output := output + [token[index]];
        index := index + 1;
      } else {
        if index + 1 >= |token| || (token[index + 1] != '0' as int && token[index + 1] != '1' as int) {
          return None;
        }
        assert rest[2..] == token[index + 2..];
        var c := if token[index + 1] == '0' as int then TILDE else SLASH;
        ContinuesOne(output, c, DecodeToken(rest[2..]));
        output := output + [c];
        index := index + 2;
      }
    }
    assert output + [] == output;
    return Some(output);
  }

  function After(output: Str, rest: Option<Str>): Option<Str> {
    if rest.None? then None else Some(output + rest.value)
  }

  lemma Continues(output: Str, rest: Option<Str>)
    ensures output == [] ==> After(output, rest) == rest
  {
    if rest.Some? { assert [] + rest.value == rest.value; }
  }

  lemma ContinuesOne(output: Str, c: int, rest: Option<Str>)
    ensures After(output, After([c], rest)) == After(output + [c], rest)
  {
    if rest.Some? { assert output + ([c] + rest.value) == output + [c] + rest.value; }
  }

  // ---------------------------------------------------------------- evaluation (RFC 6901, section 4)

  /** One step from a value: a member by its key, or an item by its index in plain decimal notation. */
  function Enter(v: Json, token: Str): Option<Json> {
    match v
    case Object(ms) => Find(ms, token)
    case List(items) => if IsNatural(token) && ValueOf(token) < |items| then Some(items[ValueOf(token)]) else None
    case _ => None
  }

  function Follow(v: Json, tokens: seq<Str>): Option<Json> {
    if tokens == [] then Some(v)
    else
      var t := DecodeToken(tokens[0]);
      if t.None? || Enter(v, t.value).None? then None else Follow(Enter(v, t.value).value, tokens[1..])
  }

  /** The value at a pointer: the whole document, or what the tokens after the first slash lead to. */
  function Evaluate(v: Json, pointer: Str): Option<Json> {
    if pointer == [] then Some(v)
    else if pointer[0] != SLASH then None
    else Follow(v, Split(pointer[1..], SLASH))
  }

  method EvaluatePointer(document: Json, pointer: Str) returns (r: Option<Json>)
    ensures r == Evaluate(document, pointer)
  {
    hide Split, DecodeToken, Enter;
    if pointer == [] {
      return Some(document);
    }
    if pointer[0] != SLASH {
      return None;
    }
    var tokens := Split(pointer[1..], SLASH);
    var current := document;
    var i := 0;
    while i < |tokens|
      invariant 0 <= i <= |tokens| && Follow(current, tokens[i..]) == Follow(document, tokens)
    {
      assert tokens[i..][1..] == tokens[i + 1..];
      var token := Decode(tokens[i]);
      if token.None? || Enter(current, token.value).None? {
        return None;
      }
      current := Enter(current, token.value).value;
      i := i + 1;
    }
    return Some(current);
  }

  // ---------------------------------------------------------------- every location has its pointer

  datatype Place = Key(key: Str) | Index(index: nat)

  /** The value at a location of a document. */
  function At(v: Json, path: seq<Place>): Option<Json> {
    if path == [] then Some(v)
    else
      match v
      case Object(ms) =>
        if path[0].Key? && Find(ms, path[0].key).Some? then At(Find(ms, path[0].key).value, path[1..]) else None
      case List(items) =>
        if path[0].Index? && path[0].index < |items| then At(items[path[0].index], path[1..]) else None
      case _ => None
  }

  function TokenFor(p: Place): Str {
    match p case Key(k) => EncodeToken(k) case Index(i) => Decimal(i)
  }

  function PointerTo(path: seq<Place>): Str {
    if path == [] then [] else [SLASH] + TokenFor(path[0]) + PointerTo(path[1..])
  }

  lemma {:induction false} DigitsDecode(t: Str)
    requires AllDigits(t)
    ensures DecodeToken(t) == Some(t) && SLASH !in t
  {
    if t != [] {
      DigitsDecode(t[1..]);
      assert t == [t[0]] + t[1..];
    }
  }

  lemma TokenDecodes(p: Place)
    ensures SLASH !in TokenFor(p)
    ensures DecodeToken(TokenFor(p)) == Some(match p case Key(k) => k case Index(i) => Decimal(i))
  {
    match p case Key(k) => DecodeInvertsEncode(k); case Index(i) => DigitsDecode(Decimal(i));
  }

  function TokensFor(path: seq<Place>): seq<Str> {
    if path == [] then [] else [TokenFor(path[0])] + TokensFor(path[1..])
  }

  lemma PointerHead(path: seq<Place>)
    requires path != []
    ensures PointerTo(path) == [SLASH] + PointerTo(path)[1..]
  {
  }

  lemma {:induction false} SplitPointer(path: seq<Place>)
    requires path != []
    ensures Split(PointerTo(path)[1..], SLASH) == TokensFor(path)
  {
    hide Split, TokenFor, DecodeToken;
    var t := TokenFor(path[0]);
    TokenDecodes(path[0]);
    if |path| == 1 {
      SplitOne(t, SLASH);
      assert path[1..] == [] && PointerTo(path[1..]) == [] && TokensFor(path[1..]) == [];
      assert PointerTo(path) == [SLASH] + t;
      assert PointerTo(path)[1..] == t;
      assert TokensFor(path) == [t];
    } else {
      SplitPointer(path[1..]);
      var rest := PointerTo(path[1..]);
      PointerHead(path[1..]);
      assert PointerTo(path)[1..] == t + [SLASH] + rest[1..];
      SplitFirst(t, rest[1..], SLASH);
    }
  }

  lemma {:induction false} FollowTokens(v: Json, path: seq<Place>)
    requires At(v, path).Some?
    ensures Follow(v, TokensFor(path)) == At(v, path)
    decreases |path|
  {
    if path != [] {
      var tokens := TokensFor(path);
      assert tokens[1..] == TokensFor(path[1..]);
      TokenDecodes(path[0]);
      match v
      case Object(ms) => FollowTokens(Find(ms, path[0].key).value, path[1..]);
      case List(items) =>
        DecimalNatural(path[0].index);
        FollowTokens(items[path[0].index], path[1..]);
    }
  }

  /** The pointer of every location evaluates to the value at that location, whatever its keys contain. */
  lemma PointerFinds(v: Json, path: seq<Place>)
    requires At(v, path).Some?
    ensures Evaluate(v, PointerTo(path)) == At(v, path)
  {
    if path != [] {
      SplitPointer(path);
      FollowTokens(v, path);
    }
  }

  lemma {:induction false} DigitsEncode(t: Str)
    requires AllDigits(t)
    ensures EncodeToken(t) == t
  {
    if t != [] {
      DigitsEncode(t[1..]);
      assert t == [t[0]] + t[1..];
    }
  }

  /** The place that one token names. */
  lemma PlaceOf(v: Json, token: Str) returns (p: Place)
    requires SLASH !in token && DecodeToken(token).Some? && Enter(v, DecodeToken(token).value).Some?
    ensures TokenFor(p) == token
    ensures At(v, [p]) == Enter(v, DecodeToken(token).value)
  {
    var t := DecodeToken(token).value;
    EncodeInvertsDecode(token);
    if v.Object? {
      p := Key(t);
    } else {
      p := Index(ValueOf(t));
      DigitsEncode(t);
      NaturalIsDecimal(t);
    }
    assert [p][1..] == [];
  }

  lemma {:induction false} FollowedPath(v: Json, tokens: seq<Str>) returns (path: seq<Place>)
    requires Follow(v, tokens).Some? && forall i :: 0 <= i < |tokens| ==> SLASH !in tokens[i]
    ensures TokensFor(path) == tokens && At(v, path) == Follow(v, tokens)
    decreases |tokens|
  {
    hide DecodeToken, Enter, TokenFor;
    if tokens == [] {
      path := [];
    } else {
      var t := DecodeToken(tokens[0]).value;
      var p := PlaceOf(v, tokens[0]);
      var later := FollowedPath(Enter(v, t).value, tokens[1..]);
      path := [p] + later;
      assert path[1..] == later && [p][1..] == [];
      assert tokens == [tokens[0]] + tokens[1..];
    }
  }

  lemma {:induction false} PointerJoins(path: seq<Place>)
    requires path != []
    ensures PointerTo(path) == [SLASH] + Join(TokensFor(path), SLASH)
  {
    hide TokenFor;
    var t := TokenFor(path[0]);
    if |path| == 1 {
      assert path[1..] == [] && TokensFor(path) == [t] && t + [] == t;
      assert PointerTo(path) == [SLASH] + t + PointerTo([]);
    } else {
      PointerJoins(path[1..]);
      assert TokensFor(path)[1..] == TokensFor(path[1..]);
      assert TokensFor(path[1..]) != [];
    }
  }

  /** A pointer evaluates to a value exactly if it is the pointer of a location that holds it: no location has a
    * second one. */
  lemma PointsExactly(v: Json, pointer: Str, x: Json)
    ensures Evaluate(v, pointer) == Some(x) <==> exists path :: PointerTo(path) == pointer && At(v, path) == Some(x)
  {
    hide Follow, Split, TokensFor, PointerTo;
    if Evaluate(v, pointer) == Some(x) {
      if pointer == [] {
        NoPath(v);
        assert PointerTo([]) == pointer && At(v, []) == Some(x);
      } else {
        SplitClean(pointer[1..], SLASH);
        var path := FollowedPath(v, Split(pointer[1..], SLASH));
        JoinSplit(pointer[1..], SLASH);
        SomePath(path);
        PointerJoins(path);
        assert pointer == [SLASH] + pointer[1..];
        assert PointerTo(path) == pointer && At(v, path) == Some(x);
      }
    }
    forall path | PointerTo(path) == pointer && At(v, path) == Some(x)
      ensures Evaluate(v, pointer) == Some(x)
    {
      PointerFinds(v, path);
    }
  }

  lemma NoPath(v: Json)
    ensures PointerTo([]) == [] && At(v, []) == Some(v)
  {
  }

  lemma SomePath(path: seq<Place>)
    requires TokensFor(path) != []
    ensures path != []
  {
  }
}
