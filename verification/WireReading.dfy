/** The parser reads every text of a tree within the limits, and reads what the tree means. */
module WireReading {
  import opened Prelude
  import opened Text
  import opened Utf8
  import opened WireValue
  import opened WireParse
  import opened WireSyntax

  // ---------------------------------------------------------------- what comes next

  lemma ThenConcat(a: Str, b: Str, more: Input)
    ensures Then(a + b, more) == Then(a, Then(b, more))
  {
    assert (a + b) + more.chars == a + (b + more.chars);
  }

  lemma ThenCons(c: int, s: Str, more: Input)
    ensures Then([c] + s, more).chars != [] && Then([c] + s, more).chars[0] == c
    ensures Take(Then([c] + s, more)) == Got(c, Then(s, more))
    ensures Peek(Then([c] + s, more)) == Got(c, Then([c] + s, more))
  {
    assert Then([c] + s, more).chars[1..] == s + more.chars;
  }

  lemma NoSpace(c: int, s: Str, more: Input)
    requires !Space(c)
    ensures SkipSpace(Then([c] + s, more)) == Got((), Then([c] + s, more))
  {
    ThenCons(c, s, more);
  }

  lemma BodyEnds(gathered: Str, more: Input, limits: Limits)
    ensures StringBody(Then([QUOTE], more), gathered, limits) == Got(gathered, more)
  {
    assert [QUOTE] + [] == [QUOTE];
    ThenCons(QUOTE, [], more);
    assert Then([], more) == more by { assert [] + more.chars == more.chars; }
  }

  /** What follows a value in a text, or at the end: nothing that a number could swallow. */
  predicate Delimited(more: Input) {
    (more.chars == [] && more.tail.End?) || (more.chars != [] && !NumberChar(more.chars[0]))
  }

  lemma {:induction false} RunInverts(t: Str, gathered: Str, more: Input)
    requires forall i :: 0 <= i < |t| ==> NumberChar(t[i])
    requires Delimited(more)
    ensures NumberRun(Then(t, more), gathered) == Got(gathered + t, more)
    decreases |t|
  {
    if t == [] {
      assert Then(t, more) == more by { assert [] + more.chars == more.chars; }
      assert gathered + t == gathered;
    } else {
      assert [t[0]] + t[1..] == t;
      ThenCons(t[0], t[1..], more);
      assert Then(t, more).chars[1..] == Then(t[1..], more).chars;
      RunInverts(t[1..], gathered + [t[0]], more);
      assert gathered + [t[0]] + t[1..] == gathered + t;
    }
  }

  lemma {:induction false} WordInverts(w: Str, more: Input)
    requires EOF !in w
    ensures RequireAll(Then(w, more), w) == Got((), more)
    decreases |w|
  {
    if w == [] {
      assert Then(w, more) == more by { assert [] + more.chars == more.chars; }
    } else {
      assert [w[0]] + w[1..] == w;
      ThenCons(w[0], w[1..], more);
      WordInverts(w[1..], more);
    }
  }

  // ---------------------------------------------------------------- values

  lemma HeadAndTail(s: Str)
    requires s != []
    ensures [s[0]] + s[1..] == s
  {
  }

  /** A value is parsed where its first character stands. */
  lemma AtFirst(t: Str, more: Input)
    requires t != [] && !Space(t[0])
    ensures var s := Then(t, more);
            && SkipSpace(s) == Got((), s) && Peek(s) == Got(t[0], s) && s.chars != [] && s.chars[0] == t[0]
            && Take(s) == Got(t[0], Then(t[1..], more))
  {
    HeadAndTail(t);
    NoSpace(t[0], t[1..], more);
    ThenCons(t[0], t[1..], more);
  }

  lemma TokenInverts(token: Str, more: Input)
    requires IsNumber(token) && Delimited(more)
    ensures ParseNumber(Then(token, more)) == Got(Number(token), more)
    ensures token != [] && (Digit(token[0]) || token[0] == '-' as int)
  {
    NumberShape(token);
    RunInverts(token, [], more);
    assert [] + token == token;
  }

  lemma NumberInverts(token: Str, more: Input, count: nat, depth: nat, limits: Limits)
    requires IsNumber(token) && Delimited(more) && count + 1 <= limits.maxItems && depth <= limits.maxDepth
    ensures ParseValue(Then(token, more), count, depth, limits) == Got(Counted(Number(token), count + 1), more)
  {
    hide IsNumber, NumberRun;
    TokenInverts(token, more);
    AtFirst(token, more);
  }

  lemma LiteralInverts(v: Value, more: Input, count: nat, depth: nat, limits: Limits)
    requires (v.Null? || v.Bool?) && count + 1 <= limits.maxItems && depth <= limits.maxDepth
    ensures ParseValue(Then(Literal(v), more), count, depth, limits) == Got(Counted(v, count + 1), more)
  {
    var w := Literal(v);
    AtFirst(w, more);
    WordInverts(w, more);
  }

  lemma CloseInverts(close: int, more: Input)
    ensures Take(Then([close], more)) == Got(close, more) && Require(Then([close], more), close) == Got((), more)
    ensures Peek(Then([close], more)) == Got(close, Then([close], more))
    ensures !Space(close) ==> SkipSpace(Then([close], more)) == Got((), Then([close], more))
  {
    assert [close] + [] == [close];
    ThenCons(close, [], more);
    assert Then([], more) == more by { assert [] + more.chars == more.chars; }
  }

  // ---------------------------------------------------------------- numbers

  lemma RunOf(digits: Str, rest: Str)
    requires forall i :: 0 <= i < |digits| ==> Digit(digits[i])
    requires rest == [] || !Digit(rest[0])
    ensures DigitRun(digits + rest) == |digits|
  {
    var s := digits + rest;
    assert forall i :: 0 <= i < |digits| ==> s[i] == digits[i];
    assert rest != [] ==> s[|digits|] == rest[0];
  }

  lemma ExponentReads(e: Exponent)
    requires SomeDigits(e.digits)
    ensures ExponentPart(e.Written()) == Some(|e.Written()|)
  {
    var t := e.Written();
    var sign := if e.sign.Unsigned? then 1 else 2;
    assert t[sign..] == e.digits;
    assert e.digits + [] == e.digits;
    RunOf(e.digits, []);
    if e.sign.Unsigned? { assert t[1] == e.digits[0]; }
  }

  lemma FractionReads(digits: Str, e: Str)
    requires SomeDigits(digits) && (e == [] || !Digit(e[0]))
    ensures FractionPart([0x2E] + digits + e) == Some(1 + |digits|)
  {
    assert ([0x2E] + digits + e)[1..] == digits + e;
    RunOf(digits, e);
  }

  lemma WholeReads(whole: Str, rest: Str)
    requires SomeDigits(whole) && (whole[0] == 0x30 ==> |whole| == 1)
    requires rest == [] || !Digit(rest[0])
    ensures IntegerPart(whole + rest) == |whole|
  {
    RunOf(whole, rest);
  }

  /** Every number of the grammar is accepted. */
  lemma NumeralIsNumber(n: Numeral)
    requires n.Correct()
    ensures IsNumber(n.Written())
  {
    hide IsNumber, ExponentPart, FractionPart, IntegerPart, Exponent.Written;
    var (f, e) := (n.FractionText(), n.ExponentText());
    if n.exponent.Some? {
      ExponentReads(n.exponent.value);
      ExponentStarts(n.exponent.value);
    } else {
      NoExponent();
    }
    if n.fraction.Some? { FractionReads(n.fraction.value, e); } else { NoFraction(e); }
    assert f == [] ==> f + e == e;
    WholeReads(n.whole, f + e);
    PartsAreNumber(n.SignText(), n.whole, f, e);
  }

  lemma PartsAreNumber(sign: Str, whole: Str, f: Str, e: Str)
    requires (sign == [] || sign == [0x2D]) && SomeDigits(whole)
    requires IntegerPart(whole + (f + e)) == |whole|
    requires FractionPart(f + e) == Some(|f|) && ExponentPart(e) == Some(|e|)
    ensures IsNumber(sign + whole + f + e)
  {
    hide IsNumber, IntegerPart, FractionPart, ExponentPart;
    var a := whole + (f + e);
    NumberParts(sign, whole, f, e);
    UnsignedIsNumber(sign, a, |whole|, |f|);
  }

  lemma NumberParts(sign: Str, whole: Str, f: Str, e: Str)
    ensures sign + whole + f + e == sign + (whole + (f + e))
    ensures (whole + (f + e))[|whole|..] == f + e && (f + e)[|f|..] == e
    ensures whole != [] ==> whole + (f + e) != [] && (whole + (f + e))[0] == whole[0]
  {
  }

  lemma UnsignedIsNumber(sign: Str, a: Str, k: nat, f: nat)
    requires (sign == [] || sign == [0x2D]) && a != [] && a[0] != 0x2D && IntegerPart(a) == k && 0 < k <= |a|
    requires FractionPart(a[k..]) == Some(f) && f <= |a[k..]|
    requires ExponentPart(a[k..][f..]) == Some(|a[k..][f..]|)
    ensures IsNumber(sign + a)
  {
    hide IntegerPart, FractionPart, ExponentPart;
    var t := sign + a;
    assert t[0] == if sign == [] then a[0] else 0x2D;
    assert t[|sign|..] == a && t[0..] == t;
  }

  lemma ExponentStarts(e: Exponent)
    ensures var t := e.Written(); t != [] && (t[0] == 'e' as int || t[0] == 'E' as int)
  {
  }

  lemma NoFraction(e: Str)
    requires e == [] || e[0] == 'e' as int || e[0] == 'E' as int
    ensures FractionPart(e) == Some(0)
  {
  }

  lemma NoExponent()
    ensures ExponentPart([]) == Some(0)
  {
  }

  /** Every number that is accepted is one of the grammar. */
  lemma NumberIsNumeral(t: Str) returns (n: Numeral)
    requires IsNumber(t)
    ensures n.Correct() && n.Written() == t
  {
    hide IntegerPart, FractionPart, ExponentPart, SomeDigits, Exponent.Written;
    var minus := t != [] && t[0] == '-' as int;
    var a := if minus then t[1..] else t;
    var k := IntegerPart(a);
    var f := FractionPart(a[k..]).value;
    WholePart(a);
    var fraction := FractionOf(a[k..]);
    var exponent := ExponentOf(a[k..][f..]);
    n := Numeral(minus, a[..k], fraction, exponent);
    Parts(t, minus, a, k, f);
  }

  lemma Parts(t: Str, minus: bool, a: Str, k: nat, f: nat)
    requires k <= |a| && f <= |a[k..]|
    requires minus ==> t != [] && t[0] == 0x2D
    requires a == if minus then t[1..] else t
    ensures (if minus then [0x2D] else []) + a[..k] + a[k..][..f] + a[k..][f..] == t
  {
    var sign := if minus then [0x2D] else [];
    Cut(a[k..], f);
    Cut(a, k);
    assert t == sign + a by { if minus { Cut(t, 1); } }
    Assembled(sign, a[..k], a[k..][..f], a[k..][f..]);
  }

  lemma Cut(s: Str, k: nat)
    requires k <= |s|
    ensures s == s[..k] + s[k..] && (k == 1 ==> s[..k] == [s[0]])
  {
  }

  lemma Assembled(s: Str, w: Str, f: Str, e: Str)
    ensures s + w + f + e == s + (w + (f + e))
  {
  }

  lemma WholePart(a: Str)
    requires IntegerPart(a) > 0
    ensures var whole := a[..IntegerPart(a)]; SomeDigits(whole) && (whole[0] == 0x30 ==> |whole| == 1)
  {
  }

  lemma FractionOf(s: Str) returns (fraction: Option<Str>)
    requires FractionPart(s).Some?
    ensures fraction.Some? ==> SomeDigits(fraction.value)
    ensures s[..FractionPart(s).value] == if fraction.Some? then [0x2E] + fraction.value else []
  {
    var k := FractionPart(s).value;
    if k == 0 {
      fraction := None;
    } else {
      fraction := Some(s[1..][..k - 1]);
      assert s[..k] == [s[0]] + s[1..][..k - 1];
    }
  }

  lemma ExponentOf(s: Str) returns (exponent: Option<Exponent>)
    requires ExponentPart(s) == Some(|s|)
    ensures exponent.Some? ==> SomeDigits(exponent.value.digits)
    ensures s == if exponent.Some? then exponent.value.Written() else []
  {
    if s == [] {
      exponent := None;
    } else {
      var sign := if |s| > 1 && s[1] == '+' as int then Plus else if |s| > 1 && s[1] == '-' as int then Minus else Unsigned;
      var k := if sign.Unsigned? then 1 else 2;
      ExponentDigits(s, k);
      exponent := Some(Exponent(s[0] == 'E' as int, sign, s[k..]));
    }
  }

  lemma ExponentDigits(s: Str, k: nat)
    requires s != [] && ExponentPart(s) == Some(|s|)
    requires k == if |s| > 1 && (s[1] == '+' as int || s[1] == '-' as int) then 2 else 1
    ensures k <= |s| && SomeDigits(s[k..]) && (s[0] == 'e' as int || s[0] == 'E' as int)
    ensures s == (if k == 1 then [s[0]] else [s[0]] + [s[1]]) + s[k..]
  {
    Cut(s, k);
    assert s[..k] == if k == 1 then [s[0]] else [s[0]] + [s[1]];
  }

  // ---------------------------------------------------------------- white space

  /** Blanks are skipped, however many there are. */
  lemma {:induction false} BlankSkipped(b: Str, s: Input)
    requires Blank(b)
    ensures SkipSpace(Then(b, s)) == SkipSpace(s)
  {
    if b == [] {
      Nothings(s);
    } else {
      assert [b[0]] + b[1..] == b;
      ThenCons(b[0], b[1..], s);
      assert Then(b, s).chars[1..] == Then(b[1..], s).chars;
      BlankSkipped(b[1..], s);
    }
  }

  lemma Nothings(s: Input)
    ensures Then([], s) == s
  {
    assert [] + s.chars == s.chars;
  }

  lemma BlankNothing()
    ensures Blank([])
  {
  }

  /** After blanks there are none. */
  lemma {:induction false} SkippedTwice(s: Input)
    requires SkipSpace(s).Got?
    ensures SkipSpace(SkipSpace(s).rest) == SkipSpace(s)
    decreases |s.chars|
  {
    if s.chars != [] && Space(s.chars[0]) { SkippedTwice(Input(s.chars[1..], s.tail)); }
  }

  /** A value is found where the blanks before it end. */
  lemma ValueAfterBlanks(s: Input, t: Input, count: nat, depth: nat, limits: Limits)
    requires SkipSpace(s) == SkipSpace(t)
    ensures ParseValue(s, count, depth, limits) == ParseValue(t, count, depth, limits)
  {
  }

  lemma ItemsAfterBlanks(s: Input, t: Input, items: seq<Value>, count: nat, depth: nat, limits: Limits)
    requires SkipSpace(s) == SkipSpace(t)
    ensures ParseItems(s, items, count, depth, limits) == ParseItems(t, items, count, depth, limits)
  {
    hide ParseValue, ParseMembers;
    ValueAfterBlanks(s, t, count, depth + 1, limits);
  }

  // ---------------------------------------------------------------- strings

  lemma HexReads(h: Hex)
    ensures HexValue(h.Char()) == Some(h.value)
  {
  }

  lemma QuadReads(q: Quad, more: Input)
    ensures HexQuad(Then(q.Chars(), more)) == Got(q.Number(), more)
  {
    var (a, b, c, d) := (q.a.Char(), q.b.Char(), q.c.Char(), q.d.Char());
    assert [a] + [b, c, d] == q.Chars() && [b] + [c, d] == [b, c, d] && [c] + [d] == [c, d] && [d] + [] == [d];
    ThenCons(a, [b, c, d], more);
    ThenCons(b, [c, d], more);
    ThenCons(c, [d], more);
    ThenCons(d, [], more);
    Nothings(more);
    HexReads(q.a);
    HexReads(q.b);
    HexReads(q.c);
    HexReads(q.d);
  }

  /** Two escaped surrogates, in digits of either case, read back as the character that they stand for. */
  lemma PairReads(c: int, high: Quad, low: Quad, more: Input)
    requires Pair(c, high, low).Correct()
    ensures CodeUnits(Then(high.Chars() + [0x5C, 'u' as int] + low.Chars(), more)) == Got(c, more)
  {
    hide HexQuad, Quad.Chars, Quad.Number;
    var tail := Then([0x5C, 'u' as int] + low.Chars(), more);
    assert high.Chars() + [0x5C, 'u' as int] + low.Chars() == high.Chars() + ([0x5C, 'u' as int] + low.Chars());
    ThenConcat(high.Chars(), [0x5C, 'u' as int] + low.Chars(), more);
    QuadReads(high, tail);
    assert [0x5C] + (['u' as int] + low.Chars()) == [0x5C, 'u' as int] + low.Chars();
    ThenCons(0x5C, ['u' as int] + low.Chars(), more);
    ThenCons('u' as int, low.Chars(), more);
    QuadReads(low, more);
    assert (c - 0x10000) / 1024 < 1024;
  }

  /** One written character, read back. */
  lemma PieceReads(p: Piece, gathered: Str, more: Input, limits: Limits)
    requires p.Correct() && |gathered| < limits.maxString
    ensures StringBody(Then(p.Written(), more), gathered, limits) == StringBody(more, gathered + [p.Meaning()], limits)
  {
    hide CodeUnits, HexQuad;
    var s := Then(p.Written(), more);
    match p
    case Plain(c) =>
      assert [c] + [] == [c];
      ThenCons(c, [], more);
      Nothings(more);
    case _ =>
      EscapeReads(p, more);
      var body := p.Written()[1..];
      assert [0x5C] + body == p.Written();
      ThenCons(0x5C, body, more);
  }

  lemma EscapeReads(p: Piece, more: Input)
    requires p.Correct() && !p.Plain?
    ensures Escape(Then(p.Written()[1..], more)) == Got(p.Meaning(), more)
  {
    hide Escape, Piece.Written;
    AfterBackslash(p);
    match p
    case Short(i) => LetterEscape(i, more);
    case Unit(quad) =>
      UnitReads(quad, more);
      UnitsEscape(quad.Chars(), quad.Number(), more);
    case Pair(c, high, low) =>
      PairReads(c, high, low, more);
      UnitsEscape(high.Chars() + [0x5C, 'u' as int] + low.Chars(), c, more);
  }

  lemma AfterBackslash(p: Piece)
    ensures match p
            case Plain(_) => true
            case Short(i) => p.Written()[1..] == [LETTERS[i]]
            case Unit(quad) => p.Written()[1..] == ['u' as int] + quad.Chars()
            case Pair(_, high, low) =>
              p.Written()[1..] == ['u' as int] + (high.Chars() + [0x5C, 'u' as int] + low.Chars())
  {
    hide Quad.Chars;
  }

  lemma LetterEscape(i: Letter, more: Input)
    ensures Escape(Then([LETTERS[i]], more)) == Got(NAMED[i], more)
  {
    hide CodeUnits;
    LetterReads(i);
    assert [LETTERS[i]] == [LETTERS[i]] + [];
    ThenCons(LETTERS[i], [], more);
    Nothings(more);
  }

  lemma UnitsEscape(digits: Str, c: int, more: Input)
    requires CodeUnits(Then(digits, more)) == Got(c, more)
    ensures Escape(Then(['u' as int] + digits, more)) == Got(c, more)
  {
    hide CodeUnits;
    ThenCons('u' as int, digits, more);
  }

  lemma LetterReads(i: Letter)
    ensures LETTERS[i] != 'u' as int && SimpleEscape(LETTERS[i]) == Some(NAMED[i])
  {
  }

  lemma UnitReads(quad: Quad, more: Input)
    requires Unit(quad).Correct()
    ensures CodeUnits(Then(quad.Chars(), more)) == Got(quad.Number(), more)
  {
    hide HexQuad, Quad.Chars, Quad.Number;
    QuadReads(quad, more);
  }

  lemma {:induction false} PiecesRead(ps: seq<Piece>, gathered: Str, more: Input, limits: Limits)
    requires AllCorrect(ps) && |gathered| + |ps| <= limits.maxString
    ensures StringBody(Then(PiecesText(ps) + [QUOTE], more), gathered, limits) == Got(gathered + Said(ps), more)
  {
    hide StringBody, Piece.Correct, Piece.Written, Piece.Meaning, PiecesText, Said;
    PiecesSplit(ps, gathered);
    if ps == [] {
      BodyEnds(gathered, more, limits);
    } else {
      var rest := PiecesText(ps[1..]) + [QUOTE];
      ThenConcat(ps[0].Written(), rest, more);
      PieceReads(ps[0], gathered, Then(rest, more), limits);
      PiecesRead(ps[1..], gathered + [ps[0].Meaning()], more, limits);
    }
  }

  lemma PiecesSplit(ps: seq<Piece>, gathered: Str)
    ensures ps == [] ==> PiecesText(ps) + [QUOTE] == [QUOTE] && gathered + Said(ps) == gathered
    ensures ps != [] ==>
              && PiecesText(ps) + [QUOTE] == ps[0].Written() + (PiecesText(ps[1..]) + [QUOTE])
              && gathered + Said(ps) == gathered + [ps[0].Meaning()] + Said(ps[1..])
  {
    hide Piece.Written, Piece.Meaning;
  }

  lemma StringReads(ps: seq<Piece>, more: Input, limits: Limits)
    requires AllCorrect(ps) && |ps| <= limits.maxString
    ensures ParseString(Then(StringText(ps), more), limits) == Got(Said(ps), more)
  {
    hide StringBody, PiecesText, Said, AllCorrect;
    assert StringText(ps) == [QUOTE] + (PiecesText(ps) + [QUOTE]);
    ThenCons(QUOTE, PiecesText(ps) + [QUOTE], more);
    PiecesRead(ps, [], more, limits);
    assert [] + Said(ps) == Said(ps);
  }

  // ---------------------------------------------------------------- one turn of each loop

  /** An opening brace or bracket. */
  lemma Opens(s: Input, open: int, s2: Input, count: nat, depth: nat, limits: Limits)
    requires count + 1 <= limits.maxItems && depth <= limits.maxDepth
    requires open == OPEN_BRACE || open == OPEN_BRACKET
    requires SkipSpace(s).Got? && Peek(SkipSpace(s).rest).Got? && Peek(SkipSpace(s).rest).value == open
    requires Take(SkipSpace(s).rest).rest == s2
    ensures ParseValue(s, count, depth, limits) == ParseContainer(s2, open == OPEN_BRACE, count + 1, depth, limits)
  {
    hide ParseContainer, ParseString, ParseNumber, Word;
  }

  /** After blanks stands something else than the closing counterpart. */
  predicate Inhabited(s: Input, close: int) {
    SkipSpace(s).Got? && Peek(SkipSpace(s).rest).Got? && Peek(SkipSpace(s).rest).value != close
  }

  lemma Continues(s: Input, isObject: bool, count: nat, depth: nat, limits: Limits)
    requires Inhabited(s, if isObject then CLOSE_BRACE else CLOSE_BRACKET)
    ensures ParseContainer(s, isObject, count, depth, limits) ==
            if isObject then ParseMembers(SkipSpace(s).rest, map[], count, depth, limits)
            else ParseItems(s, [], count, depth, limits)
  {
    if !isObject {
      SkippedTwice(s);
      ItemsAfterBlanks(SkipSpace(s).rest, s, [], count, depth, limits);
    }
  }

  lemma Closes(blank: Str, isObject: bool, more: Input, count: nat, depth: nat, limits: Limits)
    requires Blank(blank)
    ensures var close := if isObject then CLOSE_BRACE else CLOSE_BRACKET;
            ParseContainer(Then(blank + [close], more), isObject, count, depth, limits) ==
            Got(Counted(if isObject then Object(map[]) else Array([]), count), more)
  {
    hide ParseMembers, ParseItems;
    var close := if isObject then CLOSE_BRACE else CLOSE_BRACKET;
    ThenConcat(blank, [close], more);
    BlankSkipped(blank, Then([close], more));
    CloseInverts(close, more);
    AtFirst([close], more);
  }

  /** One turn of the item loop: the last item, or one that a comma follows. */
  lemma ItemTurn(s: Input, done: seq<Value>, count: nat, depth: nat, limits: Limits, c: Counted, s1: Input, s2: Input)
    requires ParseValue(s, count, depth + 1, limits) == Got(c, s1)
    requires SkipSpace(s1).Got? && SkipSpace(s1).rest == s2
    ensures Peek(s2) == Got(CLOSE_BRACKET, s2) && Require(s2, CLOSE_BRACKET).Got? ==>
              ParseItems(s, done, count, depth, limits) ==
              Got(Counted(Array(done + [c.value]), c.count), Require(s2, CLOSE_BRACKET).rest)
    ensures Peek(s2) == Got(COMMA, s2) && Require(s2, COMMA).Got? && SkipSpace(Require(s2, COMMA).rest).Got? ==>
              ParseItems(s, done, count, depth, limits) ==
              ParseItems(Require(s2, COMMA).rest, done + [c.value], c.count, depth, limits)
  {
    if Peek(s2) == Got(COMMA, s2) && Require(s2, COMMA).Got? && SkipSpace(Require(s2, COMMA).rest).Got? {
      var s3 := Require(s2, COMMA).rest;
      SkippedTwice(s3);
      ItemsAfterBlanks(SkipSpace(s3).rest, s3, done + [c.value], c.count, depth, limits);
    }
  }

  /** One turn of the member loop, from the key on. */
  lemma MemberTurn(s: Input, done: map<Str, Value>, count: nat, depth: nat, limits: Limits,
                   k: Str, s1: Input, s2: Input, c: Counted, s4: Input, s5: Input)
    requires ParseString(s, limits) == Got(k, s1) && SkipSpace(s1).Got?
    requires Require(SkipSpace(s1).rest, COLON).Got? && Require(SkipSpace(s1).rest, COLON).rest == s2
    requires ParseValue(s2, count, depth + 1, limits) == Got(c, s4)
    requires SkipSpace(s4).Got? && SkipSpace(s4).rest == s5
    ensures Peek(s5) == Got(CLOSE_BRACE, s5) && Require(s5, CLOSE_BRACE).Got? ==>
              ParseMembers(s, done, count, depth, limits) ==
              Got(Counted(Object(done[k := c.value]), c.count), Require(s5, CLOSE_BRACE).rest)
    ensures Peek(s5) == Got(COMMA, s5) && Require(s5, COMMA).Got? && SkipSpace(Require(s5, COMMA).rest).Got? ==>
              ParseMembers(s, done, count, depth, limits) ==
              ParseMembers(SkipSpace(Require(s5, COMMA).rest).rest, done[k := c.value], c.count, depth, limits)
  {
  }

  // ---------------------------------------------------------------- values

  /** The first character of a tree's text tells its kind, and is no blank and no closing bracket. */
  lemma TreeStarts(t: Tree)
    requires Correct(t)
    ensures Written(t) != []
    ensures var c := Written(t)[0]; !Space(c) && c != CLOSE_BRACKET && c != CLOSE_BRACE
    ensures t.Chars? ==> Written(t)[0] == QUOTE
  {
    match t
    case Figure(n) =>
      NumeralIsNumber(n);
      NumberShape(n.Written());
    case _ =>
  }

  /** What may follow an item or a member: a comma or a closing bracket, which no number swallows. */
  predicate Stop(rest: Str) {
    rest != [] && (rest[0] == COMMA || rest[0] == CLOSE_BRACKET || rest[0] == CLOSE_BRACE)
  }

  /** Blanks before a stop are skipped, and no number runs on over them. */
  lemma BlankThenStop(after: Str, rest: Str, more: Input)
    requires Blank(after) && Stop(rest)
    ensures SkipSpace(Then(after + rest, more)).Got? && SkipSpace(Then(after + rest, more)).rest == Then(rest, more)
    ensures Delimited(Then(after + rest, more))
  {
    ThenConcat(after, rest, more);
    BlankSkipped(after, Then(rest, more));
    AtFirst(rest, more);
    assert (after + rest)[0] == if after == [] then rest[0] else after[0];
  }

  lemma {:induction false} ValueReads(t: Tree, more: Input, count: nat, depth: nat, limits: Limits)
    requires Correct(t) && (t.Figure? ==> Delimited(more))
    requires count + Count(t) <= limits.maxItems && Within(t, depth, limits)
    ensures ParseValue(Then(Written(t), more), count, depth, limits) ==
            Got(Counted(Meaning(t), count + Count(t)), more)
    decreases t, 1
  {
    hide ParseValue, Delimited, Literal, IsNumber, PiecesText, JoinedItems, JoinedMembers, StringText;
    match t
    case Nothing => LiteralInverts(Null, more, count, depth, limits); NameText();
    case Truth(b) => LiteralInverts(Bool(b), more, count, depth, limits); NameText();
    case Figure(n) =>
      NumeralIsNumber(n);
      NumberInverts(n.Written(), more, count, depth, limits);
    case Chars(ps) => CharsRead(ps, more, count, depth, limits);
    case List(_, _) => ListReads(t, more, count, depth, limits);
    case Record(_, _) => RecordReads(t, more, count, depth, limits);
  }

  lemma NameText()
    ensures Written(Nothing) == Literal(Null) && Written(Truth(true)) == Literal(Bool(true))
    ensures Written(Truth(false)) == Literal(Bool(false))
  {
  }

  lemma CharsRead(ps: seq<Piece>, more: Input, count: nat, depth: nat, limits: Limits)
    requires AllCorrect(ps) && |ps| <= limits.maxString && count + 1 <= limits.maxItems && depth <= limits.maxDepth
    ensures ParseValue(Then(StringText(ps), more), count, depth, limits) ==
            Got(Counted(Value.Text(Said(ps)), count + 1), more)
  {
    hide ParseString, PiecesText, ParseContainer, ParseNumber;
    assert StringText(ps)[0] == QUOTE;
    AtFirst(StringText(ps), more);
    StringReads(ps, more, limits);
  }

  /** One item with its blanks, up to the stop after it. */
  lemma {:induction false} ItemReads(i: Item, rest: Str, more: Input, count: nat, depth: nat, limits: Limits)
    requires ItemCorrect(i) && Stop(rest)
    requires count + Count(i.tree) <= limits.maxItems && Within(i.tree, depth, limits)
    ensures var s1 := Then(i.after + rest, more);
            && ParseValue(Then(ItemText(i) + rest, more), count, depth, limits) ==
               Got(Counted(Meaning(i.tree), count + Count(i.tree)), s1)
            && SkipSpace(s1).Got? && SkipSpace(s1).rest == Then(rest, more)
    ensures SkipSpace(Then(ItemText(i) + rest, more)) ==
            SkipSpace(Then(Written(i.tree), Then(i.after + rest, more)))
    decreases i, 2
  {
    hide ParseValue, Written, Meaning, Count, Within, Correct, Delimited, Blank, SkipSpace;
    var w := Written(i.tree);
    var s1 := Then(i.after + rest, more);
    BlankThenStop(i.after, rest, more);
    ValueReads(i.tree, s1, count, depth, limits);
    assert ItemText(i) + rest == i.before + (w + (i.after + rest));
    ThenConcat(i.before, w + (i.after + rest), more);
    ThenConcat(w, i.after + rest, more);
    BlankSkipped(i.before, Then(w, s1));
    ValueAfterBlanks(Then(ItemText(i) + rest, more), Then(w, s1), count, depth, limits);
  }

  lemma {:induction false} ListReads(t: Tree, more: Input, count: nat, depth: nat, limits: Limits)
    requires t.List? && Correct(t)
    requires count + Count(t) <= limits.maxItems && Within(t, depth, limits)
    ensures ParseValue(Then(Written(t), more), count, depth, limits) ==
            Got(Counted(Meaning(t), count + Count(t)), more)
    decreases t, 0
  {
    hide ParseValue, ParseItems, ParseContainer, JoinedItems, Meanings, CountItems, ItemsCorrect, ItemsWithin, Blank;
    var body := t.blank + JoinedItems(t.items) + [CLOSE_BRACKET];
    assert Written(t) == [OPEN_BRACKET] + body;
    AtFirst(Written(t), more);
    assert Written(t)[1..] == body;
    Opens(Then(Written(t), more), OPEN_BRACKET, Then(body, more), count, depth, limits);
    if t.items == [] {
      NoItems();
      assert body == t.blank + [CLOSE_BRACKET];
      Closes(t.blank, false, more, count + 1, depth, limits);
    } else {
      ItemsRead(t.items, [], more, count + 1, depth, limits);
      assert body == t.blank + (JoinedItems(t.items) + [CLOSE_BRACKET]);
      var s := Then(JoinedItems(t.items) + [CLOSE_BRACKET], more);
      ThenConcat(t.blank, JoinedItems(t.items) + [CLOSE_BRACKET], more);
      BlankSkipped(t.blank, s);
      Continues(Then(body, more), false, count + 1, depth, limits);
      ItemsAfterBlanks(Then(body, more), s, [], count + 1, depth, limits);
      assert [] + Meanings(t.items) == Meanings(t.items);
    }
  }

  lemma NoItems()
    ensures JoinedItems([]) == [] && Meanings([]) == [] && CountItems([]) == 0
  {
  }

  /** Items up to and including the closing bracket, which is not what stands first. */
  lemma {:induction false} ItemsRead(items: seq<Item>, done: seq<Value>, more: Input, count: nat, depth: nat,
                                     limits: Limits)
    requires items != [] && ItemsCorrect(items)
    requires count + CountItems(items) <= limits.maxItems && ItemsWithin(items, depth + 1, limits)
    ensures var s := Then(JoinedItems(items) + [CLOSE_BRACKET], more);
            && Inhabited(s, CLOSE_BRACKET)
            && ParseItems(s, done, count, depth, limits) ==
               Got(Counted(Array(done + Meanings(items)), count + CountItems(items)), more)
    decreases items, 3
  {
    hide ParseItems, ParseValue, Written, Meaning, Count, Within, Correct, SkipSpace, ItemText;
    var i := items[0];
    var later := JoinedItems(items[1..]) + [CLOSE_BRACKET];
    var rest := if |items| == 1 then [CLOSE_BRACKET] else [COMMA] + later;
    assert JoinedItems(items) + [CLOSE_BRACKET] == ItemText(i) + rest;
    var c := Counted(Meaning(i.tree), count + Count(i.tree));
    ItemReads(i, rest, more, count, depth + 1, limits);
    ItemStarts(i, rest, more);
    AtFirst(rest, more);
    if |items| == 1 {
      CloseInverts(CLOSE_BRACKET, more);
      assert Meanings(items) == [c.value] by { assert items[1..] == []; }
    } else {
      assert rest[1..] == later;
      ItemsRead(items[1..], done + [c.value], more, c.count, depth, limits);
      assert done + [c.value] + Meanings(items[1..]) == done + Meanings(items);
    }
    ItemTurn(Then(ItemText(i) + rest, more), done, count, depth, limits, c, Then(i.after + rest, more), Then(rest, more));
  }

  lemma ItemStarts(i: Item, rest: Str, more: Input)
    requires ItemCorrect(i)
    requires SkipSpace(Then(ItemText(i) + rest, more)) ==
             SkipSpace(Then(Written(i.tree), Then(i.after + rest, more)))
    ensures Inhabited(Then(ItemText(i) + rest, more), CLOSE_BRACKET)
  {
    hide ItemText, Written;
    TreeStarts(i.tree);
    AtFirst(Written(i.tree), Then(i.after + rest, more));
  }

  lemma {:induction false} RecordReads(t: Tree, more: Input, count: nat, depth: nat, limits: Limits)
    requires t.Record? && Correct(t)
    requires count + Count(t) <= limits.maxItems && Within(t, depth, limits)
    ensures ParseValue(Then(Written(t), more), count, depth, limits) ==
            Got(Counted(Meaning(t), count + Count(t)), more)
    decreases t, 0
  {
    hide ParseValue, ParseMembers, ParseContainer, JoinedMembers, Bound, CountMembers, MembersCorrect, MembersWithin,
         Blank;
    var body := t.blank + JoinedMembers(t.members) + [CLOSE_BRACE];
    assert Written(t) == [OPEN_BRACE] + body;
    AtFirst(Written(t), more);
    assert Written(t)[1..] == body;
    Opens(Then(Written(t), more), OPEN_BRACE, Then(body, more), count, depth, limits);
    if t.members == [] {
      NoMembers();
      assert body == t.blank + [CLOSE_BRACE];
      Closes(t.blank, true, more, count + 1, depth, limits);
    } else {
      MembersRead(t.members, map[], more, count + 1, depth, limits);
      assert body == t.blank + (JoinedMembers(t.members) + [CLOSE_BRACE]);
      var s := Then(JoinedMembers(t.members) + [CLOSE_BRACE], more);
      ThenConcat(t.blank, JoinedMembers(t.members) + [CLOSE_BRACE], more);
      BlankSkipped(t.blank, s);
      Continues(Then(body, more), true, count + 1, depth, limits);
      assert map[] + Bound(t.members) == Bound(t.members);
    }
  }

  lemma NoMembers()
    ensures JoinedMembers([]) == [] && Bound([]) == map[] && CountMembers([]) == 0
  {
  }

  /** The key of a member and its colon. */
  lemma KeyReads(m: Member, rest: Str, more: Input, limits: Limits)
    requires MemberCorrect(m) && |m.key| <= limits.maxString
    ensures var s := Then(MemberText(m) + rest, more);
            && SkipSpace(s).Got? && Inhabited(s, CLOSE_BRACE)
            && var r := ParseString(SkipSpace(s).rest, limits);
               && r.Got? && r.value == Said(m.key)
               && SkipSpace(r.rest).Got?
               && Require(SkipSpace(r.rest).rest, COLON).Got?
               && Require(SkipSpace(r.rest).rest, COLON).rest == Then(ItemText(m.item) + rest, more)
  {
    hide StringText, ItemText, ItemCorrect, Said, ParseString, AllCorrect, Blank;
    var value := ItemText(m.item) + rest;
    var colon := m.between + ([COLON] + value);
    assert MemberText(m) + rest == m.before + (StringText(m.key) + colon);
    ThenConcat(m.before, StringText(m.key) + colon, more);
    BlankSkipped(m.before, Then(StringText(m.key) + colon, more));
    ThenConcat(StringText(m.key), colon, more);
    StringStarts(m.key);
    AtFirst(StringText(m.key), Then(colon, more));
    StringReads(m.key, Then(colon, more), limits);
    ThenConcat(m.between, [COLON] + value, more);
    BlankSkipped(m.between, Then([COLON] + value, more));
    AtFirst([COLON] + value, more);
    assert ([COLON] + value)[1..] == value;
  }

  lemma StringStarts(ps: seq<Piece>)
    ensures StringText(ps) != [] && StringText(ps)[0] == QUOTE
  {
  }

  /** Members up to and including the closing brace; what was gathered before yields to them. */
  lemma {:induction false} MembersRead(
    ms: seq<Member>, done: map<Str, Value>, more: Input, count: nat, depth: nat, limits: Limits)
    requires ms != [] && MembersCorrect(ms)
    requires count + CountMembers(ms) <= limits.maxItems && MembersWithin(ms, depth + 1, limits)
    ensures var s := Then(JoinedMembers(ms) + [CLOSE_BRACE], more);
            && Inhabited(s, CLOSE_BRACE)
            && ParseMembers(SkipSpace(s).rest, done, count, depth, limits) ==
               Got(Counted(Object(done + Bound(ms)), count + CountMembers(ms)), more)
    decreases ms, 3
  {
    hide ParseMembers, ParseValue, ParseString, SkipSpace, Require, ItemText, MemberText, Said, Meaning, Count, Within;
    hide MemberCorrect, MembersCorrect, MembersWithin, CountMembers, Bound, JoinedMembers;
    var m := ms[0];
    var c := Counted(Meaning(m.item.tree), count + Count(m.item.tree));
    var all := done[Said(m.key) := c.value];
    MembersSplit(ms, done, depth + 1, limits);
    var later := JoinedMembers(ms[1..]) + [CLOSE_BRACE];
    var rest := if |ms| == 1 then [CLOSE_BRACE] else [COMMA] + later;
    KeyReads(m, rest, more, limits);
    ItemReads(m.item, rest, more, count, depth + 1, limits);
    AtFirst(rest, more);
    if |ms| == 1 {
      CloseInverts(CLOSE_BRACE, more);
      assert all + map[] == all;
    } else {
      CommaReads(later, more);
      MembersRead(ms[1..], all, more, c.count, depth, limits);
    }
    var s := SkipSpace(Then(MemberText(m) + rest, more)).rest;
    var r := ParseString(s, limits).rest;
    MemberTurn(s, done, count, depth, limits, Said(m.key), r, Then(ItemText(m.item) + rest, more), c,
               Then(m.item.after + rest, more), Then(rest, more));
  }

  lemma CommaReads(later: Str, more: Input)
    ensures Require(Then([COMMA] + later, more), COMMA).Got?
    ensures Require(Then([COMMA] + later, more), COMMA).rest == Then(later, more)
  {
    ThenCons(COMMA, later, more);
  }

  /** What the first member contributes to the text, the value, and the limits. */
  lemma MembersSplit(ms: seq<Member>, done: map<Str, Value>, depth: nat, limits: Limits)
    requires ms != [] && MembersCorrect(ms) && MembersWithin(ms, depth, limits)
    ensures var (m, later) := (ms[0], JoinedMembers(ms[1..]) + [CLOSE_BRACE]);
            && MemberCorrect(m) && ItemCorrect(m.item) && MembersCorrect(ms[1..]) && MembersWithin(ms[1..], depth, limits)
            && |m.key| <= limits.maxString && Within(m.item.tree, depth, limits)
            && JoinedMembers(ms) + [CLOSE_BRACE] ==
               MemberText(m) + (if |ms| == 1 then [CLOSE_BRACE] else [COMMA] + later)
            && CountMembers(ms) == Count(m.item.tree) + CountMembers(ms[1..])
            && done[Said(m.key) := Meaning(m.item.tree)] + Bound(ms[1..]) == done + Bound(ms)
    ensures |ms| == 1 ==> CountMembers(ms[1..]) == 0 && Bound(ms[1..]) == map[]
  {
    hide MemberText, Said, Meaning, Count, Within, Correct, Blank, AllCorrect;
    var (k, v) := (Said(ms[0].key), Meaning(ms[0].item.tree));
    assert done[k := v] + Bound(ms[1..]) == done + (map[k := v] + Bound(ms[1..]));
  }
}
