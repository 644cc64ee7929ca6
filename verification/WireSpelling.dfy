/** The parser reads nothing else than the texts of trees: whatever it accepts, a tree within the limits
  * writes, and the tree means what was read. */
module WireSpelling {
  import opened Prelude
  import opened Text
  import opened Utf8
  import opened WireValue
  import opened WireParse
  import opened WireSyntax
  import opened WireReading

  // ---------------------------------------------------------------- characters

  lemma {:induction false} SpaceWritten(s: Input) returns (b: Str)
    requires SkipSpace(s).Got?
    ensures Blank(b) && s == Then(b, SkipSpace(s).rest)
    decreases |s.chars|
  {
    if s.chars != [] && Space(s.chars[0]) {
      var t := Input(s.chars[1..], s.tail);
      var later := SpaceWritten(t);
      b := [s.chars[0]] + later;
      TakeWritten(s);
      ThenConcat([s.chars[0]], later, SkipSpace(s).rest);
    } else {
      b := [];
      Nothings(s);
    }
  }

  lemma TakeWritten(s: Input)
    requires Take(s).Got? && Take(s).value != EOF
    ensures s == Then([Take(s).value], Take(s).rest)
  {
    assert s.chars == [s.chars[0]] + s.chars[1..];
  }

  lemma RequireWritten(s: Input, c: int)
    requires Require(s, c).Got? && c != EOF
    ensures s == Then([c], Require(s, c).rest)
  {
    TakeWritten(s);
  }

  // ---------------------------------------------------------------- strings

  function HexOf(c: int): (h: Hex)
    requires HexValue(c).Some?
    ensures h.Char() == c && h.value == HexValue(c).value
  {
    Hex(HexValue(c).value, 'A' as int <= c <= 'F' as int)
  }

  lemma QuadWritten(s: Input) returns (q: Quad)
    requires HexQuad(s).Got?
    ensures s == Then(q.Chars(), HexQuad(s).rest) && q.Number() == HexQuad(s).value
  {
    hide HexValue;
    var a := Take(s);
    var b := Take(a.rest);
    var c := Take(b.rest);
    var d := Take(c.rest);
    EndIsNoDigit();
    TakeWritten(s);
    TakeWritten(a.rest);
    TakeWritten(b.rest);
    TakeWritten(c.rest);
    q := Quad(HexOf(a.value), HexOf(b.value), HexOf(c.value), HexOf(d.value));
    assert q.Chars() == [a.value] + ([b.value] + ([c.value] + [d.value]));
    ThenConcat([c.value], [d.value], d.rest);
    ThenConcat([b.value], [c.value] + [d.value], d.rest);
    ThenConcat([a.value], [b.value] + ([c.value] + [d.value]), d.rest);
  }

  lemma EndIsNoDigit()
    ensures HexValue(EOF).None? && SimpleEscape(EOF).None?
  {
  }

  lemma UnitsWritten(s: Input) returns (p: Piece)
    requires CodeUnits(s).Got?
    ensures p.Correct() && (p.Unit? || p.Pair?) && p.Meaning() == CodeUnits(s).value
    ensures ['u' as int] + p.Written()[2..] == p.Written()[1..] && s == Then(p.Written()[2..], CodeUnits(s).rest)
  {
    hide HexQuad, Quad.Chars, Quad.Number;
    var high := QuadWritten(s);
    var r := HexQuad(s);
    if 0xD800 <= r.value <= 0xDBFF {
      var s2 := Require(r.rest, BACKSLASH).rest;
      var s3 := Require(s2, 'u' as int).rest;
      RequireWritten(r.rest, BACKSLASH);
      RequireWritten(s2, 'u' as int);
      var low := QuadWritten(s3);
      var end := HexQuad(s3).rest;
      p := Pair(CodeUnits(s).value, high, low);
      ThenConcat(['u' as int], low.Chars(), end);
      ThenConcat([BACKSLASH], ['u' as int] + low.Chars(), end);
      ThenConcat(high.Chars(), [BACKSLASH] + (['u' as int] + low.Chars()), end);
      assert p.Written()[2..] == high.Chars() + ([BACKSLASH] + (['u' as int] + low.Chars()));
      Halves(r.value - 0xD800, HexQuad(s3).value - 0xDC00);
    } else {
      p := Unit(high);
      assert p.Written()[2..] == high.Chars();
    }
    assert p.Written()[1] == 'u' as int;
  }

  lemma Halves(x: int, y: int)
    requires 0 <= y < 1024
    ensures (x * 1024 + y) / 1024 == x && (x * 1024 + y) % 1024 == y
  {
  }

  lemma EscapeWritten(s: Input) returns (p: Piece)
    requires Escape(s).Got?
    ensures p.Correct() && !p.Plain? && p.Meaning() == Escape(s).value
    ensures p.Written() == [BACKSLASH] + p.Written()[1..] && s == Then(p.Written()[1..], Escape(s).rest)
  {
    hide CodeUnits, Quad.Chars;
    var e := Take(s);
    EndIsNoDigit();
    TakeWritten(s);
    if e.value == 'u' as int {
      p := UnitsWritten(e.rest);
      ThenConcat(['u' as int], p.Written()[2..], Escape(s).rest);
    } else {
      p := Short(LetterOf(e.value));
      assert p.Written()[1..] == [e.value];
    }
    assert p.Written()[0] == BACKSLASH;
  }

  function LetterOf(e: int): (i: Letter)
    requires SimpleEscape(e).Some?
    ensures LETTERS[i] == e && NAMED[i] == SimpleEscape(e).value
  {
    if e == 0x22 then 0 else if e == 0x5C then 1 else if e == 0x2F then 2 else if e == 'b' as int then 3
    else if e == 'f' as int then 4 else if e == 'n' as int then 5 else if e == 'r' as int then 6 else 7
  }

  lemma PieceWritten(s: Input, gathered: Str, limits: Limits) returns (p: Piece, t: Input)
    requires StringBody(s, gathered, limits).Got? && !(s.chars != [] && s.chars[0] == QUOTE)
    ensures p.Correct() && s == Then(p.Written(), t) && |t.chars| < |s.chars| && |gathered| < limits.maxString
    ensures StringBody(s, gathered, limits) == StringBody(t, gathered + [p.Meaning()], limits)
  {
    hide Escape;
    var c := Take(s);
    TakeWritten(s);
    if c.value == BACKSLASH {
      p := EscapeWritten(c.rest);
      t := Escape(c.rest).rest;
      ThenConcat([BACKSLASH], p.Written()[1..], t);
    } else {
      p, t := Plain(c.value), c.rest;
    }
  }

  lemma {:induction false} PiecesWritten(s: Input, gathered: Str, limits: Limits) returns (ps: seq<Piece>)
    requires StringBody(s, gathered, limits).Got? && |gathered| <= limits.maxString
    ensures var r := StringBody(s, gathered, limits);
            && AllCorrect(ps) && |gathered| + |ps| <= limits.maxString
            && s == Then(PiecesText(ps) + [QUOTE], r.rest) && r.value == gathered + Said(ps)
    decreases |s.chars|
  {
    hide Piece.Correct, Piece.Meaning, Piece.Written;
    var r := StringBody(s, gathered, limits);
    if s.chars != [] && s.chars[0] == QUOTE {
      ps := [];
      TakeWritten(s);
      assert PiecesText(ps) + [QUOTE] == [QUOTE];
      assert gathered + Said(ps) == gathered;
    } else {
      var p, t := PieceWritten(s, gathered, limits);
      var later := PiecesWritten(t, gathered + [p.Meaning()], limits);
      ps := [p] + later;
      assert ps[1..] == later;
      ThenConcat(p.Written(), PiecesText(later) + [QUOTE], r.rest);
      assert PiecesText(ps) + [QUOTE] == p.Written() + (PiecesText(later) + [QUOTE]);
      assert gathered + [p.Meaning()] + Said(later) == gathered + Said(ps);
    }
  }

  lemma StringWritten(s: Input, limits: Limits) returns (ps: seq<Piece>)
    requires ParseString(s, limits).Got?
    ensures var r := ParseString(s, limits);
            && AllCorrect(ps) && |ps| <= limits.maxString && s == Then(StringText(ps), r.rest) && r.value == Said(ps)
  {
    hide StringBody, PiecesText, Said, AllCorrect;
    RequireWritten(s, QUOTE);
    var s1 := Require(s, QUOTE).rest;
    ps := PiecesWritten(s1, [], limits);
    assert StringText(ps) == [QUOTE] + (PiecesText(ps) + [QUOTE]);
    ThenConcat([QUOTE], PiecesText(ps) + [QUOTE], ParseString(s, limits).rest);
    assert [] + Said(ps) == Said(ps);
  }

  // ---------------------------------------------------------------- numbers and literals

  lemma {:induction false} RunWritten(s: Input, gathered: Str) returns (t: Str)
    requires NumberRun(s, gathered).Got?
    ensures var r := NumberRun(s, gathered); s == Then(t, r.rest) && r.value == gathered + t
    decreases |s.chars|
  {
    var r := NumberRun(s, gathered);
    if s.chars != [] && NumberChar(s.chars[0]) {
      var c := s.chars[0];
      var later := RunWritten(Input(s.chars[1..], s.tail), gathered + [c]);
      t := [c] + later;
      assert Take(s).value == c && c != EOF;
      TakeWritten(s);
      ThenConcat([c], later, r.rest);
      assert gathered + [c] + later == gathered + t;
    } else {
      t := [];
      Nothings(s);
      assert gathered + t == gathered;
    }
  }

  lemma FigureWritten(s: Input) returns (n: Numeral)
    requires ParseNumber(s).Got?
    ensures var r := ParseNumber(s);
            n.Correct() && s == Then(n.Written(), r.rest) && r.value == Value.Number(n.Written())
  {
    hide IsNumber, NumberRun;
    var t := RunWritten(s, []);
    assert [] + t == t;
    n := NumberIsNumeral(t);
  }

  lemma {:induction false} WordWritten(s: Input, w: Str)
    requires EOF !in w && RequireAll(s, w).Got?
    ensures s == Then(w, RequireAll(s, w).rest)
    decreases |w|
  {
    if w == [] {
      Nothings(s);
    } else {
      RequireWritten(s, w[0]);
      WordWritten(Require(s, w[0]).rest, w[1..]);
      ThenConcat([w[0]], w[1..], RequireAll(s, w).rest);
      assert w == [w[0]] + w[1..];
    }
  }

  // ---------------------------------------------------------------- values

  /** What was read is what a tree, after these blanks, writes and means, within the limits. */
  ghost predicate WrittenAs(s: Input, b: Str, t: Tree, r: Parsed<Counted>, count: nat, depth: nat, limits: Limits)
    requires r.Got?
  {
    && Blank(b) && Correct(t) && s == Then(b + Written(t), r.rest) && r.value.value == Meaning(t)
    && r.value.count == count + Count(t) && r.value.count <= limits.maxItems && Within(t, depth, limits)
  }

  lemma {:induction false} ValueWritten(s: Input, count: nat, depth: nat, limits: Limits) returns (b: Str, t: Tree)
    requires ParseValue(s, count, depth, limits).Got?
    ensures WrittenAs(s, b, t, ParseValue(s, count, depth, limits), count, depth, limits)
    decreases |s.chars|, 1
  {
    hide ParseValue, Written, Meaning, Count, Within, Correct, Blank, SkipSpace;
    t := BareWritten(s, count, depth, limits);
    b := SpaceWritten(s);
    assert [] + Written(t) == Written(t);
    ThenConcat(b, Written(t), ParseValue(s, count, depth, limits).rest);
  }

  /** A value, from its first character on. */
  lemma {:induction false} BareWritten(s: Input, count: nat, depth: nat, limits: Limits) returns (t: Tree)
    requires ParseValue(s, count, depth, limits).Got?
    ensures SkipSpace(s).Got?
    ensures WrittenAs(SkipSpace(s).rest, [], t, ParseValue(s, count, depth, limits), count, depth, limits)
    decreases |s.chars|, 0
  {
    hide ParseContainer, ParseString, ParseNumber, Word, StringText, IsNumber;
    var s1 := SkipSpace(s).rest;
    var first := Peek(s1).value;
    TakesPeeked(s1);
    if first == QUOTE {
      var ps := StringWritten(s1, limits);
      t := Tree.Chars(ps);
    } else if first == OPEN_BRACE {
      TakeWritten(s1);
      t := RecordWritten(Take(s1).rest, count, depth, limits);
    } else if first == OPEN_BRACKET {
      TakeWritten(s1);
      t := ListWritten(Take(s1).rest, count, depth, limits);
    } else if first == 'n' as int {
      t := Nothing;
      LiteralWritten(s1, Null, count + 1);
    } else if first == 't' as int {
      t := Truth(true);
      LiteralWritten(s1, Bool(true), count + 1);
    } else if first == 'f' as int {
      t := Truth(false);
      LiteralWritten(s1, Bool(false), count + 1);
    } else {
      var n := FigureWritten(s1);
      t := Figure(n);
    }
    NameText();
    assert [] + Written(t) == Written(t);
  }

  lemma LiteralWritten(s: Input, v: Value, n: nat)
    requires (v.Null? || v.Bool?) && s.chars != [] && Word(s, v, n).Got?
    ensures s == Then(Literal(v), Word(s, v, n).rest) && Word(s, v, n).value == Counted(v, n)
  {
    WordWritten(s, Literal(v));
  }

  // ---------------------------------------------------------------- containers

  lemma {:induction false} ListWritten(s: Input, count: nat, depth: nat, limits: Limits) returns (t: Tree)
    requires ParseContainer(s, false, count + 1, depth, limits).Got? && count < limits.maxItems
             && depth <= limits.maxDepth
    ensures WrittenAs(Then([OPEN_BRACKET], s), [], t, ParseContainer(s, false, count + 1, depth, limits), count, depth, limits)
    decreases |s.chars|, 3
  {
    hide ParseItems, ParseMembers, JoinedItems, Meanings, CountItems, Blank, ItemsCorrect, ItemsWithin, WrittenAs;
    var r := ParseContainer(s, false, count + 1, depth, limits);
    NoItems();
    NoBlank();
    if Inhabited(s, CLOSE_BRACKET) {
      Continues(s, false, count + 1, depth, limits);
      var items := ItemsWritten(s, [], count + 1, depth, limits);
      t := List([], items);
      assert [] + Meanings(items) == Meanings(items);
      assert [] + JoinedItems(items) + [CLOSE_BRACKET] == JoinedItems(items) + [CLOSE_BRACKET];
      ListOf(s, t, r, count, depth, limits);
    } else {
      var b := SpaceWritten(s);
      t := List(b, []);
      RequireWritten(SkipSpace(s).rest, CLOSE_BRACKET);
      ThenConcat(b, [CLOSE_BRACKET], r.rest);
      assert b + [] + [CLOSE_BRACKET] == b + [CLOSE_BRACKET];
      ListOf(s, t, r, count, depth, limits);
    }
  }

  /** What stands between the brackets, put together. */
  lemma ListOf(s: Input, t: Tree, r: Parsed<Counted>, count: nat, depth: nat, limits: Limits)
    requires t.List? && Blank(t.blank) && ItemsCorrect(t.items) && ItemsWithin(t.items, depth + 1, limits)
    requires r.Got? && s == Then(t.blank + JoinedItems(t.items) + [CLOSE_BRACKET], r.rest)
    requires r.value == Counted(Array(Meanings(t.items)), count + 1 + CountItems(t.items))
    requires r.value.count <= limits.maxItems && depth <= limits.maxDepth
    ensures WrittenAs(Then([OPEN_BRACKET], s), [], t, r, count, depth, limits)
  {
    hide JoinedItems, Meanings, CountItems, Blank, ItemsCorrect, ItemsWithin;
    var body := t.blank + JoinedItems(t.items) + [CLOSE_BRACKET];
    ThenConcat([OPEN_BRACKET], body, r.rest);
    assert [] + Written(t) == [OPEN_BRACKET] + body;
    BlankNothing();
  }

  lemma NoBlank()
    ensures Blank([])
    ensures ItemsCorrect([]) && MembersCorrect([])
    ensures forall depth: nat, limits :: ItemsWithin([], depth, limits) && MembersWithin([], depth, limits)
  {
  }

  /** What was read as items is what items write and mean, within the limits. */
  ghost predicate ItemsAs(s: Input, done: seq<Value>, items: seq<Item>, r: Parsed<Counted>,
                          count: nat, depth: nat, limits: Limits)
    requires r.Got?
  {
    && items != [] && ItemsCorrect(items) && s == Then(JoinedItems(items) + [CLOSE_BRACKET], r.rest)
    && r.value.value == Array(done + Meanings(items)) && ItemsWithin(items, depth + 1, limits)
    && r.value.count == count + CountItems(items) && r.value.count <= limits.maxItems
  }

  lemma {:induction false} ItemsWritten(s: Input, done: seq<Value>, count: nat, depth: nat, limits: Limits)
    returns (items: seq<Item>)
    requires ParseItems(s, done, count, depth, limits).Got?
    ensures ItemsAs(s, done, items, ParseItems(s, done, count, depth, limits), count, depth, limits)
    decreases |s.chars|, 2
  {
    hide ParseValue, Written, Meaning, Count, Within, Correct, Blank, SkipSpace;
    var v := ParseValue(s, count, depth + 1, limits);
    var b, t := ValueWritten(s, count, depth + 1, limits);
    var after := SpaceWritten(v.rest);
    var s2 := SkipSpace(v.rest).rest;
    var i := Item(b, t, after);
    var r := ParseItems(s, done, count, depth, limits);
    ItemWritten(s, i, v.rest, s2);
    TakesPeeked(s2);
    ItemTurn(s, done, count, depth, limits, v.value, v.rest, s2);
    if Peek(s2).value == CLOSE_BRACKET {
      items := [i];
      RequireWritten(s2, CLOSE_BRACKET);
      OneItem(s, done, i, s2, r, count, depth, limits);
    } else {
      var s3 := Require(s2, COMMA).rest;
      RequireWritten(s2, COMMA);
      var later := ItemsWritten(s3, done + [v.value.value], v.value.count, depth, limits);
      items := [i] + later;
      MoreItems(s, done, i, later, s2, s3, r, count, depth, limits);
    }
  }

  lemma ItemWritten(s: Input, i: Item, s1: Input, s2: Input)
    requires s == Then(i.before + Written(i.tree), s1) && s1 == Then(i.after, s2)
    ensures s == Then(ItemText(i), s2)
  {
    hide Written;
    ThenConcat(i.before + Written(i.tree), i.after, s2);
  }

  lemma OneItem(s: Input, done: seq<Value>, i: Item, s2: Input, r: Parsed<Counted>, count: nat, depth: nat,
                limits: Limits)
    requires ItemCorrect(i) && Within(i.tree, depth + 1, limits)
    requires s == Then(ItemText(i), s2) && r.Got? && s2 == Then([CLOSE_BRACKET], r.rest)
    requires r.value == Counted(Array(done + [Meaning(i.tree)]), count + Count(i.tree))
             && r.value.count <= limits.maxItems
    ensures ItemsAs(s, done, [i], r, count, depth, limits)
  {
    hide ItemsCorrect, ItemsWithin, JoinedItems, Meanings, CountItems, Meaning, Count, Within, ItemText, ItemCorrect;
    SingleItem(i, depth + 1, limits);
    ThenConcat(ItemText(i), [CLOSE_BRACKET], r.rest);
  }

  lemma SingleItem(i: Item, depth: nat, limits: Limits)
    ensures ItemCorrect(i) ==> ItemsCorrect([i])
    ensures Within(i.tree, depth, limits) ==> ItemsWithin([i], depth, limits)
    ensures JoinedItems([i]) == ItemText(i) && Meanings([i]) == [Meaning(i.tree)] && CountItems([i]) == Count(i.tree)
  {
    hide Meaning, Count, Within, ItemText, ItemCorrect;
    assert [i][1..] == [];
    NoItems();
    NoBlank();
    assert ItemText(i) + [] == ItemText(i);
    assert [Meaning(i.tree)] + Meanings([]) == [Meaning(i.tree)];
  }

  lemma MoreItems(s: Input, done: seq<Value>, i: Item, later: seq<Item>, s2: Input, s3: Input, r: Parsed<Counted>,
                  count: nat, depth: nat, limits: Limits)
    requires ItemCorrect(i) && Within(i.tree, depth + 1, limits) && r.Got?
    requires s == Then(ItemText(i), s2) && s2 == Then([COMMA], s3)
    requires ItemsAs(s3, done + [Meaning(i.tree)], later, r, count + Count(i.tree), depth, limits)
    ensures ItemsAs(s, done, [i] + later, r, count, depth, limits)
  {
    hide Written, Meaning, Count, Within, Correct, Blank, ItemText, ItemCorrect;
    var items := [i] + later;
    assert items[1..] == later;
    var close := JoinedItems(later) + [CLOSE_BRACKET];
    assert JoinedItems(items) + [CLOSE_BRACKET] == ItemText(i) + ([COMMA] + close);
    ThenConcat([COMMA], close, r.rest);
    ThenConcat(ItemText(i), [COMMA] + close, r.rest);
    assert done + [Meaning(i.tree)] + Meanings(later) == done + Meanings(items);
  }

  lemma {:induction false} RecordWritten(s: Input, count: nat, depth: nat, limits: Limits) returns (t: Tree)
    requires ParseContainer(s, true, count + 1, depth, limits).Got? && count < limits.maxItems
             && depth <= limits.maxDepth
    ensures WrittenAs(Then([OPEN_BRACE], s), [], t, ParseContainer(s, true, count + 1, depth, limits), count, depth, limits)
    decreases |s.chars|, 3
  {
    hide ParseItems, ParseMembers, JoinedMembers, Bound, CountMembers, Blank, MembersCorrect, MembersWithin, WrittenAs;
    var r := ParseContainer(s, true, count + 1, depth, limits);
    NoMembers();
    NoBlank();
    if Inhabited(s, CLOSE_BRACE) {
      Continues(s, true, count + 1, depth, limits);
      var ms := MembersWritten(s, map[], count + 1, depth, limits);
      t := Record([], ms);
      assert map[] + Bound(ms) == Bound(ms);
      assert [] + JoinedMembers(ms) + [CLOSE_BRACE] == JoinedMembers(ms) + [CLOSE_BRACE];
      RecordOf(s, t, r, count, depth, limits);
    } else {
      var b := SpaceWritten(s);
      t := Record(b, []);
      RequireWritten(SkipSpace(s).rest, CLOSE_BRACE);
      ThenConcat(b, [CLOSE_BRACE], r.rest);
      assert b + [] + [CLOSE_BRACE] == b + [CLOSE_BRACE];
      RecordOf(s, t, r, count, depth, limits);
    }
  }

  /** What stands between the braces, put together. */
  lemma RecordOf(s: Input, t: Tree, r: Parsed<Counted>, count: nat, depth: nat, limits: Limits)
    requires t.Record? && Blank(t.blank) && MembersCorrect(t.members) && MembersWithin(t.members, depth + 1, limits)
    requires r.Got? && s == Then(t.blank + JoinedMembers(t.members) + [CLOSE_BRACE], r.rest)
    requires r.value == Counted(Object(Bound(t.members)), count + 1 + CountMembers(t.members))
    requires r.value.count <= limits.maxItems && depth <= limits.maxDepth
    ensures WrittenAs(Then([OPEN_BRACE], s), [], t, r, count, depth, limits)
  {
    hide JoinedMembers, Bound, CountMembers, Blank, MembersCorrect, MembersWithin;
    var body := t.blank + JoinedMembers(t.members) + [CLOSE_BRACE];
    ThenConcat([OPEN_BRACE], body, r.rest);
    assert [] + Written(t) == [OPEN_BRACE] + body;
    BlankNothing();
  }

  ghost predicate MembersAs(s: Input, done: map<Str, Value>, ms: seq<Member>, r: Parsed<Counted>,
                            count: nat, depth: nat, limits: Limits)
    requires r.Got?
  {
    && ms != [] && MembersCorrect(ms) && s == Then(JoinedMembers(ms) + [CLOSE_BRACE], r.rest)
    && r.value.value == Object(done + Bound(ms)) && MembersWithin(ms, depth + 1, limits)
    && r.value.count == count + CountMembers(ms) && r.value.count <= limits.maxItems
  }

  /** Members from the blanks before the first key on. */
  lemma {:induction false} MembersWritten(s: Input, done: map<Str, Value>, count: nat, depth: nat, limits: Limits)
    returns (ms: seq<Member>)
    requires SkipSpace(s).Got? && ParseMembers(SkipSpace(s).rest, done, count, depth, limits).Got?
    ensures MembersAs(s, done, ms, ParseMembers(SkipSpace(s).rest, done, count, depth, limits), count, depth, limits)
    decreases |s.chars|, 2
  {
    hide ParseValue, ParseString, Written, Meaning, Count, Within, Correct, Blank, SkipSpace, StringText, Said,
         AllCorrect;
    var before := SpaceWritten(s);
    var s0 := SkipSpace(s).rest;
    var key := StringWritten(s0, limits);
    var s1 := ParseString(s0, limits).rest;
    var between := SpaceWritten(s1);
    RequireWritten(SkipSpace(s1).rest, COLON);
    var s3 := Require(SkipSpace(s1).rest, COLON).rest;
    var v := ParseValue(s3, count, depth + 1, limits);
    var b, t := ValueWritten(s3, count, depth + 1, limits);
    var after := SpaceWritten(v.rest);
    var s5 := SkipSpace(v.rest).rest;
    var m := Member(before, key, between, Item(b, t, after));
    var r := ParseMembers(s0, done, count, depth, limits);
    ItemWritten(s3, m.item, v.rest, s5);
    MemberWritten(s, m, s0, s1, SkipSpace(s1).rest, s3, s5);
    TakesPeeked(s5);
    MemberTurn(s0, done, count, depth, limits, Said(key), s1, s3, v.value, v.rest, s5);
    if Peek(s5).value == CLOSE_BRACE {
      ms := [m];
      RequireWritten(s5, CLOSE_BRACE);
      OneMember(s, done, m, s5, r, count, depth, limits);
    } else {
      var s6 := Require(s5, COMMA).rest;
      RequireWritten(s5, COMMA);
      var later := MembersWritten(s6, done[Said(key) := v.value.value], v.value.count, depth, limits);
      ms := [m] + later;
      MoreMembers(s, done, m, later, s5, s6, r, count, depth, limits);
    }
  }

  lemma MemberWritten(s: Input, m: Member, s0: Input, s1: Input, s2: Input, s3: Input, s5: Input)
    requires s == Then(m.before, s0) && s0 == Then(StringText(m.key), s1) && s1 == Then(m.between, s2)
    requires s2 == Then([COLON], s3) && s3 == Then(ItemText(m.item), s5)
    ensures s == Then(MemberText(m), s5)
  {
    hide StringText, ItemText;
    ThenConcat(m.before, StringText(m.key), s1);
    ThenConcat(m.before + StringText(m.key), m.between, s2);
    ThenConcat(m.before + StringText(m.key) + m.between, [COLON], s3);
    ThenConcat(m.before + StringText(m.key) + m.between + [COLON], ItemText(m.item), s5);
  }

  lemma OneMember(s: Input, done: map<Str, Value>, m: Member, s5: Input, r: Parsed<Counted>,
                  count: nat, depth: nat, limits: Limits)
    requires MemberCorrect(m) && Within(m.item.tree, depth + 1, limits) && |m.key| <= limits.maxString
    requires s == Then(MemberText(m), s5) && r.Got? && s5 == Then([CLOSE_BRACE], r.rest)
    requires r.value == Counted(Object(done[Said(m.key) := Meaning(m.item.tree)]), count + Count(m.item.tree))
    requires r.value.count <= limits.maxItems
    ensures MembersAs(s, done, [m], r, count, depth, limits)
  {
    hide MembersCorrect, MembersWithin, JoinedMembers, Bound, CountMembers, MemberText, MemberCorrect, Meaning, Count,
         Within, Said;
    SingleMember(m, depth + 1, limits);
    ThenConcat(MemberText(m), [CLOSE_BRACE], r.rest);
    assert done + map[Said(m.key) := Meaning(m.item.tree)] == done[Said(m.key) := Meaning(m.item.tree)];
  }

  lemma SingleMember(m: Member, depth: nat, limits: Limits)
    ensures MemberCorrect(m) ==> MembersCorrect([m])
    ensures Within(m.item.tree, depth, limits) && |m.key| <= limits.maxString ==> MembersWithin([m], depth, limits)
    ensures JoinedMembers([m]) == MemberText(m) && CountMembers([m]) == Count(m.item.tree)
    ensures Bound([m]) == map[Said(m.key) := Meaning(m.item.tree)]
  {
    hide Meaning, Count, Within, MemberText, MemberCorrect, Said;
    assert [m][1..] == [];
    NoMembers();
    NoBlank();
    assert MemberText(m) + [] == MemberText(m);
    assert map[Said(m.key) := Meaning(m.item.tree)] + map[] == map[Said(m.key) := Meaning(m.item.tree)];
  }

  lemma MoreMembers(s: Input, done: map<Str, Value>, m: Member, later: seq<Member>, s5: Input, s6: Input,
                    r: Parsed<Counted>, count: nat, depth: nat, limits: Limits)
    requires MemberCorrect(m) && Within(m.item.tree, depth + 1, limits) && |m.key| <= limits.maxString && r.Got?
    requires s == Then(MemberText(m), s5) && s5 == Then([COMMA], s6)
    requires MembersAs(s6, done[Said(m.key) := Meaning(m.item.tree)], later, r, count + Count(m.item.tree), depth, limits)
    ensures MembersAs(s, done, [m] + later, r, count, depth, limits)
  {
    hide MemberText, MemberCorrect, Said, Meaning, Count, Within;
    var ms := [m] + later;
    assert ms[1..] == later;
    var close := JoinedMembers(later) + [CLOSE_BRACE];
    assert JoinedMembers(ms) + [CLOSE_BRACE] == MemberText(m) + ([COMMA] + close);
    ThenConcat([COMMA], close, r.rest);
    ThenConcat(MemberText(m), [COMMA] + close, r.rest);
    var (k, v) := (Said(m.key), Meaning(m.item.tree));
    assert done[k := v] + Bound(later) == done + (map[k := v] + Bound(later));
  }

  // ---------------------------------------------------------------- documents

  /** A text is accepted, and read as a value, exactly if a document of RFC 8259 within the limits writes the
    * text and means the value. */
  lemma AcceptsExactly(text: Str, limits: Limits, v: Value)
    requires AllScalar(text)
    ensures var r := ParseDocument(Input(text, End), limits);
            (r.Got? && r.value == v) <==> exists d :: Spells(d, text, v, limits)
  {
    hide ParseDocument, Spells;
    var r := ParseDocument(Input(text, End), limits);
    if r.Got? && r.value == v {
      var d := DocumentWritten(text, limits);
    }
    forall d | Spells(d, text, v, limits) ensures r.Got? && r.value == v {
      DocumentReads(d, text, v, limits);
    }
  }

  lemma DocumentReads(d: Item, text: Str, v: Value, limits: Limits)
    requires Spells(d, text, v, limits)
    ensures ParseDocument(Input(text, End), limits) == Got(v, Input([], End))
  {
    hide ParseValue, Written, Meaning, Count, Within, Correct, Delimited;
    var end := Input([], End);
    var s1 := Then(d.after, end);
    assert Then(text, end) == Input(text, End);
    ThenConcat(d.before, Written(d.tree) + d.after, end);
    ThenConcat(Written(d.tree), d.after, end);
    assert ItemText(d) == d.before + (Written(d.tree) + d.after);
    BlankSkipped(d.after, end);
    BlankSkipped(d.before, Then(Written(d.tree), s1));
    EndDelimits(d.after);
    ValueReads(d.tree, s1, 0, 0, limits);
    ValueAfterBlanks(Input(text, End), Then(Written(d.tree), s1), 0, 0, limits);
  }

  lemma EndDelimits(after: Str)
    requires Blank(after)
    ensures Delimited(Then(after, Input([], End)))
  {
  }

  lemma DocumentWritten(text: Str, limits: Limits) returns (d: Item)
    requires AllScalar(text) && ParseDocument(Input(text, End), limits).Got?
    ensures Spells(d, text, ParseDocument(Input(text, End), limits).value, limits)
  {
    hide ParseValue, Written, Meaning, Count, Within, Correct, Blank;
    var s := Input(text, End);
    var b, t := ValueWritten(s, 0, 0, limits);
    var s1 := ParseValue(s, 0, 0, limits).rest;
    var after := SpaceWritten(s1);
    var s2 := SkipSpace(s1).rest;
    d := Item(b, t, after);
    ItemWritten(s, d, s1, s2);
    assert s.chars == ItemText(d) + s2.chars;
    assert s2.chars == s.chars[|ItemText(d)|..];
    assert ItemText(d) + [] == ItemText(d);
  }
}
