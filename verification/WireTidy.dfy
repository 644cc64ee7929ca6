/** The tidiest text of a value: no white space, no needless escape, each key once and in order. It is the
  * canonical text, and there is no other. */
module WireTidy {
  import opened Prelude
  import opened Text
  import opened Utf8
  import opened WireValue
  import opened WireSyntax
  import opened WireReading

  // ---------------------------------------------------------------- tidy trees

  /** An escape stands only where a character may not be written as it is, it is of one letter where there
    * is one, and its digits are lower-case. */
  predicate TidyPiece(p: Piece) {
    match p
    case Plain(_) => true
    case Short(i) => NAMED[i] != 0x2F
    case Unit(q) => q.Number() < 0x20 && q.Number() !in NAMED && !q.c.upper && !q.d.upper
    case Pair(_, _, _) => false
  }

  predicate TidyPieces(ps: seq<Piece>) {
    forall i :: 0 <= i < |ps| ==> TidyPiece(ps[i])
  }

  function Keys(ms: seq<Member>): (ks: seq<Str>)
    ensures |ks| == |ms|
  {
    if ms == [] then [] else [Said(ms[0].key)] + Keys(ms[1..])
  }

  /** No white space, no needless escape, and each key once, in the order of code points. */
  ghost predicate Tidy(t: Tree) {
    match t
    case Chars(ps) => TidyPieces(ps)
    case List(blank, items) => blank == [] && TidyItems(items)
    case Record(blank, ms) => blank == [] && TidyMembers(ms) && Increasing(Keys(ms))
    case _ => true
  }

  ghost predicate TidyItem(i: Item) {
    i.before == [] && i.after == [] && Tidy(i.tree)
  }

  ghost predicate TidyItems(items: seq<Item>) {
    items == [] || (TidyItem(items[0]) && TidyItems(items[1..]))
  }

  ghost predicate TidyMembers(ms: seq<Member>) {
    ms == [] || (ms[0].before == [] && ms[0].between == [] && TidyPieces(ms[0].key) && TidyItem(ms[0].item)
                 && TidyMembers(ms[1..]))
  }

  // ---------------------------------------------------------------- the canonical text is tidy

  lemma TidyEscape(p: Piece)
    requires p.Correct() && TidyPiece(p)
    ensures p.Written() == EscapeChar(p.Meaning())
  {
    if p.Unit? {
      var (q, n) := (p.quad, p.quad.Number());
      assert n !in NAMED ==> n != NAMED[3] && n != NAMED[4] && n != NAMED[5] && n != NAMED[6] && n != NAMED[7];
      assert q.a.value == 0 && q.b.value == 0 && q.c.value == n / 16 && q.d.value == n % 16;
    }
  }

  lemma {:induction false} TidyText(ps: seq<Piece>)
    requires AllCorrect(ps) && TidyPieces(ps)
    ensures PiecesText(ps) == EscapeText(Said(ps))
  {
    hide EscapeChar, Piece.Written, Piece.Meaning, Piece.Correct, TidyPiece;
    if ps != [] {
      TidyEscape(ps[0]);
      TidyText(ps[1..]);
      assert Said(ps)[1..] == Said(ps[1..]);
    }
  }

  lemma TidyString(ps: seq<Piece>)
    requires AllCorrect(ps) && TidyPieces(ps)
    ensures StringText(ps) == Quoted(Said(ps))
  {
    TidyText(ps);
  }

  /** A tidy tree writes the canonical text of what it means. */
  lemma {:induction false} TidyIsCanon(t: Tree)
    requires Correct(t) && Tidy(t)
    ensures Written(t) == Canon(Meaning(t))
    decreases t, 1
  {
    hide JoinedItems, JoinedMembers, CanonItems, CanonMembers, Said, StringText, Numeral.Written, Sorted, Quoted;
    match t
    case Chars(ps) => TidyString(ps);
    case List(_, items) =>
      TidyIsCanonItems(items);
      assert [0x5B] + [] + JoinedItems(items) + [0x5D] == [0x5B] + JoinedItems(items) + [0x5D];
    case Record(_, ms) => TidyIsCanonRecord(t);
    case _ => NameText();
  }

  lemma {:induction false} TidyIsCanonItems(items: seq<Item>)
    requires ItemsCorrect(items) && TidyItems(items)
    ensures JoinedItems(items) == CanonItems(Meanings(items))
    decreases items, 2
  {
    hide Written, Meaning, Canon, Correct, Tidy;
    if items != [] {
      TidyIsCanon(items[0].tree);
      TidyIsCanonItems(items[1..]);
      assert [] + Written(items[0].tree) + [] == Written(items[0].tree);
      assert Meanings(items)[1..] == Meanings(items[1..]);
      assert |items| == 1 ==> Meanings(items[1..]) == [];
      assert |items| > 1 ==> Meanings(items[1..]) != [];
    }
  }

  lemma {:induction false} TidyIsCanonRecord(t: Tree)
    requires t.Record? && Correct(t) && Tidy(t)
    ensures Written(t) == Canon(Meaning(t))
    decreases t, 0
  {
    hide JoinedMembers, CanonMembers, Sorted, Increasing, MembersCorrect, TidyMembers, Bound, BoundTo, Keys;
    var (ms, v) := (t.members, Meaning(t));
    BoundOnce(ms);
    assert v == Object(Bound(ms));
    SortedIsUnique(Keys(ms), Sorted(v.members.Keys));
    TidyIsCanonMembers(v, ms);
    NoWhite(JoinedMembers(ms));
    CanonObject(v);
  }

  lemma NoWhite(body: Str)
    ensures [0x7B] + [] + body + [0x7D] == [0x7B] + body + [0x7D]
  {
  }

  lemma CanonObject(v: Value)
    requires v.Object?
    ensures Canon(v) == [OPEN_BRACE] + CanonMembers(v, Sorted(v.members.Keys)) + [CLOSE_BRACE]
  {
    hide CanonMembers, Sorted;
  }

  /** The value that a key has, for each member of an object. */
  ghost predicate BoundTo(m: map<Str, Value>, ms: seq<Member>) {
    ms == [] || (Get(m, Said(ms[0].key)) == Some(Meaning(ms[0].item.tree)) && BoundTo(m, ms[1..]))
  }

  /** Keys that increase are all different, so that each member counts. */
  lemma {:induction false} BoundOnce(ms: seq<Member>)
    requires Increasing(Keys(ms))
    ensures Bound(ms).Keys == Members(Keys(ms)) && BoundTo(Bound(ms), ms)
  {
    hide Said, Meaning, Increasing;
    if ms != [] {
      var ks := Keys(ms);
      assert ks[1..] == Keys(ms[1..]);
      RestOf(ks);
      BoundOnce(ms[1..]);
      BoundFurther(Bound(ms[1..]), ks[0], Meaning(ms[0].item.tree), ms[1..]);
      assert Members(ks) == {ks[0]} + Members(ks[1..]);
    }
  }

  lemma {:induction false} BoundFurther(m: map<Str, Value>, k: Str, v: Value, ms: seq<Member>)
    requires BoundTo(m, ms) && k !in m
    ensures BoundTo(map[k := v] + m, ms)
  {
    hide Said, Meaning;
    if ms != [] { BoundFurther(m, k, v, ms[1..]); }
  }

  /** There is one increasing order of the same keys. */
  lemma {:induction false} SortedIsUnique(a: seq<Str>, b: seq<Str>)
    requires Increasing(a) && Increasing(b) && Members(a) == Members(b)
    ensures a == b
  {
    FirstIsMember(a);
    FirstIsMember(b);
    if a != [] && b != [] {
      assert b[0] in Members(a) && a[0] in Members(b);
      FirstIsLeast(a, b[0]);
      FirstIsLeast(b, a[0]);
      LexAntisymmetric(a[0], b[0]);
      RestOf(a);
      RestOf(b);
      SortedIsUnique(a[1..], b[1..]);
      assert a == [a[0]] + a[1..] && b == [b[0]] + b[1..];
    }
  }

  lemma FirstIsMember(ks: seq<Str>)
    ensures ks != [] ==> ks[0] in Members(ks)
  {
  }

  lemma FirstIsLeast(a: seq<Str>, k: Str)
    requires Increasing(a) && k in a
    ensures LexLe(a[0], k)
  {
    var j :| 0 <= j < |a| && a[j] == k;
    if j == 0 { LexTotal(k, k); } else { assert LexLess(a[0], a[j]); }
  }

  lemma RestOf(a: seq<Str>)
    requires Increasing(a) && a != []
    ensures Increasing(a[1..]) && a[0] in Members(a) && Members(a[1..]) == Members(a) - {a[0]}
  {
    assert a == [a[0]] + a[1..];
    MembersOfCons(a[0], a[1..]);
    forall j | 0 <= j < |a[1..]| ensures a[1..][j] != a[0] { assert LexLess(a[0], a[j + 1]); }
    forall i, j | 0 <= i < j < |a[1..]| ensures LexLess(a[1..][i], a[1..][j]) {
      assert LexLess(a[i + 1], a[j + 1]);
    }
  }

  lemma {:induction false} TidyIsCanonMembers(v: Value, ms: seq<Member>)
    requires MembersCorrect(ms) && TidyMembers(ms) && v.Object? && BoundTo(v.members, ms)
    ensures (forall k :: k in Keys(ms) ==> k in v.members) && JoinedMembers(ms) == CanonMembers(v, Keys(ms))
    decreases ms, 2
  {
    hide Written, Meaning, Canon, Correct, Tidy, Said, Quoted, StringText, AllCorrect, Blank;
    if ms != [] {
      var (m, ks) := (ms[0], Keys(ms));
      assert ks[1..] == Keys(ms[1..]);
      assert MemberCorrect(m) && ItemCorrect(m.item) && TidyItem(m.item);
      TidyIsCanon(m.item.tree);
      TidyString(m.key);
      TidyIsCanonMembers(v, ms[1..]);
      assert ks == [ks[0]] + ks[1..];
      var w := Written(m.item.tree);
      assert MemberText(m) == StringText(m.key) + [0x3A] + w by { assert [] + w + [] == w; }
      assert MemberText(m) == CanonMember(v, ks[0]);
    }
  }

  // ---------------------------------------------------------------- every value has a tidy tree

  function TidyPieceOf(c: int): (p: Piece)
    requires 0 <= c
    ensures p.Correct() && TidyPiece(p) && p.Meaning() == c
  {
    if c == 0x22 then Short(0) else if c == 0x5C then Short(1) else if c == 0x08 then Short(3)
    else if c == 0x0C then Short(4) else if c == 0x0A then Short(5) else if c == 0x0D then Short(6)
    else if c == 0x09 then Short(7)
    else if c < 0x20 then Unit(Quad(Hex(0, false), Hex(0, false), Hex(c / 16, false), Hex(c % 16, false)))
    else Plain(c)
  }

  lemma {:induction false} TidyPiecesOf(s: Str) returns (ps: seq<Piece>)
    requires AllScalar(s)
    ensures AllCorrect(ps) && TidyPieces(ps) && Said(ps) == s
  {
    if s == [] {
      ps := [];
    } else {
      var later := TidyPiecesOf(s[1..]);
      ps := [TidyPieceOf(s[0])] + later;
      assert ps[1..] == later;
      assert s == [s[0]] + s[1..];
    }
  }

  lemma {:induction false} TidyTreeOf(v: Value, limits: Limits) returns (t: Tree)
    requires ContentFits(v, limits)
    ensures Correct(t) && Tidy(t) && Meaning(t) == v
    decreases v, 1
  {
    hide IsNumber, Sorted, Said, AllCorrect, TidyPieces, Numeral.Written, Numeral.Correct;
    match v
    case Null => t := Nothing;
    case Bool(b) => t := Truth(b);
    case Number(token) => var n := NumberIsNumeral(token); t := Figure(n);
    case Text(s) => var ps := TidyPiecesOf(s); t := Tree.Chars(ps);
    case Array(items) =>
      BlankNothing();
      var row := TidyItemsOf(items, limits);
      t := List([], row);
    case Object(_) => t := TidyRecordOf(v, limits);
  }

  lemma {:induction false} TidyItemsOf(items: seq<Value>, limits: Limits) returns (row: seq<Item>)
    requires forall i :: 0 <= i < |items| ==> ContentFits(items[i], limits)
    ensures ItemsCorrect(row) && TidyItems(row) && Meanings(row) == items
    decreases items, 0
  {
    hide ContentFits, Tidy, Correct, Meaning;
    if items == [] {
      row := [];
    } else {
      BlankNothing();
      var t := TidyTreeOf(items[0], limits);
      var later := TidyItemsOf(items[1..], limits);
      row := [Item([], t, [])] + later;
      assert row[1..] == later;
      assert items == [items[0]] + items[1..];
    }
  }

  lemma {:induction false} TidyRecordOf(v: Value, limits: Limits) returns (t: Tree)
    requires v.Object? && ContentFits(v, limits)
    ensures Correct(t) && Tidy(t) && Meaning(t) == v
    decreases v, 0, |v.members| + 1
  {
    hide Sorted, Increasing, ContentFits, MembersCorrect, TidyMembers, Keys, Bound, BoundTo;
    var ks := Sorted(v.members.Keys);
    BlankNothing();
    forall k | k in ks ensures k in v.members { assert k in Members(ks); }
    var ms := TidyMembersOf(v, ks, limits);
    t := Record([], ms);
    BoundOnce(ms);
    SameBound(Bound(ms), v.members, ms);
    forall k | k in v.members ensures Bound(ms)[k] == v.members[k] { assert k in Members(ks); }
    assert Bound(ms) == v.members;
  }

  lemma {:induction false} TidyMembersOf(v: Value, ks: seq<Str>, limits: Limits) returns (ms: seq<Member>)
    requires v.Object? && ContentFits(v, limits) && forall k :: k in ks ==> k in v.members
    ensures MembersCorrect(ms) && TidyMembers(ms) && Keys(ms) == ks && BoundTo(v.members, ms)
    decreases v, 0, |ks|
  {
    hide Tidy, Correct, Meaning, Said, AllCorrect, TidyPieces, AllScalar;
    if ks == [] {
      ms := [];
    } else {
      var k := ks[0];
      assert k in ks && StringFits(k, limits) && ContentFits(v.members[k], limits);
      BlankNothing();
      var key := TidyPiecesOf(k);
      var t := TidyTreeOf(v.members[k], limits);
      var later := TidyMembersOf(v, ks[1..], limits);
      ms := [Member([], key, [], Item([], t, []))] + later;
      OneMoreTidy(v, k, key, t, later);
      assert ks == [k] + ks[1..];
    }
  }

  lemma OneMoreTidy(v: Value, k: Str, key: seq<Piece>, t: Tree, later: seq<Member>)
    requires v.Object? && k in v.members && AllCorrect(key) && TidyPieces(key) && Said(key) == k
    requires Correct(t) && Tidy(t) && Meaning(t) == v.members[k]
    requires MembersCorrect(later) && TidyMembers(later) && BoundTo(v.members, later)
    ensures var ms := [Member([], key, [], Item([], t, []))] + later;
            MembersCorrect(ms) && TidyMembers(ms) && Keys(ms) == [k] + Keys(later) && BoundTo(v.members, ms)
  {
    hide Tidy, Correct, Meaning, Said, AllCorrect, TidyPieces;
    var m := Member([], key, [], Item([], t, []));
    assert ([m] + later)[1..] == later;
    BlankNothing();
    assert ItemCorrect(m.item) && MemberCorrect(m) && TidyItem(m.item);
  }

  lemma {:induction false} SameBound(m: map<Str, Value>, n: map<Str, Value>, ms: seq<Member>)
    requires BoundTo(m, ms) && BoundTo(n, ms)
    ensures forall k :: k in Keys(ms) ==> k in m && k in n && m[k] == n[k]
  {
    hide Said, Meaning;
    if ms != [] {
      SameBound(m, n, ms[1..]);
      assert Keys(ms)[1..] == Keys(ms[1..]);
    }
  }
}
