/** What a resolved document holds at each place, and how many references it took: one level of a value at a
  * time, by position, without the functions that put the result together. */
module ReferencePlaces {
  import opened Prelude
  import opened Text
  import opened JsonPointer
  import opened References

  /** A value of a file is resolved to this one, with this many references, at most n of them in a row. */
  ghost predicate Becomes(w: World, v: Json, file: Path, n: nat, r: Inlined<Json>) {
    Inline(w, v, file, n) == Some(r)
  }

  function Sum(counts: seq<nat>): nat {
    if counts == [] then 0 else counts[0] + Sum(counts[1..])
  }

  /** The members of an object other than its reference. */
  function Beside(ms: seq<Member>): seq<Member> {
    if ms == [] then []
    else (if ms[0].key == Codes("$ref") then [] else [ms[0]]) + Beside(ms[1..])
  }

  /** Values become others one by one. */
  ghost predicate AllBecome(w: World, vs: seq<Json>, file: Path, n: nat, rs: seq<Json>, counts: seq<nat>) {
    && |rs| == |vs| && |counts| == |vs|
    && forall i :: 0 <= i < |vs| ==> Becomes(w, vs[i], file, n, Inlined(rs[i], counts[i]))
  }

  function Values(ms: seq<Member>): (vs: seq<Json>)
    ensures |vs| == |ms| && forall i :: 0 <= i < |ms| ==> vs[i] == ms[i].value
  {
    seq(|ms|, i requires 0 <= i < |ms| => ms[i].value)
  }

  /** The same keys in the same order, each with what its value becomes. */
  ghost predicate MembersBecome(w: World, ms: seq<Member>, file: Path, n: nat, rs: seq<Member>, counts: seq<nat>) {
    && AllBecome(w, Values(ms), file, n, Values(rs), counts)
    && |rs| == |ms| && forall i :: 0 <= i < |ms| ==> rs[i].key == ms[i].key
  }

  /** The value that a reference of a file leads to, and the file it stands in. */
  ghost predicate LeadsTo(w: World, text: Str, file: Path, target: Json, there: Path) {
    exists m :: w.target(text, file) == Some(m) && m.file == there && m.file in w.files
                && Evaluate(w.files[m.file], m.pointer) == Some(target)
  }

  /** What a value becomes, one level deep: scalars stay; a list keeps its length; an object without a reference
    * keeps its keys; a reference is replaced by what its target becomes, and what stands beside it is kept
    * under allOf as a second object, after the target, and has no allOf of its own. */
  ghost predicate Placed(w: World, v: Json, file: Path, n: nat, r: Inlined<Json>, counts: seq<nat>) {
    match v
    case List(items) =>
      r.value.List? && AllBecome(w, items, file, n, r.value.items, counts) && r.references == Sum(counts)
    case Object(ms) =>
      (match Find(ms, Codes("$ref"))
       case Some(String(text)) =>
         && n > 0
         && exists target, there, resolved: Inlined<Json> ::
              && LeadsTo(w, text, file, target, there) && Becomes(w, target, there, n - 1, resolved)
              && (if Beside(ms) == [] then r == Inlined(resolved.value, 1 + resolved.references)
                  else BesideTarget(w, ms, file, n, r, resolved, counts))
       case _ =>
         && r.value.Object? && MembersBecome(w, ms, file, n, r.value.members, counts)
         && r.references == Sum(counts))
    case _ => r == Inlined(v, 0)
  }

  ghost predicate BesideTarget(w: World, ms: seq<Member>, file: Path, n: nat, r: Inlined<Json>, resolved: Inlined<Json>,
                               counts: seq<nat>)
  {
    && r.value.Object? && |r.value.members| == 1 && r.value.members[0].key == Codes("allOf")
    && var both := r.value.members[0].value;
       && both.List? && |both.items| == 2 && both.items[0] == resolved.value && both.items[1].Object?
       && var rs := both.items[1].members;
          && MembersBecome(w, Beside(ms), file, n, rs, counts)
          && (forall i :: 0 <= i < |rs| ==> rs[i].key != Codes("allOf"))
          && r.references == 1 + resolved.references + Sum(counts)
  }

  // ---------------------------------------------------------------- lists and members

  lemma {:induction false} ItemsPlaced(w: World, items: seq<Json>, file: Path, n: nat) returns (counts: seq<nat>)
    requires InlineItems(w, items, file, n).Some?
    ensures var r := InlineItems(w, items, file, n).value;
            AllBecome(w, items, file, n, r.value, counts) && r.references == Sum(counts)
  {
    hide Inline;
    if items == [] {
      counts := [];
    } else {
      var later := ItemsPlaced(w, items[1..], file, n);
      var first := Inline(w, items[0], file, n).value;
      counts := [first.references] + later;
      assert counts[1..] == later;
    }
  }

  lemma {:induction false} MembersPlaced(w: World, ms: seq<Member>, siblings: bool, file: Path, n: nat)
    returns (counts: seq<nat>)
    requires InlineMembers(w, ms, siblings, file, n).Some?
    ensures var r := InlineMembers(w, ms, siblings, file, n).value;
            MembersBecome(w, if siblings then Beside(ms) else ms, file, n, r.value, counts) && r.references == Sum(counts)
  {
    hide Inline, MembersBecome, Sum;
    if ms == [] {
      counts := [];
      NonePlaced(w, file, n);
    } else if siblings && ms[0].key == REF {
      counts := MembersPlaced(w, ms[1..], siblings, file, n);
      assert [] + Beside(ms[1..]) == Beside(ms[1..]);
    } else {
      var counted := MembersPlaced(w, ms[1..], siblings, file, n);
      var first := Inline(w, ms[0].value, file, n).value;
      counts := [first.references] + counted;
      var later := if siblings then Beside(ms[1..]) else ms[1..];
      assert (if siblings then Beside(ms) else ms) == [ms[0]] + later;
      OnePlaced(w, ms[0], later, file, n, first, InlineMembers(w, ms[1..], siblings, file, n).value.value, counted);
    }
  }

  lemma NonePlaced(w: World, file: Path, n: nat)
    ensures MembersBecome(w, [], file, n, [], []) && Sum([]) == 0
  {
  }

  lemma OnePlaced(w: World, m: Member, ms: seq<Member>, file: Path, n: nat, first: Inlined<Json>, rs: seq<Member>,
                  counts: seq<nat>)
    requires Becomes(w, m.value, file, n, first) && MembersBecome(w, ms, file, n, rs, counts)
    ensures MembersBecome(w, [m] + ms, file, n, [Member(m.key, first.value)] + rs, [first.references] + counts)
    ensures Sum([first.references] + counts) == first.references + Sum(counts)
  {
    hide Becomes;
    var (all, made, sums) := ([m] + ms, [Member(m.key, first.value)] + rs, [first.references] + counts);
    assert sums[1..] == counts;
    forall i | 0 <= i < |all|
      ensures Becomes(w, Values(all)[i], file, n, Inlined(Values(made)[i], sums[i])) && made[i].key == all[i].key
    {
      if i > 0 {
        assert Becomes(w, Values(ms)[i - 1], file, n, Inlined(Values(rs)[i - 1], counts[i - 1]));
        assert Values(all)[i] == Values(ms)[i - 1] && Values(made)[i] == Values(rs)[i - 1] && sums[i] == counts[i - 1];
      }
    }
  }

  lemma {:induction false} BesideIsSiblings(ms: seq<Member>)
    ensures Beside(ms) == [] <==> !HasSiblings(ms)
  {
    if ms != [] {
      BesideIsSiblings(ms[1..]);
      assert ms == [ms[0]] + ms[1..];
      if ms[0].key != REF { assert ms[0] in ms; }
    }
  }

  lemma {:induction false} NotFound(ms: seq<Member>, key: Str)
    requires Find(ms, key).None?
    ensures forall i :: 0 <= i < |ms| ==> ms[i].key != key
  {
    if ms != [] { NotFound(ms[1..], key); }
  }

  // ---------------------------------------------------------------- the theorem

  lemma ReferencePlaced(w: World, ms: seq<Member>, file: Path, n: nat) returns (counts: seq<nat>)
    requires ReferenceOf(ms).Some? && Inline(w, Object(ms), file, n).Some?
    ensures Placed(w, Object(ms), file, n, Inline(w, Object(ms), file, n).value, counts)
  {
    hide InlineMembers, InlineItems, Beside, HasSiblings, Lookup;
    var r := Inline(w, Object(ms), file, n).value;
    assert Inline(w, Object(ms), file, n) == InlineReference(w, ms, file, n);
    var target := TargetOf(w, ms, file).value;
    var resolved := Inline(w, target.0, target.1.file, n - 1).value;
    BesideIsSiblings(ms);
    FoundTarget(w, ms, file);
    if HasSiblings(ms) {
      counts := MembersPlaced(w, ms, true, file, n);
      NotFound(InlineMembers(w, ms, true, file, n).value.value, ALL_OF);
      assert BesideTarget(w, ms, file, n, r, resolved, counts);
    } else {
      counts := [];
    }
    assert LeadsTo(w, ReferenceOf(ms).value, file, target.0, target.1.file)
           && Becomes(w, target.0, target.1.file, n - 1, resolved);
  }

  lemma FoundTarget(w: World, ms: seq<Member>, file: Path)
    requires ReferenceOf(ms).Some? && TargetOf(w, ms, file).Some?
    ensures var target := TargetOf(w, ms, file).value;
            LeadsTo(w, ReferenceOf(ms).value, file, target.0, target.1.file)
  {
    var m := w.target(ReferenceOf(ms).value, file).value;
    assert w.target(ReferenceOf(ms).value, file) == Some(m);
  }

  lemma EachPlace(w: World, v: Json, file: Path, n: nat) returns (counts: seq<nat>)
    requires Inline(w, v, file, n).Some?
    ensures Placed(w, v, file, n, Inline(w, v, file, n).value, counts)
  {
    hide InlineMembers, InlineItems, InlineReference;
    match v
    case List(items) => counts := ItemsPlaced(w, items, file, n);
    case Object(ms) =>
      if ReferenceOf(ms).Some? {
        counts := ReferencePlaced(w, ms, file, n);
      } else {
        counts := MembersPlaced(w, ms, false, file, n);
      }
    case _ => counts := [];
  }

  lemma {:induction false} ItemsTogether(w: World, items: seq<Json>, file: Path, n: nat, rs: seq<Json>,
                                         counts: seq<nat>)
    requires AllBecome(w, items, file, n, rs, counts)
    ensures InlineItems(w, items, file, n) == Some(Inlined(rs, Sum(counts)))
  {
    hide Inline;
    if items != [] {
      assert Becomes(w, items[0], file, n, Inlined(rs[0], counts[0]));
      forall i | 0 <= i < |items[1..]| ensures Becomes(w, items[1..][i], file, n, Inlined(rs[1..][i], counts[1..][i])) {
        assert Becomes(w, items[i + 1], file, n, Inlined(rs[i + 1], counts[i + 1]));
      }
      ItemsTogether(w, items[1..], file, n, rs[1..], counts[1..]);
      assert rs == [rs[0]] + rs[1..];
    }
  }

  lemma {:induction false} MembersTogether(w: World, ms: seq<Member>, siblings: bool, file: Path, n: nat,
                                           rs: seq<Member>,
                                           counts: seq<nat>)
    requires MembersBecome(w, if siblings then Beside(ms) else ms, file, n, rs, counts)
    ensures InlineMembers(w, ms, siblings, file, n) == Some(Inlined(rs, Sum(counts)))
  {
    hide Inline, MembersBecome;
    if ms == [] {
      assert MembersBecome(w, [], file, n, rs, counts);
      NoneBecome(w, file, n, rs, counts);
    } else if siblings && ms[0].key == REF {
      assert [] + Beside(ms[1..]) == Beside(ms[1..]);
      MembersTogether(w, ms[1..], siblings, file, n, rs, counts);
    } else {
      var later := if siblings then Beside(ms[1..]) else ms[1..];
      assert (if siblings then Beside(ms) else ms) == [ms[0]] + later;
      FirstBecomes(w, ms[0], later, file, n, rs, counts);
      FirstAndRest(rs);
      MembersTogether(w, ms[1..], siblings, file, n, rs[1..], counts[1..]);
    }
  }

  lemma NoneBecome(w: World, file: Path, n: nat, rs: seq<Member>, counts: seq<nat>)
    requires MembersBecome(w, [], file, n, rs, counts)
    ensures rs == [] && counts == []
  {
  }

  lemma FirstBecomes(w: World, m: Member, ms: seq<Member>, file: Path, n: nat, rs: seq<Member>, counts: seq<nat>)
    requires MembersBecome(w, [m] + ms, file, n, rs, counts)
    ensures rs != [] && counts != [] && MembersBecome(w, ms, file, n, rs[1..], counts[1..])
    ensures Becomes(w, m.value, file, n, Inlined(rs[0].value, counts[0])) && rs[0].key == m.key
  {
    hide Becomes;
    var all := [m] + ms;
    assert Values(all)[0] == m.value && Values(rs)[0] == rs[0].value && rs[0].key == all[0].key;
    forall i | 0 <= i < |ms|
      ensures Becomes(w, Values(ms)[i], file, n, Inlined(Values(rs[1..])[i], counts[1..][i]))
              && rs[1..][i].key == ms[i].key
    {
      assert Values(all)[i + 1] == ms[i].value && rs[i + 1].key == all[i + 1].key;
      assert Becomes(w, Values(all)[i + 1], file, n, Inlined(Values(rs)[i + 1], counts[i + 1]));
    }
  }

  lemma FirstAndRest(rs: seq<Member>)
    requires rs != []
    ensures rs == [Member(rs[0].key, rs[0].value)] + rs[1..]
  {
  }

  lemma {:induction false} NotThere(ms: seq<Member>, key: Str)
    requires forall i :: 0 <= i < |ms| ==> ms[i].key != key
    ensures Find(ms, key).None?
  {
    if ms != [] {
      forall i | 0 <= i < |ms[1..]| ensures ms[1..][i].key != key { assert ms[1..][i] == ms[i + 1]; }
      NotThere(ms[1..], key);
    }
  }

  lemma ReferenceTogether(w: World, ms: seq<Member>, file: Path, n: nat, r: Inlined<Json>, counts: seq<nat>)
    requires ReferenceOf(ms).Some? && Placed(w, Object(ms), file, n, r, counts)
    ensures Becomes(w, Object(ms), file, n, r)
  {
    hide InlineMembers, InlineItems, Beside, HasSiblings, MembersBecome;
    var target, there, resolved: Inlined<Json> :|
      && LeadsTo(w, ReferenceOf(ms).value, file, target, there) && Becomes(w, target, there, n - 1, resolved)
      && (if Beside(ms) == [] then r == Inlined(resolved.value, 1 + resolved.references)
          else BesideTarget(w, ms, file, n, r, resolved, counts));
    var m :| w.target(ReferenceOf(ms).value, file) == Some(m) && m.file == there && m.file in w.files
             && Evaluate(w.files[m.file], m.pointer) == Some(target);
    assert TargetOf(w, ms, file) == Some((target, m));
    assert Inline(w, Object(ms), file, n) == InlineReference(w, ms, file, n);
    BesideIsSiblings(ms);
    if HasSiblings(ms) {
      var rs := r.value.members[0].value.items[1].members;
      MembersTogether(w, ms, true, file, n, rs, counts);
      NotThere(rs, ALL_OF);
      CombinedIs(r.value, resolved.value, rs);
    }
  }

  lemma CombinedIs(v: Json, resolved: Json, rs: seq<Member>)
    requires v.Object? && |v.members| == 1 && v.members[0].key == Codes("allOf")
    requires v.members[0].value.List? && |v.members[0].value.items| == 2
    requires v.members[0].value.items[0] == resolved && v.members[0].value.items[1] == Object(rs)
    ensures v == Combined(resolved, rs)
  {
    assert v.members[0].value.items == [resolved, Object(rs)];
    assert v.members == [Member(ALL_OF, List([resolved, Object(rs)]))];
  }

  /** A value is resolved to another one, with some number of references, exactly if its parts are, each at its
    * place, and the numbers add up. */
  lemma PlacedExactly(w: World, v: Json, file: Path, n: nat, r: Inlined<Json>)
    ensures Becomes(w, v, file, n, r) <==> exists counts :: Placed(w, v, file, n, r, counts)
  {
    hide InlineMembers, InlineItems, InlineReference, Placed;
    if Becomes(w, v, file, n, r) {
      var counts := EachPlace(w, v, file, n);
    }
    forall counts | Placed(w, v, file, n, r, counts) ensures Becomes(w, v, file, n, r) {
      Together(w, v, file, n, r, counts);
    }
  }

  lemma Together(w: World, v: Json, file: Path, n: nat, r: Inlined<Json>, counts: seq<nat>)
    requires Placed(w, v, file, n, r, counts)
    ensures Becomes(w, v, file, n, r)
  {
    hide InlineMembers, InlineItems, InlineReference, Beside;
    match v
    case List(items) => ItemsTogether(w, items, file, n, r.value.items, counts);
    case Object(ms) =>
      if ReferenceOf(ms).Some? {
        ReferenceTogether(w, ms, file, n, r, counts);
      } else {
        MembersTogether(w, ms, false, file, n, r.value.members, counts);
      }
    case _ =>
  }
}
