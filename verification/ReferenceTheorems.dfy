/** What resolution promises of cycles, and when its result is free of references. */
module ReferenceTheorems {
  import opened Prelude
  import opened Text
  import opened JsonPointer
  import opened References
  import WireInteger

  // ---------------------------------------------------------------- cycles

  /** A reference somewhere in a value leads to a marker. */
  ghost predicate Mentions(w: World, v: Json, file: Path, m: Marker)
    decreases v, 1
  {
    match v
    case List(items) => ItemsMention(w, items, file, m)
    case Object(ms) =>
      if ReferenceOf(ms).Some? then
        w.target(ReferenceOf(ms).value, file) == Some(m) || (HasSiblings(ms) && MembersMention(w, ms, true, file, m))
      else MembersMention(w, ms, false, file, m)
    case _ => false
  }

  ghost predicate ItemsMention(w: World, items: seq<Json>, file: Path, m: Marker)
    decreases items, 0
  {
    items != [] && (Mentions(w, items[0], file, m) || ItemsMention(w, items[1..], file, m))
  }

  ghost predicate MembersMention(w: World, ms: seq<Member>, siblings: bool, file: Path, m: Marker)
    decreases ms, 0
  {
    ms != [] && ((!(siblings && ms[0].key == REF) && Mentions(w, ms[0].value, file, m))
                 || MembersMention(w, ms[1..], siblings, file, m))
  }

  /** What a value mentions can be inlined with less. */
  lemma {:induction false} MentionedInlines(w: World, v: Json, file: Path, m: Marker, n: nat)
    requires Mentions(w, v, file, m) && Inlines(w, v, file, n)
    ensures n > 0 && MarkerInlines(w, m, n - 1)
    decreases v, 1
  {
    hide ReferenceOf, HasSiblings, InlineMembers, InlineItems, MembersMention, ItemsMention, MarkerInlines;
    match v
    case List(items) => ItemMentionedInlines(w, items, file, m, n);
    case Object(ms) =>
      if ReferenceOf(ms).Some? {
        assert InlineReference(w, ms, file, n).Some?;
        assert v == Object(ms);
        ReferenceNeedsMore(w, ms, file, n);
        if w.target(ReferenceOf(ms).value, file) != Some(m) { MemberMentionedInlines(w, ms, true, file, m, n); }
      } else {
        MemberMentionedInlines(w, ms, false, file, m, n);
      }
    case _ =>
  }

  lemma {:induction false} ItemMentionedInlines(w: World, items: seq<Json>, file: Path, m: Marker, n: nat)
    requires ItemsMention(w, items, file, m) && ItemsInline(w, items, file, n)
    ensures n > 0 && MarkerInlines(w, m, n - 1)
    decreases items, 0
  {
    hide Inline, MarkerInlines, Mentions;
    if Mentions(w, items[0], file, m) {
      MentionedInlines(w, items[0], file, m, n);
    } else {
      ItemMentionedInlines(w, items[1..], file, m, n);
    }
  }

  lemma {:induction false} MemberMentionedInlines(w: World, ms: seq<Member>, siblings: bool, file: Path, m: Marker,
                                                  n: nat)
    requires MembersMention(w, ms, siblings, file, m) && MembersInline(w, ms, siblings, file, n)
    ensures n > 0 && MarkerInlines(w, m, n - 1)
    decreases ms, 0
  {
    hide Inline, MarkerInlines, Mentions;
    if !(siblings && ms[0].key == REF) && Mentions(w, ms[0].value, file, m) {
      MentionedInlines(w, ms[0].value, file, m, n);
    } else {
      MemberMentionedInlines(w, ms[1..], siblings, file, m, n);
    }
  }

  /** The value of one marker mentions another. */
  ghost predicate RefersTo(w: World, a: Marker, b: Marker) {
    Lookup(w, a).Some? && Mentions(w, Lookup(w, a).value, a.file, b)
  }

  ghost predicate Linked(w: World, p: seq<Marker>) {
    forall i :: 0 <= i < |p| - 1 ==> RefersTo(w, p[i], p[i + 1])
  }

  lemma {:induction false} DownTheChain(w: World, p: seq<Marker>, i: nat, j: nat, n: nat)
    requires Linked(w, p) && i <= j < |p| && MarkerInlines(w, p[i], n)
    ensures n >= j - i && MarkerInlines(w, p[j], n - (j - i))
    decreases j - i
  {
    hide Mentions, Lookup, Inline;
    if i < j {
      assert RefersTo(w, p[i], p[i + 1]);
      MentionedInlines(w, Lookup(w, p[i]).value, p[i].file, p[i + 1], n);
      DownTheChain(w, p, i + 1, j, n - 1);
    }
  }

  /** Nothing on a cycle can be inlined, with any fuel. */
  lemma {:induction false} CycleNeverInlines(w: World, p: seq<Marker>, i: nat, j: nat, n: nat)
    requires Linked(w, p) && i < j < |p| && p[i] == p[j]
    ensures !MarkerInlines(w, p[i], n)
    decreases n
  {
    hide Linked, MarkerInlines;
    if MarkerInlines(w, p[i], n) {
      DownTheChain(w, p, i, j, n);
      CycleNeverInlines(w, p, i, j, n - (j - i));
    }
  }

  /** A document from which references lead back to where they have been is always rejected, wherever the
    * cycle lies, through whichever files it goes, and whatever the limits are. */
  lemma CyclesAreRejected(w: World, file: Path, p: seq<Marker>, i: nat, j: nat)
    requires file in w.files && Linked(w, p) && i < j < |p| && p[i] == p[j]
    requires Mentions(w, w.files[file], file, p[0])
    ensures Resolve(w, file).Stopped?
  {
    hide Walk, Inline, Mentions, Linked, MarkerInlines;
    if Resolve(w, file).Done? {
      WalkIsInline(w, w.files[file], file, 0, [], 0);
      MentionedInlines(w, w.files[file], file, p[0], w.maxDepth);
      DownTheChain(w, p, 0, i, w.maxDepth - 1);
      CycleNeverInlines(w, p, i, j, w.maxDepth - 1 - i);
    }
  }

  // ---------------------------------------------------------------- results free of references

  /** No object anywhere in a value has a string member named $ref. */
  ghost predicate ReferenceFree(v: Json)
    decreases v, 1
  {
    match v
    case List(items) => ItemsFree(items)
    case Object(ms) => ReferenceOf(ms).None? && MembersFree(ms)
    case _ => true
  }

  ghost predicate ItemsFree(items: seq<Json>)
    decreases items, 0
  {
    items == [] || (ReferenceFree(items[0]) && ItemsFree(items[1..]))
  }

  ghost predicate MembersFree(ms: seq<Member>)
    decreases ms, 0
  {
    ms == [] || (ReferenceFree(ms[0].value) && MembersFree(ms[1..]))
  }

  /** A value is a string, or a bare reference that leads to one. */
  ghost predicate EndsInString(w: World, v: Json, file: Path, n: nat)
    decreases n
  {
    match v
    case String(_) => true
    case Object(ms) =>
      && ReferenceOf(ms).Some? && !HasSiblings(ms) && n > 0 && TargetOf(w, ms, file).Some?
      && EndsInString(w, TargetOf(w, ms, file).value.0, TargetOf(w, ms, file).value.1.file, n - 1)
    case _ => false
  }

  /** No $ref member that is not itself a string turns into one. */
  ghost predicate Clean(w: World, v: Json, file: Path, n: nat)
    decreases n, v, 1
  {
    match v
    case List(items) => ItemsClean(w, items, file, n)
    case Object(ms) =>
      if ReferenceOf(ms).Some? then
        && (n > 0 && TargetOf(w, ms, file).Some? ==>
              Clean(w, TargetOf(w, ms, file).value.0, TargetOf(w, ms, file).value.1.file, n - 1))
        && (HasSiblings(ms) ==> MembersClean(w, ms, true, file, n))
      else
        && (Find(ms, REF).Some? ==> !EndsInString(w, Find(ms, REF).value, file, n))
        && MembersClean(w, ms, false, file, n)
    case _ => true
  }

  ghost predicate ItemsClean(w: World, items: seq<Json>, file: Path, n: nat)
    decreases n, items, 0
  {
    items == [] || (Clean(w, items[0], file, n) && ItemsClean(w, items[1..], file, n))
  }

  ghost predicate MembersClean(w: World, ms: seq<Member>, siblings: bool, file: Path, n: nat)
    decreases n, ms, 0
  {
    ms == [] || (((siblings && ms[0].key == REF) || Clean(w, ms[0].value, file, n))
                 && MembersClean(w, ms[1..], siblings, file, n))
  }

  lemma {:induction false} StringInlined(w: World, v: Json, file: Path, n: nat)
    requires Inlines(w, v, file, n)
    ensures Inline(w, v, file, n).value.value.String? <==> EndsInString(w, v, file, n)
    decreases n
  {
    hide ReferenceOf, HasSiblings, InlineMembers, InlineItems, Lookup;
    match v
    case Object(ms) =>
      if ReferenceOf(ms).Some? && !HasSiblings(ms) {
        assert InlineReference(w, ms, file, n).Some?;
        var (target, m) := TargetOf(w, ms, file).value;
        StringInlined(w, target, m.file, n - 1);
      }
    case _ =>
  }

  /** The reference member of an inlined object is the inlined reference member. */
  lemma {:induction false} FindInlined(w: World, ms: seq<Member>, file: Path, n: nat)
    requires MembersInline(w, ms, false, file, n)
    ensures var r := InlineMembers(w, ms, false, file, n).value.value;
            && (Find(r, REF).None? <==> Find(ms, REF).None?)
            && (Find(ms, REF).Some? ==>
                  Inlines(w, Find(ms, REF).value, file, n)
                  && Find(r, REF) == Some(Inline(w, Find(ms, REF).value, file, n).value.value))
    decreases |ms|
  {
    hide Inline;
    if ms != [] {
      var r := InlineMembers(w, ms, false, file, n).value.value;
      assert r[1..] == InlineMembers(w, ms[1..], false, file, n).value.value;
      if ms[0].key != REF { FindInlined(w, ms[1..], file, n); }
    }
  }

  lemma {:induction false} SiblingsHaveNoReference(w: World, ms: seq<Member>, file: Path, n: nat)
    requires MembersInline(w, ms, true, file, n)
    ensures Find(InlineMembers(w, ms, true, file, n).value.value, REF).None?
    decreases |ms|
  {
    hide Inline;
    if ms != [] {
      SiblingsHaveNoReference(w, ms[1..], file, n);
      if ms[0].key != REF {
        assert InlineMembers(w, ms, true, file, n).value.value[1..] == InlineMembers(w, ms[1..], true, file, n).value.value;
      }
    }
  }

  /** The inlining is free of references if and only if no hidden reference arises: in particular whenever
    * every $ref member is a string. */
  lemma {:induction false} FreeIffClean(w: World, v: Json, file: Path, n: nat)
    requires Inlines(w, v, file, n)
    ensures ReferenceFree(Inline(w, v, file, n).value.value) <==> Clean(w, v, file, n)
    decreases n, v, 1
  {
    hide ReferenceOf, HasSiblings, InlineMembers, InlineItems, InlineReference, MembersFree, ItemsFree, MembersClean,
      ItemsClean, EndsInString, Lookup, TargetOf;
    match v
    case List(items) => ItemsFreeIffClean(w, items, file, n);
    case Object(ms) =>
      if ReferenceOf(ms).Some? {
        ReferenceFreeIffClean(w, ms, file, n);
      } else {
        MembersFreeIffClean(w, ms, false, file, n);
        PlainObject(w, ms, file, n);
      }
    case _ =>
  }

  lemma PlainObject(w: World, ms: seq<Member>, file: Path, n: nat)
    requires ReferenceOf(ms).None? && MembersInline(w, ms, false, file, n)
    ensures ReferenceOf(InlineMembers(w, ms, false, file, n).value.value).None?
            <==> (Find(ms, REF).Some? ==> !EndsInString(w, Find(ms, REF).value, file, n))
  {
    hide Inline, EndsInString;
    FindInlined(w, ms, file, n);
    if Find(ms, REF).Some? { StringInlined(w, Find(ms, REF).value, file, n); }
  }

  lemma {:induction false} ReferenceFreeIffClean(w: World, ms: seq<Member>, file: Path, n: nat)
    requires ReferenceOf(ms).Some? && InlineReference(w, ms, file, n).Some?
    ensures ReferenceFree(InlineReference(w, ms, file, n).value.value) <==> Clean(w, Object(ms), file, n)
    decreases n, ms, 1
  {
    hide ReferenceOf, HasSiblings, InlineMembers, Inline, MembersFree, ItemsFree, MembersClean, EndsInString, TargetOf,
      ReferenceFree;
    var (target, m) := TargetOf(w, ms, file).value;
    FreeIffClean(w, target, m.file, n - 1);
    if HasSiblings(ms) {
      MembersFreeIffClean(w, ms, true, file, n);
      SiblingsHaveNoReference(w, ms, file, n);
      CombinedFree(Inline(w, target, m.file, n - 1).value.value, InlineMembers(w, ms, true, file, n).value.value);
    }
  }

  lemma CombinedFree(resolved: Json, siblings: seq<Member>)
    requires Find(siblings, REF).None?
    ensures ReferenceFree(Combined(resolved, siblings)) <==> ReferenceFree(resolved) && MembersFree(siblings)
  {
    var both := [resolved, Object(siblings)];
    assert |ALL_OF| != |REF|;
    assert both[1..] == [Object(siblings)] && both[1..][1..] == [];
    assert ItemsFree(both) <==> ReferenceFree(resolved) && ItemsFree([Object(siblings)]);
    assert ItemsFree([Object(siblings)]) <==> ReferenceFree(Object(siblings));
    var ms := [Member(ALL_OF, List(both))];
    assert ms[1..] == [];
    assert MembersFree(ms) <==> ReferenceFree(List(both));
  }

  lemma {:induction false} ItemsFreeIffClean(w: World, items: seq<Json>, file: Path, n: nat)
    requires ItemsInline(w, items, file, n)
    ensures ItemsFree(InlineItems(w, items, file, n).value.value) <==> ItemsClean(w, items, file, n)
    decreases n, items, 0
  {
    hide Inline, ReferenceFree, Clean;
    if items != [] {
      FreeIffClean(w, items[0], file, n);
      ItemsFreeIffClean(w, items[1..], file, n);
      assert InlineItems(w, items, file, n).value.value[1..] == InlineItems(w, items[1..], file, n).value.value;
    }
  }

  lemma {:induction false} MembersFreeIffClean(w: World, ms: seq<Member>, siblings: bool, file: Path, n: nat)
    requires MembersInline(w, ms, siblings, file, n)
    ensures MembersFree(InlineMembers(w, ms, siblings, file, n).value.value) <==> MembersClean(w, ms, siblings, file, n)
    decreases n, ms, 0
  {
    hide Inline, ReferenceFree, Clean;
    if ms != [] {
      MembersFreeIffClean(w, ms[1..], siblings, file, n);
      if !(siblings && ms[0].key == REF) {
        FreeIffClean(w, ms[0].value, file, n);
        assert InlineMembers(w, ms, siblings, file, n).value.value[1..]
               == InlineMembers(w, ms[1..], siblings, file, n).value.value;
      }
    }
  }

  // ---------------------------------------------------------------- documents with string references only

  /** Every $ref member is a string. */
  ghost predicate OnlyStrings(v: Json)
    decreases v, 1
  {
    match v
    case List(items) => ItemsOnlyStrings(items)
    case Object(ms) => MembersOnlyStrings(ms)
    case _ => true
  }

  ghost predicate ItemsOnlyStrings(items: seq<Json>)
    decreases items, 0
  {
    items == [] || (OnlyStrings(items[0]) && ItemsOnlyStrings(items[1..]))
  }

  ghost predicate MembersOnlyStrings(ms: seq<Member>)
    decreases ms, 0
  {
    ms == [] || (&& (ms[0].key == REF ==> ms[0].value.String?)
                 && OnlyStrings(ms[0].value) && MembersOnlyStrings(ms[1..]))
  }

  lemma {:induction false} FoundOnlyStrings(ms: seq<Member>, key: Str)
    requires MembersOnlyStrings(ms) && Find(ms, key).Some?
    ensures OnlyStrings(Find(ms, key).value) && (key == REF ==> Find(ms, key).value.String?)
    decreases |ms|
  {
    if ms[0].key != key { FoundOnlyStrings(ms[1..], key); }
  }

  lemma {:induction false} ItemOnlyStrings(items: seq<Json>, i: nat)
    requires ItemsOnlyStrings(items) && i < |items|
    ensures OnlyStrings(items[i])
    decreases i
  {
    if i > 0 { ItemOnlyStrings(items[1..], i - 1); }
  }

  lemma {:induction false} FollowedOnlyStrings(v: Json, tokens: seq<Str>)
    requires OnlyStrings(v) && Follow(v, tokens).Some?
    ensures OnlyStrings(Follow(v, tokens).value)
    decreases |tokens|
  {
    if tokens != [] {
      var token := DecodeToken(tokens[0]).value;
      match v {
        case Object(ms) => FoundOnlyStrings(ms, token);
        case List(items) => ItemOnlyStrings(items, WireInteger.ValueOf(token));
      }
      FollowedOnlyStrings(Enter(v, token).value, tokens[1..]);
    }
  }

  ghost predicate FilesOnlyStrings(w: World) {
    forall f :: f in w.files ==> OnlyStrings(w.files[f])
  }

  lemma TargetOnlyStrings(w: World, ms: seq<Member>, file: Path)
    requires FilesOnlyStrings(w) && ReferenceOf(ms).Some? && TargetOf(w, ms, file).Some?
    ensures OnlyStrings(TargetOf(w, ms, file).value.0)
  {
    hide ReferenceOf, OnlyStrings;
    var m := w.target(ReferenceOf(ms).value, file).value;
    if m.pointer != [] { FollowedOnlyStrings(w.files[m.file], Split(m.pointer[1..], SLASH)); }
  }

  lemma {:induction false} StringsAreClean(w: World, v: Json, file: Path, n: nat)
    requires FilesOnlyStrings(w) && OnlyStrings(v)
    ensures Clean(w, v, file, n)
    decreases n, v, 1
  {
    hide FilesOnlyStrings, MembersClean, ItemsClean, TargetOf, HasSiblings, EndsInString;
    match v
    case List(items) => ItemStringsAreClean(w, items, file, n);
    case Object(ms) =>
      MemberStringsAreClean(w, ms, true, file, n);
      MemberStringsAreClean(w, ms, false, file, n);
      if ReferenceOf(ms).Some? {
        if n > 0 && TargetOf(w, ms, file).Some? {
          TargetOnlyStrings(w, ms, file);
          StringsAreClean(w, TargetOf(w, ms, file).value.0, TargetOf(w, ms, file).value.1.file, n - 1);
        }
      } else if Find(ms, REF).Some? {
        FoundOnlyStrings(ms, REF);
      }
    case _ =>
  }

  lemma {:induction false} ItemStringsAreClean(w: World, items: seq<Json>, file: Path, n: nat)
    requires FilesOnlyStrings(w) && ItemsOnlyStrings(items)
    ensures ItemsClean(w, items, file, n)
    decreases n, items, 0
  {
    hide FilesOnlyStrings, Clean, OnlyStrings;
    if items != [] {
      StringsAreClean(w, items[0], file, n);
      ItemStringsAreClean(w, items[1..], file, n);
    }
  }

  lemma {:induction false} MemberStringsAreClean(w: World, ms: seq<Member>, siblings: bool, file: Path, n: nat)
    requires FilesOnlyStrings(w) && MembersOnlyStrings(ms)
    ensures MembersClean(w, ms, siblings, file, n)
    decreases n, ms, 0
  {
    hide FilesOnlyStrings, Clean, OnlyStrings;
    if ms != [] {
      StringsAreClean(w, ms[0].value, file, n);
      MemberStringsAreClean(w, ms[1..], siblings, file, n);
    }
  }

  /** The result of a resolution is free of references if and only if nothing it inlines hides one; so it is
    * for all documents whose $ref members are strings. */
  lemma ResultIsReferenceFree(w: World, file: Path)
    requires file in w.files && Resolve(w, file).Done?
    ensures ReferenceFree(Resolve(w, file).value) <==> Clean(w, w.files[file], file, w.maxDepth)
    ensures FilesOnlyStrings(w) ==> ReferenceFree(Resolve(w, file).value)
  {
    hide Walk, Inline, ReferenceFree, Clean, OnlyStrings;
    WalkIsInline(w, w.files[file], file, 0, [], 0);
    FreeIffClean(w, w.files[file], file, w.maxDepth);
    if FilesOnlyStrings(w) { StringsAreClean(w, w.files[file], file, w.maxDepth); }
  }

  /** A document with a string at /s and, under its $ref, a reference to it. */
  function Hiding(text: Str): Json {
    Object([Member(['s' as int], String(text)), Member(REF, Object([Member(REF, String([SLASH, 's' as int]))]))])
  }

  lemma HidingPlaces(text: Str)
    ensures Evaluate(Hiding(text), [SLASH, 's' as int]) == Some(String(text))
    ensures ReferenceOf([Member(REF, String([SLASH, 's' as int]))]) == Some([SLASH, 's' as int])
  {
    var pointer := [SLASH, 's' as int];
    assert pointer[1..] == ['s' as int] && ['s' as int][1..] == [];
    SplitOne(['s' as int], SLASH);
    assert Split(pointer[1..], SLASH) == [['s' as int]] && [['s' as int]][1..] == [];
    assert DecodeToken([]) == Some([]) && ['s' as int] + [] == ['s' as int];
    assert DecodeToken(['s' as int]) == Some(['s' as int]);
    assert Find(Hiding(text).members, ['s' as int]) == Some(String(text));
    assert Follow(Hiding(text), [['s' as int]]) == Some(String(text));
  }

  /** A hidden reference does arise: a $ref member that is itself a reference to a string becomes a string. */
  lemma HiddenReference(w: World, file: Path, text: Str)
    requires file in w.files && w.maxDepth >= 1 && w.maxReferences >= 1 && w.files[file] == Hiding(text)
    requires w.target([SLASH, 's' as int], file) == Some(Marker(file, [SLASH, 's' as int]))
    ensures Resolve(w, file).Done? && !ReferenceFree(Resolve(w, file).value)
  {
    hide Evaluate, Resolve;
    HidingPlaces(text);
    var inner := [Member(REF, String([SLASH, 's' as int]))];
    var s := Member(['s' as int], String(text));
    var ms := [s, Member(REF, Object(inner))];
    assert |REF| != 1;
    assert ms[1..] == [Member(REF, Object(inner))] && ms[1..][1..] == [];
    assert Find(ms[1..], REF) == Some(Object(inner));
    assert ReferenceOf(ms).None? && !HasSiblings(inner);
    var d := w.maxDepth;
    assert Inline(w, String(text), file, d - 1) == Some(Inlined(String(text), 0));
    assert InlineReference(w, inner, file, d) == Some(Inlined(String(text), 1));
    assert InlineMembers(w, [], false, file, d) == Some(Inlined([], 0));
    assert [Member(REF, String(text))] + [] == [Member(REF, String(text))];
    assert InlineMembers(w, ms[1..], false, file, d) == Some(Inlined([Member(REF, String(text))], 1));
    var out := [s, Member(REF, String(text))];
    assert [s] + [Member(REF, String(text))] == out;
    assert InlineMembers(w, ms, false, file, d) == Some(Inlined(out, 1));
    ResolveIsInlining(w, file, Object(out), 1);
    assert out[1..][0] == Member(REF, String(text));
    assert Find(out[1..], REF) == Some(String(text)) && Find(out, REF) == Some(String(text));
  }
}
