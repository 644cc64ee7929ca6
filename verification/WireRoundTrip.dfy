/** Printing and parsing undo each other under the same limits. */
module WireRoundTrip {
  import opened Prelude
  import opened Text
  import opened Utf8
  import opened WireValue
  import opened WireParse
  import opened WireSyntax
  import opened WireReading
  import opened WireTidy

  /** A value can be a document under the limits, before its bytes are counted. */
  predicate Fits(v: Value, limits: Limits) {
    Nodes(v) <= limits.maxItems && DepthFits(v, 0, limits) && ContentFits(v, limits)
  }

  // ---------------------------------------------------------------- counting

  /** Nodes of the members with the given keys. */
  function NodesFor(v: Value, ks: seq<Str>): nat
    requires v.Object? && forall k :: k in ks ==> k in v.members
  {
    if ks == [] then 0 else Nodes(v.members[ks[0]]) + NodesFor(v, ks[1..])
  }

  function Weights(v: Value): map<Str, nat>
    requires v.Object?
  {
    map k | k in v.members :: Nodes(v.members[k])
  }

  ghost predicate Distinct(ks: seq<Str>) {
    forall i, j :: 0 <= i < j < |ks| ==> ks[i] != ks[j]
  }

  lemma {:induction false} NodesForTotal(v: Value, ks: seq<Str>, w: map<Str, nat>)
    requires v.Object? && (forall k :: k in ks ==> k in v.members) && Distinct(ks)
    requires w.Keys == Members(ks) && forall k :: k in w ==> w[k] == Nodes(v.members[k])
    ensures NodesFor(v, ks) == Total(w)
    decreases |ks|
  {
    hide Nodes, Total;
    if ks != [] {
      assert ks[0] in w;
      TotalWithout(w, ks[0]);
      assert ks == [ks[0]] + ks[1..];
      MembersOfCons(ks[0], ks[1..]);
      assert (w - {ks[0]}).Keys == Members(ks[1..]);
      NodesForTotal(v, ks[1..], w - {ks[0]});
    } else {
      assert w.Keys == {};
      NoTotal(w);
    }
  }

  lemma NoTotal(w: map<Str, nat>)
    requires w.Keys == {}
    ensures Total(w) == 0
  {
  }

  lemma SortedCounts(v: Value)
    requires v.Object?
    ensures var ks := Sorted(v.members.Keys);
            && (forall k :: k in ks ==> k in v.members) && Distinct(ks)
            && (ks == [] <==> v.members == map[])
            && Nodes(v) == 1 + NodesFor(v, ks)
  {
    var ks := Sorted(v.members.Keys);
    forall k | k in ks ensures k in v.members { assert k in Members(ks); }
    NodesForTotal(v, ks, Weights(v));
  }

  // ---------------------------------------------------------------- tidy trees fit as their values do

  lemma {:induction false} TidyItemsFit(items: seq<Item>, depth: nat, limits: Limits)
    requires ItemsCorrect(items) && TidyItems(items)
    requires forall i :: 0 <= i < |Meanings(items)| ==>
               DepthFits(Meanings(items)[i], depth, limits) && ContentFits(Meanings(items)[i], limits)
    ensures CountItems(items) == NodesOfAll(Meanings(items)) && ItemsWithin(items, depth, limits)
    decreases items, 2
  {
    hide Count, Nodes, Within, DepthFits, ContentFits, Correct, Tidy, Meaning;
    if items != [] {
      var ms := Meanings(items);
      assert ms[0] == Meaning(items[0].tree) && ms[1..] == Meanings(items[1..]);
      assert ItemCorrect(items[0]) && TidyItem(items[0]);
      forall i | 0 <= i < |ms[1..]| ensures DepthFits(ms[1..][i], depth, limits) && ContentFits(ms[1..][i], limits) {
        assert ms[1..][i] == ms[i + 1];
      }
      TidyFits(items[0].tree, depth, limits);
      TidyItemsFit(items[1..], depth, limits);
    }
  }

  lemma {:induction false} TidyMembersFit(v: Value, ms: seq<Member>, depth: nat, limits: Limits)
    requires MembersCorrect(ms) && TidyMembers(ms) && v.Object? && BoundTo(v.members, ms)
    requires forall k :: k in v.members ==>
               StringFits(k, limits) && DepthFits(v.members[k], depth, limits) && ContentFits(v.members[k], limits)
    ensures (forall k :: k in Keys(ms) ==> k in v.members)
    ensures CountMembers(ms) == NodesFor(v, Keys(ms)) && MembersWithin(ms, depth, limits)
    decreases ms, 2
  {
    hide Count, Nodes, Within, DepthFits, ContentFits, Correct, Tidy, Meaning, Said, AllScalar;
    if ms != [] {
      var ks := Keys(ms);
      assert ks[0] == Said(ms[0].key) && ks[1..] == Keys(ms[1..]) && ks == [ks[0]] + ks[1..];
      assert MemberCorrect(ms[0]) && ItemCorrect(ms[0].item) && TidyItem(ms[0].item);
      TidyFits(ms[0].item.tree, depth, limits);
      TidyMembersFit(v, ms[1..], depth, limits);
    }
  }

  lemma {:induction false} TidyRecordFits(t: Tree, depth: nat, limits: Limits)
    requires t.Record? && Correct(t) && Tidy(t)
    requires DepthFits(Meaning(t), depth, limits) && ContentFits(Meaning(t), limits)
    ensures Count(t) == Nodes(Meaning(t)) && Within(t, depth, limits)
    decreases t, 0
  {
    hide Nodes, Sorted, Increasing, MembersCorrect, TidyMembers, MembersWithin, CountMembers, Bound, BoundTo, Keys;
    var v := Meaning(t);
    BoundOnce(t.members);
    assert v == Object(Bound(t.members));
    SortedCounts(v);
    SortedIsUnique(Keys(t.members), Sorted(v.members.Keys));
    TidyMembersFit(v, t.members, depth + 1, limits);
  }

  /** A tidy tree writes as many values as its value holds, and is within the limits that its value fits. */
  lemma {:induction false} TidyFits(t: Tree, depth: nat, limits: Limits)
    requires Correct(t) && Tidy(t)
    requires DepthFits(Meaning(t), depth, limits) && ContentFits(Meaning(t), limits)
    ensures Count(t) == Nodes(Meaning(t)) && Within(t, depth, limits)
    decreases t, 1
  {
    hide NodesOfAll, CountItems, ItemsWithin, ItemsCorrect, TidyItems, Meanings, IsNumber, Said, Total;
    match t
    case List(_, items) => TidyItemsFit(items, depth + 1, limits);
    case Record(_, _) => TidyRecordFits(t, depth, limits);
    case _ =>
  }

  // ---------------------------------------------------------------- what is printed is read

  lemma QuotedInverts(s: Str, more: Input, limits: Limits)
    requires StringFits(s, limits)
    ensures ParseString(Then(Quoted(s), more), limits) == Got(s, more)
  {
    hide ParseString, Quoted, StringText, AllCorrect, TidyPieces;
    var ps := TidyPiecesOf(s);
    TidyString(ps);
    StringReads(ps, more, limits);
  }

  /** Parsing the canonical text of a value, wherever it stands and whatever follows it, gives the value
    * back and charges exactly its number of nodes. */
  lemma ValueInverts(v: Value, more: Input, count: nat, depth: nat, limits: Limits)
    requires Delimited(more)
    requires count + Nodes(v) <= limits.maxItems && DepthFits(v, depth, limits) && ContentFits(v, limits)
    ensures ParseValue(Then(Canon(v), more), count, depth, limits) == Got(Counted(v, count + Nodes(v)), more)
  {
    hide ParseValue, Canon, Nodes, DepthFits, ContentFits, Correct, Tidy, Meaning, Written, Count, Within;
    var t := TidyTreeOf(v, limits);
    TidyIsCanon(t);
    TidyFits(t, depth, limits);
    ValueReads(t, more, count, depth, limits);
  }

  /** Parsing the canonical text of any value that fits the limits gives the value back. */
  lemma DocumentInverts(v: Value, limits: Limits)
    requires Fits(v, limits)
    ensures ParseDocument(Input(Canon(v), End), limits) == Got(v, Input([], End))
  {
    hide Canon, ParseValue, Nodes, DepthFits, ContentFits;
    AtEnd(Canon(v));
    ValueInverts(v, Input([], End), 0, 0, limits);
  }

  lemma AtEnd(s: Str)
    ensures Then(s, Input([], End)) == Input(s, End)
  {
  }
}
