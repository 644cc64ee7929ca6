/** Dataset dependencies: layers of datasets whose parents are done, evidence of cycles, and closures. */
module DependencyGraph {
  import opened Prelude
  import opened Text

  type Name = Str

  /** The parents of each dataset. */
  type Graph = map<Name, set<Name>>

  /** Every parent is itself a dataset. */
  ghost predicate Complete(g: Graph) {
    forall n, p :: n in g && p in g[n] ==> p in g
  }

  /** The parents of a dataset within a selection. */
  function Parents(g: Graph, s: set<Name>, n: Name): set<Name>
    requires n in g
  {
    g[n] * s
  }

  // ---------------------------------------------------------------- rounds

  datatype Ordering = Ordered(datasets: seq<Name>) | Cycle(datasets: seq<Name>)

  /** Names that wait for the given parents. */
  type Pending = map<Name, set<Name>>

  function ReadyIn(pending: Pending): set<Name> {
    set n | n in pending && pending[n] == {}
  }

  function Shrunk(pending: Pending, ready: set<Name>): Pending {
    map n | n in pending && n !in ready :: pending[n] - ready
  }

  lemma ShrunkIsSmaller(pending: Pending)
    requires ReadyIn(pending) != {}
    ensures |Shrunk(pending, ReadyIn(pending))| < |pending|
  {
    var ready := ReadyIn(pending);
    var n :| n in ready;
    var rest := Shrunk(pending, ready);
    assert rest.Keys <= pending.Keys - {n};
    Cardinality(rest.Keys, pending.Keys - {n});
  }

  /** Round after round, the sorted names that wait for nothing; a cycle when there is none. */
  function Rounds(pending: Pending): Ordering
    decreases |pending|
  {
    var ready := ReadyIn(pending);
    if pending == map[] then Ordered([])
    else if ready == {} then Cycle(Sorted(pending.Keys))
    else
      ShrunkIsSmaller(pending);
      match Rounds(Shrunk(pending, ready))
      case Ordered(more) => Ordered(Sorted(ready) + more)
      case Cycle(stuck) => Cycle(stuck)
  }

  function Order(g: Graph, s: set<Name>): Ordering
    requires s <= g.Keys
  {
    Rounds(map n | n in s :: Parents(g, s, n))
  }

  // ---------------------------------------------------------------- chains, levels and cycles

  /** There is a chain of k parents above a dataset. */
  ghost predicate HasChain(g: Graph, s: set<Name>, n: Name, k: nat)
    decreases k
  {
    n in s && n in g && (k == 0 || exists p :: p in Parents(g, s, n) && HasChain(g, s, p, k - 1))
  }

  /** The longest chain of parents above a dataset has k parents. */
  ghost predicate IsLevel(g: Graph, s: set<Name>, n: Name, k: nat) {
    HasChain(g, s, n, k) && !HasChain(g, s, n, k + 1)
  }

  lemma {:induction false} ChainShortens(g: Graph, s: set<Name>, n: Name, k: nat)
    requires HasChain(g, s, n, k + 1)
    ensures HasChain(g, s, n, k)
    decreases k
  {
    if k > 0 {
      var p :| p in Parents(g, s, n) && HasChain(g, s, p, k);
      ChainShortens(g, s, p, k - 1);
    }
  }

  lemma {:induction false} ChainShorter(g: Graph, s: set<Name>, n: Name, k: nat, l: nat)
    requires HasChain(g, s, n, k) && l <= k
    ensures HasChain(g, s, n, l)
    decreases k - l
  {
    if l < k {
      ChainShortens(g, s, n, k - 1);
      ChainShorter(g, s, n, k - 1, l);
    }
  }

  /** Every member has a parent among the members. */
  ghost predicate Stuck(g: Graph, t: set<Name>) {
    t <= g.Keys && forall n :: n in t ==> Parents(g, t, n) != {}
  }

  /** A directed cycle: each name is followed by one of its parents, and the last by the first. */
  ghost predicate IsCycle(g: Graph, c: seq<Name>) {
    && c != [] && (forall i :: 0 <= i < |c| ==> c[i] in g)
    && (forall i :: 0 <= i < |c| - 1 ==> c[i + 1] in g[c[i]])
    && c[0] in g[c[|c| - 1]]
  }

  lemma {:induction false} StuckHasChains(g: Graph, s: set<Name>, t: set<Name>, n: Name, k: nat)
    requires Stuck(g, t) && t <= s && n in t
    ensures HasChain(g, s, n, k)
    decreases k
  {
    if k > 0 {
      var p :| p in Parents(g, t, n);
      StuckHasChains(g, s, t, p, k - 1);
      assert p in Parents(g, s, n);
    }
  }

  // ---------------------------------------------------------------- the state of each round

  ghost function Waiting(g: Graph, s: set<Name>, r: nat): set<Name> {
    set n | n in s && HasChain(g, s, n, r)
  }

  /** After r rounds those wait that have a chain of r parents, for their parents that do as well. */
  ghost function PendingAt(g: Graph, s: set<Name>, r: nat): Pending
    requires s <= g.Keys
  {
    map n | n in Waiting(g, s, r) :: Parents(g, Waiting(g, s, r), n)
  }

  lemma PendingStarts(g: Graph, s: set<Name>)
    requires s <= g.Keys
    ensures PendingAt(g, s, 0) == map n | n in s :: Parents(g, s, n)
  {
    assert Waiting(g, s, 0) == s;
  }

  /** The names ready in round r are those of level r, and the others wait in the next round. */
  lemma RoundIs(g: Graph, s: set<Name>, r: nat)
    requires s <= g.Keys
    ensures forall n :: n in ReadyIn(PendingAt(g, s, r)) <==> n in s && IsLevel(g, s, n, r)
    ensures Shrunk(PendingAt(g, s, r), ReadyIn(PendingAt(g, s, r))) == PendingAt(g, s, r + 1)
  {
    var pending := PendingAt(g, s, r);
    var ready := ReadyIn(pending);
    forall n | n in pending ensures pending[n] == {} <==> !HasChain(g, s, n, r + 1) {
      if HasChain(g, s, n, r + 1) {
        var p :| p in Parents(g, s, n) && HasChain(g, s, p, r);
        assert p in pending[n];
      }
      if pending[n] != {} {
        var p :| p in pending[n];
        assert p in Parents(g, s, n) && HasChain(g, s, p, r);
      }
    }
    forall n | n in s && HasChain(g, s, n, r + 1) ensures n in pending { ChainShortens(g, s, n, r); }
    var next := Shrunk(pending, ready);
    assert next.Keys == Waiting(g, s, r + 1);
    forall n | n in next ensures next[n] == Parents(g, Waiting(g, s, r + 1), n) {
      forall p ensures p in next[n] <==> p in Parents(g, Waiting(g, s, r + 1), n) {
        if p in Waiting(g, s, r + 1) { ChainShortens(g, s, p, r); }
      }
    }
  }

  /** Levels that never decrease, and names in order within each level. */
  ghost predicate Layered(g: Graph, s: set<Name>, ns: seq<Name>, ks: seq<nat>) {
    && |ks| == |ns|
    && (forall i :: 0 <= i < |ns| ==> IsLevel(g, s, ns[i], ks[i]))
    && (forall i, j :: 0 <= i < j < |ns| ==> ks[i] < ks[j] || (ks[i] == ks[j] && LexLess(ns[i], ns[j])))
  }

  /** One layer in front of the others. */
  lemma LayerCons(g: Graph, s: set<Name>, layer: seq<Name>, r: nat, ns: seq<Name>, ks: seq<nat>)
    requires Increasing(layer) && (forall n :: n in layer ==> IsLevel(g, s, n, r))
    requires Layered(g, s, ns, ks) && forall i :: 0 <= i < |ks| ==> ks[i] > r
    ensures Layered(g, s, layer + ns, seq(|layer|, _ => r) + ks)
  {
    hide IsLevel, LexLess;
    var all, levels := layer + ns, seq(|layer|, _ => r) + ks;
    forall i | 0 <= i < |all| ensures IsLevel(g, s, all[i], levels[i]) {
      if i < |layer| { assert layer[i] in layer; } else { assert all[i] == ns[i - |layer|]; }
    }
  }

  lemma NoLayers(g: Graph, s: set<Name>)
    ensures Layered(g, s, [], [])
  {
  }

  lemma {:induction false} RoundsOrdered(g: Graph, s: set<Name>, r: nat) returns (ks: seq<nat>)
    requires s <= g.Keys && Rounds(PendingAt(g, s, r)).Ordered?
    ensures var ns := Rounds(PendingAt(g, s, r)).datasets;
            && Members(ns) == Waiting(g, s, r) && Layered(g, s, ns, ks)
            && (forall i :: 0 <= i < |ks| ==> ks[i] >= r)
    decreases |PendingAt(g, s, r)|
  {
    hide HasChain, LexLess, IsLevel, Increasing, ReadyIn, Shrunk, Layered;
    var pending := PendingAt(g, s, r);
    var ready := ReadyIn(pending);
    if pending == map[] {
      assert Waiting(g, s, r) == pending.Keys;
      NoLayers(g, s);
      return [];
    }
    RoundIs(g, s, r);
    ShrunkIsSmaller(pending);
    var more := RoundsOrdered(g, s, r + 1);
    var layer := Sorted(ready);
    var ns := Rounds(PendingAt(g, s, r + 1)).datasets;
    assert Rounds(pending).datasets == layer + ns;
    forall n | n in layer ensures IsLevel(g, s, n, r) { assert n in Members(layer); }
    LayerCons(g, s, layer, r, ns, more);
    ks := seq(|layer|, _ => r) + more;
    WaitingSplits(g, s, r, layer, ns);
  }

  lemma WaitingSplits(g: Graph, s: set<Name>, r: nat, layer: seq<Name>, ns: seq<Name>)
    requires s <= g.Keys && Members(layer) == ReadyIn(PendingAt(g, s, r)) && Members(ns) == Waiting(g, s, r + 1)
    ensures Members(layer + ns) == Waiting(g, s, r)
  {
    RoundIs(g, s, r);
    forall n ensures n in Members(layer + ns) <==> n in Waiting(g, s, r) {
      assert n in layer + ns <==> n in Members(layer) || n in Members(ns);
      if n in Waiting(g, s, r + 1) { ChainShortens(g, s, n, r); }
    }
  }

  /** When nothing is ready, what waits is stuck, and holds every stuck set. */
  lemma WaitingIsStuck(g: Graph, s: set<Name>, r: nat)
    requires s <= g.Keys && ReadyIn(PendingAt(g, s, r)) == {}
    ensures Stuck(g, Waiting(g, s, r)) && forall u :: u <= s && Stuck(g, u) ==> u <= Waiting(g, s, r)
  {
    hide HasChain;
    var t := Waiting(g, s, r);
    var pending := PendingAt(g, s, r);
    forall n | n in t ensures Parents(g, t, n) != {} { assert n in pending && n !in ReadyIn(pending); }
    forall u | u <= s && Stuck(g, u) ensures u <= t {
      forall n | n in u ensures n in t { StuckHasChains(g, s, u, n, r); }
    }
  }

  lemma {:induction false} RoundsStuck(g: Graph, s: set<Name>, r: nat)
    requires s <= g.Keys && Rounds(PendingAt(g, s, r)).Cycle?
    ensures var t := Members(Rounds(PendingAt(g, s, r)).datasets);
            && t != {} && t <= s && Stuck(g, t)
            && (forall u :: u <= s && Stuck(g, u) ==> u <= t)
    decreases |PendingAt(g, s, r)|
  {
    hide HasChain, Stuck, Increasing, ReadyIn, Shrunk;
    var pending := PendingAt(g, s, r);
    if ReadyIn(pending) == {} {
      WaitingIsStuck(g, s, r);
      assert pending.Keys == Waiting(g, s, r) && Members(Sorted(pending.Keys)) == pending.Keys;
    } else {
      RoundIs(g, s, r);
      ShrunkIsSmaller(pending);
      RoundsStuck(g, s, r + 1);
    }
  }

  // ---------------------------------------------------------------- theorems

  /** An order lists every selected dataset once, by the length of its longest chain of parents within the
    * selection and then by name. */
  lemma OrderIsLayered(g: Graph, s: set<Name>) returns (ks: seq<nat>)
    requires s <= g.Keys && Order(g, s).Ordered?
    ensures var ns := Order(g, s).datasets;
            && Members(ns) == s && Layered(g, s, ns, ks)
            && (forall i, j :: 0 <= i < j < |ns| ==> ns[i] != ns[j])
  {
    hide Rounds, IsLevel;
    PendingStarts(g, s);
    ks := RoundsOrdered(g, s, 0);
    assert Waiting(g, s, 0) == s;
    var ns := Order(g, s).datasets;
    forall i, j | 0 <= i < j < |ns| ensures ns[i] != ns[j] {
      if ns[i] == ns[j] { LevelUnique(g, s, ns[i], ks[i], ks[j]); }
    }
  }

  lemma LevelUnique(g: Graph, s: set<Name>, n: Name, k: nat, l: nat)
    requires IsLevel(g, s, n, k) && IsLevel(g, s, n, l)
    ensures k == l
  {
    hide HasChain;
    if k < l { ChainShorter(g, s, n, l, k + 1); }
    if l < k { ChainShorter(g, s, n, k, l + 1); }
  }

  /** Parents come before their children. */
  lemma ParentsFirst(g: Graph, s: set<Name>, i: nat, j: nat)
    requires s <= g.Keys && Order(g, s).Ordered?
    requires i < |Order(g, s).datasets| && j < |Order(g, s).datasets|
    requires Order(g, s).datasets[j] in g && Order(g, s).datasets[i] in g[Order(g, s).datasets[j]]
    ensures i < j
  {
    hide Order, HasChain, IsLevel, LexLess;
    var ks := OrderIsLayered(g, s);
    var ns := Order(g, s).datasets;
    assert ns[i] in Members(ns) && ns[j] in Members(ns);
    ParentLevel(g, s, ns[i], ns[j], ks[i], ks[j]);
  }

  lemma ParentLevel(g: Graph, s: set<Name>, p: Name, n: Name, k: nat, l: nat)
    requires n in g && p in Parents(g, s, n) && n in s && IsLevel(g, s, p, k) && IsLevel(g, s, n, l)
    ensures k < l
  {
    assert HasChain(g, s, n, k + 1);
    if l <= k { ChainShorter(g, s, n, k + 1, l + 1); }
  }

  /** Otherwise the evidence is the largest set in which every dataset has a parent in the set, listed by
    * name; and it contains a directed cycle. */
  lemma CycleEvidence(g: Graph, s: set<Name>) returns (c: seq<Name>)
    requires s <= g.Keys && Order(g, s).Cycle?
    ensures var t := Members(Order(g, s).datasets);
            && t != {} && t <= s && Stuck(g, t)
            && (forall u :: u <= s && Stuck(g, u) ==> u <= t)
            && IsCycle(g, c) && (forall n :: n in c ==> n in t)
    ensures Increasing(Order(g, s).datasets)
  {
    hide Rounds, IsCycle, HasChain, LexLess;
    PendingStarts(g, s);
    RoundsStuck(g, s, 0);
    StuckListed(map n | n in s :: Parents(g, s, n));
    c := CycleIn(g, Members(Order(g, s).datasets));
  }

  lemma {:induction false} StuckListed(pending: Pending)
    requires Rounds(pending).Cycle?
    ensures Increasing(Rounds(pending).datasets)
    decreases |pending|
  {
    hide LexLess, Increasing;
    if ReadyIn(pending) != {} {
      ShrunkIsSmaller(pending);
      StuckListed(Shrunk(pending, ReadyIn(pending)));
    }
  }

  /** An order exists if and only if the selection has no directed cycle. */
  lemma OrderedIffAcyclic(g: Graph, s: set<Name>)
    requires s <= g.Keys
    ensures Order(g, s).Ordered? <==> !exists c :: IsCycle(g, c) && Members(c) <= s
  {
    hide IsCycle, Order;
    if Order(g, s).Cycle? {
      var c := CycleEvidence(g, s);
      assert Members(c) <= s;
    } else {
      forall c | IsCycle(g, c) && Members(c) <= s ensures false {
        CycleIsStuck(g, c);
        NothingStuck(g, s, Members(c));
      }
    }
  }

  lemma CycleIsStuck(g: Graph, c: seq<Name>)
    requires IsCycle(g, c)
    ensures Stuck(g, Members(c)) && Members(c) != {}
  {
    var t := Members(c);
    assert c[0] in t;
    forall n | n in t ensures n in g && Parents(g, t, n) != {} {
      var i :| 0 <= i < |c| && c[i] == n;
      var next := if i == |c| - 1 then c[0] else c[i + 1];
      assert next in t && next in g[c[i]];
      assert next in Parents(g, t, n);
    }
  }

  /** A stuck set cannot be ordered. */
  lemma NothingStuck(g: Graph, s: set<Name>, t: set<Name>)
    requires s <= g.Keys && Order(g, s).Ordered? && t <= s && Stuck(g, t)
    ensures t == {}
  {
    hide Order, HasChain, IsLevel, Stuck, LexLess;
    if t != {} {
      var n :| n in t;
      var ks := OrderIsLayered(g, s);
      var ns := Order(g, s).datasets;
      assert n in Members(ns);
      var i :| 0 <= i < |ns| && ns[i] == n;
      LevelledNotStuck(g, s, t, n, ks[i]);
    }
  }

  lemma LevelledNotStuck(g: Graph, s: set<Name>, t: set<Name>, n: Name, k: nat)
    requires Stuck(g, t) && t <= s && IsLevel(g, s, n, k)
    ensures n !in t
  {
    hide HasChain;
    if n in t { StuckHasChains(g, s, t, n, k + 1); }
  }

  // ---------------------------------------------------------------- finding a cycle

  /** Following parents within a stuck set. */
  ghost function Trail(g: Graph, t: set<Name>, n: Name, k: nat): (p: seq<Name>)
    requires Stuck(g, t) && n in t
    ensures |p| == k + 1 && p[0] == n
    ensures forall i :: 0 <= i < |p| ==> p[i] in t
    ensures forall i :: 0 <= i < |p| - 1 ==> p[i + 1] in g[p[i]]
    decreases k
  {
    if k == 0 then [n]
    else
      var next :| next in Parents(g, t, n);
      [n] + Trail(g, t, next, k - 1)
  }

  lemma {:induction false} Pigeonhole(p: seq<Name>, t: set<Name>) returns (i: nat, j: nat)
    requires |p| > |t| && forall k :: 0 <= k < |p| ==> p[k] in t
    ensures i < j < |p| && p[i] == p[j]
    decreases |p|
  {
    if k :| 0 < k < |p| && p[k] == p[0] {
      return 0, k;
    }
    var rest := p[1..];
    forall k | 0 <= k < |rest| ensures rest[k] in t - {p[0]} { assert rest[k] == p[k + 1]; }
    i, j := Pigeonhole(rest, t - {p[0]});
    i, j := i + 1, j + 1;
  }

  lemma CycleIn(g: Graph, t: set<Name>) returns (c: seq<Name>)
    requires Stuck(g, t) && t != {}
    ensures IsCycle(g, c) && forall n :: n in c ==> n in t
  {
    var n :| n in t;
    var p := Trail(g, t, n, |t|);
    var i, j := Pigeonhole(p, t);
    c := p[i..j];
    forall k | 0 <= k < |c| - 1 ensures c[k + 1] in g[c[k]] { assert c[k] == p[i + k] && c[k + 1] == p[i + k + 1]; }
    assert c[|c| - 1] == p[j - 1] && p[j] in g[p[j - 1]];
  }

  // ---------------------------------------------------------------- closures

  ghost predicate Closed(g: Graph, t: set<Name>) {
    t <= g.Keys && forall n :: n in t ==> g[n] <= t
  }

  /** The least closed set that holds what was requested. */
  ghost predicate IsClosure(g: Graph, requested: set<Name>, t: set<Name>) {
    requested <= t && Closed(g, t) && forall u :: requested <= u && Closed(g, u) ==> t <= u
  }

  /** Every closed set with what was requested holds all of these. */
  ghost predicate Needed(g: Graph, requested: set<Name>, s: set<Name>) {
    forall u :: requested <= u && Closed(g, u) ==> s <= u
  }

  lemma NeededAtFirst(g: Graph, requested: set<Name>)
    ensures Needed(g, requested, requested)
  {
  }

  lemma NeededParent(g: Graph, requested: set<Name>, s: set<Name>, n: Name, p: Name)
    requires Needed(g, requested, s) && n in s && n in g && p in g[n]
    ensures Needed(g, requested, s + {p})
  {
    forall u | requested <= u && Closed(g, u) ensures s + {p} <= u {
      assert n in u;
    }
  }

  lemma NeededAtLast(g: Graph, requested: set<Name>, s: set<Name>)
    requires Needed(g, requested, s) && requested <= s && Closed(g, s)
    ensures IsClosure(g, requested, s)
  {
  }

  /** Each dataset is a parent of the one before it. */
  ghost predicate IsAncestry(g: Graph, c: seq<Name>) {
    |c| > 1 && forall i :: 0 <= i < |c| - 1 ==> c[i] in g && c[i + 1] in g[c[i]]
  }

  /** In the order of a closure every dataset comes after all its ancestors, however far they are and whether
    * they were requested or not. */
  lemma {:induction false} ClosureAncestorsFirst(g: Graph, requested: set<Name>, t: set<Name>, c: seq<Name>)
    returns (i: nat, j: nat)
    requires IsClosure(g, requested, t) && Order(g, t).Ordered? && IsAncestry(g, c) && c[0] in t
    ensures i < j < |Order(g, t).datasets|
    ensures Order(g, t).datasets[i] == c[|c| - 1] && Order(g, t).datasets[j] == c[0]
    decreases |c|
  {
    hide Order, IsLevel, LexLess;
    var ks := OrderIsLayered(g, t);
    var ns := Order(g, t).datasets;
    assert c[0] in Members(ns) && c[1] in Members(ns);
    i :| 0 <= i < |ns| && ns[i] == c[1];
    j :| 0 <= j < |ns| && ns[j] == c[0];
    ParentsFirst(g, t, i, j);
    if |c| > 2 {
      AncestryTail(g, c);
      var k, l := ClosureAncestorsFirst(g, requested, t, c[1..]);
      assert l == i;
      i := k;
    }
  }

  lemma AncestryTail(g: Graph, c: seq<Name>)
    requires IsAncestry(g, c) && |c| > 2
    ensures IsAncestry(g, c[1..]) && c[1..][|c| - 2] == c[|c| - 1]
  {
    forall i | 0 <= i < |c| - 2 ensures c[1..][i] in g && c[1..][i + 1] in g[c[1..][i]] {
      assert c[1..][i] == c[i + 1] && c[1..][i + 1] == c[i + 2];
    }
  }
}
