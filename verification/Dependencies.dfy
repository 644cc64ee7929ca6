/** The dataset dependency graph as it is written: the worklist of a closure and the rounds of an order. */
module Dependencies {
  import opened Prelude
  import opened Text
  import opened DependencyGraph
  import G = DependencyGraph

  datatype Validation =
    | DependencyOrder(datasets: seq<Name>)
    | DependencyCycle(datasets: seq<Name>)
    | LimitExceeded(limit: nat)
    | UnknownDatasets(unknown: set<Name>)

  function AsValidation(o: Ordering): Validation {
    match o case Ordered(ns) => DependencyOrder(ns) case Cycle(ns) => DependencyCycle(ns)
  }

  class DatasetDependencyGraph {
    const maxDatasets: nat
    const maxPartitions: nat
    const dependencies: Graph

    /** Adds every parent that is not a dataset of its own, without parents. */
    constructor (given: Graph, maxDatasets: nat, maxPartitions: nat)
      ensures this.maxDatasets == maxDatasets && this.maxPartitions == maxPartitions
      ensures Complete(dependencies)
      ensures dependencies.Keys == given.Keys + set n, p | n in given && p in given[n] :: p
      ensures forall n :: n in dependencies ==> dependencies[n] == if n in given then given[n] else {}
    {
      this.maxDatasets, this.maxPartitions := maxDatasets, maxPartitions;
      var parents := set n, p | n in given && p in given[n] :: p;
      dependencies := map n | n in given.Keys + parents :: if n in given then given[n] else {};
    }

    /** Orders a selection, round by round. */
    method Order(selected: set<Name>) returns (r: Ordering)
      requires selected <= dependencies.Keys
      ensures r == G.Order(dependencies, selected)
    {
      hide Rounds, ReadyIn, Shrunk, Increasing;
      var pending: Pending := map n | n in selected :: Parents(dependencies, selected, n);
      var output: seq<Name> := [];
      NothingBefore(Rounds(pending));
      while pending != map[]
        invariant G.Order(dependencies, selected) == Prefixed(output, Rounds(pending))
        decreases |pending|
      {
        var waiting := ReadyIn(pending);
        var ready := Sorted(waiting);
        RoundsUnfold(pending, ready);
        if ready == [] {
          return Cycle(Sorted(pending.Keys));
        }
        ghost var before, done := pending, output;
        output, pending := Emit(ready, output, pending);
        pending := map n | n in pending :: pending[n] - waiting;
        ShrunkAfter(before, ready, pending);
        PrefixedTwice(done, ready, Rounds(pending));
      }
      NothingLeft(output);
      return Ordered(output);
    }

    /** Moves the ready names from pending to the output. */
    static method Emit(ready: seq<Name>, output: seq<Name>, pending: Pending) returns (o: seq<Name>, p: Pending)
      ensures o == output + ready
      ensures p == map n | n in pending && n !in ready :: pending[n]
    {
      o, p := output, pending;
      var i := 0;
      while i < |ready|
        invariant 0 <= i <= |ready| && o == output + ready[..i]
        invariant p == map n | n in pending && n !in ready[..i] :: pending[n]
      {
        assert ready[..i + 1] == ready[..i] + [ready[i]];
        o := o + [ready[i]];
        p := p - {ready[i]};
        i := i + 1;
      }
      assert ready[..i] == ready;
    }

    method TopologicalOrder(selected: set<Name>) returns (r: Validation)
      ensures r == if |selected| > maxDatasets then LimitExceeded(maxDatasets)
                   else if !(selected <= dependencies.Keys) then UnknownDatasets(selected - dependencies.Keys)
                   else AsValidation(G.Order(dependencies, selected))
    {
      if |selected| > maxDatasets {
        return LimitExceeded(maxDatasets);
      }
      var unknown := selected - dependencies.Keys;
      if unknown != {} {
        return UnknownDatasets(unknown);
      }
      NoneUnknown(selected, dependencies.Keys);
      var ordered := Order(selected);
      return AsValidation(ordered);
    }

    method Validate() returns (r: Validation)
      ensures r == if |dependencies| > maxDatasets then LimitExceeded(maxDatasets)
                   else AsValidation(G.Order(dependencies, dependencies.Keys))
    {
      if |dependencies| > maxDatasets {
        return LimitExceeded(maxDatasets);
      }
      var ordered := Order(dependencies.Keys);
      return AsValidation(ordered);
    }

    /** Everything the requested datasets depend on, gathered with a worklist. */
    method Select(requested: set<Name>) returns (selected: set<Name>)
      requires Complete(dependencies) && requested <= dependencies.Keys
      ensures IsClosure(dependencies, requested, selected)
    {
      hide Needed, Sorted, LexLess;
      NeededAtFirst(dependencies, requested);
      selected := requested;
      var pending := Sorted(requested);
      assert forall n :: n in pending ==> n in Members(pending);
      while pending != []
        invariant requested <= selected <= dependencies.Keys
        invariant forall n :: n in pending ==> n in selected
        invariant forall n :: n in selected && n !in pending ==> dependencies[n] <= selected
        invariant Needed(dependencies, requested, selected)
        decreases dependencies.Keys - selected, |pending|
      {
        var current := pending[|pending| - 1];
        ghost var stacked := pending;
        pending := pending[..|pending| - 1];
        ghost var before := selected;
        assert current in selected;
        var rest := dependencies[current];
        while rest != {}
          invariant rest <= dependencies[current] && before <= selected <= dependencies.Keys
          invariant dependencies[current] - rest <= selected
          invariant forall n :: n in pending ==> n in selected
          invariant forall n :: n in stacked && n != current ==> n in pending
          invariant forall n :: n in selected && n !in before ==> n in pending
          invariant Needed(dependencies, requested, selected)
          invariant selected == before ==> pending == stacked[..|stacked| - 1]
          decreases rest
        {
          var parent :| parent in rest;
          rest := rest - {parent};
          if parent !in selected {
            NeededParent(dependencies, requested, selected, current, parent);
            selected := selected + {parent};
            pending := pending + [parent];
          }
        }
        assert dependencies[current] <= selected;
        if selected != before { assert dependencies.Keys - selected < dependencies.Keys - before; }
      }
      NeededAtLast(dependencies, requested, selected);
    }

    method Closure(requested: set<Name>, partitions: set<Name>) returns (r: Validation)
      requires Complete(dependencies)
      ensures if |partitions| > maxPartitions then r == LimitExceeded(maxPartitions)
              else if !(requested <= dependencies.Keys) then r == UnknownDatasets(requested - dependencies.Keys)
              else exists t :: IsClosure(dependencies, requested, t)
                               && r == if |t| > maxDatasets then LimitExceeded(maxDatasets)
                                       else AsValidation(G.Order(dependencies, t))
    {
      if |partitions| > maxPartitions {
        return LimitExceeded(maxPartitions);
      }
      var unknown := requested - dependencies.Keys;
      if unknown != {} {
        return UnknownDatasets(unknown);
      }
      NoneUnknown(requested, dependencies.Keys);
      var selected := Select(requested);
      if |selected| > maxDatasets {
        return LimitExceeded(maxDatasets);
      }
      var ordered := Order(selected);
      return AsValidation(ordered);
    }
  }

  /** What is already in the output comes first, unless there is a cycle. */
  function Prefixed(output: seq<Name>, o: Ordering): Ordering {
    if o.Ordered? then Ordered(output + o.datasets) else o
  }

  lemma NothingBefore(o: Ordering)
    ensures Prefixed([], o) == o
  {
    if o.Ordered? { assert [] + o.datasets == o.datasets; }
  }

  lemma NothingLeft(output: seq<Name>)
    ensures Prefixed(output, Rounds(map[])) == Ordered(output)
  {
    assert output + [] == output;
  }

  /** One round. */
  lemma RoundsUnfold(pending: Pending, ready: seq<Name>)
    requires pending != map[] && ready == Sorted(ReadyIn(pending))
    ensures if ready == [] then Rounds(pending) == Cycle(Sorted(pending.Keys))
            else |Shrunk(pending, ReadyIn(pending))| < |pending|
                 && Rounds(pending) == Prefixed(ready, Rounds(Shrunk(pending, ReadyIn(pending))))
  {
    hide Increasing;
    assert Members(ready) == ReadyIn(pending);
    if ready != [] {
      assert ready[0] in Members(ready);
      ShrunkIsSmaller(pending);
    }
  }

  lemma ShrunkAfter(before: Pending, ready: seq<Name>, after: Pending)
    requires ready == Sorted(ReadyIn(before))
    requires after.Keys == set n | n in before && n !in ready
    requires forall n :: n in after ==> after[n] == before[n] - ReadyIn(before)
    ensures after == Shrunk(before, ReadyIn(before))
  {
    hide Increasing;
    assert forall n :: n in ready <==> n in Members(ready);
  }

  lemma NoneUnknown(a: set<Name>, b: set<Name>)
    requires a - b == {}
    ensures a <= b
  {
    assert forall n :: n in a ==> n !in a - b;
  }

  lemma PrefixedTwice(a: seq<Name>, b: seq<Name>, o: Ordering)
    ensures Prefixed(a, Prefixed(b, o)) == Prefixed(a + b, o)
  {
    if o.Ordered? { assert a + (b + o.datasets) == a + b + o.datasets; }
  }
}
