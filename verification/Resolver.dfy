/** The resolver as it is written: a recursive walk that counts references in a field of its state. */
module Resolver {
  import opened Prelude
  import opened Text
  import opened JsonPointer
  import opened References
  import R = References

  datatype Result<T> = Ok(value: T) | Rejected(code: Code) {
    predicate IsFailure() { Rejected? }
    function PropagateFailure<U>(): Result<U>
      requires Rejected?
    { Result.Rejected(code) }
    function Extract(): T
      requires Ok?
    { value }
  }

  /** A method agrees with the walk: the same value and count, or the same reason to stop. */
  ghost predicate Agrees<T(!new)>(walked: Walked<T>, r: Result<T>, references: nat) {
    match walked case Done(v, n) => r == Ok(v) && references == n case Stopped(c) => r == Result.Rejected(c)
  }

  class ResolutionState {
    const world: World
    var references: nat

    constructor (world: World)
      ensures this.world == world && references == 0
    {
      this.world, references := world, 0;
    }

    method Walk(v: Json, file: Path, depth: nat, stack: seq<Marker>) returns (r: Result<Json>)
      requires depth <= world.maxDepth + 1
      modifies this
      ensures Agrees(R.Walk(world, v, file, depth, stack, old(references)), r, references)
      decreases world.maxDepth + 1 - depth, v, 2
    {
      hide R.WalkReference, R.WalkItems, R.WalkMembers, ReferenceOf;
      if depth > world.maxDepth {
        return Result.Rejected(DepthLimit);
      }
      match v {
        case List(items) =>
          var walked :- WalkItems(items, file, depth, stack);
          return Ok(List(walked));
        case Object(members) =>
          if ReferenceOf(members).Some? {
            r := WalkReference(members, file, depth, stack);
          } else {
            var walked :- WalkMembers(members, false, file, depth, stack);
            return Ok(Object(walked));
          }
        case _ => return Ok(v);
      }
    }

    method WalkReference(members: seq<Member>, file: Path, depth: nat, stack: seq<Marker>) returns (r: Result<Json>)
      requires depth <= world.maxDepth && ReferenceOf(members).Some?
      modifies this
      ensures Agrees(R.WalkReference(world, members, file, depth, stack, old(references)), r, references)
      decreases world.maxDepth + 1 - depth, members, 2
    {
      hide R.Walk, R.WalkMembers, ReferenceOf, Evaluate;
      var reference := ReferenceOf(members).value;
      references := references + 1;
      if references > world.maxReferences {
        return Result.Rejected(ReferenceLimit);
      }
      var marker := world.target(reference, file);
      if marker.None? {
        return Result.Rejected(BadTarget);
      }
      if marker.value in stack {
        return Result.Rejected(CyclicReference);
      }
      if marker.value.file !in world.files {
        return Result.Rejected(BadPointer);
      }
      var target := EvaluatePointer(world.files[marker.value.file], marker.value.pointer);
      if target.None? {
        return Result.Rejected(BadPointer);
      }
      var resolved :- Walk(target.value, marker.value.file, depth + 1, stack + [marker.value]);
      if !HasSiblings(members) {
        return Ok(resolved);
      }
      var siblings :- WalkMembers(members, true, file, depth, stack);
      if Find(siblings, ALL_OF).Some? {
        return Result.Rejected(IncompatibleSiblings);
      }
      return Ok(Combined(resolved, siblings));
    }

    method WalkItems(items: seq<Json>, file: Path, depth: nat, stack: seq<Marker>) returns (r: Result<seq<Json>>)
      requires depth <= world.maxDepth
      modifies this
      ensures Agrees(R.WalkItems(world, items, file, depth, stack, old(references)), r, references)
      decreases world.maxDepth + 1 - depth, items, 1
    {
      hide R.Walk;
      var done: seq<Json> := [];
      var i := 0;
      assert items[0..] == items;
      Nothing(R.WalkItems(world, items, file, depth, stack, references));
      while i < |items|
        invariant 0 <= i <= |items|
        invariant R.WalkItems(world, items, file, depth, stack, old(references))
                  == Before(done, R.WalkItems(world, items[i..], file, depth, stack, references))
      {
        assert items[i..][0] == items[i] && items[i..][1..] == items[i + 1..];
        var item :- Walk(items[i], file, depth, stack);
        OneMore(done, item, R.WalkItems(world, items[i + 1..], file, depth, stack, references));
        done := done + [item];
        i := i + 1;
      }
      assert done + [] == done;
      return Ok(done);
    }

    method WalkMembers(members: seq<Member>, siblings: bool, file: Path, depth: nat, stack: seq<Marker>)
      returns (r: Result<seq<Member>>)
      requires depth <= world.maxDepth
      modifies this
      ensures Agrees(R.WalkMembers(world, members, siblings, file, depth, stack, old(references)), r, references)
      decreases world.maxDepth + 1 - depth, members, 1
    {
      hide R.Walk;
      var done: seq<Member> := [];
      var i := 0;
      assert members[0..] == members;
      Nothing(R.WalkMembers(world, members, siblings, file, depth, stack, references));
      while i < |members|
        invariant 0 <= i <= |members|
        invariant R.WalkMembers(world, members, siblings, file, depth, stack, old(references))
                  == Before(done, R.WalkMembers(world, members[i..], siblings, file, depth, stack, references))
      {
        assert members[i..][0] == members[i] && members[i..][1..] == members[i + 1..];
        if !(siblings && members[i].key == REF) {
          var value :- Walk(members[i].value, file, depth, stack);
          OneMore(done, Member(members[i].key, value),
                  R.WalkMembers(world, members[i + 1..], siblings, file, depth, stack, references));
          done := done + [Member(members[i].key, value)];
        }
        i := i + 1;
      }
      assert done + [] == done;
      return Ok(done);
    }
  }

  /** What a loop has done so far, before the rest of the walk. */
  function Before<T>(done: seq<T>, rest: Walked<seq<T>>): Walked<seq<T>> {
    match rest case Done(more, n) => Done(done + more, n) case Stopped(c) => Stopped(c)
  }

  lemma Nothing<T>(rest: Walked<seq<T>>)
    ensures Before([], rest) == rest
  {
    if rest.Done? { assert [] + rest.value == rest.value; }
  }

  lemma OneMore<T>(done: seq<T>, x: T, rest: Walked<seq<T>>)
    ensures Before(done, Before([x], rest)) == Before(done + [x], rest)
  {
    if rest.Done? { assert done + ([x] + rest.value) == done + [x] + rest.value; }
  }

  /** Resolves a document of the root and reports how many references it took. */
  method ResolveDocument(world: World, file: Path) returns (r: Result<Json>, references: nat)
    requires file in world.files
    ensures Agrees(Resolve(world, file), r, references)
  {
    var state := new ResolutionState(world);
    r := state.Walk(world.files[file], file, 0, []);
    references := state.references;
  }
}
