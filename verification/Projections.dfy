/** The in-memory projection store and the runtime that folds pages of the log into it. */
module Projections {
  import opened Prelude
  import opened EventLog
  import opened EventStore
  import opened ProjectionTable
  import T = ProjectionTable

  class InMemoryProjectionStore {
    const capacity: nat
    var states: map<Key, Projected>
    var rebuilds: map<RunId, Rebuild>

    constructor (capacity: nat)
      requires capacity > 0
      ensures State() == Table(map[], map[]) && this.capacity == capacity
    {
      this.capacity, states, rebuilds := capacity, map[], map[];
    }

    function State(): Table
      reads this
    {
      Table(states, rebuilds)
    }

    method Apply(key: Key, expected: nat, version: nat, state: Json, events: Log) returns (r: ApplyResult)
      modifies this`states
      ensures (r, State()) == T.Apply(old(State()), key, expected, version, state, events, capacity)
    {
      var i := 1;
      while i < |events|
        invariant 1 <= i && forall j :: 0 < j < i && j < |events| ==> events[j - 1].position < events[j].position
      {
        if events[i].position <= events[i - 1].position {
          return ApplyInvalid;
        }
        i := i + 1;
      }
      if events != [] && events[0].position <= expected {
        return ApplyInvalid;
      }
      var current := Get(states, key);
      var actual := if current.None? then 0 else current.value.checkpoint;
      if actual != expected {
        return StaleCheckpoint(expected, actual);
      }
      if current.Some? && current.value.version != version {
        return VersionMismatch(version, current.value.version);
      }
      if current.None? && |states| >= capacity {
        return ApplyOverflow;
      }
      var checkpoint := if events == [] then expected else events[|events| - 1].position;
      var projected := Projected(version, checkpoint, state);
      states := states[key := projected];
      return Applied(projected, |events|);
    }

    method BeginRebuild(id: RunId, run: Rebuild) returns (r: BeginResult)
      modifies this`rebuilds
      ensures (r, State()) == T.BeginRebuild(old(State()), id, run, capacity)
    {
      if id in rebuilds {
        return AlreadyBegun;
      }
      if |states| + |rebuilds| >= capacity {
        return BeginOverflow;
      }
      rebuilds := rebuilds[id := run];
      return Begun;
    }

    method AdvanceRebuild(id: RunId, expected: nat, state: Json, next: nat, complete: bool) returns (r: AdvanceResult)
      modifies this`states, this`rebuilds
      ensures (r, State()) == T.AdvanceRebuild(old(State()), id, expected, state, next, complete)
    {
      if id !in rebuilds || rebuilds[id].status != RUNNING || rebuilds[id].next != expected {
        return NotAdvanced;
      }
      var current := rebuilds[id];
      if !(current.next <= next <= current.through) || complete != (next == current.through) {
        return AdvanceInvalid;
      }
      var active := Get(states, current.key);
      if complete && active.Some? && (active.value.checkpoint > next || active.value.version > current.version) {
        return NotAdvanced;
      }
      var status := if complete then COMPLETED else RUNNING;
      var advanced := current.(state := state, next := next, status := status);
      rebuilds := rebuilds[id := advanced];
      if complete {
        states := states[current.key := Projected(current.version, next, state)];
      }
      return Advanced(advanced);
    }
  }

  class ProjectionRuntime {
    const store: InMemoryProjectionStore
    const events: InMemoryEventStore

    constructor (store: InMemoryProjectionStore, events: InMemoryEventStore)
      ensures this.store == store && this.events == events
    {
      this.store, this.events := store, events;
    }

    method ProjectOnce(key: Key, version: nat, d: Definition, limit: nat) returns (r: ApplyResult)
      requires events.Valid() && 1 <= limit <= events.maxPageSize
      modifies store
      ensures (r, store.State()) == T.ProjectOnce(old(store.State()), events.all, key, version, limit, d, store.capacity)
      ensures events.Valid() && events.all == old(events.all)
    {
      hide FoldFrom, LogGood, Of, KnownIds, SnapshotsGood;
      var current := Get(store.states, key);
      var checkpoint := if current.None? then 0 else current.value.checkpoint;
      if current.Some? && current.value.version != version {
        return VersionMismatch(version, current.value.version);
      }
      var page := events.ReadAll(checkpoint, limit);
      var state := if current.None? then d.initial else current.value.state;
      state := Reduce(d, state, page.events);
      r := store.Apply(key, checkpoint, version, state, page.events);
    }

    method ResumeRebuild(id: RunId, version: nat, d: Definition) returns (r: ResumeResult)
      requires events.Valid() && (id in store.rebuilds ==> 1 <= store.rebuilds[id].batch <= events.maxPageSize)
      modifies store
      ensures (r, store.State()) == T.ResumeRebuild(old(store.State()), events.all, id, version, d)
      ensures events.Valid() && events.all == old(events.all)
    {
      hide FoldFrom, UpTo, LogGood, Of, KnownIds, SnapshotsGood;
      if id !in store.rebuilds {
        return UnknownRun;
      }
      var run := store.rebuilds[id];
      if run.version != version {
        return DefinitionChanged;
      }
      if run.status == COMPLETED {
        return Resumed(run);
      }
      var page := events.ReadAll(run.next, run.batch);
      var selected := Select(page.events, run.through);
      var state := Reduce(d, run.state, selected);
      var next := if selected == [] then run.next else selected[|selected| - 1].position;
      var complete := next == run.through;
      if selected == [] && !complete {
        return MissingCoverage;
      }
      var advanced := store.AdvanceRebuild(id, run.next, state, next, complete);
      return if advanced.Advanced? then Resumed(advanced.run) else Conflict;
    }
  }

  /** Reduces events one after the other. */
  method Reduce(d: Definition, initial: Json, events: Log) returns (state: Json)
    ensures state == FoldFrom(d, initial, events)
  {
    state := initial;
    var i := 0;
    while i < |events|
      invariant 0 <= i <= |events| && state == FoldFrom(d, initial, events[..i])
    {
      state := d.reduce(state, events[i]);
      assert events[..i + 1][..i] == events[..i];
      i := i + 1;
    }
    assert events[..i] == events;
  }

  /** The events up to a watermark. */
  method Select(events: Log, through: nat) returns (selected: Log)
    ensures selected == UpTo(events, through)
  {
    selected := [];
    var i := 0;
    while i < |events|
      invariant 0 <= i <= |events| && selected == UpTo(events[..i], through)
    {
      assert events[..i + 1][..i] == events[..i];
      if events[i].position <= through {
        selected := selected + [events[i]];
      }
      i := i + 1;
    }
    assert events[..i] == events;
  }
}
