/** The in-memory event store: a global list, a list per stream, the known identifiers and the snapshots,
  * all updated in place. */
module EventStore {
  import opened Prelude
  import opened EventLog
  import Spec = EventLog

  class InMemoryEventStore {
    const capacity: nat
    const maxPageSize: nat
    var streams: map<Stream, Log>
    var all: Log
    var eventIds: set<EventId>
    var snapshots: map<Stream, Snapshot>

    constructor (capacity: nat, maxPageSize: nat)
      requires capacity > 0 && maxPageSize > 0
      ensures Valid() && all == [] && snapshots == map[]
      ensures this.capacity == capacity && this.maxPageSize == maxPageSize
    {
      this.capacity, this.maxPageSize := capacity, maxPageSize;
      streams, all, eventIds, snapshots := map[], [], {}, map[];
    }

    /** The list of each stream and the identifiers are those of the global list. */
    ghost predicate Valid()
      reads this
    {
      && maxPageSize > 0
      && LogGood(all) && SnapshotsGood(all, snapshots)
      && (forall s :: ListOf(streams, s) == Of(all, s))
      && eventIds == KnownIds(all)
    }

    method Append(stream: Stream, expected: nat, events: seq<NewEvent>) returns (r: AppendResult)
      requires Valid() && events != []
      modifies this`streams, this`all, this`eventIds
      ensures Valid() && (r, all) == Spec.Append(old(all), stream, expected, events, capacity)
    {
      hide LogGood, SnapshotsGood, Of, KnownIds, IdsOf, FirstRepeated, Stamped, FirstKnown;
      AppendKeepsLog(all, stream, expected, events, capacity);
      var ids := IdsOf(events);
      var repeated := FirstRepeated(ids);
      if repeated.Some? {
        return DuplicateId(repeated.value);
      }
      var actual := |ListOf(streams, stream)|;
      if actual != expected {
        return WrongVersion(expected, actual);
      }
      var known := FindKnown(ids);
      if known.Some? {
        return DuplicateId(known.value);
      }
      if |all| + |events| > capacity {
        return Overflow;
      }
      var stored := Stamped(stream, actual, |all|, events);
      KnownAfter(all, stream, actual, events);
      SnapshotsStayBehind(all, snapshots, all + stored);
      streams := streams[stream := ListOf(streams, stream) + stored];
      all := all + stored;
      eventIds := eventIds + set id | id in ids;
      return AppendCommitted(stored[0].version, stored[|stored| - 1].version, stored);
    }

    /** The first identifier already stored. */
    method FindKnown(ids: seq<EventId>) returns (r: Option<EventId>)
      ensures r == FirstKnown(ids, eventIds)
    {
      var i := 0;
      while i < |ids|
        invariant 0 <= i <= |ids| && FirstKnown(ids, eventIds) == FirstKnown(ids[i..], eventIds)
      {
        if ids[i] in eventIds {
          return Some(ids[i]);
        }
        assert ids[i..][1..] == ids[i + 1..];
        i := i + 1;
      }
      return None;
    }

    method ReadStream(stream: Stream, after: nat, limit: nat) returns (page: Page)
      requires Valid() && 1 <= limit <= maxPageSize
      ensures page == Spec.ReadStream(all, stream, after, limit)
    {
      hide LogGood, SnapshotsGood, KnownIds, Of;
      var list := ListOf(streams, stream);
      var available: Log := [];
      var i := 0;
      while i < |list|
        invariant 0 <= i <= |list| && available == list[Smaller(after, i)..i]
      {
        StreamNumbered(all, stream, i);
        if list[i].version > after {
          available := available + [list[i]];
        }
        i := i + 1;
      }
      PageIsSlice(list, after, limit);
      var selected := available[..Smaller(limit, |available|)];
      if selected != [] { StreamNumbered(all, stream, Smaller(after, |list|) + |selected| - 1); }
      var next := if selected == [] then after else selected[|selected| - 1].version;
      page := Page(selected, next, |available| <= limit);
    }

    method ReadAll(after: nat, limit: nat) returns (page: Page)
      requires Valid() && 1 <= limit <= maxPageSize
      ensures page == Spec.ReadAll(all, after, limit)
    {
      hide LogGood, SnapshotsGood, KnownIds, Of, Positioned;
      GoodIsPositioned(all);
      var available: Log := [];
      var i := 0;
      while i < |all|
        invariant 0 <= i <= |all| && available == all[Smaller(after, i)..i]
      {
        PositionedAt(all, i + 1);
        if all[i].position > after {
          available := available + [all[i]];
        }
        i := i + 1;
      }
      PageIsSlice(all, after, limit);
      var selected := available[..Smaller(limit, |available|)];
      PositionedAt(all, Smaller(after, |all|) + |selected|);
      var next := if selected == [] then after else selected[|selected| - 1].position;
      page := Page(selected, next, |available| <= limit);
    }

    method SaveSnapshot(snapshot: Snapshot, expected: Option<nat>) returns (r: SaveResult)
      requires Valid()
      modifies this`snapshots
      ensures Valid() && (r, snapshots) == Spec.SaveSnapshot(all, old(snapshots), snapshot, expected)
    {
      var current := Get(snapshots, snapshot.stream);
      var actual := if current.None? then None else Some(current.value.version);
      if actual != expected {
        return Superseded;
      }
      var streamVersion := |ListOf(streams, snapshot.stream)|;
      if snapshot.version > streamVersion {
        return AheadOfStream;
      }
      snapshots := snapshots[snapshot.stream := snapshot];
      return Saved;
    }
  }

  /** A page is the first part of what lies after a position. */
  lemma PageIsSlice(list: Log, after: nat, limit: nat)
    ensures var start := Smaller(after, |list|);
            var available := list[start..|list|];
            var selected := available[..Smaller(limit, |available|)];
            Spec.ReadAll(list, after, limit)
            == Page(selected, if selected == [] then after else start + |selected|, |available| <= limit)
  {
    var start := Smaller(after, |list|);
    var stop := Smaller(start + limit, |list|);
    assert list[start..|list|][..stop - start] == list[start..stop];
  }

  function ListOf(streams: map<Stream, Log>, s: Stream): Log {
    if s in streams then streams[s] else []
  }

  /** The identifiers known after an append. */
  lemma KnownAfter(log: Log, s: Stream, version: nat, events: seq<NewEvent>)
    ensures KnownIds(log + Stamped(s, version, |log|, events)) == KnownIds(log) + set id | id in IdsOf(events)
  {
    var stored := Stamped(s, version, |log|, events);
    var ids := IdsOf(events);
    forall id | id in ids ensures id in KnownIds(log + stored) {
      var i :| 0 <= i < |ids| && ids[i] == id;
      assert stored[i] in log + stored;
    }
    forall e | e in log + stored ensures e.event.id in KnownIds(log) || e.event.id in ids {
      if e !in log {
        var i :| 0 <= i < |stored| && stored[i] == e;
        assert ids[i] == e.event.id;
      }
    }
  }
}
