/** The event log: one global sequence of stored events, whose streams are its subsequences. */
module EventLog {
  import opened Prelude

  type Stream(==,!new)
  type EventId(==,!new)
  type Body(==,!new)

  datatype NewEvent = NewEvent(id: EventId, body: Body)

  datatype StoredEvent = StoredEvent(stream: Stream, version: nat, position: nat, event: NewEvent)

  type Log = seq<StoredEvent>

  /** The events of one stream, in the order of the log. */
  function Of(log: Log, s: Stream): Log {
    if log == [] then []
    else Of(log[..|log| - 1], s) + if log[|log| - 1].stream == s then [log[|log| - 1]] else []
  }

  /** Positions count the log, versions count the event's stream, identifiers are unique. */
  ghost predicate LogGood(log: Log) {
    && (forall i :: 0 <= i < |log| ==> log[i].position == i + 1)
    && (forall i :: 0 <= i < |log| ==> log[i].version == |Of(log[..i], log[i].stream)| + 1)
    && (forall i, j :: 0 <= i < j < |log| ==> log[i].event.id != log[j].event.id)
  }

  lemma {:induction false} OfConcat(a: Log, b: Log, s: Stream)
    ensures Of(a + b, s) == Of(a, s) + Of(b, s)
    decreases |b|
  {
    if b == [] {
      assert a + b == a;
    } else {
      assert (a + b)[..|a + b| - 1] == a + b[..|b| - 1];
      OfConcat(a, b[..|b| - 1], s);
    }
  }

  ghost predicate Positioned(log: Log) {
    forall i :: 0 <= i < |log| ==> log[i].position == i + 1
  }

  lemma PositionedAt(log: Log, n: nat)
    requires Positioned(log) && n <= |log|
    ensures n > 0 ==> log[n - 1].position == n
  {
  }

  lemma GoodIsPositioned(log: Log)
    requires LogGood(log)
    ensures Positioned(log)
  {
  }

  // ---------------------------------------------------------------- appending

  /** The first identifier that occurs more than once. */
  function FirstRepeated(ids: seq<EventId>): (r: Option<EventId>)
    ensures r.None? <==> forall i, j :: 0 <= i < j < |ids| ==> ids[i] != ids[j]
    ensures r.Some? ==> r.value in ids
  {
    if ids == [] then None
    else if ids[0] in ids[1..] then
      var j :| 0 <= j < |ids[1..]| && ids[1..][j] == ids[0];
      assert ids[0] == ids[j + 1];
      Some(ids[0])
    else
      var rest := FirstRepeated(ids[1..]);
      assert rest.None? ==> forall i, j :: 0 <= i < j < |ids| ==> ids[i] != ids[j] by {
        if rest.None? {
          forall i, j | 0 <= i < j < |ids| ensures ids[i] != ids[j] {
            assert ids[j] == ids[1..][j - 1];
            if i > 0 { assert ids[i] == ids[1..][i - 1]; }
          }
        }
      }
      rest
  }

  function IdsOf(events: seq<NewEvent>): (r: seq<EventId>)
    ensures |r| == |events| && forall i :: 0 <= i < |events| ==> r[i] == events[i].id
  {
    seq(|events|, i requires 0 <= i < |events| => events[i].id)
  }

  ghost function KnownIds(log: Log): set<EventId> {
    set e | e in log :: e.event.id
  }

  /** The first of the identifiers that the log already holds. */
  ghost function FirstKnown(ids: seq<EventId>, known: set<EventId>): (r: Option<EventId>)
    ensures r.None? <==> forall i :: 0 <= i < |ids| ==> ids[i] !in known
  {
    if ids == [] then None else if ids[0] in known then Some(ids[0]) else FirstKnown(ids[1..], known)
  }

  /** New events numbered after the given version and position. */
  function Stamped(s: Stream, version: nat, position: nat, events: seq<NewEvent>): (r: Log)
    ensures |r| == |events|
    ensures forall i :: 0 <= i < |r| ==> r[i] == StoredEvent(s, version + i + 1, position + i + 1, events[i])
  {
    seq(|events|, i requires 0 <= i < |events| => StoredEvent(s, version + i + 1, position + i + 1, events[i]))
  }

  datatype AppendResult =
    | AppendCommitted(first: nat, last: nat, stored: Log)
    | WrongVersion(expected: nat, actual: nat)
    | DuplicateId(id: EventId)
    | Overflow

  ghost function Append(log: Log, s: Stream, expected: nat, events: seq<NewEvent>, capacity: nat): (AppendResult, Log)
    requires events != []
  {
    var ids := IdsOf(events);
    var actual := |Of(log, s)|;
    if FirstRepeated(ids).Some? then (DuplicateId(FirstRepeated(ids).value), log)
    else if actual != expected then (WrongVersion(expected, actual), log)
    else if FirstKnown(ids, KnownIds(log)).Some? then (DuplicateId(FirstKnown(ids, KnownIds(log)).value), log)
    else if |log| + |events| > capacity then (Overflow, log)
    else
      var stored := Stamped(s, actual, |log|, events);
      (AppendCommitted(actual + 1, actual + |events|, stored), log + stored)
  }

  lemma {:induction false} OfStamped(s: Stream, version: nat, position: nat, events: seq<NewEvent>, t: Stream)
    ensures Of(Stamped(s, version, position, events), t)
            == if t == s then Stamped(s, version, position, events) else []
    decreases |events|
  {
    if events != [] {
      var init := events[..|events| - 1];
      var all := Stamped(s, version, position, events);
      OfStamped(s, version, position, init, t);
      assert all[..|all| - 1] == Stamped(s, version, position, init);
    }
  }

  /** The streams after an append. */
  lemma AppendedStream(log: Log, s: Stream, events: seq<NewEvent>, t: Stream)
    ensures var stored := Stamped(s, |Of(log, s)|, |log|, events);
            Of(log + stored, t) == Of(log, t) + if t == s then stored else []
  {
    hide Of, Stamped;
    OfConcat(log, Stamped(s, |Of(log, s)|, |log|, events), t);
    OfStamped(s, |Of(log, s)|, |log|, events, t);
  }

  lemma AppendedVersion(log: Log, s: Stream, events: seq<NewEvent>, i: nat)
    requires LogGood(log) && i < |log| + |events|
    ensures var after := log + Stamped(s, |Of(log, s)|, |log|, events);
            after[i].version == |Of(after[..i], after[i].stream)| + 1
  {
    hide Of;
    var after := log + Stamped(s, |Of(log, s)|, |log|, events);
    if i < |log| {
      assert after[..i] == log[..i];
    } else {
      var early := events[..i - |log|];
      assert after[..i] == log + Stamped(s, |Of(log, s)|, |log|, early);
      AppendedStream(log, s, early, s);
    }
  }

  lemma AppendedGood(log: Log, s: Stream, events: seq<NewEvent>)
    requires LogGood(log) && FirstRepeated(IdsOf(events)).None? && FirstKnown(IdsOf(events), KnownIds(log)).None?
    ensures LogGood(log + Stamped(s, |Of(log, s)|, |log|, events))
  {
    hide Of, KnownIds, FirstRepeated, FirstKnown, IdsOf;
    var after := log + Stamped(s, |Of(log, s)|, |log|, events);
    forall i | 0 <= i < |after| ensures after[i].version == |Of(after[..i], after[i].stream)| + 1 {
      AppendedVersion(log, s, events, i);
    }
    AppendedIdsUnique(log, s, |Of(log, s)|, events);
  }

  /** An append keeps the log well formed, only ever extends it, and extends only its own stream. */
  lemma AppendKeepsLog(log: Log, s: Stream, expected: nat, events: seq<NewEvent>, capacity: nat)
    requires LogGood(log) && events != []
    ensures var (r, after) := Append(log, s, expected, events, capacity);
            && LogGood(after) && log <= after
            && (forall t :: Of(after, t) == Of(log, t) + if r.AppendCommitted? && t == s then r.stored else [])
            && (r.AppendCommitted? ==> r.first == expected + 1 && r.last == |Of(after, s)|)
  {
    hide Of, LogGood, KnownIds, FirstRepeated, FirstKnown, IdsOf;
    var (r, after) := Append(log, s, expected, events, capacity);
    if r.AppendCommitted? {
      AppendedGood(log, s, events);
      forall t ensures Of(after, t) == Of(log, t) + if t == s then r.stored else [] {
        AppendedStream(log, s, events, t);
      }
    } else {
      forall t ensures Of(after, t) == Of(log, t) + [] {}
    }
  }

  lemma AppendedIdsUnique(log: Log, s: Stream, expected: nat, events: seq<NewEvent>)
    requires LogGood(log) && FirstRepeated(IdsOf(events)).None? && FirstKnown(IdsOf(events), KnownIds(log)).None?
    ensures var after := log + Stamped(s, expected, |log|, events);
            forall i, j :: 0 <= i < j < |after| ==> after[i].event.id != after[j].event.id
  {
    var after := log + Stamped(s, expected, |log|, events);
    var ids := IdsOf(events);
    forall i, j | 0 <= i < j < |after| ensures after[i].event.id != after[j].event.id {
      if j >= |log| {
        assert after[j].event.id == ids[j - |log|];
        if i >= |log| {
          assert after[i].event.id == ids[i - |log|];
        } else {
          assert log[i] in log && log[i].event.id in KnownIds(log);
        }
      }
    }
  }

  /** The versions of a stream are 1, 2, 3, ... */
  lemma {:induction false} StreamNumbered(log: Log, s: Stream, k: nat)
    requires LogGood(log) && k < |Of(log, s)|
    ensures Of(log, s)[k].version == k + 1 && Of(log, s)[k].stream == s
    decreases |log|
  {
    var init := log[..|log| - 1];
    if k < |Of(init, s)| {
      PrefixGood(log, |log| - 1);
      StreamNumbered(init, s, k);
    }
  }

  lemma PrefixGood(log: Log, n: nat)
    requires LogGood(log) && n <= |log|
    ensures LogGood(log[..n])
  {
    forall i | 0 <= i < n ensures log[..n][i].version == |Of(log[..n][..i], log[..n][i].stream)| + 1 {
      assert log[..n][..i] == log[..i];
    }
  }

  /** Of all writers that expect the same version of a stream, at most one ever commits: once one has,
    * every later append with that expectation is refused and changes nothing, however the log has grown. */
  lemma OneWriterPerVersion(log: Log, s: Stream, expected: nat, first: seq<NewEvent>, later: Log,
                            second: seq<NewEvent>, capacity: nat)
    requires first != [] && second != []
    requires Append(log, s, expected, first, capacity).0.AppendCommitted?
    requires Append(log, s, expected, first, capacity).1 <= later
    ensures !Append(later, s, expected, second, capacity).0.AppendCommitted?
    ensures Append(later, s, expected, second, capacity).1 == later
  {
    hide Of, KnownIds, FirstRepeated, FirstKnown, IdsOf;
    var after := Append(log, s, expected, first, capacity).1;
    AppendedStream(log, s, first, s);
    assert later == after + later[|after|..];
    OfConcat(after, later[|after|..], s);
  }

  // ---------------------------------------------------------------- reading pages

  datatype Page = Page(events: Log, next: nat, complete: bool)

  function Smaller(a: nat, b: nat): nat {
    if a < b then a else b
  }

  /** At most limit events of the log after a position. */
  function ReadAll(log: Log, after: nat, limit: nat): Page {
    var start := Smaller(after, |log|);
    var stop := Smaller(start + limit, |log|);
    Page(log[start..stop], if start == stop then after else stop, stop == |log|)
  }

  /** At most limit events of a stream after a version. */
  function ReadStream(log: Log, s: Stream, after: nat, limit: nat): Page {
    ReadAll(Of(log, s), after, limit)
  }

  /** The events that a reader gathers when it reads page after page, each time from a log that may
    * have grown since. */
  function Gathered(logs: seq<Log>, after: nat, limit: nat): Log {
    if logs == [] then []
    else
      var page := ReadAll(logs[0], after, limit);
      page.events + Gathered(logs[1..], page.next, limit)
  }

  ghost predicate Growing(logs: seq<Log>) {
    forall i, j :: 0 <= i < j < |logs| ==> logs[i] <= logs[j]
  }

  /** Paging over a growing log misses nothing and repeats nothing. */
  lemma {:induction false} PagesAreContiguous(logs: seq<Log>, after: nat, limit: nat)
    requires logs != [] && Growing(logs) && after <= |logs[0]|
    ensures var last := logs[|logs| - 1];
            var got := Gathered(logs, after, limit);
            after + |got| <= |last| && got == last[after..after + |got|]
    decreases |logs|
  {
    hide ReadAll;
    var page := ReadAll(logs[0], after, limit);
    var last := logs[|logs| - 1];
    PageFacts(logs[0], last, after, limit);
    if |logs| == 1 {
      assert Gathered(logs[1..], page.next, limit) == [];
      assert page.events + [] == page.events;
    } else {
      assert logs[1..][|logs| - 2] == last;
      PagesAreContiguous(logs[1..], page.next, limit);
      Rejoined(last, after, page.next, page.next + |Gathered(logs[1..], page.next, limit)|);
    }
  }

  lemma PageFacts(log: Log, last: Log, after: nat, limit: nat)
    requires after <= |log| && log <= last
    ensures var page := ReadAll(log, after, limit);
            after <= page.next <= |log| && page.events == last[after..page.next]
  {
  }

  lemma Rejoined(log: Log, a: nat, b: nat, c: nat)
    requires a <= b <= c <= |log|
    ensures log[a..b] + log[b..c] == log[a..c]
  {
  }

  lemma {:induction false} OfMembers(log: Log, s: Stream, e: StoredEvent)
    ensures e in Of(log, s) <==> e in log && e.stream == s
  {
    if log != [] {
      var init := log[..|log| - 1];
      OfMembers(init, s, e);
      assert e in log <==> e in init || e == log[|log| - 1];
    }
  }

  /** What a page of a stream holds: exactly the stored events of the stream with the next versions after the
    * given one, in order and at most limit; where the next page starts; and whether the stream goes on. */
  lemma StreamPageHolds(log: Log, s: Stream, after: nat, limit: nat)
    requires LogGood(log) && limit >= 1
    ensures var page := ReadStream(log, s, after, limit);
            && (forall e :: e in page.events <==> e in log && e.stream == s && after < e.version <= after + limit)
            && (forall i :: 0 <= i < |page.events| ==> page.events[i].version == after + 1 + i)
            && page.next == (if page.events == [] then after else page.events[|page.events| - 1].version)
            && (page.complete <==> forall e :: e in log && e.stream == s ==> e.version <= page.next)
  {
    hide LogGood, Of;
    var list := Of(log, s);
    forall i | 0 <= i < |list| ensures list[i].version == i + 1 { StreamNumbered(log, s, i); }
    forall e ensures e in list <==> e in log && e.stream == s { OfMembers(log, s, e); }
    NumberedPage(list, after, limit);
    var page := ReadStream(log, s, after, limit);
    forall e ensures e in page.events <==> e in log && e.stream == s && after < e.version <= after + limit {
      assert e in page.events <==> e in list && after < e.version <= after + limit;
    }
    if forall e :: e in log && e.stream == s ==> e.version <= page.next {
      if list != [] { assert list[|list| - 1] in list; }
    }
  }

  /** Of events that are numbered from one, a page holds those with the next numbers. */
  lemma NumberedPage(list: Log, after: nat, limit: nat)
    requires forall i :: 0 <= i < |list| ==> list[i].version == i + 1
    ensures var page := ReadAll(list, after, limit);
            && (forall e :: e in page.events <==> e in list && after < e.version <= after + limit)
            && (forall i :: 0 <= i < |page.events| ==> page.events[i].version == after + 1 + i)
            && page.next == (if page.events == [] then after else page.events[|page.events| - 1].version)
            && (page.complete <==> |list| <= page.next)
  {
    var page := ReadAll(list, after, limit);
    var start := Smaller(after, |list|);
    forall i | 0 <= i < |page.events| ensures page.events[i] == list[start + i] {}
    forall e | e in list && after < e.version <= after + limit ensures e in page.events {
      var i :| 0 <= i < |list| && list[i] == e;
      assert page.events[i - start] == e;
    }
  }

  /** The same of the whole log, by position. */
  lemma PageHolds(log: Log, after: nat, limit: nat)
    requires Positioned(log) && limit >= 1
    ensures var page := ReadAll(log, after, limit);
            && (forall e :: e in page.events <==> e in log && after < e.position <= after + limit)
            && (forall i :: 0 <= i < |page.events| ==> page.events[i].position == after + 1 + i)
            && page.next == (if page.events == [] then after else page.events[|page.events| - 1].position)
            && (page.complete <==> forall e :: e in log ==> e.position <= page.next)
  {
    var page := ReadAll(log, after, limit);
    var start := Smaller(after, |log|);
    forall i | 0 <= i < |page.events| ensures page.events[i] == log[start + i] {}
    forall e | e in log && after < e.position <= after + limit ensures e in page.events {
      var i :| 0 <= i < |log| && log[i] == e;
      assert page.events[i - start] == e;
    }
    if forall e :: e in log ==> e.position <= page.next {
      if log != [] { assert log[|log| - 1] in log; }
    }
  }

  /** The events that a reader of one stream gathers page after page, each time from a log that may have grown. */
  function GatheredOf(logs: seq<Log>, s: Stream, after: nat, limit: nat): Log {
    if logs == [] then []
    else
      var page := ReadStream(logs[0], s, after, limit);
      page.events + GatheredOf(logs[1..], s, page.next, limit)
  }

  /** Stored events of one stream whose versions follow the given one without a gap. */
  ghost predicate Follows(got: Log, log: Log, s: Stream, after: nat) {
    forall i :: 0 <= i < |got| ==> got[i] in log && got[i].stream == s && got[i].version == after + 1 + i
  }

  lemma FollowsOn(a: Log, b: Log, log: Log, s: Stream, after: nat)
    requires Follows(a, log, s, after) && Follows(b, log, s, after + |a|)
    ensures Follows(a + b, log, s, after)
  {
  }

  /** Paging one stream over a growing log misses nothing and repeats nothing: the versions go on by one. */
  lemma {:induction false} StreamPagesAreContiguous(logs: seq<Log>, s: Stream, after: nat, limit: nat)
    requires logs != [] && Growing(logs) && LogGood(logs[|logs| - 1]) && after <= |Of(logs[0], s)|
    ensures Follows(GatheredOf(logs, s, after, limit), logs[|logs| - 1], s, after)
    decreases |logs|
  {
    hide LogGood, Of, ReadAll;
    var last := logs[|logs| - 1];
    var page := ReadStream(logs[0], s, after, limit);
    assert last == logs[0] + last[|logs[0]|..];
    OfConcat(logs[0], last[|logs[0]|..], s);
    PageFacts(Of(logs[0], s), Of(last, s), after, limit);
    forall i | 0 <= i < |page.events|
      ensures page.events[i] in last && page.events[i].stream == s && page.events[i].version == after + 1 + i
    {
      assert page.events[i] == Of(last, s)[after + i];
      StreamNumbered(last, s, after + i);
      OfMembers(last, s, page.events[i]);
    }
    var rest := GatheredOf(logs[1..], s, page.next, limit);
    if |logs| > 1 {
      assert logs[1..][|logs| - 2] == last;
      assert logs[1] == logs[0] + logs[1][|logs[0]|..];
      OfConcat(logs[0], logs[1][|logs[0]|..], s);
      StreamPagesAreContiguous(logs[1..], s, page.next, limit);
    } else {
      assert rest == [];
    }
    FollowsOn(page.events, rest, last, s, after);
  }

  /** When an append commits, by what is stored and asked for, and what it then stores. */
  lemma AppendStores(log: Log, s: Stream, expected: nat, events: seq<NewEvent>, capacity: nat)
    requires LogGood(log) && events != []
    ensures var (r, after) := Append(log, s, expected, events, capacity);
            && (r.AppendCommitted? <==>
                  && (forall i, j :: 0 <= i < j < |events| ==> events[i].id != events[j].id)
                  && (forall i, e :: 0 <= i < |events| && e in log ==> e.event.id != events[i].id)
                  && expected == |Of(log, s)| && |log| + |events| <= capacity)
            && (r.AppendCommitted? ==>
                  && |after| == |log| + |events| && log <= after && r.stored == after[|log|..]
                  && (forall i :: 0 <= i < |events| ==>
                        after[|log| + i] == StoredEvent(s, expected + 1 + i, |log| + 1 + i, events[i])))
            && (!r.AppendCommitted? ==> after == log)
            && (r.WrongVersion? ==> r.expected == expected != r.actual == |Of(log, s)|)
  {
    hide LogGood, Of, FirstRepeated, FirstKnown;
    var ids := IdsOf(events);
    if forall i, e :: 0 <= i < |events| && e in log ==> e.event.id != events[i].id {
      forall i | 0 <= i < |ids| ensures ids[i] !in KnownIds(log) {}
    } else {
      var i, e :| 0 <= i < |events| && e in log && e.event.id == events[i].id;
      assert ids[i] in KnownIds(log);
    }
    if !(forall i, j :: 0 <= i < j < |events| ==> events[i].id != events[j].id) {
      var i, j :| 0 <= i < j < |events| && events[i].id == events[j].id;
      assert ids[i] == ids[j];
    }
  }

  // ---------------------------------------------------------------- snapshots

  type Json(==,!new)

  datatype Snapshot = Snapshot(stream: Stream, version: nat, state: Json)

  datatype SaveResult = Saved | Superseded | AheadOfStream

  function SaveSnapshot(log: Log, snapshots: map<Stream, Snapshot>, snapshot: Snapshot, expected: Option<nat>)
    : (SaveResult, map<Stream, Snapshot>)
  {
    var actual := if snapshot.stream in snapshots then Some(snapshots[snapshot.stream].version) else None;
    if actual != expected then (Superseded, snapshots)
    else if snapshot.version > |Of(log, snapshot.stream)| then (AheadOfStream, snapshots)
    else (Saved, snapshots[snapshot.stream := snapshot])
  }

  /** No snapshot is ahead of its stream. */
  ghost predicate SnapshotsGood(log: Log, snapshots: map<Stream, Snapshot>) {
    forall s :: s in snapshots ==> snapshots[s].stream == s && snapshots[s].version <= |Of(log, s)|
  }

  /** A growing log leaves no snapshot ahead of its stream. */
  lemma SnapshotsStayBehind(log: Log, snapshots: map<Stream, Snapshot>, later: Log)
    requires SnapshotsGood(log, snapshots) && log <= later
    ensures SnapshotsGood(later, snapshots)
  {
    forall s ensures |Of(log, s)| <= |Of(later, s)| {
      assert later == log + later[|log|..];
      OfConcat(log, later[|log|..], s);
    }
  }

  /** Saving never puts a snapshot ahead of its stream, and of two savers that expect the same version
    * only the first saves, unless what it saved has that very version. */
  lemma OneSaverPerVersion(log: Log, snapshots: map<Stream, Snapshot>, later: Log, first: Snapshot,
                           expected: Option<nat>, second: Snapshot)
    requires SnapshotsGood(log, snapshots) && log <= later && second.stream == first.stream
    ensures var (r, after) := SaveSnapshot(log, snapshots, first, expected);
            && SnapshotsGood(later, after)
            && (r.Saved? && Some(first.version) != expected
                ==> SaveSnapshot(later, after, second, expected) == (Superseded, after))
  {
    SnapshotsStayBehind(log, SaveSnapshot(log, snapshots, first, expected).1, later);
  }
}
