/** How far rebuilds get: exactly as many successful resumes as the watermark needs batches, at any
  * interleaving, and what a completed rebuild publishes. */
module ProjectionRebuilds {
  import opened Prelude
  import opened EventLog
  import opened ProjectionTable
  import opened ProjectionRuns

  // ---------------------------------------------------------------- counting batches

  /** The position that a rebuild from zero has reached after n batches. */
  function Reach(n: nat, batch: nat, through: nat): nat {
    if n == 0 then 0 else Smaller(Reach(n - 1, batch, through) + batch, through)
  }

  /** The number of batches up to the watermark, rounded up; an empty rebuild takes one call as well. */
  function Calls(through: nat, batch: nat): nat
    requires batch > 0
  {
    if through == 0 then 1 else (through + batch - 1) / batch
  }

  lemma {:induction false} ReachIs(n: nat, batch: nat, through: nat)
    ensures Reach(n, batch, through) == Smaller(n * batch, through)
  {
    if n > 0 {
      ReachIs(n - 1, batch, through);
      assert n * batch == (n - 1) * batch + batch;
    }
  }

  lemma Monotone(a: nat, b: nat, c: nat)
    requires a <= b
    ensures a * c <= b * c
  {
  }

  lemma Ceiling(through: nat, batch: nat, n: nat)
    requires batch > 0 && through > 0
    ensures n * batch >= through <==> n >= (through + batch - 1) / batch
  {
    var q := (through + batch - 1) / batch;
    assert q * batch <= through + batch - 1 < q * batch + batch;
    if n >= q {
      Monotone(q, n, batch);
    } else {
      Monotone(n, q - 1, batch);
      assert (q - 1) * batch == q * batch - batch;
    }
  }

  lemma ReachDone(n: nat, batch: nat, through: nat)
    requires batch > 0
    ensures n >= 1 && Reach(n, batch, through) == through <==> n >= Calls(through, batch)
  {
    ReachIs(n, batch, through);
    if through > 0 { Ceiling(through, batch, n); }
  }

  // ---------------------------------------------------------------- the pace of one rebuild

  ghost predicate WorkerPaced(w: Worker, id: RunId, origin: Rebuild) {
    match w
    case LoadedRun(i, run) => i == id ==> SameRun(run, origin) && run.next <= origin.through
    case ReducedRun(i, run, state, next, complete) =>
      i == id ==> && SameRun(run, origin) && next == Smaller(run.next + origin.batch, origin.through)
                  && complete == (next == origin.through)
    case _ => true
  }

  /** After n successful advances the rebuild has reached n batches and is complete when that is all. */
  ghost predicate RunPaced(run: Rebuild, origin: Rebuild, n: nat)
    requires origin.batch > 0
  {
    && SameRun(run, origin)
    && run.next == Reach(n, origin.batch, origin.through)
    && n <= Calls(origin.through, origin.batch)
    && (run.status == COMPLETED <==> n == Calls(origin.through, origin.batch))
  }

  ghost predicate Paced(s: System, id: RunId, origin: Rebuild, n: nat) {
    && Positioned(s.log) && origin.batch > 0 && origin.through <= |s.log|
    && id in s.table.rebuilds && RunPaced(s.table.rebuilds[id], origin, n)
    && (forall w :: w in s.workers ==> WorkerPaced(s.workers[w], id, origin))
  }

  predicate Changed(t: Table, after: Table, id: RunId) {
    id in t.rebuilds && id in after.rebuilds && after.rebuilds[id] != t.rebuilds[id]
  }

  function One(b: bool): nat {
    if b then 1 else 0
  }

  lemma ReachBounded(n: nat, batch: nat, through: nat)
    ensures Reach(n, batch, through) <= through
  {
  }

  lemma AppendPositioned(log: Log, s: Stream, expected: nat, events: seq<NewEvent>, capacity: nat)
    requires Positioned(log) && events != []
    ensures Positioned(Append(log, s, expected, events, capacity).1)
    ensures log <= Append(log, s, expected, events, capacity).1
  {
  }

  lemma LoadRunPaced(s: System, id: RunId, origin: Rebuild, n: nat, i: RunId, v: nat)
    requires Paced(s, id, origin, n)
    ensures LoadRunStep(s.table, i, v).ProceedRun? ==> WorkerPaced(LoadRunStep(s.table, i, v).worker, id, origin)
  {
    ReachBounded(n, origin.batch, origin.through);
  }

  lemma ReadPaced(log: Log, w: Worker, id: RunId, origin: Rebuild, d: Definition)
    requires Positioned(log) && origin.batch > 0 && origin.through <= |log|
    requires w.LoadedRun? && WorkerPaced(w, id, origin)
    ensures ReadRunStep(w, log, d).Some? ==> WorkerPaced(ReadRunStep(w, log, d).value, id, origin)
  {
    hide ReadRunStep, Positioned, FoldFrom;
    if w.id == id {
      BatchFacts(log, w, d);
    } else {
      OtherRun(log, w, d);
    }
  }

  lemma OtherRun(log: Log, w: Worker, d: Definition)
    requires w.LoadedRun?
    ensures ReadRunStep(w, log, d).Some? ==> ReadRunStep(w, log, d).value.ReducedRun? && ReadRunStep(w, log, d).value.id == w.id
  {
  }

  /** An advance of this rebuild is one batch; any other leaves it alone. */
  lemma AdvancePaced(t: Table, w: Worker, id: RunId, origin: Rebuild, n: nat)
    requires origin.batch > 0 && id in t.rebuilds && RunPaced(t.rebuilds[id], origin, n)
    requires w.ReducedRun? && WorkerPaced(w, id, origin)
    ensures var after := AdvanceStep(t, w).1;
            id in after.rebuilds && RunPaced(after.rebuilds[id], origin, n + One(Changed(t, after, id)))
  {
    hide Reach, Calls;
    var (r, after) := AdvanceStep(t, w);
    if w.id == id && r.Advanced? {
      NextReach(n, origin.batch, origin.through);
      ReachDone(n, origin.batch, origin.through);
      ReachDone(n + 1, origin.batch, origin.through);
      assert after.rebuilds[id].next == Reach(n + 1, origin.batch, origin.through);
      assert Changed(t, after, id);
    }
  }

  lemma NextReach(n: nat, batch: nat, through: nat)
    ensures Reach(n + 1, batch, through) == Smaller(Reach(n, batch, through) + batch, through)
  {
  }

  lemma ReadByPaced(s: System, w: nat, limit: nat, defs: Definitions, id: RunId, origin: Rebuild, n: nat)
    requires Paced(s, id, origin, n) && w in s.workers
    ensures Paced(ReadBy(s, w, limit, defs), id, origin, n) && ReadBy(s, w, limit, defs).table == s.table
  {
    hide RunPaced, Positioned, ReadRunStep, ReadStep;
    assert WorkerPaced(s.workers[w], id, origin);
    match s.workers[w]
    case Loaded(k, v, _, _) => ReadReduces(s.workers[w], s.log, limit, defs(k, v));
    case LoadedRun(_, run) => ReadPaced(s.log, s.workers[w], id, origin, defs(run.key, run.version));
    case _ =>
  }

  lemma ReadReduces(w: Worker, log: Log, limit: nat, d: Definition)
    requires w.Loaded?
    ensures ReadStep(w, log, limit, d).Reduced?
  {
  }

  lemma CommitByPaced(s: System, w: nat, sizes: Sizes, id: RunId, origin: Rebuild, n: nat)
    requires Paced(s, id, origin, n) && w in s.workers
    ensures var after := CommitBy(s, w, sizes);
            Paced(after, id, origin, n + One(Changed(s.table, after.table, id)))
  {
    hide RunPaced, Positioned, AdvanceStep;
    assert WorkerPaced(s.workers[w], id, origin);
    match s.workers[w]
    case ReducedRun(_, _, _, _, _) => AdvancePaced(s.table, s.workers[w], id, origin, n);
    case _ =>
  }

  lemma StepPaced(s: System, e: Event, defs: Definitions, sizes: Sizes, id: RunId, origin: Rebuild, n: nat)
    requires Paced(s, id, origin, n)
    ensures var after := Step(s, e, defs, sizes);
            Paced(after, id, origin, n + One(Changed(s.table, after.table, id)))
  {
    hide RunPaced, Positioned, ReadBy, CommitBy, LoadStep, LoadRunStep, Append;
    match e
    case AppendEvents(stream, expected, events) =>
      if events != [] { AppendPositioned(s.log, stream, expected, events, sizes.events); }
    case Load(w, k, v) => LoadIsLoaded(s.table, k, v, defs(k, v));
    case Begin(i, run) =>
    case LoadRun(w, i, v) => LoadRunPaced(s, id, origin, n, i, v);
    case Read(w, limit) => if w in s.workers { ReadByPaced(s, w, limit, defs, id, origin, n); }
    case Commit(w) => if w in s.workers { CommitByPaced(s, w, sizes, id, origin, n); }
    case Crash(w) =>
  }

  lemma LoadIsLoaded(t: Table, k: Key, v: nat, d: Definition)
    ensures LoadStep(t, k, v, d).Proceed? ==> LoadStep(t, k, v, d).worker.Loaded?
  {
  }

  /** The number of steps of a run that advance a rebuild. */
  ghost function Advances(s: System, es: seq<Event>, defs: Definitions, sizes: Sizes, id: RunId): nat
    decreases |es|
  {
    if es == [] then 0
    else
      var after := Step(s, es[0], defs, sizes);
      One(Changed(s.table, after.table, id)) + Advances(after, es[1..], defs, sizes, id)
  }

  lemma {:induction false} RunKeepsPace(s: System, es: seq<Event>, defs: Definitions, sizes: Sizes, id: RunId,
                                        origin: Rebuild, n: nat)
    requires Paced(s, id, origin, n)
    ensures Paced(Run(s, es, defs, sizes), id, origin, n + Advances(s, es, defs, sizes, id))
    decreases |es|
  {
    hide Paced, Step, Changed, One;
    if es != [] {
      var after := Step(s, es[0], defs, sizes);
      StepPaced(s, es[0], defs, sizes, id, origin, n);
      RunKeepsPace(after, es[1..], defs, sizes, id, origin, n + One(Changed(s.table, after.table, id)));
    }
  }

  // ---------------------------------------------------------------- what one rebuild carries

  /** A state that was reached from where the rebuild was begun, by the events in between. */
  ghost predicate Carried(log: Log, next: nat, state: Json, origin: Rebuild, d: Definition) {
    origin.next <= next <= |log| && state == FoldFrom(d, origin.state, log[origin.next..next])
  }

  ghost predicate RunCarries(log: Log, run: Rebuild, origin: Rebuild, d: Definition) {
    run.WellFormed() && SameRun(run, origin) && Carried(log, run.next, run.state, origin, d)
  }

  ghost predicate WorkerCarries(log: Log, w: Worker, id: RunId, origin: Rebuild, d: Definition) {
    match w
    case LoadedRun(i, run) => i == id ==> RunCarries(log, run, origin, d)
    case ReducedRun(i, run, state, next, _) => i == id ==> SameRun(run, origin) && Carried(log, next, state, origin, d)
    case _ => true
  }

  ghost predicate Tracked(s: System, id: RunId, origin: Rebuild, d: Definition) {
    && Positioned(s.log) && id in s.table.rebuilds && RunCarries(s.log, s.table.rebuilds[id], origin, d)
    && (forall w :: w in s.workers ==> WorkerCarries(s.log, s.workers[w], id, origin, d))
  }

  /** The rebuild becomes complete. */
  ghost predicate Completes(t: Table, after: Table, id: RunId) {
    && id in t.rebuilds && id in after.rebuilds
    && t.rebuilds[id].status == RUNNING && after.rebuilds[id].status == COMPLETED
  }

  /** What a rebuild publishes: the fold, from where it was begun, of the events up to its watermark. */
  ghost predicate Published(log: Log, t: Table, origin: Rebuild, d: Definition) {
    && origin.next <= origin.through <= |log| && origin.key in t.states
    && t.states[origin.key]
       == Projected(origin.version, origin.through, FoldFrom(d, origin.state, log[origin.next..origin.through]))
  }

  /** The fold of the log up to the watermark of a rebuild is published. */
  ghost predicate FoldPublished(log: Log, t: Table, run: Rebuild, d: Definition) {
    && run.through <= |log| && run.key in t.states
    && t.states[run.key] == Projected(run.version, run.through, Fold(d, log[..run.through]))
  }

  lemma CarriedStays(log: Log, later: Log, next: nat, state: Json, origin: Rebuild, d: Definition)
    requires Carried(log, next, state, origin, d) && log <= later
    ensures Carried(later, next, state, origin, d)
  {
    assert later[origin.next..next] == log[origin.next..next];
  }

  lemma AppendTracked(s: System, later: Log, id: RunId, origin: Rebuild, d: Definition)
    requires Tracked(s, id, origin, d) && s.log <= later && Positioned(later)
    ensures Tracked(s.(log := later), id, origin, d)
  {
    hide Carried, Positioned;
    CarriedStays(s.log, later, s.table.rebuilds[id].next, s.table.rebuilds[id].state, origin, d);
    forall w | w in s.workers ensures WorkerCarries(later, s.workers[w], id, origin, d) {
      assert WorkerCarries(s.log, s.workers[w], id, origin, d);
      match s.workers[w]
      case LoadedRun(i, run) => if i == id { CarriedStays(s.log, later, run.next, run.state, origin, d); }
      case ReducedRun(i, run, state, next, _) => if i == id { CarriedStays(s.log, later, next, state, origin, d); }
      case _ =>
    }
  }

  /** Folding a batch carries the state on. */
  lemma BatchCarries(log: Log, run: Rebuild, next: nat, origin: Rebuild, d: Definition)
    requires Carried(log, run.next, run.state, origin, d) && run.next <= next <= |log|
    ensures Carried(log, next, FoldFrom(d, run.state, log[run.next..next]), origin, d)
  {
    FoldSplits(d, origin.state, log[origin.next..run.next], log[run.next..next]);
    assert log[origin.next..run.next] + log[run.next..next] == log[origin.next..next];
  }

  lemma ReadCarries(log: Log, w: Worker, id: RunId, origin: Rebuild, defs: Definitions)
    requires Positioned(log) && w.LoadedRun?
    requires WorkerCarries(log, w, id, origin, defs(origin.key, origin.version))
    ensures var r := ReadRunStep(w, log, defs(w.run.key, w.run.version));
            r.Some? ==> WorkerCarries(log, r.value, id, origin, defs(origin.key, origin.version))
  {
    hide ReadRunStep, Positioned, FoldFrom;
    var d := defs(w.run.key, w.run.version);
    if w.id == id {
      BatchFacts(log, w, d);
      BatchCarries(log, w.run, BatchEnd(log, w.run), origin, d);
    } else {
      OtherRun(log, w, d);
    }
  }

  lemma ReadByTracked(s: System, w: nat, limit: nat, defs: Definitions, id: RunId, origin: Rebuild)
    requires Tracked(s, id, origin, defs(origin.key, origin.version)) && w in s.workers
    ensures Tracked(ReadBy(s, w, limit, defs), id, origin, defs(origin.key, origin.version))
    ensures ReadBy(s, w, limit, defs).table == s.table
  {
    hide RunCarries, Positioned, ReadRunStep, ReadStep;
    assert WorkerCarries(s.log, s.workers[w], id, origin, defs(origin.key, origin.version));
    match s.workers[w]
    case Loaded(k, v, _, _) => ReadReduces(s.workers[w], s.log, limit, defs(k, v));
    case LoadedRun(_, run) => ReadCarries(s.log, s.workers[w], id, origin, defs);
    case _ =>
  }

  /** An advance keeps what the rebuild carries, and one that completes it publishes that. */
  lemma AdvanceCarries(log: Log, t: Table, w: Worker, id: RunId, origin: Rebuild, d: Definition)
    requires id in t.rebuilds && RunCarries(log, t.rebuilds[id], origin, d)
    requires w.ReducedRun? && WorkerCarries(log, w, id, origin, d)
    ensures var after := AdvanceStep(t, w).1;
            && id in after.rebuilds && RunCarries(log, after.rebuilds[id], origin, d)
            && (Completes(t, after, id) ==> Published(log, after, origin, d))
  {
    hide FoldFrom;
  }

  lemma ApplyKeepsRebuilds(t: Table, w: Worker, capacity: nat)
    requires w.Reduced?
    ensures ApplyStep(t, w, capacity).1.rebuilds == t.rebuilds
  {
  }

  lemma CommitByTracked(s: System, w: nat, sizes: Sizes, id: RunId, origin: Rebuild, d: Definition)
    requires Tracked(s, id, origin, d) && w in s.workers
    ensures var after := CommitBy(s, w, sizes);
            && Tracked(after, id, origin, d)
            && (Completes(s.table, after.table, id) ==> Published(after.log, after.table, origin, d))
  {
    hide RunCarries, Positioned, AdvanceStep, ApplyStep, Published;
    assert WorkerCarries(s.log, s.workers[w], id, origin, d);
    match s.workers[w]
    case ReducedRun(_, _, _, _, _) => AdvanceCarries(s.log, s.table, s.workers[w], id, origin, d);
    case Reduced(_, _, _, _, _) => ApplyKeepsRebuilds(s.table, s.workers[w], sizes.projections);
    case _ =>
  }

  lemma LoadRunCarries(s: System, id: RunId, origin: Rebuild, d: Definition, i: RunId, v: nat)
    requires Tracked(s, id, origin, d)
    ensures LoadRunStep(s.table, i, v).ProceedRun? ==>
              WorkerCarries(s.log, LoadRunStep(s.table, i, v).worker, id, origin, d)
  {
  }

  lemma StepTracked(s: System, e: Event, defs: Definitions, sizes: Sizes, id: RunId, origin: Rebuild)
    requires Tracked(s, id, origin, defs(origin.key, origin.version))
    ensures var after := Step(s, e, defs, sizes);
            && Tracked(after, id, origin, defs(origin.key, origin.version))
            && (Completes(s.table, after.table, id) ==>
                  Published(after.log, after.table, origin, defs(origin.key, origin.version)))
  {
    hide RunCarries, Positioned, ReadBy, CommitBy, LoadStep, LoadRunStep, Append, Published;
    var d := defs(origin.key, origin.version);
    match e
    case AppendEvents(stream, expected, events) =>
      if events != [] {
        AppendPositioned(s.log, stream, expected, events, sizes.events);
        AppendTracked(s, Append(s.log, stream, expected, events, sizes.events).1, id, origin, d);
      }
    case Load(w, k, v) => LoadIsLoaded(s.table, k, v, defs(k, v));
    case Begin(i, run) =>
    case LoadRun(w, i, v) => LoadRunCarries(s, id, origin, d, i, v);
    case Read(w, limit) => if w in s.workers { ReadByTracked(s, w, limit, defs, id, origin); }
    case Commit(w) => if w in s.workers { CommitByTracked(s, w, sizes, id, origin, d); }
    case Crash(w) =>
  }

  lemma {:induction false} RunTracked(s: System, es: seq<Event>, defs: Definitions, sizes: Sizes, id: RunId,
                                      origin: Rebuild)
    requires Tracked(s, id, origin, defs(origin.key, origin.version))
    ensures Tracked(Run(s, es, defs, sizes), id, origin, defs(origin.key, origin.version))
    decreases |es|
  {
    hide Tracked, Step, Published;
    if es != [] {
      StepTracked(s, es[0], defs, sizes, id, origin);
      RunTracked(Step(s, es[0], defs, sizes), es[1..], defs, sizes, id, origin);
    }
  }

  // ---------------------------------------------------------------- before a rebuild is begun

  /** Whatever was begun, honestly or not: workers only hold rebuilds that the store knows. */
  ghost predicate Rooted(s: System) {
    && Positioned(s.log)
    && (forall w :: w in s.workers && (s.workers[w].LoadedRun? || s.workers[w].ReducedRun?) ==>
          s.workers[w].id in s.table.rebuilds)
  }

  lemma StepRooted(s: System, e: Event, defs: Definitions, sizes: Sizes)
    requires Rooted(s)
    ensures Rooted(Step(s, e, defs, sizes))
  {
    hide Positioned, Append, ReadStep, ReadRunStep, ApplyStep, AdvanceStep;
    match e
    case AppendEvents(stream, expected, events) =>
      if events != [] { AppendPositioned(s.log, stream, expected, events, sizes.events); }
    case Read(w, limit) =>
      if w in s.workers {
        match s.workers[w]
        case Loaded(k, v, _, _) => ReadReduces(s.workers[w], s.log, limit, defs(k, v));
        case LoadedRun(_, run) => OtherRun(s.log, s.workers[w], defs(run.key, run.version));
        case _ =>
      }
    case Commit(w) => if w in s.workers { CommitKeepsRebuilds(s, w, sizes); }
    case _ =>
  }

  lemma CommitKeepsRebuilds(s: System, w: nat, sizes: Sizes)
    requires w in s.workers
    ensures s.table.rebuilds.Keys <= CommitBy(s, w, sizes).table.rebuilds.Keys
  {
  }

  lemma {:induction false} RunRooted(s: System, es: seq<Event>, defs: Definitions, sizes: Sizes)
    requires Rooted(s)
    ensures Rooted(Run(s, es, defs, sizes))
    decreases |es|
  {
    hide Rooted, Step;
    if es != [] {
      StepRooted(s, es[0], defs, sizes);
      RunRooted(Step(s, es[0], defs, sizes), es[1..], defs, sizes);
    }
  }

  // ---------------------------------------------------------------- theorems

  /** Where a rebuild from zero stands after n successful resumes, and that it is complete when n is what its
    * watermark needs. */
  ghost predicate After(t: Table, id: RunId, run: Rebuild, n: nat)
    requires run.batch > 0
  {
    && n <= Calls(run.through, run.batch)
    && id in t.rebuilds
    && t.rebuilds[id].next == Smaller(n * run.batch, run.through)
    && (t.rebuilds[id].status == COMPLETED <==> n == Calls(run.through, run.batch))
  }

  /** A rebuild from zero whose watermark lies within the log completes with exactly
    * max(1, watermark / batch, rounded up) successful resumes, not one fewer and not one more, whatever
    * workers, appends, projections, other rebuilds and crashes come in between; and the step that completes
    * it publishes, if it was begun with the initial state, the fold of the log up to the watermark. */
  lemma RebuildBound(s: System, id: RunId, run: Rebuild, es: seq<Event>, last: Event, defs: Definitions, sizes: Sizes)
    requires Rooted(s)
    requires BeginRebuild(s.table, id, run, sizes.projections).0 == Begun
    requires run.WellFormed() && run.next == 0 && run.status == RUNNING && run.through <= |s.log|
    ensures var begun := Step(s, Begin(id, run), defs, sizes);
            var n := Advances(begun, es, defs, sizes, id);
            var mid := Run(begun, es, defs, sizes);
            var after := Step(mid, last, defs, sizes);
            var d := defs(run.key, run.version);
            && After(mid.table, id, run, n)
            && (Completes(mid.table, after.table, id) && run.state == d.initial ==>
                  FoldPublished(after.log, after.table, run, d))
  {
    hide Run, Advances, Positioned, Reach, Calls, Step, FoldFrom;
    BegunPaced(s, id, run, defs, sizes);
    BegunTracked(s, id, run, defs, sizes);
    var begun := Step(s, Begin(id, run), defs, sizes);
    RunKeepsPace(begun, es, defs, sizes, id, run, 0);
    ReachIs(Advances(begun, es, defs, sizes, id), run.batch, run.through);
    RunTracked(begun, es, defs, sizes, id, run);
    var mid := Run(begun, es, defs, sizes);
    StepTracked(mid, last, defs, sizes, id, run);
    var log := Step(mid, last, defs, sizes).log;
    if run.through <= |log| { assert log[0..run.through] == log[..run.through]; }
  }

  lemma BegunPaced(s: System, id: RunId, run: Rebuild, defs: Definitions, sizes: Sizes)
    requires Rooted(s) && BeginRebuild(s.table, id, run, sizes.projections).0 == Begun
    requires run.WellFormed() && run.next == 0 && run.status == RUNNING && run.through <= |s.log|
    ensures Paced(Step(s, Begin(id, run), defs, sizes), id, run, 0)
  {
    hide Positioned, Reach, Calls;
    ReachIs(0, run.batch, run.through);
    ReachDone(0, run.batch, run.through);
  }

  lemma BegunTracked(s: System, id: RunId, run: Rebuild, defs: Definitions, sizes: Sizes)
    requires Rooted(s) && BeginRebuild(s.table, id, run, sizes.projections).0 == Begun
    requires run.WellFormed() && run.next <= |s.log|
    ensures Tracked(Step(s, Begin(id, run), defs, sizes), id, run, defs(run.key, run.version))
  {
    hide Positioned;
    assert s.log[run.next..run.next] == [];
  }

  /** When an uninterrupted resume succeeds, exactly, and what it leaves: it needs coverage by the log, and,
    * to complete, no state that is newer in checkpoint or version. Completing publishes the state. */
  lemma ResumeOutcome(t: Table, log: Log, id: RunId, d: Definition)
    requires Positioned(log) && id in t.rebuilds && t.rebuilds[id].WellFormed()
    requires t.rebuilds[id].status == RUNNING && t.rebuilds[id].next <= |log|
    ensures var run := t.rebuilds[id];
            var (r, after) := ResumeRebuild(t, log, id, run.version, d);
            var next := BatchEnd(log, run);
            var state := FoldFrom(d, run.state, log[run.next..next]);
            && (r == MissingCoverage <==> |log| == run.next < run.through)
            && (r == Conflict <==> next == run.through && Newer(t, run.key, next, run.version))
            && (r.Resumed? || r == MissingCoverage || r == Conflict)
            && (r.Resumed? || after == t)
            && (r.Resumed? ==>
                  && after.rebuilds == t.rebuilds[id := run.(next := next, state := state, status :=
                       if next == run.through then COMPLETED else RUNNING)]
                  && after.states == if next == run.through
                                     then t.states[run.key := Projected(run.version, next, state)] else t.states)
  {
    hide Positioned, FoldFrom, ReadRunStep;
    BatchFacts(log, LoadedRun(id, t.rebuilds[id]), d);
  }

  /** No event makes two different states equal. */
  ghost predicate Injective(d: Definition) {
    forall a, b, e :: d.reduce(a, e) == d.reduce(b, e) ==> a == b
  }

  lemma {:induction false} FoldInjective(d: Definition, a: Json, b: Json, events: Log)
    requires Injective(d) && FoldFrom(d, a, events) == FoldFrom(d, b, events)
    ensures a == b
    decreases |events|
  {
    if events != [] { FoldInjective(d, a, b, events[..|events| - 1]); }
  }

  /** What a rebuild publishes, wherever and with whatever state it was begun, at any interleaving: the fold
    * of the remaining events from the state it was given. That is the fold of the log exactly when those
    * events lead from the given state to where they lead from the fold of the log so far; to begin with
    * that fold is enough, and it is the only way if the reducer is injective. */
  lemma PublishedAsBegun(before: seq<Event>, id: RunId, run: Rebuild, es: seq<Event>, last: Event, defs: Definitions,
                         sizes: Sizes)
    requires var s := Run(EMPTY, before, defs, sizes);
             && BeginRebuild(s.table, id, run, sizes.projections).0 == Begun
             && run.WellFormed() && run.next <= |s.log|
             && var mid := Run(Step(s, Begin(id, run), defs, sizes), es, defs, sizes);
             Completes(mid.table, Step(mid, last, defs, sizes).table, id)
    ensures var s := Run(EMPTY, before, defs, sizes);
            var after := Step(Run(Step(s, Begin(id, run), defs, sizes), es, defs, sizes), last, defs, sizes);
            var log, d := after.log, defs(run.key, run.version);
            && Published(log, after.table, run, d)
            && var good := StateGood(log, run.key, after.table.states[run.key], defs);
               var rest := log[run.next..run.through];
            && (good <==> FoldFrom(d, run.state, rest) == FoldFrom(d, Fold(d, log[..run.next]), rest))
            && (RunGood(s.log, run, defs) ==> good)
            && (Injective(d) ==> (good <==> RunGood(s.log, run, defs)))
  {
    hide Run, Step, FoldFrom, Fold, Rooted, Tracked, Injective;
    var s := Run(EMPTY, before, defs, sizes);
    EmptyRooted();
    RunRooted(EMPTY, before, defs, sizes);
    BegunTracked(s, id, run, defs, sizes);
    var begun := Step(s, Begin(id, run), defs, sizes);
    RunTracked(begun, es, defs, sizes, id, run);
    var mid := Run(begun, es, defs, sizes);
    StepTracked(mid, last, defs, sizes, id, run);
    StepForward(s, Begin(id, run), defs, sizes);
    NeverBackwards(begun, es, defs, sizes);
    StepForward(mid, last, defs, sizes);
    PublishedIsFold(s.log, Step(mid, last, defs, sizes).log, run, defs);
  }

  lemma EmptyRooted()
    ensures Rooted(EMPTY)
  {
  }

  lemma PublishedIsFold(log: Log, later: Log, run: Rebuild, defs: Definitions)
    requires log <= later && run.WellFormed() && run.next <= |log| && run.through <= |later|
    ensures var d := defs(run.key, run.version);
            var rest := later[run.next..run.through];
            var good := FoldFrom(d, run.state, rest) == Fold(d, later[..run.through]);
            && (good <==> FoldFrom(d, run.state, rest) == FoldFrom(d, Fold(d, later[..run.next]), rest))
            && (RunGood(log, run, defs) ==> good)
            && (Injective(d) && good ==> RunGood(log, run, defs))
  {
    hide FoldFrom, Fold, Injective;
    var d := defs(run.key, run.version);
    var rest := later[run.next..run.through];
    assert later[..run.next] == log[..run.next];
    FoldContinues(d, later, run.next, run.through);
    if Injective(d) && FoldFrom(d, run.state, rest) == Fold(d, later[..run.through]) {
      FoldInjective(d, run.state, Fold(d, later[..run.next]), rest);
    }
  }

  /** A rebuild over one event that was begun with another state than the initial one publishes what is not
    * the fold: here every event turns one of two states into the other. */
  lemma WrongStateIsPublished(e: StoredEvent, k: Key, id: RunId, a: Json, b: Json)
    requires e.position == 1 && a != b
    ensures var d := Definition(a, (state: Json, _: StoredEvent) => if state == a then b else a);
            var (begun, t) := BeginRebuild(Table(map[], map[]), id, Rebuild(k, 1, 1, 1, 0, b, RUNNING), 1);
            var (r, after) := ResumeRebuild(t, [e], id, 1, d);
            && begun == Begun && r.Resumed? && after.states == map[k := Projected(1, 1, a)]
            && Fold(d, [e]) == b != a
  {
    hide ResumeRebuild;
    OneEventRebuilt(e, k, id, b, Definition(a, (state: Json, _: StoredEvent) => if state == a then b else a));
  }

  /** A reducer that forgets its state mends the same rebuild: begun with what is not the fold, it publishes
    * the fold. */
  lemma ForgetfulReducerMends(e: StoredEvent, k: Key, id: RunId, a: Json, b: Json)
    requires e.position == 1 && a != b
    ensures var d := Definition(a, (_: Json, _: StoredEvent) => a);
            var run := Rebuild(k, 1, 1, 1, 0, b, RUNNING);
            var after := ResumeRebuild(BeginRebuild(Table(map[], map[]), id, run, 1).1, [e], id, 1, d).1;
            && !RunGood([e], run, (_, _) => d)
            && after.states == map[k := Projected(1, 1, Fold(d, [e]))]
  {
    hide ResumeRebuild;
    OneEventRebuilt(e, k, id, b, Definition(a, (_: Json, _: StoredEvent) => a));
  }

  lemma OneEventRebuilt(e: StoredEvent, k: Key, id: RunId, given: Json, d: Definition)
    requires e.position == 1
    ensures var t := BeginRebuild(Table(map[], map[]), id, Rebuild(k, 1, 1, 1, 0, given, RUNNING), 1).1;
            var (r, after) := ResumeRebuild(t, [e], id, 1, d);
            && r.Resumed? && after.states == map[k := Projected(1, 1, d.reduce(given, e))]
    ensures Fold(d, [e]) == d.reduce(d.initial, e) && Fold(d, []) == d.initial
  {
    hide ResumeRebuild;
    var t := BeginRebuild(Table(map[], map[]), id, Rebuild(k, 1, 1, 1, 0, given, RUNNING), 1).1;
    ResumeOutcome(t, [e], id, d);
    assert [e][0..1] == [e] && [e][..0] == [];
    assert FoldFrom(d, given, []) == given && FoldFrom(d, d.initial, []) == d.initial;
    assert [e][..|[e]| - 1] == [];
  }

  /** One uninterrupted projection: applies unless another version holds the projection or the store is full,
    * and moves the checkpoint by one page. */
  lemma ProjectOutcome(t: Table, log: Log, k: Key, version: nat, limit: nat, defs: Definitions, capacity: nat)
    requires LogGood(log) && TableGood(log, t, defs)
    ensures var d := defs(k, version);
            var (r, after) := ProjectOnce(t, log, k, version, limit, d, capacity);
            var checkpoint := if k in t.states then t.states[k].checkpoint else 0;
            var next := Smaller(checkpoint + limit, |log|);
            && (r.Applied? <==> if k in t.states then t.states[k].version == version else |t.states| < capacity)
            && (r.Applied? ==> r.projected == Projected(version, next, Fold(d, log[..next]))
                               && after == t.(states := t.states[k := r.projected]))
            && (r.Applied? || after == t)
  {
    hide LogGood, Positioned, Fold, FoldFrom, ApplyStep, TableGood, FoldedAt;
    var d := defs(k, version);
    LoadGood(log, t, k, version, defs);
    var r := LoadStep(t, k, version, d);
    if r.Proceed? {
      ReadFacts(log, t, r.worker, limit, defs);
      var w := ReadStep(r.worker, log, limit, d);
      GoodIsPositioned(log);
      ApplyFacts(log, t, w, capacity);
      ApplyAccepts(log, t, w, capacity);
    }
  }

  lemma ReadFacts(log: Log, t: Table, w: Worker, limit: nat, defs: Definitions)
    requires w.Loaded? && WorkerGood(log, t, w, defs)
    ensures var r := ReadStep(w, log, limit, defs(w.key, w.version));
            var next := Smaller(w.checkpoint + limit, |log|);
            && r.Reduced? && r.key == w.key && r.version == w.version && r.checkpoint == w.checkpoint
            && w.checkpoint <= next && r.events == log[w.checkpoint..next]
            && r.state == Fold(defs(w.key, w.version), log[..next])
  {
    hide Fold, FoldFrom;
    FoldContinues(defs(w.key, w.version), log, w.checkpoint, Smaller(w.checkpoint + limit, |log|));
  }

  lemma ApplyAccepts(log: Log, t: Table, w: Worker, capacity: nat)
    requires Positioned(log) && w.Reduced?
    requires w.checkpoint + |w.events| <= |log| && w.events == log[w.checkpoint..w.checkpoint + |w.events|]
    requires w.checkpoint == if w.key in t.states then t.states[w.key].checkpoint else 0
    ensures ApplyStep(t, w, capacity).0.Applied? <==>
              if w.key in t.states then t.states[w.key].version == w.version else |t.states| < capacity
    ensures var r := ApplyStep(t, w, capacity).0;
            r.Applied? ==> r.projected == Projected(w.version, w.checkpoint + |w.events|, w.state)
  {
    PositionedAt(log, w.checkpoint + |w.events|);
    assert Ordered(w.events, w.checkpoint);
  }

  lemma RunOfThree(s: System, a: Event, b: Event, c: Event, defs: Definitions, sizes: Sizes)
    ensures Run(s, [a, b, c], defs, sizes) == Step(Step(Step(s, a, defs, sizes), b, defs, sizes), c, defs, sizes)
  {
    hide Step;
    var s1 := Step(s, a, defs, sizes);
    var s2 := Step(s1, b, defs, sizes);
    assert [a, b, c][1..] == [b, c] && [b, c][1..] == [c] && [c][1..] == [];
    assert Run(s2, [c], defs, sizes) == Step(s2, c, defs, sizes);
    assert Run(s1, [b, c], defs, sizes) == Run(s2, [c], defs, sizes);
  }

  /** The synchronous runtime is the run in which one worker takes its three steps in a row. */
  lemma SynchronousIsARun(s: System, w: nat, k: Key, version: nat, limit: nat, id: RunId, defs: Definitions,
                          sizes: Sizes)
    requires w !in s.workers
    ensures Run(s, [Load(w, k, version), Read(w, limit), Commit(w)], defs, sizes).table
            == ProjectOnce(s.table, s.log, k, version, limit, defs(k, version), sizes.projections).1
    ensures id in s.table.rebuilds ==>
              Run(s, [LoadRun(w, id, version), Read(w, limit), Commit(w)], defs, sizes).table
              == ResumeRebuild(s.table, s.log, id, version, defs(s.table.rebuilds[id].key, version)).1
  {
    hide Run, ApplyStep, AdvanceStep, ReadAll, FoldFrom, UpTo;
    RunOfThree(s, Load(w, k, version), Read(w, limit), Commit(w), defs, sizes);
    RunOfThree(s, LoadRun(w, id, version), Read(w, limit), Commit(w), defs, sizes);
  }
}
