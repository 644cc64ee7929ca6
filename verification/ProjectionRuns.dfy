/** Whole runs of the projection runtime: workers load, read and commit in separate steps, interleaved with
  * appends, rebuilds and crashes, in any order. */
module ProjectionRuns {
  import opened Prelude
  import opened EventLog
  import opened ProjectionTable

  datatype System = System(log: Log, table: Table, workers: map<nat, Worker>)

  datatype Event =
    | AppendEvents(stream: Stream, expected: nat, events: seq<NewEvent>)
    | Load(worker: nat, key: Key, version: nat)
    | Begin(id: RunId, run: Rebuild)
    | LoadRun(worker: nat, id: RunId, version: nat)
    | Read(worker: nat, limit: nat)
    | Commit(worker: nat)
    | Crash(worker: nat)

  datatype Sizes = Sizes(events: nat, projections: nat)

  // ---------------------------------------------------------------- steps

  ghost function Step(s: System, e: Event, defs: Definitions, sizes: Sizes): System {
    match e
    case AppendEvents(stream, expected, events) =>
      if events == [] then s else s.(log := Append(s.log, stream, expected, events, sizes.events).1)
    case Load(w, k, v) =>
      var r := LoadStep(s.table, k, v, defs(k, v));
      s.(workers := if r.Proceed? then s.workers[w := r.worker] else s.workers - {w})
    case Begin(id, run) =>
      if !run.WellFormed() then s else s.(table := BeginRebuild(s.table, id, run, sizes.projections).1)
    case LoadRun(w, id, v) =>
      var r := LoadRunStep(s.table, id, v);
      s.(workers := if r.ProceedRun? then s.workers[w := r.worker] else s.workers - {w})
    case Read(w, limit) => if w in s.workers then ReadBy(s, w, limit, defs) else s
    case Commit(w) => if w in s.workers then CommitBy(s, w, sizes) else s
    case Crash(w) => s.(workers := s.workers - {w})
  }

  ghost function ReadBy(s: System, w: nat, limit: nat, defs: Definitions): System
    requires w in s.workers
  {
    match s.workers[w]
    case Loaded(k, v, _, _) => s.(workers := s.workers[w := ReadStep(s.workers[w], s.log, limit, defs(k, v))])
    case LoadedRun(_, run) =>
      var r := ReadRunStep(s.workers[w], s.log, defs(run.key, run.version));
      s.(workers := if r.Some? then s.workers[w := r.value] else s.workers - {w})
    case _ => s
  }

  /** A worker commits once and is done. */
  ghost function CommitBy(s: System, w: nat, sizes: Sizes): System
    requires w in s.workers
  {
    match s.workers[w]
    case Reduced(_, _, _, _, _) =>
      s.(table := ApplyStep(s.table, s.workers[w], sizes.projections).1, workers := s.workers - {w})
    case ReducedRun(_, _, _, _, _) =>
      s.(table := AdvanceStep(s.table, s.workers[w]).1, workers := s.workers - {w})
    case _ => s
  }

  ghost function Run(s: System, es: seq<Event>, defs: Definitions, sizes: Sizes): System
    decreases |es|
  {
    if es == [] then s else Run(Step(s, es[0], defs, sizes), es[1..], defs, sizes)
  }

  // ---------------------------------------------------------------- the invariant

  /** A state is the plain fold of the first events of the log. */
  ghost predicate FoldedAt(log: Log, d: Definition, checkpoint: nat, state: Json) {
    checkpoint <= |log| && state == Fold(d, log[..checkpoint])
  }

  ghost predicate StateGood(log: Log, k: Key, p: Projected, defs: Definitions) {
    FoldedAt(log, defs(k, p.version), p.checkpoint, p.state)
  }

  /** A rebuild starts, or stands, where its state is the fold. A rebuild begun at position 0 with the
    * initial state does. */
  ghost predicate RunGood(log: Log, run: Rebuild, defs: Definitions) {
    run.WellFormed() && FoldedAt(log, defs(run.key, run.version), run.next, run.state)
  }

  predicate SameRun(a: Rebuild, b: Rebuild) {
    a.key == b.key && a.version == b.version && a.through == b.through && a.batch == b.batch
  }

  ghost predicate WorkerGood(log: Log, t: Table, w: Worker, defs: Definitions) {
    match w
    case Loaded(k, v, c, state) => FoldedAt(log, defs(k, v), c, state)
    case Reduced(k, v, c, state, events) =>
      c + |events| <= |log| && events == log[c..c + |events|] && FoldedAt(log, defs(k, v), c + |events|, state)
    case LoadedRun(id, run) => id in t.rebuilds && SameRun(run, t.rebuilds[id]) && RunGood(log, run, defs)
    case ReducedRun(id, run, state, next, _) =>
      id in t.rebuilds && SameRun(run, t.rebuilds[id]) && FoldedAt(log, defs(run.key, run.version), next, state)
  }

  ghost predicate TableGood(log: Log, t: Table, defs: Definitions) {
    && (forall k :: k in t.states ==> StateGood(log, k, t.states[k], defs))
    && (forall id :: id in t.rebuilds ==> RunGood(log, t.rebuilds[id], defs))
  }

  ghost predicate WorkersGood(log: Log, t: Table, workers: map<nat, Worker>, defs: Definitions) {
    forall w :: w in workers ==> WorkerGood(log, t, workers[w], defs)
  }

  ghost predicate Good(s: System, defs: Definitions) {
    LogGood(s.log) && TableGood(s.log, s.table, defs) && WorkersGood(s.log, s.table, s.workers, defs)
  }

  /** Rebuilds are only begun where their state is the fold. */
  ghost predicate Honest(s: System, es: seq<Event>, defs: Definitions, sizes: Sizes)
    decreases |es|
  {
    es == [] || ((es[0].Begin? ==> RunGood(s.log, es[0].run, defs))
                 && Honest(Step(s, es[0], defs, sizes), es[1..], defs, sizes))
  }

  // ---------------------------------------------------------------- each step keeps the invariant

  lemma FoldedStays(log: Log, later: Log, d: Definition, c: nat, state: Json)
    requires FoldedAt(log, d, c, state) && log <= later
    ensures FoldedAt(later, d, c, state)
  {
    assert later[..c] == log[..c];
  }

  lemma LogGrows(log: Log, later: Log, t: Table, workers: map<nat, Worker>, defs: Definitions)
    requires log <= later && TableGood(log, t, defs) && WorkersGood(log, t, workers, defs)
    ensures TableGood(later, t, defs) && WorkersGood(later, t, workers, defs)
  {
    hide FoldedAt;
    forall k | k in t.states ensures StateGood(later, k, t.states[k], defs) {
      FoldedStays(log, later, defs(k, t.states[k].version), t.states[k].checkpoint, t.states[k].state);
    }
    forall id | id in t.rebuilds ensures RunGood(later, t.rebuilds[id], defs) {
      RunStays(log, later, t.rebuilds[id], defs);
    }
    forall w | w in workers ensures WorkerGood(later, t, workers[w], defs) {
      WorkerStays(log, later, t, workers[w], defs);
    }
  }

  lemma RunStays(log: Log, later: Log, run: Rebuild, defs: Definitions)
    requires RunGood(log, run, defs) && log <= later
    ensures RunGood(later, run, defs)
  {
    hide FoldedAt;
    FoldedStays(log, later, defs(run.key, run.version), run.next, run.state);
  }

  lemma WorkerStays(log: Log, later: Log, t: Table, w: Worker, defs: Definitions)
    requires WorkerGood(log, t, w, defs) && log <= later
    ensures WorkerGood(later, t, w, defs)
  {
    hide FoldedAt;
    match w
    case Loaded(k, v, c, state) => FoldedStays(log, later, defs(k, v), c, state);
    case Reduced(k, v, c, state, events) =>
      FoldedStays(log, later, defs(k, v), c + |events|, state);
      assert later[c..c + |events|] == log[c..c + |events|];
    case LoadedRun(id, run) => RunStays(log, later, run, defs);
    case ReducedRun(id, run, state, next, _) => FoldedStays(log, later, defs(run.key, run.version), next, state);
  }

  lemma AppendGood(s: System, stream: Stream, expected: nat, events: seq<NewEvent>, defs: Definitions, sizes: Sizes)
    requires Good(s, defs) && events != []
    ensures Good(s.(log := Append(s.log, stream, expected, events, sizes.events).1), defs)
  {
    hide LogGood, Append, TableGood, WorkersGood;
    AppendKeepsLog(s.log, stream, expected, events, sizes.events);
    LogGrows(s.log, Append(s.log, stream, expected, events, sizes.events).1, s.table, s.workers, defs);
  }

  lemma LoadGood(log: Log, t: Table, k: Key, v: nat, defs: Definitions)
    requires TableGood(log, t, defs)
    ensures var r := LoadStep(t, k, v, defs(k, v));
            r.Proceed? ==> WorkerGood(log, t, r.worker, defs)
  {
    if k in t.states { assert StateGood(log, k, t.states[k], defs); }
    assert log[..0] == [];
  }

  lemma LoadRunGood(log: Log, t: Table, id: RunId, v: nat, defs: Definitions)
    requires TableGood(log, t, defs)
    ensures var r := LoadRunStep(t, id, v);
            r.ProceedRun? ==> WorkerGood(log, t, r.worker, defs)
  {
    if id in t.rebuilds { assert RunGood(log, t.rebuilds[id], defs); }
  }

  lemma ReadGood(log: Log, t: Table, w: Worker, limit: nat, defs: Definitions)
    requires WorkerGood(log, t, w, defs) && w.Loaded?
    ensures WorkerGood(log, t, ReadStep(w, log, limit, defs(w.key, w.version)), defs)
  {
    hide Fold, FoldFrom;
    var page := ReadAll(log, w.checkpoint, limit);
    FoldContinues(defs(w.key, w.version), log, w.checkpoint, w.checkpoint + |page.events|);
  }

  /** The part of a page up to a watermark is the part of the log up to it. */
  lemma {:induction false} UpToIsSlice(log: Log, from: nat, stop: nat, through: nat)
    requires Positioned(log) && from <= stop <= |log| && from <= through
    ensures UpTo(log[from..stop], through) == log[from..Smaller(stop, through)]
    decreases stop
  {
    hide Positioned;
    if from < stop {
      var page := log[from..stop];
      assert page[..|page| - 1] == log[from..stop - 1] && page[|page| - 1] == log[stop - 1];
      UpToIsSlice(log, from, stop - 1, through);
      UpToLast(page, through, log[stop - 1]);
      PositionedAt(log, stop);
      if stop <= through { LastJoins(log, from, stop); }
    }
  }

  lemma LastJoins(log: Log, from: nat, stop: nat)
    requires from < stop <= |log|
    ensures log[from..stop - 1] + [log[stop - 1]] == log[from..stop]
  {
  }

  lemma UpToLast(page: Log, through: nat, last: StoredEvent)
    requires page != [] && page[|page| - 1] == last
    ensures UpTo(page, through) == UpTo(page[..|page| - 1], through) + if last.position <= through then [last] else []
  {
  }

  /** Where a batch ends: at its size, at the watermark, or at the end of the log. */
  function BatchEnd(log: Log, run: Rebuild): nat {
    Smaller(Smaller(run.next + run.batch, |log|), run.through)
  }

  /** What reading a batch yields: the batch, cut at the watermark and at the end of the log. */
  lemma BatchFacts(log: Log, w: Worker, d: Definition)
    requires Positioned(log) && w.LoadedRun? && w.run.WellFormed() && w.run.next <= |log|
    ensures var r := ReadRunStep(w, log, d);
            var next := BatchEnd(log, w.run);
            && w.run.next <= next
            && (r.None? <==> next == w.run.next < w.run.through)
            && (r.Some? ==> r.value == ReducedRun(w.id, w.run, FoldFrom(d, w.run.state, log[w.run.next..next]), next,
                                                  next == w.run.through))
  {
    hide FoldFrom, UpTo, Positioned;
    var stop := Smaller(w.run.next + w.run.batch, |log|);
    PositionedAt(log, BatchEnd(log, w.run));
    UpToIsSlice(log, w.run.next, stop, w.run.through);
  }

  lemma ReadRunGood(log: Log, t: Table, w: Worker, defs: Definitions)
    requires LogGood(log) && WorkerGood(log, t, w, defs) && w.LoadedRun?
    ensures var r := ReadRunStep(w, log, defs(w.run.key, w.run.version));
            r.Some? ==> WorkerGood(log, t, r.value, defs)
  {
    hide Fold, FoldFrom, ReadRunStep, LogGood;
    var d := defs(w.run.key, w.run.version);
    GoodIsPositioned(log);
    BatchFacts(log, w, d);
    FoldContinues(d, log, w.run.next, BatchEnd(log, w.run));
  }

  /** An applied page moves the checkpoint past exactly its events. */
  lemma ApplyFacts(log: Log, t: Table, w: Worker, capacity: nat)
    requires Positioned(log) && w.Reduced?
    requires w.checkpoint + |w.events| <= |log| && w.events == log[w.checkpoint..w.checkpoint + |w.events|]
    ensures var (r, after) := ApplyStep(t, w, capacity);
            if r.Applied? then
              after == t.(states := t.states[w.key := Projected(w.version, w.checkpoint + |w.events|, w.state)])
            else after == t
  {
    hide Positioned, Ordered;
    PositionedAt(log, w.checkpoint + |w.events|);
    if w.events != [] { assert w.events[|w.events| - 1] == log[w.checkpoint + |w.events| - 1]; }
  }

  lemma ApplyGood(log: Log, t: Table, w: Worker, capacity: nat, defs: Definitions)
    requires LogGood(log) && TableGood(log, t, defs) && WorkerGood(log, t, w, defs) && w.Reduced?
    ensures TableGood(log, ApplyStep(t, w, capacity).1, defs)
    ensures ApplyStep(t, w, capacity).1.rebuilds == t.rebuilds
  {
    hide FoldedAt, LogGood, Positioned, ApplyStep;
    GoodIsPositioned(log);
    ApplyFacts(log, t, w, capacity);
    var (r, after) := ApplyStep(t, w, capacity);
    if r.Applied? { assert StateGood(log, w.key, after.states[w.key], defs); }
  }

  lemma AdvanceGood(log: Log, t: Table, w: Worker, defs: Definitions)
    requires TableGood(log, t, defs) && WorkerGood(log, t, w, defs) && w.ReducedRun?
    ensures TableGood(log, AdvanceStep(t, w).1, defs) && RebuildsStay(t, AdvanceStep(t, w).1)
  {
    hide FoldedAt;
    assert RunGood(log, t.rebuilds[w.id], defs);
    var (r, after) := AdvanceStep(t, w);
    if r.Advanced? {
      assert RunGood(log, after.rebuilds[w.id], defs);
      if w.complete { assert StateGood(log, after.rebuilds[w.id].key, after.states[after.rebuilds[w.id].key], defs); }
    }
  }

  /** Rebuilds are never forgotten and keep their key, version, watermark and batch size. */
  ghost predicate RebuildsStay(t: Table, after: Table) {
    forall id :: id in t.rebuilds ==> id in after.rebuilds && SameRun(t.rebuilds[id], after.rebuilds[id])
  }

  lemma WorkersStay(log: Log, t: Table, after: Table, workers: map<nat, Worker>, w: nat, defs: Definitions)
    requires WorkersGood(log, t, workers, defs) && RebuildsStay(t, after)
    ensures WorkersGood(log, after, workers, defs) && WorkersGood(log, after, workers - {w}, defs)
  {
    hide FoldedAt, RunGood;
    forall v | v in workers ensures WorkerGood(log, after, workers[v], defs) {
      assert WorkerGood(log, t, workers[v], defs);
    }
  }

  lemma ReadByGood(s: System, w: nat, limit: nat, defs: Definitions)
    requires Good(s, defs) && w in s.workers
    ensures Good(ReadBy(s, w, limit, defs), defs)
  {
    hide LogGood, TableGood, WorkerGood, ReadStep, ReadRunStep;
    assert WorkerGood(s.log, s.table, s.workers[w], defs);
    match s.workers[w]
    case Loaded(_, _, _, _) => ReadGood(s.log, s.table, s.workers[w], limit, defs);
    case LoadedRun(_, _) => ReadRunGood(s.log, s.table, s.workers[w], defs);
    case _ =>
  }

  lemma CommitByGood(s: System, w: nat, defs: Definitions, sizes: Sizes)
    requires Good(s, defs) && w in s.workers
    ensures Good(CommitBy(s, w, sizes), defs)
  {
    hide LogGood, TableGood, WorkerGood, ApplyStep, AdvanceStep;
    assert WorkerGood(s.log, s.table, s.workers[w], defs);
    match s.workers[w]
    case Reduced(_, _, _, _, _) =>
      ApplyGood(s.log, s.table, s.workers[w], sizes.projections, defs);
      WorkersStay(s.log, s.table, ApplyStep(s.table, s.workers[w], sizes.projections).1, s.workers, w, defs);
    case ReducedRun(_, _, _, _, _) =>
      AdvanceGood(s.log, s.table, s.workers[w], defs);
      WorkersStay(s.log, s.table, AdvanceStep(s.table, s.workers[w]).1, s.workers, w, defs);
    case _ =>
  }

  lemma BeginGood(s: System, id: RunId, run: Rebuild, defs: Definitions, sizes: Sizes)
    requires Good(s, defs) && RunGood(s.log, run, defs)
    ensures Good(s.(table := BeginRebuild(s.table, id, run, sizes.projections).1), defs)
  {
    hide LogGood, FoldedAt, RunGood;
    WorkersStay(s.log, s.table, BeginRebuild(s.table, id, run, sizes.projections).1, s.workers, 0, defs);
  }

  lemma StepKeepsGood(s: System, e: Event, defs: Definitions, sizes: Sizes)
    requires Good(s, defs) && (e.Begin? ==> RunGood(s.log, e.run, defs))
    ensures Good(Step(s, e, defs, sizes), defs)
  {
    hide LogGood, TableGood, WorkerGood, RunGood, LoadStep, LoadRunStep, ReadBy, CommitBy, BeginRebuild, Append;
    match e
    case AppendEvents(stream, expected, events) =>
      if events != [] { AppendGood(s, stream, expected, events, defs, sizes); }
    case Load(w, k, v) => LoadGood(s.log, s.table, k, v, defs);
    case Begin(id, run) => BeginGood(s, id, run, defs, sizes);
    case LoadRun(w, id, v) => LoadRunGood(s.log, s.table, id, v, defs);
    case Read(w, limit) => if w in s.workers { ReadByGood(s, w, limit, defs); }
    case Commit(w) => if w in s.workers { CommitByGood(s, w, defs, sizes); }
    case Crash(w) =>
  }

  /** Every run that begins its rebuilds honestly keeps the invariant. */
  lemma {:induction false} RunKeepsGood(s: System, es: seq<Event>, defs: Definitions, sizes: Sizes)
    requires Good(s, defs) && Honest(s, es, defs, sizes)
    ensures Good(Run(s, es, defs, sizes), defs)
    decreases |es|
  {
    hide Good, Step;
    if es != [] {
      StepKeepsGood(s, es[0], defs, sizes);
      RunKeepsGood(Step(s, es[0], defs, sizes), es[1..], defs, sizes);
    }
  }

  const EMPTY := System([], Table(map[], map[]), map[])

  lemma EmptyGood(defs: Definitions)
    ensures Good(EMPTY, defs)
  {
  }

  // ---------------------------------------------------------------- theorems

  /** From the empty system, whatever the interleaving, every loadable projection is the plain fold, by the
    * reducer of its version, of exactly as many events of the log as its checkpoint says. */
  lemma EveryStateIsAFold(es: seq<Event>, defs: Definitions, sizes: Sizes, k: Key)
    requires Honest(EMPTY, es, defs, sizes) && k in Run(EMPTY, es, defs, sizes).table.states
    ensures var s := Run(EMPTY, es, defs, sizes);
            var p := s.table.states[k];
            p.checkpoint <= |s.log| && p.state == Fold(defs(k, p.version), s.log[..p.checkpoint])
  {
    hide Run, Honest, LogGood, Fold, WorkersGood;
    EmptyGood(defs);
    RunKeepsGood(EMPTY, es, defs, sizes);
    var s := Run(EMPTY, es, defs, sizes);
    assert StateGood(s.log, k, s.table.states[k], defs);
  }

  /** No projection is ever lost, and its version and checkpoint never decrease. */
  ghost predicate Forward(t: Table, after: Table) {
    forall k :: k in t.states ==>
      && k in after.states
      && t.states[k].version <= after.states[k].version
      && t.states[k].checkpoint <= after.states[k].checkpoint
  }

  lemma ApplyForward(t: Table, w: Worker, capacity: nat)
    requires w.Reduced?
    ensures Forward(t, ApplyStep(t, w, capacity).1)
  {
    var (r, after) := ApplyStep(t, w, capacity);
    if r.Applied? && w.events != [] {
      OrderedLast(w.events, w.checkpoint, |w.events| - 1);
    }
  }

  lemma {:induction false} OrderedLast(events: Log, checkpoint: nat, i: nat)
    requires Ordered(events, checkpoint) && i < |events|
    ensures checkpoint < events[i].position
  {
    if i > 0 { OrderedLast(events, checkpoint, i - 1); }
  }

  lemma AdvanceForward(t: Table, w: Worker)
    requires w.ReducedRun?
    ensures Forward(t, AdvanceStep(t, w).1)
  {
  }

  /** No step, of whatever worker and with whatever rebuild, moves a projection or the log backwards. */
  lemma StepForward(s: System, e: Event, defs: Definitions, sizes: Sizes)
    ensures Forward(s.table, Step(s, e, defs, sizes).table)
    ensures s.log <= Step(s, e, defs, sizes).log
  {
    hide ApplyStep, AdvanceStep, ReadStep, ReadRunStep, LoadStep, LoadRunStep;
    if e.Commit? && e.worker in s.workers {
      match s.workers[e.worker]
      case Reduced(_, _, _, _, _) => ApplyForward(s.table, s.workers[e.worker], sizes.projections);
      case ReducedRun(_, _, _, _, _) => AdvanceForward(s.table, s.workers[e.worker]);
      case _ =>
    }
  }

  lemma {:induction false} NeverBackwards(s: System, es: seq<Event>, defs: Definitions, sizes: Sizes)
    ensures Forward(s.table, Run(s, es, defs, sizes).table)
    ensures s.log <= Run(s, es, defs, sizes).log
    decreases |es|
  {
    hide Step;
    if es != [] {
      StepForward(s, es[0], defs, sizes);
      NeverBackwards(Step(s, es[0], defs, sizes), es[1..], defs, sizes);
    }
  }

  /** Two runs over logs that agree up to a checkpoint hold the same state there, however it was reached:
    * by paging from zero, by a rebuild, or by both in turn. */
  lemma SameCheckpointSameState(a: seq<Event>, b: seq<Event>, defs: Definitions, sizes: Sizes, k: Key)
    requires Honest(EMPTY, a, defs, sizes) && Honest(EMPTY, b, defs, sizes)
    requires k in Run(EMPTY, a, defs, sizes).table.states && k in Run(EMPTY, b, defs, sizes).table.states
    requires var p := Run(EMPTY, a, defs, sizes).table.states[k];
             var q := Run(EMPTY, b, defs, sizes).table.states[k];
             p.version == q.version && p.checkpoint == q.checkpoint
    requires Run(EMPTY, a, defs, sizes).log <= Run(EMPTY, b, defs, sizes).log
    ensures Run(EMPTY, a, defs, sizes).table.states[k] == Run(EMPTY, b, defs, sizes).table.states[k]
  {
    hide Run, Honest, Fold;
    EveryStateIsAFold(a, defs, sizes, k);
    EveryStateIsAFold(b, defs, sizes, k);
    var p := Run(EMPTY, a, defs, sizes).table.states[k];
    assert Run(EMPTY, a, defs, sizes).log[..p.checkpoint] == Run(EMPTY, b, defs, sizes).log[..p.checkpoint];
  }
}
