/** The projection store as a table: what each operation answers and how the table changes. */
module ProjectionTable {
  import opened Prelude
  import opened EventLog

  type Key(==,!new)
  type RunId(==,!new)

  datatype Projected = Projected(version: nat, checkpoint: nat, state: Json)

  datatype Status = RUNNING | COMPLETED

  datatype Rebuild = Rebuild(key: Key, version: nat, through: nat, batch: nat, next: nat, state: Json, status: Status)
  {
    predicate WellFormed() {
      next <= through && batch > 0
    }
  }

  datatype Table = Table(states: map<Key, Projected>, rebuilds: map<RunId, Rebuild>)

  datatype ApplyResult =
    | Applied(projected: Projected, events: nat)
    | StaleCheckpoint(expected: nat, actual: nat)
    | VersionMismatch(expectedVersion: nat, actualVersion: nat)
    | ApplyInvalid
    | ApplyOverflow

  /** The positions increase strictly, and the first lies after the checkpoint. */
  predicate Ordered(events: Log, checkpoint: nat) {
    && (forall i :: 0 < i < |events| ==> events[i - 1].position < events[i].position)
    && (events != [] ==> checkpoint < events[0].position)
  }

  function Apply(t: Table, k: Key, expected: nat, version: nat, state: Json, events: Log, capacity: nat)
    : (ApplyResult, Table)
  {
    var actual := if k in t.states then t.states[k].checkpoint else 0;
    if !Ordered(events, expected) then (ApplyInvalid, t)
    else if actual != expected then (StaleCheckpoint(expected, actual), t)
    else if k in t.states && t.states[k].version != version then (VersionMismatch(version, t.states[k].version), t)
    else if k !in t.states && |t.states| >= capacity then (ApplyOverflow, t)
    else
      var p := Projected(version, if events == [] then expected else events[|events| - 1].position, state);
      (Applied(p, |events|), t.(states := t.states[k := p]))
  }

  datatype BeginResult = Begun | AlreadyBegun | BeginOverflow

  function BeginRebuild(t: Table, id: RunId, run: Rebuild, capacity: nat): (BeginResult, Table) {
    if id in t.rebuilds then (AlreadyBegun, t)
    else if |t.states| + |t.rebuilds| >= capacity then (BeginOverflow, t)
    else (Begun, t.(rebuilds := t.rebuilds[id := run]))
  }

  datatype AdvanceResult = Advanced(run: Rebuild) | NotAdvanced | AdvanceInvalid

  /** A state that a completing rebuild must not replace. */
  predicate Newer(t: Table, k: Key, checkpoint: nat, version: nat) {
    k in t.states && (t.states[k].checkpoint > checkpoint || t.states[k].version > version)
  }

  function AdvanceRebuild(t: Table, id: RunId, expected: nat, state: Json, next: nat, complete: bool)
    : (AdvanceResult, Table)
  {
    if id !in t.rebuilds || t.rebuilds[id].status != RUNNING || t.rebuilds[id].next != expected then (NotAdvanced, t)
    else
      var run := t.rebuilds[id];
      if !(run.next <= next <= run.through) || complete != (next == run.through) then (AdvanceInvalid, t)
      else if complete && Newer(t, run.key, next, run.version) then (NotAdvanced, t)
      else
        var advanced := run.(state := state, next := next, status := if complete then COMPLETED else RUNNING);
        (Advanced(advanced),
         Table(if complete then t.states[run.key := Projected(run.version, next, state)] else t.states,
               t.rebuilds[id := advanced]))
  }

  // ---------------------------------------------------------------- reducers

  datatype Definition = Definition(initial: Json, reduce: (Json, StoredEvent) -> Json)

  /** One definition per projection and version. */
  type Definitions = (Key, nat) -> Definition

  function FoldFrom(d: Definition, state: Json, events: Log): Json {
    if events == [] then state else d.reduce(FoldFrom(d, state, events[..|events| - 1]), events[|events| - 1])
  }

  /** The plain fold of a log. */
  function Fold(d: Definition, log: Log): Json {
    FoldFrom(d, d.initial, log)
  }

  lemma {:induction false} FoldSplits(d: Definition, state: Json, a: Log, b: Log)
    ensures FoldFrom(d, FoldFrom(d, state, a), b) == FoldFrom(d, state, a + b)
    decreases |b|
  {
    if b == [] {
      assert a + b == a;
    } else {
      assert (a + b)[..|a + b| - 1] == a + b[..|b| - 1];
      FoldSplits(d, state, a, b[..|b| - 1]);
    }
  }

  /** Folding on from a fold of a prefix. */
  lemma FoldContinues(d: Definition, log: Log, from: nat, stop: nat)
    requires from <= stop <= |log|
    ensures FoldFrom(d, Fold(d, log[..from]), log[from..stop]) == Fold(d, log[..stop])
  {
    FoldSplits(d, d.initial, log[..from], log[from..stop]);
    assert log[..from] + log[from..stop] == log[..stop];
  }

  // ---------------------------------------------------------------- the runtime, in its three steps

  /** What a worker holds between two of its steps. */
  datatype Worker =
    | Loaded(key: Key, version: nat, checkpoint: nat, state: Json)
    | Reduced(key: Key, version: nat, checkpoint: nat, state: Json, events: Log)
    | LoadedRun(id: RunId, run: Rebuild)
    | ReducedRun(id: RunId, run: Rebuild, state: Json, next: nat, complete: bool)

  datatype Loading = Proceed(worker: Worker) | Mismatch(expected: nat, actual: nat)

  function LoadStep(t: Table, k: Key, version: nat, d: Definition): Loading {
    if k !in t.states then Proceed(Loaded(k, version, 0, d.initial))
    else if t.states[k].version != version then Mismatch(version, t.states[k].version)
    else Proceed(Loaded(k, version, t.states[k].checkpoint, t.states[k].state))
  }

  function ReadStep(w: Worker, log: Log, limit: nat, d: Definition): Worker
    requires w.Loaded?
  {
    var page := ReadAll(log, w.checkpoint, limit);
    Reduced(w.key, w.version, w.checkpoint, FoldFrom(d, w.state, page.events), page.events)
  }

  function ApplyStep(t: Table, w: Worker, capacity: nat): (ApplyResult, Table)
    requires w.Reduced?
  {
    Apply(t, w.key, w.checkpoint, w.version, w.state, w.events, capacity)
  }

  datatype LoadingRun = ProceedRun(worker: Worker) | Unknown | VersionChanged | Finished(run: Rebuild)

  function LoadRunStep(t: Table, id: RunId, version: nat): LoadingRun {
    if id !in t.rebuilds then Unknown
    else if t.rebuilds[id].version != version then VersionChanged
    else if t.rebuilds[id].status == COMPLETED then Finished(t.rebuilds[id])
    else ProceedRun(LoadedRun(id, t.rebuilds[id]))
  }

  /** The events of a page up to a watermark. */
  function UpTo(events: Log, through: nat): Log {
    if events == [] then []
    else UpTo(events[..|events| - 1], through)
         + if events[|events| - 1].position <= through then [events[|events| - 1]] else []
  }

  /** Reads and reduces one batch; nothing when the watermark is not covered by the log. */
  function ReadRunStep(w: Worker, log: Log, d: Definition): Option<Worker>
    requires w.LoadedRun?
  {
    var selected := UpTo(ReadAll(log, w.run.next, w.run.batch).events, w.run.through);
    var next := if selected == [] then w.run.next else selected[|selected| - 1].position;
    if selected == [] && next != w.run.through then None
    else Some(ReducedRun(w.id, w.run, FoldFrom(d, w.run.state, selected), next, next == w.run.through))
  }

  function AdvanceStep(t: Table, w: Worker): (AdvanceResult, Table)
    requires w.ReducedRun?
  {
    AdvanceRebuild(t, w.id, w.run.next, w.state, w.next, w.complete)
  }

  // ---------------------------------------------------------------- the runtime without interleaving

  function ProjectOnce(t: Table, log: Log, k: Key, version: nat, limit: nat, d: Definition, capacity: nat)
    : (ApplyResult, Table)
  {
    match LoadStep(t, k, version, d)
    case Mismatch(e, a) => (VersionMismatch(e, a), t)
    case Proceed(w) => ApplyStep(t, ReadStep(w, log, limit, d), capacity)
  }

  datatype ResumeResult = Resumed(run: Rebuild) | UnknownRun | DefinitionChanged | MissingCoverage | Conflict

  function ResumeRebuild(t: Table, log: Log, id: RunId, version: nat, d: Definition): (ResumeResult, Table) {
    match LoadRunStep(t, id, version)
    case Unknown => (UnknownRun, t)
    case VersionChanged => (DefinitionChanged, t)
    case Finished(run) => (Resumed(run), t)
    case ProceedRun(w) =>
      match ReadRunStep(w, log, d)
      case None => (MissingCoverage, t)
      case Some(v) =>
        var (r, after) := AdvanceStep(t, v);
        (if r.Advanced? then Resumed(r.run) else Conflict, after)
  }
}
