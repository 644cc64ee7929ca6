/** Whole runs of the batch coordinator: any number of workers interleave at transaction granularity,
  * crash anywhere, lose their leases to others, and share the stores with maintenance. */
module BatchRuns {
  import opened Prelude
  import opened BatchProtocol
  import opened BatchInvariant
  import opened BatchSteps
  import B = BatchTable
  import I = IdempotencyTable

  // ---------------------------------------------------------------- the system

  /** A per-item execution between two of its transactions. */
  datatype Worker =
    | Proving(request: Request, lease: Lease)
    | Applying(request: Request, lease: Lease, receipts: seq<Receipt>)
    | Stopped(request: Request, result: BatchResult)

  datatype System = System(world: World, births: map<BatchId, Birth>, workers: map<nat, Worker>)

  datatype Event =
    | Start(worker: nat, request: Request, now: int)
    | ProveTx(worker: nat, prefix: nat -> PrefixEnv)
    | ItemTx(worker: nat, env: ItemEnv)
    | FinishTx(worker: nat, renewAt: int, completeAt: int)
    | Crash(worker: nat)
    | AllOrNothingTx(request: Request, exec: ExecEnv)
    | PurgeBatches(gone: set<BatchId>, cutoff: int, includeUncertain: bool)
    | PurgeItems(goneItems: set<I.Identity>, cutoff: int, includeUncertain: bool)

  const EMPTY: World := World(B.Table(map[], map[], 0), I.Table(map[], map[], 0), [])

  const INITIAL := System(EMPTY, map[], map[])

  function Born(births: map<BatchId, Birth>, begun: B.Begun<Result>, b: BatchId, mark: nat): map<BatchId, Birth> {
    if begun.Leased? && !begun.lease.resumed then
      births[b := Birth(mark, if b in births then births[b].earlier + 1 else 0)]
    else births
  }

  function StartStep(s: System, id: nat, r: Request, now: int, cap: Capacities): System {
    var (w1, begun) := BeginBatch(s.world, r, PerItemPolicy, now, cap);
    System(w1, Born(s.births, begun, r.batch, |s.world.effects|),
           s.workers[id := if begun.Leased? then Proving(r, begun.lease) else Stopped(r, EarlyResult(begun))])
  }

  function ProveStep(s: System, id: nat, prefix: nat -> PrefixEnv, cap: Capacities): System
    requires id in s.workers && s.workers[id].Proving?
  {
    var v := s.workers[id];
    if v.lease.nextIndex != |v.lease.receipts| || |v.lease.receipts| > |v.request.items| then s else
    var a := Prove(s.world, v.lease, v.request.items, prefix, v.request.policy, cap);
    s.(world := Atomically(s.world, a),
       workers := s.workers[id := if a.Done? then Applying(v.request, a.value.0, a.value.1)
                                  else Stopped(v.request, a.failure)])
  }

  function ItemStep(s: System, id: nat, env: ItemEnv, cap: Capacities): System
    requires id in s.workers && s.workers[id].Applying?
  {
    var v := s.workers[id];
    if v.lease.nextIndex >= |v.request.items| then s else
    var a := ApplyItem(s.world, v.lease, v.request.items[v.lease.nextIndex], env, v.request.policy, cap);
    s.(world := Atomically(s.world, a),
       workers := s.workers[id := if a.Done? then Applying(v.request, a.value.0, v.receipts + [a.value.1])
                                  else Stopped(v.request, a.failure)])
  }

  function FinishStep(s: System, id: nat, renewAt: int, completeAt: int): System
    requires id in s.workers && s.workers[id].Applying?
  {
    var v := s.workers[id];
    if v.lease.nextIndex < |v.request.items| then s else
    var (w1, finished) := Finish(s.world, v.lease, renewAt, completeAt, v.request.policy);
    s.(world := w1,
       workers := s.workers[id := Stopped(v.request, if finished then Committed(v.receipts)
                                                     else EnvelopeUnconfirmed(v.receipts))])
  }

  ghost function AllOrNothingStep(s: System, r: Request, env: ExecEnv, cap: Capacities): System {
    if !B.Linked(s.world.batches) then s else
    var (w1, result) := AllOrNothing(s.world, r, env, cap);
    var begun := BeginBatch(s.world, r, AllOrNothingPolicy, env.beginAt, cap).1;
    s.(world := w1,
       births := if result.Committed? then Born(s.births, begun, r.batch, |s.world.effects|) else s.births)
  }

  /** One step. An event that does not apply changes nothing; item identifiers are validated first. */
  ghost function Step(s: System, ev: Event, cap: Capacities): System {
    match ev
    case Start(id, r, now) => if id in s.workers || !DistinctIds(r.items) then s else StartStep(s, id, r, now, cap)
    case ProveTx(id, prefix) => if id in s.workers && s.workers[id].Proving? then ProveStep(s, id, prefix, cap) else s
    case ItemTx(id, env) => if id in s.workers && s.workers[id].Applying? then ItemStep(s, id, env, cap) else s
    case FinishTx(id, renewAt, completeAt) =>
      if id in s.workers && s.workers[id].Applying? then FinishStep(s, id, renewAt, completeAt) else s
    case Crash(id) =>
      if id in s.workers && !s.workers[id].Stopped?
      then s.(workers := s.workers[id := Stopped(s.workers[id].request, Crashed)]) else s
    case AllOrNothingTx(r, exec) => if DistinctIds(r.items) then AllOrNothingStep(s, r, exec, cap) else s
    case PurgeBatches(gone, cutoff, all) =>
      if forall b :: b in gone && b in s.world.batches.entries ==> B.Purgeable(s.world.batches.entries[b], cutoff, all)
      then s.(world := s.world.(batches := B.Without(s.world.batches, gone))) else s
    case PurgeItems(gone, cutoff, all) =>
      if forall id :: id in gone && id in s.world.items.entries ==> I.Purgeable(s.world.items.entries[id], cutoff, all)
      then s.(world := s.world.(items := I.Without(s.world.items, gone))) else s
  }

  ghost function Run(s: System, events: seq<Event>, cap: Capacities): System
    decreases |events|
  {
    if events == [] then s else Run(Step(s, events[0], cap), events[1..], cap)
  }

  // ---------------------------------------------------------------- the invariant

  /** Between transactions an all-or-nothing batch is never half way. */
  ghost predicate NoneHalfWay(w: World) {
    forall b :: b in w.batches.entries && w.batches.entries[b].fingerprint.policy.AllOrNothingPolicy? ==>
      w.batches.entries[b].state.Completed?
  }

  ghost predicate WorkerGood(w: World, v: Worker) {
    match v
    case Proving(r, l) =>
      l.batch == r.batch && LeaseGood(w, l, Print(PerItemPolicy, r.items))
    case Applying(r, l, receipts) =>
      && l.batch == r.batch && LeaseGood(w, l, Print(PerItemPolicy, r.items))
      && |receipts| == l.nextIndex && ReceiptsGood(w.effects, r.batch, r.items, receipts)
    case Stopped(r, result) =>
      (result.Committed? || result.Replayed? || result.EnvelopeUnconfirmed?) ==>
        |result.receipts| == |r.items| && ReceiptsGood(w.effects, r.batch, r.items, result.receipts)
  }

  ghost predicate SystemGood(s: System) {
    && WorldGood(s.world, s.births)
    && NoneHalfWay(s.world)
    && forall id :: id in s.workers ==> WorkerGood(s.world, s.workers[id])
  }

  /** What every step does to what workers remember: tokens are replaced only by new ones. */
  ghost predicate Evolves(w: World, w': World) {
    && w.batches.issued <= w'.batches.issued
    && w.effects <= w'.effects
    && forall b :: b in w'.batches.entries ==>
         || w'.batches.entries[b].token >= w.batches.issued
         || (b in w.batches.entries && w'.batches.entries[b].token == w.batches.entries[b].token
             && w'.batches.entries[b].fingerprint == w.batches.entries[b].fingerprint)
  }

  lemma WorkerStaysGood(w: World, w': World, v: Worker)
    requires Evolves(w, w') && WorkerGood(w, v)
    ensures WorkerGood(w', v)
  {
  }

  lemma FramedEvolves(w: World, w': World, b: BatchId)
    requires Framed(w, w', b) && w'.batches.issued == w.batches.issued
    ensures Evolves(w, w')
  {
  }

  lemma RestoreGood(w: World, births: map<BatchId, Birth>, w': World)
    requires WorldGood(w, births)
    requires w.batches.issued <= w'.batches.issued && w.items.issued <= w'.items.issued
    ensures WorldGood(Restore(w, w'), births) && Evolves(w, Restore(w, w'))
  {
    var t := Restore(w, w').batches;
    forall b | b in t.entries ensures B.EntryLinked(t, b) { assert B.EntryLinked(w.batches, b); }
    forall tk | tk in t.tokens ensures B.TokenLinked(t, tk) { assert B.TokenLinked(w.batches, tk); }
  }

  // ---------------------------------------------------------------- begin

  lemma PurgeTerminalGood(w: World, births: map<BatchId, Birth>, now: int)
    requires WorldGood(w, births)
    ensures WorldGood(w.(batches := B.PurgeTerminal(w.batches, now)), births)
  {
    B.PurgeKeepsLinks(w.batches, now);
    var t := B.PurgeTerminal(w.batches, now);
    forall b | b in t.entries ensures b in births && EntryGood(b, t.entries[b], w.effects, births[b]) {
      assert EntryGood(b, w.batches.entries[b], w.effects, births[b]);
    }
  }

  lemma {:induction false} NothingYet(effects: seq<Effect>, b: BatchId, itemId: string)
    ensures CountFrom(effects, |effects|, b, itemId) == 0
  {
  }

  /** Issuing a lease, new or resumed, keeps the world good. */
  lemma IssueGood(w: World, births: map<BatchId, Birth>, b: BatchId, e: B.Stored<Print, Result>,
                  t: BatchTableT, birth: Birth)
    requires WorldGood(w, births) && B.Linked(t)
    requires t.entries == w.batches.entries[b := e]
    requires EntryGood(b, e, w.effects, birth)
    ensures WorldGood(w.(batches := t), births[b := birth])
  {
    forall c | c in t.entries
      ensures c in births[b := birth] && EntryGood(c, t.entries[c], w.effects, births[b := birth][c])
    {
      if c != b { assert EntryGood(c, w.batches.entries[c], w.effects, births[c]); }
    }
  }

  lemma BeginGood(w: World, births: map<BatchId, Birth>, r: Request, policy: BatchPolicy, now: int, cap: Capacities)
    requires WorldGood(w, births) && DistinctIds(r.items)
    ensures var (w1, begun) := BeginBatch(w, r, policy, now, cap);
            WorldGood(w1, Born(births, begun, r.batch, |w.effects|))
  {
    hide EntryGood, ItemGood, I.Linked, B.Linked, CountFrom, Backed, B.PurgeTerminal;
    var (w1, begun) := BeginBatch(w, r, policy, now, cap);
    PurgeTerminalGood(w, births, now);
    var p := w.(batches := B.PurgeTerminal(w.batches, now));
    B.BeginKeepsLinks(w.batches, r.batch, Print(policy, r.items), |r.items|, now, r.policy.leaseTtl, cap.batches);
    if begun.Leased? {
      var e := w1.batches.entries[r.batch];
      if begun.lease.resumed {
        TakenOverGood(r.batch, p.batches.entries[r.batch], w.effects, births[r.batch], e);
        IssueGood(p, births, r.batch, e, w1.batches, births[r.batch]);
        assert births[r.batch := births[r.batch]] == births;
      } else {
        var birth := Birth(|w.effects|, if r.batch in births then births[r.batch].earlier + 1 else 0);
        NewEntryGood(r, e, w.effects, birth, policy);
        IssueGood(p, births, r.batch, e, w1.batches, birth);
      }
    }
  }

  /** A takeover changes nothing that the effects speak of. */
  lemma TakenOverGood(b: BatchId, e: B.Stored<Print, Result>, effects: seq<Effect>, birth: Birth,
                      e': B.Stored<Print, Result>)
    requires EntryGood(b, e, effects, birth)
    requires e' == e.(token := e'.token, leaseExpiresAt := e'.leaseExpiresAt)
    ensures EntryGood(b, e', effects, birth)
  {
  }

  /** A new entry starts without receipts and without effects of its own. */
  lemma NewEntryGood(r: Request, e: B.Stored<Print, Result>, effects: seq<Effect>, birth: Birth, policy: BatchPolicy)
    requires DistinctIds(r.items) && birth.mark == |effects|
    requires birth.earlier == 0 ==> forall i :: 0 <= i < |effects| ==> effects[i].batch != r.batch
    requires e.fingerprint == Print(policy, r.items) && e.totalItems == |r.items|
    requires e.nextIndex == 0 && e.receipts == [] && e.state.Processing?
    ensures EntryGood(r.batch, e, effects, birth)
  {
    hide CountFrom;
    forall k | 0 <= k < |r.items| ensures CountFrom(effects, birth.mark, r.batch, r.items[k].id) == 0 {
      NothingYet(effects, r.batch, r.items[k].id);
    }
  }

  /** The receipts of a good entry, as a caller with the same items sees them. */
  lemma EntryReceipts(b: BatchId, e: B.Stored<Print, Result>, effects: seq<Effect>, birth: Birth)
    requires EntryGood(b, e, effects, birth)
    ensures ReceiptsGood(effects, b, e.fingerprint.items, e.receipts)
    ensures e.nextIndex == |e.receipts| <= e.totalItems == |e.fingerprint.items|
    ensures e.state.Completed? ==> e.nextIndex == e.totalItems
    ensures forall k :: 0 <= k < e.nextIndex ==> !e.receipts[k].replayed
  {
    hide CountFrom;
    forall k | 0 <= k < e.nextIndex
      ensures e.receipts[k].itemId == e.fingerprint.items[k].id
              && Effect(b, e.fingerprint.items[k], e.receipts[k].result) in effects
    {
      assert Backed(effects, birth.mark, b, e.fingerprint.items[k], e.receipts[k].result);
    }
  }

  /** What begin tells its caller, and what it leaves alone. */
  lemma BeginFacts(w: World, births: map<BatchId, Birth>, r: Request, policy: BatchPolicy, now: int, cap: Capacities)
    requires WorldGood(w, births)
    ensures var (w1, begun) := BeginBatch(w, r, policy, now, cap);
            && Evolves(w, w1) && w1.effects == w.effects && w1.items == w.items
            && (begun.Leased? ==>
                  && begun.lease.batch == r.batch && LeaseGood(w1, begun.lease, Print(policy, r.items))
                  && r.batch in w1.batches.entries && w1.batches.entries[r.batch].token == begun.lease.token
                  && begun.lease.token == w.batches.issued
                  && w1.batches.entries[r.batch].fingerprint == Print(policy, r.items))
            && (begun.BatchReplay? ==>
                  |begun.receipts| == |r.items| && ReceiptsGood(w1.effects, r.batch, r.items, begun.receipts))
  {
    hide ItemGood, I.Linked, EntryGood, B.Linked, DistinctIds, BeginBatch, ReceiptsGood, LeaseGood;
    BeginEvolves(w, r, policy, now, cap);
    if r.batch in w.batches.entries {
      var e := w.batches.entries[r.batch];
      assert EntryGood(r.batch, e, w.effects, births[r.batch]);
      EntryReceipts(r.batch, e, w.effects, births[r.batch]);
    }
    BeginAnswers(w, r, policy, now, cap);
  }

  lemma BeginEvolves(w: World, r: Request, policy: BatchPolicy, now: int, cap: Capacities)
    ensures var w1 := BeginBatch(w, r, policy, now, cap).0;
            Evolves(w, w1) && w1.effects == w.effects && w1.items == w.items
  {
  }

  /** A begin leases a batch of the request's items that was absent or is as far as its receipts, and replays the
    * receipts of a completed one. */
  lemma BeginAnswers(w: World, r: Request, policy: BatchPolicy, now: int, cap: Capacities)
    requires r.batch in w.batches.entries ==>
               var e := w.batches.entries[r.batch];
               && ReceiptsGood(w.effects, r.batch, e.fingerprint.items, e.receipts)
               && e.nextIndex == |e.receipts| <= e.totalItems == |e.fingerprint.items|
               && (e.state.Completed? ==> e.nextIndex == e.totalItems)
               && (forall k :: 0 <= k < e.nextIndex ==> !e.receipts[k].replayed)
    ensures var (w1, begun) := BeginBatch(w, r, policy, now, cap);
            && (begun.Leased? ==>
                  && begun.lease.batch == r.batch && LeaseGood(w1, begun.lease, Print(policy, r.items))
                  && r.batch in w1.batches.entries && w1.batches.entries[r.batch].token == begun.lease.token
                  && begun.lease.token == w.batches.issued
                  && w1.batches.entries[r.batch].fingerprint == Print(policy, r.items))
            && (begun.BatchReplay? ==>
                  |begun.receipts| == |r.items| && ReceiptsGood(w1.effects, r.batch, r.items, begun.receipts))
  {
  }

  /** Begin leaves the other batches as they were, or drops them after their retention. */
  lemma BeginOthers(w: World, r: Request, policy: BatchPolicy, now: int, cap: Capacities)
    ensures var w1 := BeginBatch(w, r, policy, now, cap).0;
            forall b :: b in w1.batches.entries && b != r.batch ==>
              b in w.batches.entries && w1.batches.entries[b] == w.batches.entries[b]
    ensures var (w1, begun) := BeginBatch(w, r, policy, now, cap);
            !begun.Leased? ==> forall b :: b in w1.batches.entries ==>
              b in w.batches.entries && w1.batches.entries[b] == w.batches.entries[b]
  {
  }

  // ---------------------------------------------------------------- one lemma per kind of step

  lemma WorkersStayGood(s: System, w': World)
    requires SystemGood(s) && Evolves(s.world, w')
    ensures forall id :: id in s.workers ==> WorkerGood(w', s.workers[id])
  {
    forall id | id in s.workers ensures WorkerGood(w', s.workers[id]) {
      WorkerStaysGood(s.world, w', s.workers[id]);
    }
  }

  /** A system is good again when its new world is good, and so is the worker that moved. */
  lemma StepIsGood(s: System, w': World, births': map<BatchId, Birth>, id: nat, v: Worker)
    requires SystemGood(s) && Evolves(s.world, w')
    requires WorldGood(w', births') && NoneHalfWay(w') && WorkerGood(w', v)
    ensures SystemGood(System(w', births', s.workers[id := v]))
  {
    WorkersStayGood(s, w');
  }

  lemma StartGood(s: System, id: nat, r: Request, now: int, cap: Capacities)
    requires SystemGood(s) && DistinctIds(r.items)
    ensures SystemGood(StartStep(s, id, r, now, cap))
  {
    hide BeginBatch, B.Linked, I.Linked, EntryGood, ItemGood, LeaseGood;
    BeginGood(s.world, s.births, r, PerItemPolicy, now, cap);
    BeginFacts(s.world, s.births, r, PerItemPolicy, now, cap);
    BeginOthers(s.world, r, PerItemPolicy, now, cap);
    var s' := StartStep(s, id, r, now, cap);
    StepIsGood(s, s'.world, s'.births, id, s'.workers[id]);
  }

  lemma ProveGood(w: World, births: map<BatchId, Birth>, l: Lease, items: seq<Item>, envs: nat -> PrefixEnv,
                  p: Policy, cap: Capacities)
    requires WorldGood(w, births) && l.nextIndex == |l.receipts| <= |items|
    ensures var a := Prove(w, l, items, envs, p, cap);
            if a.Done? then
              && WorldGood(a.world, births) && Framed(w, a.world, l.batch) && a.world.effects == w.effects
              && SameProgress(l, a.value.0) && |a.value.1| == l.nextIndex
              && (forall j :: 0 <= j < l.nextIndex ==>
                    a.value.1[j].itemId == l.receipts[j].itemId && a.value.1[j].result == l.receipts[j].result)
            else
              WorldGood(Restore(w, a.world), births) && Evolves(w, Restore(w, a.world))
  {
    if l.resumed { ProvePrefixGood(w, births, l, items, 0, [], envs, p, cap); }
    RestoreGood(w, births, Prove(w, l, items, envs, p, cap).world);
  }

  lemma NoneHalfWayFramed(w: World, w': World, b: BatchId)
    requires NoneHalfWay(w) && Framed(w, w', b)
    requires b in w.batches.entries ==>
               w.batches.entries[b].fingerprint.policy.PerItemPolicy? || w'.batches.entries[b].state.Completed?
    ensures NoneHalfWay(w')
  {
  }

  /** A lease that some step just used is still the token of a per-item batch. */
  ghost predicate HoldsPerItem(w: World, l: Lease) {
    l.batch in w.batches.entries && w.batches.entries[l.batch].fingerprint.policy.PerItemPolicy?
  }

  /** A transaction that touched its batch did so with the batch's token; otherwise nothing changed. */
  lemma UsedLease(w: World, l: Lease, items: seq<Item>, now: int)
    requires LeaseGood(w, l, Print(PerItemPolicy, items)) && B.Active(w.batches, l, now)
    ensures HoldsPerItem(w, l)
  {
  }

  /** A transaction that was done on a batch held by the worker leaves everything good. */
  ghost predicate TxGood(w: World, births: map<BatchId, Birth>, w': World, v: Worker) {
    WorldGood(w', births) && NoneHalfWay(w') && Evolves(w, w') && WorkerGood(w', v)
  }

  lemma RaisedTxGood(w: World, births: map<BatchId, Birth>, w': World, r: Request, failure: BatchResult)
    requires WorldGood(w, births) && NoneHalfWay(w) && Refusal(failure)
    requires w.batches.issued <= w'.batches.issued && w.items.issued <= w'.items.issued
    ensures TxGood(w, births, Restore(w, w'), Stopped(r, failure))
  {
    RestoreGood(w, births, w');
  }

  lemma ProveDoneGood(w: World, births: map<BatchId, Birth>, r: Request, l: Lease, prefix: nat -> PrefixEnv,
                      cap: Capacities)
    requires WorldGood(w, births) && NoneHalfWay(w) && WorkerGood(w, Proving(r, l))
    ensures var a := Prove(w, l, r.items, prefix, r.policy, cap);
            a.Done? ==> TxGood(w, births, a.world, Applying(r, a.value.0, a.value.1))
  {
    ProveGood(w, births, l, r.items, prefix, r.policy, cap);
    ProveHolds(w, l, r.items, prefix, r.policy, cap);
    var a := Prove(w, l, r.items, prefix, r.policy, cap);
    if a.Done? {
      FramedEvolves(w, a.world, l.batch);
      if a.world != w { NoneHalfWayFramed(w, a.world, l.batch); }
      ProvedWorkerGood(w, a.world, r, l, a.value.0, a.value.1);
    }
  }

  lemma ProveStepGood(s: System, id: nat, prefix: nat -> PrefixEnv, cap: Capacities)
    requires SystemGood(s) && id in s.workers && s.workers[id].Proving?
    ensures SystemGood(ProveStep(s, id, prefix, cap))
  {
    var v := s.workers[id];
    assert WorkerGood(s.world, v);
    var a := Prove(s.world, v.lease, v.request.items, prefix, v.request.policy, cap);
    if a.Done? {
      ProveDoneGood(s.world, s.births, v.request, v.lease, prefix, cap);
      StepIsGood(s, a.world, s.births, id, Applying(v.request, a.value.0, a.value.1));
    } else {
      RaisedTxGood(s.world, s.births, a.world, v.request, a.failure);
      StepIsGood(s, Restore(s.world, a.world), s.births, id, Stopped(v.request, a.failure));
    }
  }

  /** A proof that changed anything held the batch's token. */
  lemma ProveHolds(w: World, l: Lease, items: seq<Item>, prefix: nat -> PrefixEnv, p: Policy, cap: Capacities)
    requires LeaseGood(w, l, Print(PerItemPolicy, items))
    ensures var a := Prove(w, l, items, prefix, p, cap);
            a.Done? && a.world != w ==> HoldsPerItem(w, l)
  {
    if l.resumed && l.nextIndex > 0 {
      RenewBatchFacts(w, l, Some(items[0].id), prefix(0).renewAt, p);
      if RenewBatch(w, l, Some(items[0].id), prefix(0).renewAt, p).Done? {
        UsedLease(w, l, items, prefix(0).renewAt);
      }
    }
  }

  lemma ProvedWorkerGood(w: World, w': World, r: Request, l: Lease, l': Lease, receipts: seq<Receipt>)
    requires WorkerGood(w, Proving(r, l)) && Framed(w, w', l.batch) && w'.batches.issued == w.batches.issued
    requires SameProgress(l, l') && |receipts| == l.nextIndex
    requires forall j :: 0 <= j < l.nextIndex ==>
               receipts[j].itemId == l.receipts[j].itemId && receipts[j].result == l.receipts[j].result
    ensures WorkerGood(w', Applying(r, l', receipts))
  {
  }

  lemma ItemDoneGood(w: World, births: map<BatchId, Birth>, r: Request, l: Lease, receipts: seq<Receipt>,
                     env: ItemEnv, cap: Capacities)
    requires WorldGood(w, births) && NoneHalfWay(w) && WorkerGood(w, Applying(r, l, receipts))
    requires l.nextIndex < |r.items|
    ensures var a := ApplyItem(w, l, r.items[l.nextIndex], env, r.policy, cap);
            a.Done? ==> TxGood(w, births, a.world, Applying(r, a.value.0, receipts + [a.value.1]))
  {
    var a := ApplyItem(w, l, r.items[l.nextIndex], env, r.policy, cap);
    if a.Done? {
      ApplyItemGood(w, births, l, r.items, env, r.policy, cap, receipts);
      FramedEvolves(w, a.world, l.batch);
      NoneHalfWayFramed(w, a.world, l.batch);
      AppliedWorkerGood(w, a.world, r, l, a.value.0, a.value.1, receipts);
    }
  }

  lemma ItemStepGood(s: System, id: nat, env: ItemEnv, cap: Capacities)
    requires SystemGood(s) && id in s.workers && s.workers[id].Applying?
    ensures SystemGood(ItemStep(s, id, env, cap))
  {
    var v := s.workers[id];
    assert WorkerGood(s.world, v);
    if v.lease.nextIndex < |v.request.items| {
      var a := ApplyItem(s.world, v.lease, v.request.items[v.lease.nextIndex], env, v.request.policy, cap);
      if a.Done? {
        ItemDoneGood(s.world, s.births, v.request, v.lease, v.receipts, env, cap);
        StepIsGood(s, a.world, s.births, id, Applying(v.request, a.value.0, v.receipts + [a.value.1]));
      } else {
        RaisedTxGood(s.world, s.births, a.world, v.request, a.failure);
        StepIsGood(s, Restore(s.world, a.world), s.births, id, Stopped(v.request, a.failure));
      }
    }
  }

  lemma ApplyItemGood(w: World, births: map<BatchId, Birth>, l: Lease, items: seq<Item>, env: ItemEnv,
                      p: Policy, cap: Capacities, receipts: seq<Receipt>)
    requires WorldGood(w, births) && LeaseGood(w, l, Print(PerItemPolicy, items))
    requires l.nextIndex == |receipts| < |items|
    requires ReceiptsGood(w.effects, l.batch, items, receipts)
    ensures var item := items[l.nextIndex];
            var a := ApplyItem(w, l, item, env, p, cap);
            a.Done? ==>
              && WorldGood(a.world, births) && Framed(w, a.world, l.batch) && HoldsPerItem(w, l)
              && LeaseStepped(l, a.value.0, item, a.value.1)
              && ReceiptsGood(a.world.effects, l.batch, items, receipts + [a.value.1])
  {
    var item := items[l.nextIndex];
    ReserveNextGood(w, births, l, item, env, p, cap);
    var r := ReserveNext(w, l, item, env, p, cap);
    if r.Done? {
      RenewBatchFacts(w, l, Some(item.id), env.renewAt, p);
      UsedLease(w, l, items, env.renewAt);
      ApplyOneGood(r.world, births, r.value.0, items, item, r.value.1, env, p, receipts);
    }
  }

  lemma AppliedWorkerGood(w: World, w': World, r: Request, l: Lease, l': Lease, receipt: Receipt,
                          receipts: seq<Receipt>)
    requires WorkerGood(w, Applying(r, l, receipts)) && l.nextIndex < |r.items|
    requires Framed(w, w', l.batch) && w'.batches.issued == w.batches.issued
    requires LeaseStepped(l, l', r.items[l.nextIndex], receipt)
    requires ReceiptsGood(w'.effects, r.batch, r.items, receipts + [receipt])
    ensures WorkerGood(w', Applying(r, l', receipts + [receipt]))
  {
    forall k | 0 <= k < l'.nextIndex
      ensures && l'.receipts[k].itemId == r.items[k].id && !l'.receipts[k].replayed
              && Effect(l'.batch, r.items[k], l'.receipts[k].result) in w'.effects
    {
      if k < l.nextIndex {
        assert l'.receipts[k] == l.receipts[k];
      } else {
        assert (receipts + [receipt])[k] == receipt;
      }
    }
  }

  lemma FinishTxGood(w: World, births: map<BatchId, Birth>, r: Request, l: Lease, receipts: seq<Receipt>,
                     renewAt: int, completeAt: int)
    requires WorldGood(w, births) && NoneHalfWay(w) && WorkerGood(w, Applying(r, l, receipts))
    requires l.nextIndex >= |r.items|
    ensures var (w', finished) := Finish(w, l, renewAt, completeAt, r.policy);
            TxGood(w, births, w', Stopped(r, if finished then Committed(receipts) else EnvelopeUnconfirmed(receipts)))
  {
    FinishGood(w, births, l, renewAt, completeAt, r.policy);
    FinishFacts(w, l, renewAt, completeAt, r.policy);
    FramedEvolves(w, Finish(w, l, renewAt, completeAt, r.policy).0, l.batch);
  }

  lemma FinishStepGood(s: System, id: nat, renewAt: int, completeAt: int)
    requires SystemGood(s) && id in s.workers && s.workers[id].Applying?
    ensures SystemGood(FinishStep(s, id, renewAt, completeAt))
  {
    var v := s.workers[id];
    assert WorkerGood(s.world, v);
    if v.lease.nextIndex >= |v.request.items| {
      FinishTxGood(s.world, s.births, v.request, v.lease, v.receipts, renewAt, completeAt);
      var s' := FinishStep(s, id, renewAt, completeAt);
      StepIsGood(s, s'.world, s.births, id, s'.workers[id]);
    }
  }

  // ---------------------------------------------------------------- all or nothing

  lemma ApplyAndFinishGood(
    w: World, births: map<BatchId, Birth>, l: Lease, items: seq<Item>, from: nat, ds: seq<Decision>,
    receipts: seq<Receipt>, env: ExecEnv, p: Policy)
    requires WorldGood(w, births) && ItemsOfLease(w, l, items)
    requires from + |ds| == |items| && l.nextIndex == from == |receipts|
    requires DecisionsGood(w, l.batch, items, from, ds)
    requires ReceiptsGood(w.effects, l.batch, items, receipts)
    requires l.batch in w.batches.entries
    ensures var a := ApplyAndFinish(w, l, items, from, ds, receipts, env.items, env.finishRenewAt, env.finishAt, p);
            a.Done? ==>
              && WorldGood(a.world, births) && Framed(w, a.world, l.batch)
              && a.world.batches.entries[l.batch].state.Completed?
              && |a.value| == |items| && ReceiptsGood(a.world.effects, l.batch, items, a.value)
  {
    ApplyAllGood(w, births, l, items, from, ds, 0, receipts, env.items, p);
    var applied := ApplyAll(w, l, items, from, ds, 0, receipts, env.items, p);
    if applied.Done? {
      FinishGood(applied.world, births, applied.value.0, env.finishRenewAt, env.finishAt, p);
      FinishFacts(applied.world, applied.value.0, env.finishRenewAt, env.finishAt, p);
    }
  }

  /** Everything after begin: a done execution leaves its batch completed and reports every item. */
  lemma ExecuteAllGood(w: World, births: map<BatchId, Birth>, l: Lease, items: seq<Item>, env: ExecEnv,
                       p: Policy, cap: Capacities)
    requires WorldGood(w, births) && LeaseGood(w, l, Print(AllOrNothingPolicy, items))
    requires l.batch in w.batches.entries && w.batches.entries[l.batch].token == l.token
    ensures var a := ExecuteAll(w, l, items, env.prefix, env.items, env.finishRenewAt, env.finishAt, p, cap);
            a.Done? ==>
              && WorldGood(a.world, births) && Framed(w, a.world, l.batch)
              && a.world.batches.entries[l.batch].state.Completed?
              && |a.value| == |items| && ReceiptsGood(a.world.effects, l.batch, items, a.value)
  {
    hide WorldGood, Prove, ReserveAll, ApplyAndFinish;
    ProveGood(w, births, l, items, env.prefix, p, cap);
    var proved := Prove(w, l, items, env.prefix, p, cap);
    if proved.Done? {
      var l1 := proved.value.0;
      ReserveAllGood(proved.world, births, l1, items, l1.nextIndex, [], env.items, p, cap);
      var reserved := ReserveAll(proved.world, l1, items, l1.nextIndex, [], env.items, p, cap);
      if reserved.Done? {
        FramedTrans(w, proved.world, reserved.world, l.batch);
        ApplyAndFinishGood(reserved.world, births, reserved.value.0, items, l1.nextIndex, reserved.value.1,
                           proved.value.1, env, p);
        var applied := ApplyAndFinish(reserved.world, reserved.value.0, items, l1.nextIndex, reserved.value.1,
                                      proved.value.1, env.items, env.finishRenewAt, env.finishAt, p);
        if applied.Done? { FramedTrans(w, reserved.world, applied.world, l.batch); }
      }
    }
  }

  lemma EvolvesTrans(w: World, v: World, u: World)
    requires Evolves(w, v) && Evolves(v, u)
    ensures Evolves(w, u)
  {
  }

  lemma NoneHalfWayDropped(w: World, w': World)
    requires NoneHalfWay(w)
    requires forall b :: b in w'.batches.entries ==>
               b in w.batches.entries && w'.batches.entries[b] == w.batches.entries[b]
    ensures NoneHalfWay(w')
  {
  }

  lemma NoneHalfWayCommitted(w: World, w1: World, w': World, b: BatchId)
    requires NoneHalfWay(w) && Framed(w1, w', b)
    requires forall c :: c in w1.batches.entries && c != b ==>
               c in w.batches.entries && w1.batches.entries[c] == w.batches.entries[c]
    requires b in w'.batches.entries && w'.batches.entries[b].state.Completed?
    ensures NoneHalfWay(w')
  {
  }

  /** The whole execution, at its one commit point. */
  lemma AllOrNothingGood(w: World, births: map<BatchId, Birth>, r: Request, env: ExecEnv, cap: Capacities)
    requires WorldGood(w, births) && NoneHalfWay(w) && DistinctIds(r.items)
    ensures var (w', result) := AllOrNothing(w, r, env, cap);
            var begun := BeginBatch(w, r, AllOrNothingPolicy, env.beginAt, cap).1;
            var births' := if result.Committed? then Born(births, begun, r.batch, |w.effects|) else births;
            && WorldGood(w', births') && NoneHalfWay(w') && Evolves(w, w')
            && (result.Committed? || result.Replayed? ==>
                  |result.receipts| == |r.items| && ReceiptsGood(w'.effects, r.batch, r.items, result.receipts))
            && (result.Committed? ==> begun.Leased?
                                      && r.batch in w'.batches.entries && w'.batches.entries[r.batch].state.Completed?
                                      && w'.batches.entries[r.batch].fingerprint == Print(AllOrNothingPolicy, r.items))
  {
    hide WorldGood, ExecuteAll, BeginBatch;
    BeginGood(w, births, r, AllOrNothingPolicy, env.beginAt, cap);
    BeginFacts(w, births, r, AllOrNothingPolicy, env.beginAt, cap);
    BeginOthers(w, r, AllOrNothingPolicy, env.beginAt, cap);
    var (w1, begun) := BeginBatch(w, r, AllOrNothingPolicy, env.beginAt, cap);
    if begun.Leased? {
      ExecuteAllCommits(w, w1, births, Born(births, begun, r.batch, |w.effects|), r, begun.lease, env, cap);
      var a := ExecuteAll(w1, begun.lease, r.items, env.prefix, env.items, env.finishRenewAt, env.finishAt,
                          r.policy, cap);
      RestoreGood(w, births, a.world);
    } else {
      NoneHalfWayDropped(w, w1);
      RestoreGood(w, births, w1);
    }
  }

  lemma ExecuteAllCommits(w: World, w1: World, births: map<BatchId, Birth>, births': map<BatchId, Birth>,
                          r: Request, l: Lease, env: ExecEnv, cap: Capacities)
    requires NoneHalfWay(w) && WorldGood(w1, births') && Evolves(w, w1)
    requires LeaseGood(w1, l, Print(AllOrNothingPolicy, r.items)) && l.batch == r.batch
    requires r.batch in w1.batches.entries && w1.batches.entries[r.batch].token == l.token
    requires w1.batches.entries[r.batch].fingerprint == Print(AllOrNothingPolicy, r.items)
    requires forall c :: c in w1.batches.entries && c != r.batch ==>
               c in w.batches.entries && w1.batches.entries[c] == w.batches.entries[c]
    ensures var a := ExecuteAll(w1, l, r.items, env.prefix, env.items, env.finishRenewAt, env.finishAt,
                                r.policy, cap);
            a.Done? ==>
              && WorldGood(a.world, births') && NoneHalfWay(a.world) && Evolves(w, a.world)
              && |a.value| == |r.items| && ReceiptsGood(a.world.effects, r.batch, r.items, a.value)
              && r.batch in a.world.batches.entries && a.world.batches.entries[r.batch].state.Completed?
              && a.world.batches.entries[r.batch].fingerprint == Print(AllOrNothingPolicy, r.items)
  {
    ExecuteAllGood(w1, births', l, r.items, env, r.policy, cap);
    var a := ExecuteAll(w1, l, r.items, env.prefix, env.items, env.finishRenewAt, env.finishAt, r.policy, cap);
    if a.Done? {
      FramedEvolves(w1, a.world, l.batch);
      EvolvesTrans(w, w1, a.world);
      NoneHalfWayCommitted(w, w1, a.world, l.batch);
    }
  }

  // ---------------------------------------------------------------- maintenance

  lemma PurgeBatchesGood(w: World, births: map<BatchId, Birth>, gone: set<BatchId>, cutoff: int, all: bool)
    requires WorldGood(w, births) && NoneHalfWay(w)
    requires forall b :: b in gone && b in w.batches.entries ==> B.Purgeable(w.batches.entries[b], cutoff, all)
    ensures var w' := w.(batches := B.Without(w.batches, gone));
            WorldGood(w', births) && NoneHalfWay(w') && Evolves(w, w')
  {
    B.DroppingKeepsLinks(w.batches, gone);
  }

  // ---------------------------------------------------------------- every run

  lemma StepKeepsGood(s: System, ev: Event, cap: Capacities)
    requires SystemGood(s)
    ensures SystemGood(Step(s, ev, cap))
  {
    hide EntryGood, ItemGood, BeginBatch, Prove, ApplyItem, Finish, AllOrNothing, B.Linked, I.Linked, LeaseGood,
         StartStep, ProveStep, ItemStep, FinishStep;
    match ev
    case Start(id, r, now) => if id !in s.workers && DistinctIds(r.items) { StartGood(s, id, r, now, cap); }
    case ProveTx(id, prefix) => if id in s.workers && s.workers[id].Proving? { ProveStepGood(s, id, prefix, cap); }
    case ItemTx(id, env) => if id in s.workers && s.workers[id].Applying? { ItemStepGood(s, id, env, cap); }
    case FinishTx(id, renewAt, completeAt) =>
      if id in s.workers && s.workers[id].Applying? { FinishStepGood(s, id, renewAt, completeAt); }
    case Crash(id) =>
    case AllOrNothingTx(r, exec) =>
      if DistinctIds(r.items) {
        AllOrNothingGood(s.world, s.births, r, exec, cap);
        WorkersStayGood(s, AllOrNothing(s.world, r, exec, cap).0);
      }
    case PurgeBatches(gone, cutoff, all) =>
      if forall b :: b in gone && b in s.world.batches.entries ==>
                       B.Purgeable(s.world.batches.entries[b], cutoff, all) {
        PurgeBatchesGood(s.world, s.births, gone, cutoff, all);
        WorkersStayGood(s, Step(s, ev, cap).world);
      }
    case PurgeItems(gone, cutoff, all) =>
      ItemsWithoutGood(s.world, s.births, gone);
      WorkersStayGood(s, s.world.(items := I.Without(s.world.items, gone)));
  }

  /** Every step replaces tokens only by new ones. */
  lemma StepEvolves(s: System, ev: Event, cap: Capacities)
    requires SystemGood(s)
    ensures Evolves(s.world, Step(s, ev, cap).world)
  {
    hide EntryGood, ItemGood, BeginBatch, Prove, ApplyItem, AllOrNothing, B.Linked, I.Linked, LeaseGood;
    match ev
    case Start(id, r, now) => BeginFacts(s.world, s.births, r, PerItemPolicy, now, cap);
    case ProveTx(id, prefix) =>
      if id in s.workers && s.workers[id].Proving? { ProveStepEvolves(s, id, prefix, cap); }
    case ItemTx(id, env) =>
      if id in s.workers && s.workers[id].Applying? { ItemStepEvolves(s, id, env, cap); }
    case FinishTx(id, renewAt, completeAt) =>
      if id in s.workers && s.workers[id].Applying? {
        var v := s.workers[id];
        FinishFacts(s.world, v.lease, renewAt, completeAt, v.request.policy);
        FramedEvolves(s.world, Finish(s.world, v.lease, renewAt, completeAt, v.request.policy).0, v.lease.batch);
      }
    case Crash(id) =>
    case AllOrNothingTx(r, exec) =>
      if DistinctIds(r.items) { AllOrNothingGood(s.world, s.births, r, exec, cap); }
    case PurgeBatches(gone, cutoff, all) =>
    case PurgeItems(gone, cutoff, all) =>
  }

  lemma ProveStepEvolves(s: System, id: nat, prefix: nat -> PrefixEnv, cap: Capacities)
    requires SystemGood(s) && id in s.workers && s.workers[id].Proving?
    ensures Evolves(s.world, ProveStep(s, id, prefix, cap).world)
  {
    var v := s.workers[id];
    assert WorkerGood(s.world, v);
    ProveGood(s.world, s.births, v.lease, v.request.items, prefix, v.request.policy, cap);
    var a := Prove(s.world, v.lease, v.request.items, prefix, v.request.policy, cap);
    if a.Done? { FramedEvolves(s.world, a.world, v.lease.batch); }
  }

  lemma ItemStepEvolves(s: System, id: nat, env: ItemEnv, cap: Capacities)
    requires SystemGood(s) && id in s.workers && s.workers[id].Applying?
    ensures Evolves(s.world, ItemStep(s, id, env, cap).world)
  {
    var v := s.workers[id];
    assert WorkerGood(s.world, v);
    if v.lease.nextIndex < |v.request.items| {
      var a := ApplyItem(s.world, v.lease, v.request.items[v.lease.nextIndex], env, v.request.policy, cap);
      if a.Done? {
        ItemDoneGood(s.world, s.births, v.request, v.lease, v.receipts, env, cap);
      } else {
        RestoreGood(s.world, s.births, a.world);
      }
    }
  }

  lemma {:induction false} RunKeepsGood(s: System, events: seq<Event>, cap: Capacities)
    requires SystemGood(s)
    ensures SystemGood(Run(s, events, cap))
    decreases |events|
  {
    if events != [] {
      StepKeepsGood(s, events[0], cap);
      RunKeepsGood(Step(s, events[0], cap), events[1..], cap);
    }
  }

  lemma {:induction false} ReachableGood(events: seq<Event>, cap: Capacities)
    ensures SystemGood(Run(INITIAL, events, cap))
  {
    RunKeepsGood(INITIAL, events, cap);
  }

  // ---------------------------------------------------------------- an execution is a run

  /** A run that begins with an event which leads to s'. */
  lemma RunFrom(s: System, ev: Event, s': System, rest: seq<Event>, cap: Capacities)
    requires s' == Step(s, ev, cap)
    ensures Run(s, [ev] + rest, cap) == Run(s', rest, cap)
  {
    assert ([ev] + rest)[1..] == rest;
  }

  /** The worker ends with this result and the world is the given one. */
  ghost predicate EndsWith(s: System, id: nat, r: Request, w: World, result: BatchResult) {
    s.world == w && id in s.workers && s.workers[id] == Stopped(r, result)
  }

  /** The item transactions of one uninterrupted execution are events of a run. */
  lemma {:induction false} ItemsFromIsRun(s: System, id: nat, v: Worker, env: ExecEnv, cap: Capacities)
    returns (events: seq<Event>)
    requires id in s.workers && s.workers[id] == v && v.Applying?
    requires v.lease.nextIndex <= |v.request.items|
    ensures var (w', result) := ItemsFrom(s.world, v.lease, v.request.items, v.lease.nextIndex, v.receipts, env,
                                          v.request.policy, cap);
            EndsWith(Run(s, events, cap), id, v.request, w', result)
    decreases |v.request.items| - v.lease.nextIndex
  {
    var k := v.lease.nextIndex;
    if k == |v.request.items| {
      events := FinishIsRun(s, id, env, cap);
    } else {
      var ev, t, a := ItemIsEvent(s, id, v, env, cap);
      var rest: seq<Event> := [];
      if a.Done? {
        rest := ItemsFromIsRun(t, id, Applying(v.request, a.value.0, v.receipts + [a.value.1]), env, cap);
      }
      events := [ev] + rest;
      RunFrom(s, ev, t, rest, cap);
    }
  }

  /** One item transaction is one event, and one unfolding of the loop over items. */
  lemma ItemIsEvent(s: System, id: nat, v: Worker, env: ExecEnv, cap: Capacities)
    returns (ev: Event, t: System, a: Attempt<(Lease, Receipt)>)
    requires id in s.workers && s.workers[id] == v && v.Applying? && v.lease.nextIndex < |v.request.items|
    ensures t == Step(s, ev, cap) && id in t.workers
    ensures var (r, k) := (v.request, v.lease.nextIndex);
            var whole := ItemsFrom(s.world, v.lease, r.items, k, v.receipts, env, r.policy, cap);
            if a.Raised? then EndsWith(t, id, r, whole.0, whole.1)
            else
              && t.world == a.world && t.workers[id] == Applying(r, a.value.0, v.receipts + [a.value.1])
              && a.value.0.nextIndex == k + 1
              && whole == ItemsFrom(a.world, a.value.0, r.items, k + 1, v.receipts + [a.value.1], env, r.policy, cap)
  {
    hide ApplyItem, ItemsFrom, Finish, StartStep, ProveStep, FinishStep, AllOrNothingStep, Restore, Within;
    var k := v.lease.nextIndex;
    ev := ItemTx(id, env.items(k));
    t := ItemStep(s, id, env.items(k), cap);
    a := ApplyItem(s.world, v.lease, v.request.items[k], env.items(k), v.request.policy, cap);
    ApplyItemCounts(s.world, v.lease, v.request.items[k], env.items(k), v.request.policy, cap);
    ItemsFromOnce(s.world, v.lease, v.request.items, k, v.receipts, env, v.request.policy, cap);
  }

  /** One unfolding of the loop over items. */
  lemma ItemsFromOnce(w: World, l: Lease, items: seq<Item>, k: nat, receipts: seq<Receipt>, env: ExecEnv, p: Policy,
                      cap: Capacities)
    requires k < |items|
    ensures var a := ApplyItem(w, l, items[k], env.items(k), p, cap);
            ItemsFrom(w, l, items, k, receipts, env, p, cap)
            == if a.Raised? then (Atomically(w, a), a.failure)
               else ItemsFrom(a.world, a.value.0, items, k + 1, receipts + [a.value.1], env, p, cap)
  {
    hide ApplyItem, Finish, Restore, Within;
  }

  lemma FinishIsRun(s: System, id: nat, env: ExecEnv, cap: Capacities) returns (events: seq<Event>)
    requires id in s.workers && s.workers[id].Applying?
    requires s.workers[id].lease.nextIndex == |s.workers[id].request.items|
    ensures var v := s.workers[id];
            var (w', finished) := Finish(s.world, v.lease, env.finishRenewAt, env.finishAt, v.request.policy);
            EndsWith(Run(s, events, cap), id, v.request, w',
                     if finished then Committed(v.receipts) else EnvelopeUnconfirmed(v.receipts))
  {
    var ev := FinishTx(id, env.finishRenewAt, env.finishAt);
    var t := FinishStep(s, id, env.finishRenewAt, env.finishAt);
    assert t == Step(s, ev, cap);
    RunFrom(s, ev, t, [], cap);
    events := [ev] + [];
  }

  lemma ApplyItemCounts(w: World, l: Lease, item: Item, env: ItemEnv, p: Policy, cap: Capacities)
    ensures var a := ApplyItem(w, l, item, env, p, cap);
            a.Done? ==> a.value.0.nextIndex == l.nextIndex + 1
  {
    var r := ReserveNext(w, l, item, env, p, cap);
    RenewBatchFacts(w, l, Some(item.id), env.renewAt, p);
    if r.Done? {
      RenewBatchFacts(r.world, r.value.0, Some(item.id), env.renewAgainAt, p);
      var c := RenewBatch(r.world, r.value.0, Some(item.id), env.renewAgainAt, p);
      if c.Done? && r.value.1.Replay? {
        AdvanceFacts(c.world, c.value, item.id, r.value.1.value.(replayed := true), env.advanceAt, p);
      } else if c.Done? {
        var x := ExecuteItem(c.world, c.value.batch, item, r.value.1.token, env, p);
        if x.Done? { AdvanceFacts(x.world, c.value, item.id, x.value, env.advanceAt, p); }
      }
    }
  }

  /** From the lease on: the proof of the prefix, the items and the end. */
  lemma ProveIsRun(s: System, id: nat, r: Request, l: Lease, env: ExecEnv, cap: Capacities)
    returns (events: seq<Event>)
    requires id in s.workers && s.workers[id] == Proving(r, l)
    requires l.nextIndex == |l.receipts| <= |r.items|
    ensures var a := Prove(s.world, l, r.items, env.prefix, r.policy, cap);
            if a.Raised? then EndsWith(Run(s, events, cap), id, r, Atomically(s.world, a), a.failure)
            else
              var (w', result) := ItemsFrom(a.world, a.value.0, r.items, a.value.0.nextIndex, a.value.1, env,
                                            r.policy, cap);
              EndsWith(Run(s, events, cap), id, r, w', result)
  {
    var ev := ProveTx(id, env.prefix);
    var t := ProveStep(s, id, env.prefix, cap);
    assert t == Step(s, ev, cap);
    var a := Prove(s.world, l, r.items, env.prefix, r.policy, cap);
    var rest: seq<Event> := [];
    if a.Done? {
      rest := ItemsFromIsRun(t, id, Applying(r, a.value.0, a.value.1), env, cap);
    }
    events := [ev] + rest;
    RunFrom(s, ev, t, rest, cap);
  }

  /** A whole per-item execution, as the coordinator runs it, is a run of one worker. */
  lemma PerItemIsRun(s: System, id: nat, r: Request, env: ExecEnv, cap: Capacities) returns (events: seq<Event>)
    requires B.Linked(s.world.batches) && id !in s.workers && DistinctIds(r.items)
    ensures var (w', result) := PerItem(s.world, r, env, cap);
            EndsWith(Run(s, events, cap), id, r, w', result)
  {
    LeaseFitsItems(s.world, r, PerItemPolicy, env.beginAt, cap);
    var ev := Start(id, r, env.beginAt);
    var t := StartStep(s, id, r, env.beginAt, cap);
    assert t == Step(s, ev, cap);
    var begun := BeginBatch(s.world, r, PerItemPolicy, env.beginAt, cap).1;
    var rest: seq<Event> := [];
    if begun.Leased? {
      rest := ProveIsRun(t, id, r, begun.lease, env, cap);
    }
    events := [ev] + rest;
    RunFrom(s, ev, t, rest, cap);
  }
}
