/** How long the batch stores keep what they recorded, said by the clock readings of the calls and the times that the
  * requests ask for, and what a takeover within that time achieves. */
module BatchRetention {
  import opened Prelude
  import opened BatchProtocol
  import opened BatchInvariant
  import opened BatchSteps
  import opened BatchRuns
  import opened BatchAtomicity
  import opened BatchTheorems
  import B = BatchTable
  import I = IdempotencyTable

  // ---------------------------------------------------------------- receipts that do not end yet

  /** Receipts that end no earlier than an instant stay as they are. */
  ghost predicate Keeps(t: ItemTableT, t': ItemTableT, until: int) {
    forall id :: id in t.entries && t.entries[id].phase.Completed? && t.entries[id].expiresAt >= until ==>
      id in t'.entries && t'.entries[id] == t.entries[id]
  }

  lemma KeepsHere(t: ItemTableT, until: int)
    ensures Keeps(t, t, until)
  {
  }

  lemma KeepsTwice(t: ItemTableT, u: ItemTableT, v: ItemTableT, until: int)
    requires Keeps(t, u, until) && Keeps(u, v, until)
    ensures Keeps(t, v, until)
  {
  }

  lemma ReserveKeeps(w: World, b: BatchId, item: Item, now: int, p: Policy, cap: Capacities, until: int)
    requires now < until
    ensures Keeps(w.items, ReserveItem(w, b, item, now, p, cap).0.items, until)
  {
  }

  lemma ReserveNextKeeps(w: World, l: Lease, item: Item, env: ItemEnv, p: Policy, cap: Capacities, until: int)
    requires env.reserveAt < until
    ensures var a := ReserveNext(w, l, item, env, p, cap);
            a.Done? ==> Keeps(w.items, a.world.items, until)
  {
    hide ReserveItem, RenewBatch;
    RenewBatchFacts(w, l, Some(item.id), env.renewAt, p);
    var r := RenewBatch(w, l, Some(item.id), env.renewAt, p);
    if r.Done? { ReserveKeeps(r.world, r.value.batch, item, env.reserveAt, p, cap, until); }
  }

  lemma ExecuteKeeps(w: World, b: BatchId, item: Item, token: nat, env: ItemEnv, p: Policy, until: int)
    ensures var a := ExecuteItem(w, b, item, token, env, p);
            a.Done? ==> Keeps(w.items, a.world.items, until)
  {
  }

  lemma ApplyReservedKeeps(w: World, l: Lease, item: Item, d: Decision, env: ItemEnv, p: Policy, until: int)
    requires d.Execute? || d.Replay?
    ensures var a := ApplyReserved(w, l, item, d, env, p);
            a.Done? ==> Keeps(w.items, a.world.items, until)
  {
    hide RenewBatch, ExecuteItem, AdvanceBatch, Keeps;
    KeepsHere(w.items, until);
    RenewBatchFacts(w, l, Some(item.id), env.renewAgainAt, p);
    var r := RenewBatch(w, l, Some(item.id), env.renewAgainAt, p);
    if r.Done? {
      if d.Replay? {
        AdvanceFacts(r.world, r.value, item.id, d.value.(replayed := true), env.advanceAt, p);
      } else {
        ExecuteKeeps(r.world, r.value.batch, item, d.token, env, p, until);
        var c := ExecuteItem(r.world, r.value.batch, item, d.token, env, p);
        if c.Done? { AdvanceFacts(c.world, r.value, item.id, c.value, env.advanceAt, p); }
      }
    }
  }

  lemma ApplyItemKeeps(w: World, l: Lease, item: Item, env: ItemEnv, p: Policy, cap: Capacities, until: int)
    requires env.reserveAt < until
    ensures var a := ApplyItem(w, l, item, env, p, cap);
            a.Done? ==> Keeps(w.items, a.world.items, until)
  {
    hide ReserveNext, ApplyReserved, Keeps;
    ReserveNextKeeps(w, l, item, env, p, cap, until);
    var r := ReserveNext(w, l, item, env, p, cap);
    if r.Done? {
      ApplyReservedKeeps(r.world, r.value.0, item, r.value.1, env, p, until);
      var a := ApplyReserved(r.world, r.value.0, item, r.value.1, env, p);
      if a.Done? { KeepsTwice(w.items, r.world.items, a.world.items, until); }
    }
  }

  lemma {:induction false} ProvePrefixKeeps(
    w: World, l: Lease, items: seq<Item>, k: nat, proven: seq<Receipt>, envs: nat -> PrefixEnv, p: Policy,
    cap: Capacities, until: int)
    requires k <= l.nextIndex == |l.receipts| <= |items|
    requires forall j: nat :: j < l.nextIndex ==> envs(j).reserveAt < until
    ensures var a := ProvePrefix(w, l, items, k, proven, envs, p, cap);
            a.Done? ==> Keeps(w.items, a.world.items, until)
    decreases l.nextIndex - k
  {
    hide RenewBatch, ReserveItem, Keeps;
    KeepsHere(w.items, until);
    if k < l.nextIndex {
      RenewBatchFacts(w, l, Some(items[k].id), envs(k).renewAt, p);
      var r := RenewBatch(w, l, Some(items[k].id), envs(k).renewAt, p);
      if r.Done? {
        ReserveKeeps(r.world, l.batch, items[k], envs(k).reserveAt, p, cap, until);
        var (w2, d) := ReserveItem(r.world, l.batch, items[k], envs(k).reserveAt, p, cap);
        if d == I.Replay(l.receipts[k]) {
          var more := proven + [l.receipts[k].(replayed := true)];
          ProvePrefixKeeps(w2, r.value, items, k + 1, more, envs, p, cap, until);
          var a := ProvePrefix(w2, r.value, items, k + 1, more, envs, p, cap);
          if a.Done? { KeepsTwice(w.items, w2.items, a.world.items, until); }
        }
      }
    }
  }

  lemma {:induction false} ReserveAllKeeps(
    w: World, l: Lease, items: seq<Item>, k: nat, reserved: seq<Decision>, envs: nat -> ItemEnv, p: Policy,
    cap: Capacities, until: int)
    requires k <= |items| && forall d :: d in reserved ==> d.Execute? || d.Replay?
    requires forall j: nat :: j < |items| ==> envs(j).reserveAt < until
    ensures var a := ReserveAll(w, l, items, k, reserved, envs, p, cap);
            a.Done? ==> Keeps(w.items, a.world.items, until)
    decreases |items| - k
  {
    hide ReserveNext, Keeps;
    KeepsHere(w.items, until);
    if k < |items| {
      ReserveNextKeeps(w, l, items[k], envs(k), p, cap, until);
      var r := ReserveNext(w, l, items[k], envs(k), p, cap);
      if r.Done? {
        ReserveAllKeeps(r.world, r.value.0, items, k + 1, reserved + [r.value.1], envs, p, cap, until);
        var a := ReserveAll(r.world, r.value.0, items, k + 1, reserved + [r.value.1], envs, p, cap);
        if a.Done? { KeepsTwice(w.items, r.world.items, a.world.items, until); }
      }
    }
  }

  lemma {:induction false} ApplyAllKeeps(
    w: World, l: Lease, items: seq<Item>, from: nat, ds: seq<Decision>, k: nat, receipts: seq<Receipt>,
    envs: nat -> ItemEnv, p: Policy, until: int)
    requires k <= |ds| && from + |ds| == |items| && forall d :: d in ds ==> d.Execute? || d.Replay?
    ensures var a := ApplyAll(w, l, items, from, ds, k, receipts, envs, p);
            a.Done? ==> Keeps(w.items, a.world.items, until)
    decreases |ds| - k
  {
    hide ApplyReserved, Keeps;
    KeepsHere(w.items, until);
    if k < |ds| {
      ApplyReservedKeeps(w, l, items[from + k], ds[k], envs(from + k), p, until);
      var r := ApplyReserved(w, l, items[from + k], ds[k], envs(from + k), p);
      if r.Done? {
        ApplyAllKeeps(r.world, r.value.0, items, from, ds, k + 1, receipts + [r.value.1], envs, p, until);
        var a := ApplyAll(r.world, r.value.0, items, from, ds, k + 1, receipts + [r.value.1], envs, p);
        if a.Done? { KeepsTwice(w.items, r.world.items, a.world.items, until); }
      }
    }
  }

  lemma ExecuteAllKeeps(w: World, l: Lease, items: seq<Item>, env: ExecEnv, p: Policy, cap: Capacities, until: int)
    requires l.nextIndex == |l.receipts| <= |items|
    requires forall j: nat :: j < |items| ==> env.prefix(j).reserveAt < until && env.items(j).reserveAt < until
    ensures var a := ExecuteAll(w, l, items, env.prefix, env.items, env.finishRenewAt, env.finishAt, p, cap);
            a.Done? ==> Keeps(w.items, a.world.items, until)
  {
    hide ProvePrefix, ReserveAll, ApplyAll, Finish, Keeps;
    KeepsHere(w.items, until);
    if l.resumed { ProvePrefixKeeps(w, l, items, 0, [], env.prefix, p, cap, until); }
    var proved := Prove(w, l, items, env.prefix, p, cap);
    if proved.Done? {
      var l1 := proved.value.0;
      ReserveAllKeeps(proved.world, l1, items, l1.nextIndex, [], env.items, p, cap, until);
      var reserved := ReserveAll(proved.world, l1, items, l1.nextIndex, [], env.items, p, cap);
      if reserved.Done? {
        var l2, ds := reserved.value.0, reserved.value.1;
        KeepsTwice(w.items, proved.world.items, reserved.world.items, until);
        ApplyAllKeeps(reserved.world, l2, items, l1.nextIndex, ds, 0, proved.value.1, env.items, p, until);
        var applied := ApplyAll(reserved.world, l2, items, l1.nextIndex, ds, 0, proved.value.1, env.items, p);
        if applied.Done? {
          KeepsTwice(w.items, reserved.world.items, applied.world.items, until);
          FinishKeepsReceipts(applied.world, applied.value.0, env.finishRenewAt, env.finishAt, p);
        }
      }
    }
  }

  // ---------------------------------------------------------------- steps and runs

  /** Every reading at which the step may drop a receipt lies before an instant. */
  ghost predicate ReadsBefore(s: System, ev: Event, until: int) {
    match ev
    case ProveTx(id, prefix) =>
      id in s.workers && s.workers[id].Proving? ==>
        forall j: nat :: j < s.workers[id].lease.nextIndex ==> prefix(j).reserveAt < until
    case ItemTx(_, env) => env.reserveAt < until
    case AllOrNothingTx(r, exec) =>
      forall j: nat :: j < |r.items| ==> exec.prefix(j).reserveAt < until && exec.items(j).reserveAt < until
    case PurgeItems(_, cutoff, _) => cutoff < until
    case _ => true
  }

  lemma RestoreKeeps(w: World, w': World, until: int)
    ensures Keeps(w.items, Restore(w, w').items, until)
  {
  }

  lemma AllOrNothingKeeps(w: World, r: Request, exec: ExecEnv, cap: Capacities, until: int)
    requires B.Linked(w.batches)
    requires forall j: nat :: j < |r.items| ==> exec.prefix(j).reserveAt < until && exec.items(j).reserveAt < until
    ensures Keeps(w.items, AllOrNothing(w, r, exec, cap).0.items, until)
  {
    hide ExecuteAll, Keeps, B.Linked, B.Begin;
    KeepsHere(w.items, until);
    var (w1, begun) := BeginBatch(w, r, AllOrNothingPolicy, exec.beginAt, cap);
    RestoreKeeps(w, w1, until);
    if begun.Leased? {
      LeaseFitsItems(w, r, AllOrNothingPolicy, exec.beginAt, cap);
      ExecuteAllKeeps(w1, begun.lease, r.items, exec, r.policy, cap, until);
      RestoreKeeps(w, ExecuteAll(w1, begun.lease, r.items, exec.prefix, exec.items, exec.finishRenewAt, exec.finishAt,
                                 r.policy, cap).world, until);
    }
  }

  lemma ProveStepKeeps(s: System, id: nat, prefix: nat -> PrefixEnv, cap: Capacities, until: int)
    requires id in s.workers && s.workers[id].Proving? && ReadsBefore(s, ProveTx(id, prefix), until)
    ensures Keeps(s.world.items, ProveStep(s, id, prefix, cap).world.items, until)
  {
    hide ProvePrefix, Keeps;
    var v := s.workers[id];
    KeepsHere(s.world.items, until);
    if v.lease.nextIndex == |v.lease.receipts| <= |v.request.items| {
      if v.lease.resumed {
        ProvePrefixKeeps(s.world, v.lease, v.request.items, 0, [], prefix, v.request.policy, cap, until);
      }
      RestoreKeeps(s.world, Prove(s.world, v.lease, v.request.items, prefix, v.request.policy, cap).world, until);
    }
  }

  lemma ItemStepKeeps(s: System, id: nat, env: ItemEnv, cap: Capacities, until: int)
    requires id in s.workers && s.workers[id].Applying? && env.reserveAt < until
    ensures Keeps(s.world.items, ItemStep(s, id, env, cap).world.items, until)
  {
    hide ApplyItem, Keeps;
    var v := s.workers[id];
    KeepsHere(s.world.items, until);
    if v.lease.nextIndex < |v.request.items| {
      var item := v.request.items[v.lease.nextIndex];
      ApplyItemKeeps(s.world, v.lease, item, env, v.request.policy, cap, until);
      RestoreKeeps(s.world, ApplyItem(s.world, v.lease, item, env, v.request.policy, cap).world, until);
    }
  }

  lemma PurgeKeepsThem(t: ItemTableT, gone: set<I.Identity>, cutoff: int, all: bool, until: int)
    requires cutoff < until
    requires forall id :: id in gone && id in t.entries ==> I.Purgeable(t.entries[id], cutoff, all)
    ensures Keeps(t, I.Without(t, gone), until)
  {
  }

  lemma FinishLeavesItems(w: World, l: Lease, renewAt: int, completeAt: int, p: Policy)
    ensures Finish(w, l, renewAt, completeAt, p).0.items == w.items
  {
  }

  lemma StepKeeps(s: System, ev: Event, cap: Capacities, until: int)
    requires B.Linked(s.world.batches) && ReadsBefore(s, ev, until)
    ensures Keeps(s.world.items, Step(s, ev, cap).world.items, until)
  {
    hide B.Linked, B.Begin, ProveStep, ItemStep, Finish, AllOrNothing, DistinctIds, Keeps, I.Purgeable, B.Purgeable,
         I.Without;
    KeepsHere(s.world.items, until);
    match ev
    case Start(id, r, now) =>
    case ProveTx(id, prefix) =>
      if id in s.workers && s.workers[id].Proving? { ProveStepKeeps(s, id, prefix, cap, until); }
    case ItemTx(id, env) =>
      if id in s.workers && s.workers[id].Applying? { ItemStepKeeps(s, id, env, cap, until); }
    case FinishTx(id, renewAt, completeAt) =>
      if id in s.workers && s.workers[id].Applying? {
        FinishLeavesItems(s.world, s.workers[id].lease, renewAt, completeAt, s.workers[id].request.policy);
      }
    case Crash(_) =>
    case AllOrNothingTx(r, exec) => AllOrNothingKeeps(s.world, r, exec, cap, until);
    case PurgeBatches(_, _, _) =>
    case PurgeItems(gone, cutoff, all) =>
      if forall id :: id in gone && id in s.world.items.entries ==> I.Purgeable(s.world.items.entries[id], cutoff, all) {
        PurgeKeepsThem(s.world.items, gone, cutoff, all, until);
      }
  }

  /** Every step of a run reads clocks before an instant, where that matters. */
  ghost predicate RunReadsBefore(s: System, events: seq<Event>, cap: Capacities, until: int)
    decreases |events|
  {
    events == [] || (ReadsBefore(s, events[0], until)
                     && RunReadsBefore(Step(s, events[0], cap), events[1..], cap, until))
  }

  lemma {:induction false} RunKeeps(s: System, events: seq<Event>, cap: Capacities, until: int)
    requires SystemGood(s) && RunReadsBefore(s, events, cap, until)
    ensures Keeps(s.world.items, Run(s, events, cap).world.items, until)
    decreases |events|
  {
    hide SystemGood, Step, Keeps, ReadsBefore;
    KeepsHere(s.world.items, until);
    if events != [] {
      SystemLinked(s);
      StepKeeps(s, events[0], cap, until);
      StepKeepsGood(s, events[0], cap);
      RunKeeps(Step(s, events[0], cap), events[1..], cap, until);
      KeepsTwice(s.world.items, Step(s, events[0], cap).world.items, Run(s, events, cap).world.items, until);
    }
  }

  lemma SystemLinked(s: System)
    requires SystemGood(s)
    ensures B.Linked(s.world.batches)
  {
    hide B.Linked;
  }

  // ---------------------------------------------------------------- the retention of one receipt

  /** An item transaction that executes leaves the receipt of its item until the reading of its completion plus the
    * time that the request asks for. */
  lemma ExecutedUntil(w: World, births: map<BatchId, Birth>, l: Lease, item: Item, env: ItemEnv, p: Policy,
                      cap: Capacities)
    requires WorldGood(w, births)
    ensures var a := ApplyItem(w, l, item, env, p, cap);
            a.Done? && !a.value.1.replayed ==>
              RetainsUntil(a.world.items, l.batch, item, a.value.1, env.completeAt + p.resultTtl)
  {
    hide WorldGood, ReserveNext, ApplyReserved, RetainsUntil, Framed;
    ReserveNextGood(w, births, l, item, env, p, cap);
    var r := ReserveNext(w, l, item, env, p, cap);
    if r.Done? { ApplyingSettles(r.world, r.value.0, item, r.value.1, env, p); }
  }

  /** The receipt of an executed item is held until the reading of its completion plus the time that its request asks
    * for, over every run whose readings lie before that instant, whoever takes part in it. */
  lemma ReceiptIsKept(s: System, id: nat, env: ItemEnv, more: seq<Event>, cap: Capacities)
    requires SystemGood(s) && id in s.workers && s.workers[id].Applying?
    requires s.workers[id].lease.nextIndex < |s.workers[id].request.items|
    requires var v := s.workers[id];
             var a := ApplyItem(s.world, v.lease, v.request.items[v.lease.nextIndex], env, v.request.policy, cap);
             && a.Done? && !a.value.1.replayed
             && RunReadsBefore(Step(s, ItemTx(id, env), cap), more, cap, env.completeAt + v.request.policy.resultTtl)
    ensures var v := s.workers[id];
            var item := v.request.items[v.lease.nextIndex];
            var receipt := ApplyItem(s.world, v.lease, item, env, v.request.policy, cap).value.1;
            RetainsUntil(Run(Step(s, ItemTx(id, env), cap), more, cap).world.items, v.lease.batch, item, receipt,
                         env.completeAt + v.request.policy.resultTtl)
  {
    hide SystemGood, ApplyItem, Run, RunReadsBefore;
    var v := s.workers[id];
    SystemWorld(s);
    ExecutedUntil(s.world, s.births, v.lease, v.request.items[v.lease.nextIndex], env, v.request.policy, cap);
    var s1 := Step(s, ItemTx(id, env), cap);
    StepKeepsGood(s, ItemTx(id, env), cap);
    RunKeeps(s1, more, cap, env.completeAt + v.request.policy.resultTtl);
  }

  lemma SystemWorld(s: System)
    requires SystemGood(s)
    ensures WorldGood(s.world, s.births)
  {
    hide WorldGood;
  }

  // ---------------------------------------------------------------- the lease of a batch

  /** What a begin of the batch answers while a lease is held, and once it has ended. */
  ghost predicate LeasedUntil(t: BatchTableT, l: Lease, until: int) {
    && l.expiresAt == until && l.batch in t.entries
    && var e := t.entries[l.batch];
    forall now: int, ttl: int, cap: nat ::
      var (u, begun) := B.Begin(t, l.batch, e.fingerprint, e.totalItems, now, ttl, cap);
      if now < until then begun == B.BatchInProgress(until)
      else begun.Leased? && begun.lease.resumed && begun.lease.token == t.issued && begun.lease.expiresAt == now + ttl
           && begun.lease.receipts == l.receipts && begun.lease.nextIndex == l.nextIndex
  }

  /** A lease that is issued, renewed or advanced lasts from the reading of the call for the time it asks for: until
    * then every other begin of the same request is told so, and from then on it takes the batch over as far as the
    * lease had brought it. */
  lemma LeasesLast(t: BatchTableT, b: BatchId, printed: Print, total: nat, l: Lease, receipt: Receipt, now: int,
                   ttl: int,
                   cap: nat)
    ensures var (u, begun) := B.Begin(t, b, printed, total, now, ttl, cap);
            begun.Leased? ==> LeasedUntil(u, begun.lease, now + ttl)
    ensures var (u, renewed) := B.Renew(t, l, now, ttl);
            renewed.Some? ==> LeasedUntil(u, renewed.value, now + ttl)
    ensures var (u, advanced) := B.Advance(t, l, receipt, now, ttl);
            advanced.Some? ==> LeasedUntil(u, advanced.value, now + ttl)
                               && advanced.value.receipts == l.receipts + [receipt]
  {
    hide LeasedUntil, B.Begin;
    BegunIsOpen(t, b, printed, total, now, ttl, cap);
    var (u, begun) := B.Begin(t, b, printed, total, now, ttl, cap);
    if begun.Leased? { OpenIsLeased(u, begun.lease, now + ttl); }
    var (v, renewed) := B.Renew(t, l, now, ttl);
    if renewed.Some? { OpenIsLeased(v, renewed.value, now + ttl); }
    var (w, advanced) := B.Advance(t, l, receipt, now, ttl);
    if advanced.Some? { OpenIsLeased(w, advanced.value, now + ttl); }
  }

  /** The entry of the batch is executing, as far as the lease says, until an instant. */
  ghost predicate Open(t: BatchTableT, l: Lease, until: int) {
    && l.expiresAt == until && l.batch in t.entries
    && var e := t.entries[l.batch];
       && B.ExecutingState(e.state) && e.leaseExpiresAt == until && e.receipts == l.receipts && e.nextIndex == l.nextIndex
  }

  lemma BegunIsOpen(t: BatchTableT, b: BatchId, printed: Print, total: nat, now: int, ttl: int, cap: nat)
    ensures var (u, begun) := B.Begin(t, b, printed, total, now, ttl, cap);
            begun.Leased? ==> Open(u, begun.lease, now + ttl)
  {
  }

  lemma OpenIsLeased(t: BatchTableT, l: Lease, until: int)
    requires Open(t, l, until)
    ensures LeasedUntil(t, l, until)
  {
    var e := t.entries[l.batch];
    forall now: int, ttl: int, cap: nat
      ensures var (u, begun) := B.Begin(t, l.batch, e.fingerprint, e.totalItems, now, ttl, cap);
              if now < until then begun == B.BatchInProgress(until)
              else begun.Leased? && begun.lease.resumed && begun.lease.token == t.issued
                   && begun.lease.expiresAt == now + ttl
                   && begun.lease.receipts == l.receipts && begun.lease.nextIndex == l.nextIndex
    {
    }
  }

  // ---------------------------------------------------------------- the retention of a completed batch

  /** Every reading at which the step may drop a completed batch lies before an instant. */
  predicate BatchesBefore(ev: Event, until: int) {
    match ev
    case Start(_, _, now) => now < until
    case AllOrNothingTx(_, exec) => exec.beginAt < until
    case PurgeBatches(_, cutoff, _) => cutoff < until
    case _ => true
  }

  /** The batch is completed, with these items and receipts, until an instant. */
  ghost predicate CompletedUntil(w: World, b: BatchId, printed: Print, receipts: seq<Receipt>, until: int) {
    && b in w.batches.entries
    && var e := w.batches.entries[b];
       e.state.Completed? && e.fingerprint == printed && e.totalItems == |printed.items| && e.receipts == receipts
       && e.retentionExpiresAt == Some(until)
  }

  lemma BeginKeepsCompleted(w: World, r: Request, policy: BatchPolicy, now: int, cap: Capacities, b: BatchId,
                            printed: Print, receipts: seq<Receipt>, until: int)
    requires CompletedUntil(w, b, printed, receipts, until) && now < until
    ensures CompletedUntil(BeginBatch(w, r, policy, now, cap).0, b, printed, receipts, until)
    ensures r.batch == b ==>
              BeginBatch(w, r, policy, now, cap).1
              == if Print(policy, r.items) == printed then B.BatchReplay(receipts) else B.BatchConflict
  {
  }

  lemma RestoreKeepsCompleted(w: World, w': World, b: BatchId, printed: Print, receipts: seq<Receipt>, until: int)
    requires CompletedUntil(w, b, printed, receipts, until)
    ensures CompletedUntil(Restore(w, w'), b, printed, receipts, until)
  {
  }

  lemma FramedKeepsCompleted(w: World, w': World, other: BatchId, b: BatchId, printed: Print, receipts: seq<Receipt>,
                             until: int)
    requires Framed(w, w', other) && b != other && CompletedUntil(w, b, printed, receipts, until)
    ensures CompletedUntil(w', b, printed, receipts, until)
  {
  }

  /** A step on the batch itself is refused, as its completion took its lease. */
  lemma NoLeaseOnCompleted(w: World, l: Lease, now: int, b: BatchId, printed: Print, receipts: seq<Receipt>, until: int)
    requires CompletedUntil(w, b, printed, receipts, until) && l.batch == b
    ensures !B.Active(w.batches, l, now)
  {
  }

  lemma ProveStepCompleted(s: System, id: nat, prefix: nat -> PrefixEnv, cap: Capacities, b: BatchId, printed: Print,
                           receipts: seq<Receipt>, until: int)
    requires SystemGood(s) && CompletedUntil(s.world, b, printed, receipts, until)
    requires id in s.workers && s.workers[id].Proving?
    ensures CompletedUntil(ProveStep(s, id, prefix, cap).world, b, printed, receipts, until)
  {
    hide WorldGood, Prove, CompletedUntil, Framed, EntryGood;
    var v := s.workers[id];
    if v.lease.nextIndex == |v.lease.receipts| <= |v.request.items| {
      var a := Prove(s.world, v.lease, v.request.items, prefix, v.request.policy, cap);
      ProveGood(s.world, s.births, v.lease, v.request.items, prefix, v.request.policy, cap);
      RestoreKeepsCompleted(s.world, a.world, b, printed, receipts, until);
      if a.Done? {
        if v.lease.batch == b {
          CompletedProof(s.world, v.lease, v.request.items, prefix, v.request.policy, cap, b, printed, receipts, until);
        } else {
          FramedKeepsCompleted(s.world, a.world, v.lease.batch, b, printed, receipts, until);
        }
      }
    }
  }

  lemma CompletedProof(w: World, l: Lease, items: seq<Item>, prefix: nat -> PrefixEnv, p: Policy, cap: Capacities,
                       b: BatchId, printed: Print, receipts: seq<Receipt>, until: int)
    requires CompletedUntil(w, b, printed, receipts, until) && l.batch == b && l.nextIndex == |l.receipts| <= |items|
    ensures var a := Prove(w, l, items, prefix, p, cap);
            a.Done? ==> a.world == w
  {
    hide CompletedUntil;
    if l.resumed && l.nextIndex > 0 {
      NoLeaseOnCompleted(w, l, prefix(0).renewAt, b, printed, receipts, until);
    }
  }

  lemma ItemStepCompleted(s: System, id: nat, env: ItemEnv, cap: Capacities, b: BatchId, printed: Print,
                          receipts: seq<Receipt>, until: int)
    requires SystemGood(s) && CompletedUntil(s.world, b, printed, receipts, until)
    requires id in s.workers && s.workers[id].Applying?
    ensures CompletedUntil(ItemStep(s, id, env, cap).world, b, printed, receipts, until)
  {
    hide WorldGood, ApplyItem, CompletedUntil, Framed, EntryGood, ReceiptsGood;
    var v := s.workers[id];
    assert WorkerGood(s.world, v);
    if v.lease.nextIndex < |v.request.items| {
      var item := v.request.items[v.lease.nextIndex];
      var a := ApplyItem(s.world, v.lease, item, env, v.request.policy, cap);
      RestoreKeepsCompleted(s.world, a.world, b, printed, receipts, until);
      ApplyItemGood(s.world, s.births, v.lease, v.request.items, env, v.request.policy, cap, v.receipts);
      if a.Done? {
        if v.lease.batch == b { CompletedItem(s.world, v.lease, item, env, v.request.policy, cap, b, printed, receipts, until); }
        FramedKeepsCompleted(s.world, a.world, v.lease.batch, b, printed, receipts, until);
      }
    }
  }

  lemma CompletedItem(w: World, l: Lease, item: Item, env: ItemEnv, p: Policy, cap: Capacities, b: BatchId,
                      printed: Print,
                      receipts: seq<Receipt>, until: int)
    requires CompletedUntil(w, b, printed, receipts, until) && l.batch == b
    ensures ApplyItem(w, l, item, env, p, cap).Raised?
  {
    hide CompletedUntil;
    NoLeaseOnCompleted(w, l, env.renewAt, b, printed, receipts, until);
  }

  lemma FinishCompleted(w: World, l: Lease, renewAt: int, completeAt: int, p: Policy, b: BatchId, printed: Print,
                        receipts: seq<Receipt>, until: int)
    requires CompletedUntil(w, b, printed, receipts, until)
    ensures CompletedUntil(Finish(w, l, renewAt, completeAt, p).0, b, printed, receipts, until)
  {
  }

  lemma AllOrNothingCompleted(s: System, r: Request, exec: ExecEnv, cap: Capacities, b: BatchId, printed: Print,
                              receipts: seq<Receipt>, until: int)
    requires SystemGood(s) && DistinctIds(r.items) && CompletedUntil(s.world, b, printed, receipts, until)
    requires exec.beginAt < until
    ensures CompletedUntil(AllOrNothing(s.world, r, exec, cap).0, b, printed, receipts, until)
  {
    hide WorldGood, ExecuteAll, BeginBatch, Framed, LeaseGood, WorkerGood, EntryGood, CompletedUntil;
    var w, births := s.world, s.births;
    GoodIsLinked(w, births);
    BeginKeepsCompleted(w, r, AllOrNothingPolicy, exec.beginAt, cap, b, printed, receipts, until);
    BeginGood(w, births, r, AllOrNothingPolicy, exec.beginAt, cap);
    BeginFacts(w, births, r, AllOrNothingPolicy, exec.beginAt, cap);
    var (w1, begun) := BeginBatch(w, r, AllOrNothingPolicy, exec.beginAt, cap);
    RestoreKeepsCompleted(w, w1, b, printed, receipts, until);
    if begun.Leased? {
      var l := begun.lease;
      LeaseFitsItems(w, r, AllOrNothingPolicy, exec.beginAt, cap);
      ExecuteAllGood(w1, Born(births, begun, r.batch, |w.effects|), l, r.items, exec, r.policy, cap);
      var a := ExecuteAll(w1, l, r.items, exec.prefix, exec.items, exec.finishRenewAt, exec.finishAt, r.policy, cap);
      RestoreKeepsCompleted(w, a.world, b, printed, receipts, until);
      if a.Done? { FramedKeepsCompleted(w1, a.world, l.batch, b, printed, receipts, until); }
    }
  }

  lemma WithoutKeepsCompleted(w: World, gone: set<BatchId>, cutoff: int, all: bool, b: BatchId, printed: Print,
                              receipts: seq<Receipt>, until: int)
    requires CompletedUntil(w, b, printed, receipts, until) && cutoff < until
    requires forall c :: c in gone && c in w.batches.entries ==> B.Purgeable(w.batches.entries[c], cutoff, all)
    ensures CompletedUntil(w.(batches := B.Without(w.batches, gone)), b, printed, receipts, until)
  {
  }

  lemma StepCompleted(s: System, ev: Event, cap: Capacities, b: BatchId, printed: Print, receipts: seq<Receipt>,
                      until: int)
    requires SystemGood(s) && CompletedUntil(s.world, b, printed, receipts, until) && BatchesBefore(ev, until)
    ensures CompletedUntil(Step(s, ev, cap).world, b, printed, receipts, until)
  {
    hide SystemGood, BeginBatch, ProveStep, ItemStep, Finish, AllOrNothing, B.Linked, DistinctIds, B.Purgeable,
         I.Purgeable;
    SystemLinked(s);
    match ev
    case Start(id, r, now) => BeginKeepsCompleted(s.world, r, PerItemPolicy, now, cap, b, printed, receipts, until);
    case ProveTx(id, prefix) =>
      if id in s.workers && s.workers[id].Proving? { ProveStepCompleted(s, id, prefix, cap, b, printed, receipts, until); }
    case ItemTx(id, env) =>
      if id in s.workers && s.workers[id].Applying? { ItemStepCompleted(s, id, env, cap, b, printed, receipts, until); }
    case FinishTx(id, renewAt, completeAt) =>
      if id in s.workers && s.workers[id].Applying? {
        FinishCompleted(s.world, s.workers[id].lease, renewAt, completeAt, s.workers[id].request.policy, b,
                        printed,
                        receipts, until);
      }
    case Crash(_) =>
    case AllOrNothingTx(r, exec) =>
      if DistinctIds(r.items) { AllOrNothingCompleted(s, r, exec, cap, b, printed, receipts, until); }
    case PurgeBatches(gone, cutoff, all) =>
      if forall c :: c in gone && c in s.world.batches.entries ==> B.Purgeable(s.world.batches.entries[c], cutoff, all) {
        WithoutKeepsCompleted(s.world, gone, cutoff, all, b, printed, receipts, until);
      }
    case PurgeItems(_, _, _) =>
  }

  lemma {:induction false} RunCompleted(s: System, events: seq<Event>, cap: Capacities, b: BatchId, printed: Print,
                                        receipts: seq<Receipt>, until: int)
    requires SystemGood(s) && CompletedUntil(s.world, b, printed, receipts, until)
    requires forall ev :: ev in events ==> BatchesBefore(ev, until)
    ensures CompletedUntil(Run(s, events, cap).world, b, printed, receipts, until)
    decreases |events|
  {
    hide SystemGood, CompletedUntil, Step, BatchesBefore;
    if events != [] {
      assert events[0] in events && forall ev :: ev in events[1..] ==> ev in events;
      StepCompleted(s, events[0], cap, b, printed, receipts, until);
      StepKeepsGood(s, events[0], cap);
      RunCompleted(Step(s, events[0], cap), events[1..], cap, b, printed, receipts, until);
    }
  }

  /** What a worker reports as committed answers every later begin of the same request, and a conflict every other
    * request for the batch: from the reading of its completion for the time that the request asks for, over every
    * run whose readings lie before that end, where that matters. */
  lemma CommittedIsReplayed(s: System, id: nat, renewAt: int, completeAt: int, more: seq<Event>, cap: Capacities,
                            later: Request, policy: BatchPolicy, now: int)
    requires SystemGood(s) && id in s.workers && s.workers[id].Applying?
    requires s.workers[id].lease.nextIndex == |s.workers[id].request.items|
    requires Finish(s.world, s.workers[id].lease, renewAt, completeAt, s.workers[id].request.policy).1
    requires var until := completeAt + s.workers[id].request.policy.resultTtl;
             now < until && forall ev :: ev in more ==> BatchesBefore(ev, until)
    requires later.batch == s.workers[id].lease.batch
    ensures var v := s.workers[id];
            var w := Run(Step(s, FinishTx(id, renewAt, completeAt), cap), more, cap).world;
            BeginBatch(w, later, policy, now, cap).1
            == if Print(policy, later.items) == Print(PerItemPolicy, v.request.items)
               then B.BatchReplay(v.lease.receipts) else B.BatchConflict
  {
    hide WorldGood, NoneHalfWay, Run, Finish, BeginBatch, EntryGood, ReceiptsGood, CompletedUntil;
    var v := s.workers[id];
    assert WorkerGood(s.world, v);
    var until := completeAt + v.request.policy.resultTtl;
    FinishedUntil(s.world, s.births, v.lease, v.request.items, renewAt, completeAt, v.request.policy);
    var s1 := Step(s, FinishTx(id, renewAt, completeAt), cap);
    StepKeepsGood(s, FinishTx(id, renewAt, completeAt), cap);
    var printed := Print(PerItemPolicy, v.request.items);
    RunCompleted(s1, more, cap, v.lease.batch, printed, v.lease.receipts, until);
    BeginKeepsCompleted(Run(s1, more, cap).world, later, policy, now, cap, v.lease.batch, printed, v.lease.receipts, until);
  }

  lemma FinishedUntil(w: World, births: map<BatchId, Birth>, l: Lease, items: seq<Item>, renewAt: int, completeAt: int,
                      p: Policy)
    requires WorldGood(w, births) && LeaseGood(w, l, Print(PerItemPolicy, items))
    ensures var (w', finished) := Finish(w, l, renewAt, completeAt, p);
            finished ==> CompletedUntil(w', l.batch, Print(PerItemPolicy, items), l.receipts, completeAt + p.resultTtl)
  {
    hide ItemGood, I.Linked, CountFrom, Backed;
    if l.batch in w.batches.entries { assert EntryGood(l.batch, w.batches.entries[l.batch], w.effects, births[l.batch]); }
  }
}
