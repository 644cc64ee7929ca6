/** What the mutation-batch coordinator is for, stated over every reachable state of its stores. */
module BatchTheorems {
  import opened Prelude
  import opened BatchProtocol
  import opened BatchInvariant
  import opened BatchSteps
  import opened BatchRuns
  import opened BatchAtomicity
  import B = BatchTable
  import I = IdempotencyTable

  // ---------------------------------------------------------------- exactly once

  /** Effects before the entry was created do not count for an identity that had no entry before. */
  lemma {:induction false} CountFromStart(effects: seq<Effect>, mark: nat, b: BatchId, itemId: string)
    requires mark <= |effects|
    requires forall i :: 0 <= i < mark ==> effects[i].batch != b
    ensures CountFrom(effects, 0, b, itemId) == CountFrom(effects, mark, b, itemId)
  {
    if |effects| > 0 {
      var shorter := effects[..|effects| - 1];
      if |effects| > mark {
        CountFromStart(shorter, mark, b, itemId);
      } else {
        CountFromStart(shorter, mark - 1, b, itemId);
      }
    }
  }

  /** In every reachable state, for every retained first entry of a batch identity: progress equals the
    * number of receipts, receipt k names item k, and the whole log holds exactly one effect, with that
    * receipt's result, for every item below the progress and none for any other. */
  lemma ExactlyOnce(events: seq<Event>, cap: Capacities, b: BatchId)
    requires var s := Run(INITIAL, events, cap);
             b in s.world.batches.entries && b in s.births && s.births[b].earlier == 0
    ensures var w := Run(INITIAL, events, cap).world;
            var e := w.batches.entries[b];
            var items := e.fingerprint.items;
            && e.nextIndex == |e.receipts| <= |items| == e.totalItems
            && (forall k :: 0 <= k < |items| ==>
                  CountFrom(w.effects, 0, b, items[k].id) == if k < e.nextIndex then 1 else 0)
            && (forall k :: 0 <= k < e.nextIndex ==>
                  e.receipts[k].itemId == items[k].id && Effect(b, items[k], e.receipts[k].result) in w.effects)
  {
    ReachableGood(events, cap);
    var s := Run(INITIAL, events, cap);
    var e, birth, effects := s.world.batches.entries[b], s.births[b], s.world.effects;
    var items := e.fingerprint.items;
    assert EntryGood(b, e, effects, birth);
    forall k | 0 <= k < |items|
      ensures CountFrom(effects, 0, b, items[k].id) == if k < e.nextIndex then 1 else 0
    {
      CountFromStart(effects, birth.mark, b, items[k].id);
      if k < e.nextIndex {
        assert Backed(effects, birth.mark, b, items[k], e.receipts[k].result);
      }
    }
  }

  /** For a reused identity the same holds of the effects since its entry was created, except that a
    * receipt still retained from before is adopted instead of repeating its effect. */
  lemma AtMostOncePerEntry(events: seq<Event>, cap: Capacities, b: BatchId)
    requires b in Run(INITIAL, events, cap).world.batches.entries
    ensures var s := Run(INITIAL, events, cap);
            var e, effects := s.world.batches.entries[b], s.world.effects;
            && b in s.births && s.births[b].mark <= |effects|
            && e.nextIndex == |e.receipts| <= |e.fingerprint.items|
            && forall k :: 0 <= k < |e.fingerprint.items| ==>
                 var n := CountFrom(effects, s.births[b].mark, b, e.fingerprint.items[k].id);
                 if k < e.nextIndex then
                   && n <= 1 && Effect(b, e.fingerprint.items[k], e.receipts[k].result) in effects
                   && (n == 0 ==> Effect(b, e.fingerprint.items[k], e.receipts[k].result) in effects[..s.births[b].mark])
                 else n == 0
  {
    ReachableGood(events, cap);
    var s := Run(INITIAL, events, cap);
    var e, birth, effects := s.world.batches.entries[b], s.births[b], s.world.effects;
    assert EntryGood(b, e, effects, birth);
    forall k | 0 <= k < e.nextIndex
      ensures CountFrom(effects, birth.mark, b, e.fingerprint.items[k].id) == 0 ==>
                Effect(b, e.fingerprint.items[k], e.receipts[k].result) in effects[..birth.mark]
    {
      assert Backed(effects, birth.mark, b, e.fingerprint.items[k], e.receipts[k].result);
      var i :| 0 <= i < |effects| && effects[i] == Effect(b, e.fingerprint.items[k], e.receipts[k].result)
               && CountFrom(effects, birth.mark, b, e.fingerprint.items[k].id) == if birth.mark <= i then 1 else 0;
      if i < birth.mark { assert effects[..birth.mark][i] == effects[i]; }
    }
  }

  /** While the item store retains a receipt of an item, unexpired, no item transaction repeats its effect: one that
    * succeeds returns that receipt as replayed. */
  lemma RetainedReceiptIsReplayed(w: World, l: Lease, item: Item, receipt: Receipt, env: ItemEnv, p: Policy,
                                  cap: Capacities)
    requires Retains(w.items, l.batch, item, receipt) && receipt.itemId == item.id
    requires w.items.entries[ItemIdentity(l.batch, item.id)].expiresAt > env.reserveAt
    ensures var a := ApplyItem(w, l, item, env, p, cap);
            && Atomically(w, a).effects == w.effects
            && (a.Done? ==> a.value.1 == receipt.(replayed := true))
  {
    hide RenewBatch, AdvanceBatch, ExecuteItem;
    RenewBatchFacts(w, l, Some(item.id), env.renewAt, p);
    var r := RenewBatch(w, l, Some(item.id), env.renewAt, p);
    if r.Done? {
      var w2 := ReserveItem(r.world, l.batch, item, env.reserveAt, p, cap).0;
      RenewBatchFacts(w2, r.value, Some(item.id), env.renewAgainAt, p);
      var c := RenewBatch(w2, r.value, Some(item.id), env.renewAgainAt, p);
      if c.Done? { AdvanceFacts(c.world, c.value, item.id, receipt.(replayed := true), env.advanceAt, p); }
    }
  }

  /** When the step ends, the entry was completed and its retention was over. */
  ghost predicate RetentionOver(e: B.Stored<Print, Result>, ev: Event) {
    && e.state.Completed?
    && B.Reached(e.retentionExpiresAt,
                 match ev
                 case Start(_, _, now) => now
                 case AllOrNothingTx(_, exec) => exec.beginAt
                 case PurgeBatches(_, cutoff, _) => cutoff
                 case _ => 0)
  }

  /** A batch identity becomes free again only after its batch was completed and its retention ended. */
  lemma IdentityFreedOnlyAfterRetention(events: seq<Event>, cap: Capacities, ev: Event, b: BatchId)
    requires var s := Run(INITIAL, events, cap);
             b in s.world.batches.entries && b !in Step(s, ev, cap).world.batches.entries
    ensures RetentionOver(Run(INITIAL, events, cap).world.batches.entries[b], ev)
  {
    ReachableGood(events, cap);
    var s := Run(INITIAL, events, cap);
    assert EntryGood(b, s.world.batches.entries[b], s.world.effects, s.births[b]);
    LeavesOnlyByPurge(s, ev, cap, b);
  }

  lemma LeavesOnlyByPurge(s: System, ev: Event, cap: Capacities, b: BatchId)
    requires B.Linked(s.world.batches)
    requires b in s.world.batches.entries && !s.world.batches.entries[b].state.Uncertain?
    requires b !in Step(s, ev, cap).world.batches.entries
    ensures RetentionOver(s.world.batches.entries[b], ev)
  {
    hide AllOrNothing, Prove, ApplyItem, Finish, BeginBatch, B.Linked, DistinctIds;
    match ev
    case Start(id, r, now) => BeginLeaves(s.world, r, now, cap, b);
    case ProveTx(id, prefix) =>
    case ItemTx(id, env) =>
    case FinishTx(id, renewAt, completeAt) =>
      var v := s.workers[id];
      FinishFacts(s.world, v.lease, renewAt, completeAt, v.request.policy);
    case Crash(id) =>
    case AllOrNothingTx(r, exec) => AllOrNothingLeaves(s.world, r, exec, cap, b);
    case PurgeBatches(gone, cutoff, all) =>
    case PurgeItems(gone, cutoff, all) =>
  }

  lemma BeginLeaves(w: World, r: Request, now: int, cap: Capacities, b: BatchId)
    requires b in w.batches.entries && b !in BeginBatch(w, r, PerItemPolicy, now, cap).0.batches.entries
    ensures w.batches.entries[b].state.Completed? && B.Reached(w.batches.entries[b].retentionExpiresAt, now)
  {
  }

  lemma AllOrNothingLeaves(w: World, r: Request, exec: ExecEnv, cap: Capacities, b: BatchId)
    requires B.Linked(w.batches) && b in w.batches.entries
    requires b !in AllOrNothing(w, r, exec, cap).0.batches.entries
    ensures RetentionOver(w.batches.entries[b], AllOrNothingTx(r, exec))
  {
    hide ExecuteAll;
    var (w1, begun) := BeginBatch(w, r, AllOrNothingPolicy, exec.beginAt, cap);
    if begun.Leased? {
      LeaseFitsItems(w, r, AllOrNothingPolicy, exec.beginAt, cap);
      var a := ExecuteAll(w1, begun.lease, r.items, exec.prefix, exec.items, exec.finishRenewAt, exec.finishAt,
                          r.policy, cap);
      assert Within(w1, a);
    }
  }

  // ---------------------------------------------------------------- reported results

  /** Whatever a worker reports as committed, replayed or merely unconfirmed is, item by item and in
    * order, the result of a committed effect. */
  lemma ReportsAreTrue(events: seq<Event>, cap: Capacities, id: nat)
    requires var s := Run(INITIAL, events, cap);
             && id in s.workers && s.workers[id].Stopped?
             && var result := s.workers[id].result;
             && (result.Committed? || result.Replayed? || result.EnvelopeUnconfirmed?)
    ensures var s := Run(INITIAL, events, cap);
            var r, receipts := s.workers[id].request, s.workers[id].result.receipts;
            && |receipts| == |r.items|
            && forall k :: 0 <= k < |receipts| ==>
                 receipts[k].itemId == r.items[k].id && Effect(r.batch, r.items[k], receipts[k].result) in s.world.effects
  {
    ReachableGood(events, cap);
    var s := Run(INITIAL, events, cap);
    assert WorkerGood(s.world, s.workers[id]);
  }

  // ---------------------------------------------------------------- superseded workers

  /** The batch is gone or its lease was taken over. */
  ghost predicate Superseded(w: World, l: Lease) {
    l.batch in w.batches.entries ==> w.batches.entries[l.batch].token != l.token
  }

  /** The next transaction of a superseded worker changes nothing at all, whatever it is, and is refused: the
    * proof of a resumed prefix, an item, or the completion. */
  lemma SupersededChangesNothing(w: World, l: Lease, r: Request, prefix: nat -> PrefixEnv, env: ItemEnv,
                                 renewAt: int, completeAt: int, cap: Capacities)
    requires Superseded(w, l) && l.nextIndex == |l.receipts| <= |r.items|
    ensures Atomically(w, Prove(w, l, r.items, prefix, r.policy, cap)) == w
    ensures l.resumed && l.nextIndex > 0 ==> Prove(w, l, r.items, prefix, r.policy, cap).Raised?
    ensures l.nextIndex < |r.items| ==>
              Atomically(w, ApplyItem(w, l, r.items[l.nextIndex], env, r.policy, cap)) == w
              && ApplyItem(w, l, r.items[l.nextIndex], env, r.policy, cap).Raised?
    ensures Finish(w, l, renewAt, completeAt, r.policy) == (w, false)
  {
  }

  /** A takeover supersedes the lease it replaces, for good: the old token is never issued again. */
  lemma {:induction false} TakeoverSupersedes(s: System, l: Lease, events: seq<Event>, cap: Capacities)
    requires SystemGood(s) && l.token < s.world.batches.issued && Superseded(s.world, l)
    ensures Superseded(Run(s, events, cap).world, l)
    decreases |events|
  {
    if events != [] {
      StepKeepsGood(s, events[0], cap);
      StepEvolves(s, events[0], cap);
      TakeoverSupersedes(Step(s, events[0], cap), l, events[1..], cap);
    }
  }

  // ---------------------------------------------------------------- all or nothing

  /** What a committed execution leaves: the completed entry with the receipts of all items, exactly one effect
    * more, in order, for each item that it did not replay, and the receipt of each of those in the item store
    * for its retention; what it replayed was held there before. */
  ghost predicate CommitsWhole(w: World, w': World, r: Request, receipts: seq<Receipt>, env: ExecEnv) {
    && r.batch in w'.batches.entries
    && w'.batches.entries[r.batch].state.Completed? && w'.batches.entries[r.batch].nextIndex == |r.items|
    && |receipts| == |r.items| && w'.batches.entries[r.batch].receipts == Plain(receipts)
    && w'.effects == w.effects + Performed(r.batch, r.items, receipts)
    && forall k :: 0 <= k < |r.items| ==>
         && receipts[k].itemId == r.items[k].id && Effect(r.batch, r.items[k], receipts[k].result) in w'.effects
         && if receipts[k].replayed
            then Retains(w.items, r.batch, r.items[k], receipts[k].(replayed := false))
            else RetainsUntil(w'.items, r.batch, r.items[k], receipts[k],
                              env.items(k).completeAt + r.policy.resultTtl)
  }

  /** An execution either commits whole, or leaves both stores and the effects exactly as they were; a replay of
    * the batch, at most, drops entries whose retention is over. */
  lemma AllOrNothingAtomic(w: World, births: map<BatchId, Birth>, r: Request, env: ExecEnv, cap: Capacities)
    requires WorldGood(w, births) && NoneHalfWay(w) && DistinctIds(r.items)
    ensures var (w', result) := AllOrNothing(w, r, env, cap);
            match result
            case Committed(receipts) => CommitsWhole(w, w', r, receipts, env)
            case Replayed(_) => w' == w.(batches := B.PurgeTerminal(w.batches, env.beginAt))
            case _ =>
              && w'.batches.entries == w.batches.entries && w'.batches.tokens == w.batches.tokens
              && w'.items.entries == w.items.entries && w'.items.tokens == w.items.tokens
              && w'.effects == w.effects
  {
    hide AllOrNothing, CommitsWhole, WorldGood, NoneHalfWay, DistinctIds, B.PurgeTerminal;
    GoodIsLinked(w, births);
    OtherwiseNothing(w, r, env, cap);
    if AllOrNothing(w, r, env, cap).1.Committed? { CommittedIsWhole(w, births, r, env, cap); }
  }

  lemma CommittedIsWhole(w: World, births: map<BatchId, Birth>, r: Request, env: ExecEnv, cap: Capacities)
    requires WorldGood(w, births) && NoneHalfWay(w) && DistinctIds(r.items)
    ensures var (w', result) := AllOrNothing(w, r, env, cap);
            result.Committed? ==> CommitsWhole(w, w', r, result.receipts, env)
  {
    hide AllOrNothing, BeginBatch, B.Linked, I.Linked, ItemGood, Performed, NoOtherReceipts, RetainsUntil, Retains,
         Backed, CountFrom, NoneHalfWay, Evolves;
    AllOrNothingGood(w, births, r, env, cap);
    CommitAccounts(w, births, r, env, cap);
    var (w', result) := AllOrNothing(w, r, env, cap);
    if result.Committed? {
      var births' := Born(births, BeginBatch(w, r, AllOrNothingPolicy, env.beginAt, cap).1, r.batch, |w.effects|);
      assert EntryGood(r.batch, w'.batches.entries[r.batch], w'.effects, births'[r.batch]);
    }
  }

  lemma OtherwiseNothing(w: World, r: Request, env: ExecEnv, cap: Capacities)
    requires B.Linked(w.batches)
    ensures var (w', result) := AllOrNothing(w, r, env, cap);
            match result
            case Committed(_) => true
            case Replayed(_) => w' == w.(batches := B.PurgeTerminal(w.batches, env.beginAt))
            case _ =>
              && w'.batches.entries == w.batches.entries && w'.batches.tokens == w.batches.tokens
              && w'.items.entries == w.items.entries && w'.items.tokens == w.items.tokens
              && w'.effects == w.effects
  {
    hide ExecuteAll, B.Linked, B.PurgeTerminal;
    GoodLease(w, r, env.beginAt, cap);
  }

  lemma GoodLease(w: World, r: Request, now: int, cap: Capacities)
    requires B.Linked(w.batches)
    ensures var begun := BeginBatch(w, r, AllOrNothingPolicy, now, cap).1;
            begun.Leased? ==> begun.lease.nextIndex == |begun.lease.receipts| <= |r.items|
  {
    hide BeginBatch;
    LeaseFitsItems(w, r, AllOrNothingPolicy, now, cap);
  }

  /** No reachable state shows an all-or-nothing batch half way: it is absent or completed, with an
    * effect for every item. */
  lemma AllOrNothingNeverHalfWay(events: seq<Event>, cap: Capacities, b: BatchId)
    requires var w := Run(INITIAL, events, cap).world;
             b in w.batches.entries && w.batches.entries[b].fingerprint.policy.AllOrNothingPolicy?
    ensures var w := Run(INITIAL, events, cap).world;
            var e := w.batches.entries[b];
            && e.state.Completed? && e.nextIndex == |e.fingerprint.items| == |e.receipts|
            && forall k :: 0 <= k < |e.fingerprint.items| ==>
                 Effect(b, e.fingerprint.items[k], e.receipts[k].result) in w.effects
  {
    ReachableGood(events, cap);
    var s := Run(INITIAL, events, cap);
    assert EntryGood(b, s.world.batches.entries[b], s.world.effects, s.births[b]);
  }

  // ---------------------------------------------------------------- the mark that does not last

  /** The uncertainty mark of a failed proof is made inside the transaction that it ends: no reachable
    * state ever holds an uncertain batch. */
  lemma NoBatchStaysUncertain(events: seq<Event>, cap: Capacities, b: BatchId)
    requires b in Run(INITIAL, events, cap).world.batches.entries
    ensures !Run(INITIAL, events, cap).world.batches.entries[b].state.Uncertain?
  {
    ReachableGood(events, cap);
    var s := Run(INITIAL, events, cap);
    assert EntryGood(b, s.world.batches.entries[b], s.world.effects, s.births[b]);
  }

  /** After a failed proof, the same request finds, once the lease runs out, a resumable batch with
    * unchanged progress: it is issued a lease again, and is never told that the batch is uncertain. */
  lemma FailedProofIsForgotten(w: World, births: map<BatchId, Birth>, r: Request, l: Lease,
                               prefix: nat -> PrefixEnv, now: int, cap: Capacities)
    requires WorldGood(w, births) && LeaseGood(w, l, Print(PerItemPolicy, r.items)) && l.batch == r.batch
    requires r.batch in w.batches.entries && w.batches.entries[r.batch].token == l.token
    requires B.ExecutingState(w.batches.entries[r.batch].state)
    requires Prove(w, l, r.items, prefix, r.policy, cap).Raised?
    requires w.batches.entries[r.batch].leaseExpiresAt <= now
    ensures var w' := Atomically(w, Prove(w, l, r.items, prefix, r.policy, cap));
            var begun := BeginBatch(w', r, PerItemPolicy, now, cap).1;
            && begun.Leased? && begun.lease.resumed
            && begun.lease.receipts == w.batches.entries[r.batch].receipts
  {
    assert EntryGood(r.batch, w.batches.entries[r.batch], w.effects, births[r.batch]);
  }

  // ---------------------------------------------------------------- completing the envelope

  ghost predicate ReceiptHeld(t: ItemTableT, b: BatchId, item: Item, receipt: Receipt, until: int) {
    Retains(t, b, item, receipt) && t.entries[ItemIdentity(b, item.id)].expiresAt >= until
  }

  /** The item store still holds, unexpired, the given receipts of items k and later. */
  ghost predicate Receipted(t: ItemTableT, b: BatchId, items: seq<Item>, receipts: seq<Receipt>, k: nat, until: int)
    requires k <= |items| == |receipts|
    decreases |items| - k
  {
    k == |items| ||
    (ReceiptHeld(t, b, items[k], receipts[k], until) && Receipted(t, b, items, receipts, k + 1, until))
  }

  lemma {:induction false} ReceiptedUnpurged(
    t: ItemTableT, b: BatchId, items: seq<Item>, receipts: seq<Receipt>, k: nat, now: int, until: int)
    requires k <= |items| == |receipts| && now < until
    requires Receipted(t, b, items, receipts, k, until)
    ensures Receipted(I.Purged(t, now), b, items, receipts, k, until)
    decreases |items| - k
  {
    if k < |items| { ReceiptedUnpurged(t, b, items, receipts, k + 1, now, until); }
  }

  /** The item's receipt is replayed, and the later receipts stay. */
  lemma ReceiptedReplays(w: World, b: BatchId, items: seq<Item>, receipts: seq<Receipt>, k: nat, now: int,
                         until: int, p: Policy, cap: Capacities)
    requires k < |items| == |receipts| && now < until
    requires Receipted(w.items, b, items, receipts, k, until)
    ensures var (w', d) := ReserveItem(w, b, items[k], now, p, cap);
            && d == I.Replay(receipts[k]) && Receipted(w'.items, b, items, receipts, k + 1, until)
            && w' == w.(items := w'.items)
  {
    ReceiptedUnpurged(w.items, b, items, receipts, k, now, until);
  }

  /** The lease is the current, unexpired authority over a batch of the given length. */
  ghost predicate Holds(t: BatchTableT, l: Lease, total: nat, until: int) {
    && l.batch in t.entries && l == B.LeaseOf(l.batch, t.entries[l.batch], l.resumed)
    && B.ExecutingState(l.state) && l.expiresAt >= until && l.totalItems == total
    && l.token in t.tokens && t.tokens[l.token] == l.batch
  }

  lemma HeldRenews(w: World, l: Lease, total: nat, until: int, itemId: Option<string>, now: int, p: Policy)
    requires Holds(w.batches, l, total, until) && now < until <= now + p.leaseTtl
    ensures var r := RenewBatch(w, l, itemId, now, p);
            && r.Done? && Holds(r.world.batches, r.value, total, until)
            && r.world == w.(batches := r.world.batches) && SameProgress(l, r.value)
  {
  }

  lemma ProvePrefixStep(
    w: World, l: Lease, items: seq<Item>, k: nat, proven: seq<Receipt>, envs: nat -> PrefixEnv,
    p: Policy, cap: Capacities)
    requires k < l.nextIndex == |l.receipts| <= |items|
    ensures var r := RenewBatch(w, l, Some(items[k].id), envs(k).renewAt, p);
            r.Done? ==>
              var (w2, d) := ReserveItem(r.world, r.value.batch, items[k], envs(k).reserveAt, p, cap);
              d == I.Replay(l.receipts[k]) ==>
                ProvePrefix(w, l, items, k, proven, envs, p, cap) ==
                ProvePrefix(w2, r.value, items, k + 1, proven + [l.receipts[k].(replayed := true)], envs, p, cap)
  {
  }

  lemma {:induction false} ProvePrefixSucceeds(
    w: World, l: Lease, items: seq<Item>, k: nat, proven: seq<Receipt>, envs: nat -> PrefixEnv,
    now: int, p: Policy, cap: Capacities)
    requires k <= l.nextIndex == |l.receipts| == |items|
    requires forall j: nat :: now <= envs(j).renewAt < now + p.leaseTtl && envs(j).reserveAt < now + p.leaseTtl
    requires Holds(w.batches, l, |items|, now + p.leaseTtl)
    requires Receipted(w.items, l.batch, items, l.receipts, k, now + p.leaseTtl)
    ensures var a := ProvePrefix(w, l, items, k, proven, envs, p, cap);
            && a.Done? && a.world.effects == w.effects && |a.value.1| == |proven| + |items| - k
            && SameProgress(l, a.value.0) && Holds(a.world.batches, a.value.0, |items|, now + p.leaseTtl)
    decreases l.nextIndex - k
  {
    if k < l.nextIndex {
      assert now <= envs(k).renewAt < now + p.leaseTtl && envs(k).reserveAt < now + p.leaseTtl;
      HeldRenews(w, l, |items|, now + p.leaseTtl, Some(items[k].id), envs(k).renewAt, p);
      var r := RenewBatch(w, l, Some(items[k].id), envs(k).renewAt, p);
      ReceiptedReplays(r.world, l.batch, items, l.receipts, k, envs(k).reserveAt, now + p.leaseTtl, p, cap);
      var w2 := ReserveItem(r.world, l.batch, items[k], envs(k).reserveAt, p, cap).0;
      ProvePrefixStep(w, l, items, k, proven, envs, p, cap);
      ProvePrefixSucceeds(w2, r.value, items, k + 1, proven + [l.receipts[k].(replayed := true)], envs, now, p, cap);
    }
  }

  /** A batch whose items are all committed but whose completion was not confirmed: once its lease ran
    * out, a retry within the retention of the item receipts completes it and repeats no effect. */
  lemma RetryCompletesEnvelope(w: World, births: map<BatchId, Birth>, r: Request, env: ExecEnv, cap: Capacities)
    requires WorldGood(w, births) && r.batch in w.batches.entries && r.policy.leaseTtl > 0
    requires var e := w.batches.entries[r.batch];
             && e.fingerprint == Print(PerItemPolicy, r.items) && B.ExecutingState(e.state)
             && e.nextIndex == |r.items| == |e.receipts| && e.leaseExpiresAt <= env.beginAt
             && Receipted(w.items, r.batch, r.items, e.receipts, 0, env.beginAt + r.policy.leaseTtl)
    requires forall j: nat ::
               && env.beginAt <= env.prefix(j).renewAt < env.beginAt + r.policy.leaseTtl
               && env.prefix(j).reserveAt < env.beginAt + r.policy.leaseTtl
    requires env.beginAt <= env.finishRenewAt < env.beginAt + r.policy.leaseTtl
    requires env.finishAt < env.beginAt + r.policy.leaseTtl
    ensures var (w', result) := PerItem(w, r, env, cap);
            && result.Committed? && |result.receipts| == |r.items|
            && w'.effects == w.effects
            && r.batch in w'.batches.entries && w'.batches.entries[r.batch].state.Completed?
  {
    hide WorldGood, BeginBatch, Prove, ProvePrefix, Finish, PerItem, Receipted, Holds;
    GoodIsLinked(w, births);
    TakeoverHolds(w, births, r, env.beginAt, cap);
    var (w1, begun) := BeginBatch(w, r, PerItemPolicy, env.beginAt, cap);
    ProvePrefixSucceeds(w1, begun.lease, r.items, 0, [], env.prefix, env.beginAt, r.policy, cap);
    ProveResumed(w1, begun.lease, r.items, env.prefix, r.policy, cap);
    var a := Prove(w1, begun.lease, r.items, env.prefix, r.policy, cap);
    FinishSucceeds(a.world, a.value.0, env.finishRenewAt, env.finishAt, r.policy, env.beginAt);
    PerItemWithNothingLeft(w, r, env, cap, w1, begun.lease, a);
  }

  lemma GoodIsLinked(w: World, births: map<BatchId, Birth>)
    requires WorldGood(w, births)
    ensures B.Linked(w.batches)
  {
  }

  lemma ProveResumed(w: World, l: Lease, items: seq<Item>, prefix: nat -> PrefixEnv, p: Policy, cap: Capacities)
    requires l.resumed && l.nextIndex == |l.receipts| <= |items|
    ensures Prove(w, l, items, prefix, p, cap) == ProvePrefix(w, l, items, 0, [], prefix, p, cap)
  {
  }

  lemma PerItemWithNothingLeft(w: World, r: Request, env: ExecEnv, cap: Capacities, w1: World, l: Lease,
                               a: Attempt<(Lease, seq<Receipt>)>)
    requires B.Linked(w.batches)
    requires BeginBatch(w, r, PerItemPolicy, env.beginAt, cap) == (w1, B.Leased(l))
    requires l.nextIndex == |l.receipts| == |r.items|
    requires a.Done? && a == Prove(w1, l, r.items, env.prefix, r.policy, cap)
    ensures var (w2, finished) := Finish(a.world, a.value.0, env.finishRenewAt, env.finishAt, r.policy);
            PerItem(w, r, env, cap) ==
            (w2, if finished then Committed(a.value.1) else EnvelopeUnconfirmed(a.value.1))
  {
  }

  lemma TakeoverHolds(w: World, births: map<BatchId, Birth>, r: Request, now: int, cap: Capacities)
    requires WorldGood(w, births) && r.batch in w.batches.entries
    requires var e := w.batches.entries[r.batch];
             e.fingerprint == Print(PerItemPolicy, r.items) && B.ExecutingState(e.state) && e.leaseExpiresAt <= now
    ensures var (w1, begun) := BeginBatch(w, r, PerItemPolicy, now, cap);
            && begun.Leased? && begun.lease.resumed && begun.lease.batch == r.batch
            && begun.lease.receipts == w.batches.entries[r.batch].receipts
            && begun.lease.nextIndex == w.batches.entries[r.batch].nextIndex
            && Holds(w1.batches, begun.lease, |r.items|, now + r.policy.leaseTtl)
            && w1 == w.(batches := w1.batches)
  {
    assert EntryGood(r.batch, w.batches.entries[r.batch], w.effects, births[r.batch]);
  }

  lemma FinishSucceeds(w: World, l: Lease, renewAt: int, completeAt: int, p: Policy, now: int)
    requires Holds(w.batches, l, l.nextIndex, now + p.leaseTtl)
    requires now <= renewAt < now + p.leaseTtl && completeAt < now + p.leaseTtl
    ensures var (w', finished) := Finish(w, l, renewAt, completeAt, p);
            finished && w'.effects == w.effects
            && l.batch in w'.batches.entries && w'.batches.entries[l.batch].state.Completed?
  {
  }
}
