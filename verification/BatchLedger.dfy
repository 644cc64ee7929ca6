/** When the receipts in the item store end, over whole runs: exactly at the completion of their execution plus the time
  * that its request asked for, as a ledger of the run says it. */
module BatchLedger {
  import opened Prelude
  import opened BatchProtocol
  import opened BatchInvariant
  import opened BatchSteps
  import opened BatchRuns
  import opened BatchAtomicity
  import opened BatchTheorems
  import opened BatchRetention
  import B = BatchTable
  import I = IdempotencyTable

  // ---------------------------------------------------------------- the ledger

  /** The end of each item's receipt. */
  type Terms = map<I.Identity, int>

  /** What a committed all-or-nothing execution enters: each item that it executed. */
  function TermsOf(b: BatchId, items: seq<Item>, receipts: seq<Receipt>, envs: nat -> ItemEnv, resultTtl: int): Terms
    requires |receipts| <= |items|
  {
    if receipts == [] then map[]
    else
      var k := |receipts| - 1;
      var before := TermsOf(b, items, receipts[..k], envs, resultTtl);
      if receipts[k].replayed then before
      else before[ItemIdentity(b, items[k].id) := envs(k).completeAt + resultTtl]
  }

  /** What a step enters: the reading at which an execution was completed, plus the time its request asks for. */
  ghost function NewTerms(s: System, ev: Event, cap: Capacities): Terms {
    match ev
    case ItemTx(id, env) =>
      if id in s.workers && s.workers[id].Applying? && s.workers[id].lease.nextIndex < |s.workers[id].request.items| then
        var v := s.workers[id];
        var item := v.request.items[v.lease.nextIndex];
        var a := ApplyItem(s.world, v.lease, item, env, v.request.policy, cap);
        if a.Done? && !a.value.1.replayed
        then map[ItemIdentity(v.lease.batch, item.id) := env.completeAt + v.request.policy.resultTtl] else map[]
      else map[]
    case AllOrNothingTx(r, exec) =>
      if DistinctIds(r.items) && B.Linked(s.world.batches) then
        var result := AllOrNothing(s.world, r, exec, cap).1;
        if result.Committed? && |result.receipts| <= |r.items|
        then TermsOf(r.batch, r.items, result.receipts, exec.items, r.policy.resultTtl) else map[]
      else map[]
    case _ => map[]
  }

  ghost function RunTerms(s: System, events: seq<Event>, cap: Capacities, g: Terms): Terms
    decreases |events|
  {
    if events == [] then g
    else RunTerms(Step(s, events[0], cap), events[1..], cap, g + NewTerms(s, events[0], cap))
  }

  // ---------------------------------------------------------------- where entries come from

  /** Every entry holds a receipt: between transactions nothing is only reserved. */
  ghost predicate Settled(t: ItemTableT) {
    forall id :: id in t.entries ==> t.entries[id].phase.Completed?
  }

  /** Every entry is an old one, or a receipt that the ledger has just entered. */
  ghost predicate Sourced(t: ItemTableT, t': ItemTableT, entered: Terms) {
    forall id :: id in t'.entries ==>
      if id in entered then t'.entries[id].phase.Completed? && t'.entries[id].expiresAt == entered[id]
      else id in t.entries && t'.entries[id] == t.entries[id]
  }

  lemma RestoreSourced(w: World, w': World)
    ensures Sourced(w.items, Restore(w, w').items, map[])
  {
  }

  /** A reservation that replays adds no entry at all. */
  lemma ReplayAddsNothing(w: World, b: BatchId, item: Item, now: int, p: Policy, cap: Capacities)
    ensures var (w', d) := ReserveItem(w, b, item, now, p, cap);
            && (forall id :: id in w'.items.entries && (!d.Execute? || id != ItemIdentity(b, item.id)) ==>
                  id in w.items.entries && w'.items.entries[id] == w.items.entries[id])
            && (d.Replay? ==> Retains(w'.items, b, item, d.value))
  {
    ReserveItemFacts(w, b, item, now, p, cap);
  }

  lemma {:induction false} ProvePrefixSourced(
    w: World, l: Lease, items: seq<Item>, k: nat, proven: seq<Receipt>, envs: nat -> PrefixEnv, p: Policy,
    cap: Capacities)
    requires k <= l.nextIndex == |l.receipts| <= |items|
    ensures var a := ProvePrefix(w, l, items, k, proven, envs, p, cap);
            a.Done? ==> Sourced(w.items, a.world.items, map[])
    decreases l.nextIndex - k
  {
    hide RenewBatch, ReserveItem;
    if k < l.nextIndex {
      RenewBatchFacts(w, l, Some(items[k].id), envs(k).renewAt, p);
      var r := RenewBatch(w, l, Some(items[k].id), envs(k).renewAt, p);
      if r.Done? {
        ReplayAddsNothing(r.world, l.batch, items[k], envs(k).reserveAt, p, cap);
        var (w2, d) := ReserveItem(r.world, l.batch, items[k], envs(k).reserveAt, p, cap);
        if d == I.Replay(l.receipts[k]) {
          ProvePrefixSourced(w2, r.value, items, k + 1, proven + [l.receipts[k].(replayed := true)], envs, p, cap);
        }
      }
    }
  }

  /** The reservation of one item: nothing new but, if it is to be executed, its own entry. */
  lemma ReserveNextSourced(w: World, l: Lease, item: Item, env: ItemEnv, p: Policy, cap: Capacities)
    ensures var a := ReserveNext(w, l, item, env, p, cap);
            a.Done? ==>
              && (forall id :: id in a.world.items.entries
                               && (a.value.1.Replay? || id != ItemIdentity(l.batch, item.id)) ==>
                    id in w.items.entries && a.world.items.entries[id] == w.items.entries[id])
              && (a.value.1.Replay? ==> Retains(a.world.items, l.batch, item, a.value.1.value))
  {
    hide ReserveItem, RenewBatch;
    RenewBatchFacts(w, l, Some(item.id), env.renewAt, p);
    var r := RenewBatch(w, l, Some(item.id), env.renewAt, p);
    if r.Done? { ReplayAddsNothing(r.world, l.batch, item, env.reserveAt, p, cap); }
  }

  /** A whole item transaction enters its own receipt, or replays one that the store holds; either way the store then
    * holds the receipt of the item. */
  lemma ApplyItemSourced(w: World, births: map<BatchId, Birth>, l: Lease, item: Item, env: ItemEnv, p: Policy,
                         cap: Capacities)
    requires WorldGood(w, births)
    ensures var a := ApplyItem(w, l, item, env, p, cap);
            a.Done? ==>
              && Sourced(w.items, a.world.items,
                         if a.value.1.replayed then map[]
                         else map[ItemIdentity(l.batch, item.id) := env.completeAt + p.resultTtl])
              && Retains(a.world.items, l.batch, item, a.value.1.(replayed := false))
  {
    hide WorldGood, ReserveNext, ApplyReserved, Framed;
    ReserveNextGood(w, births, l, item, env, p, cap);
    ReserveNextSourced(w, l, item, env, p, cap);
    var r := ReserveNext(w, l, item, env, p, cap);
    if r.Done? {
      ApplyingSettles(r.world, r.value.0, item, r.value.1, env, p);
      var a := ApplyReserved(r.world, r.value.0, item, r.value.1, env, p);
      if a.Done? {
        var x := a.value.1;
        assert r.value.1.Execute? ==> !x.replayed by { ExecutedIsNotReplayed(r.world, r.value.0, item, r.value.1, env, p); }
      }
    }
  }

  lemma ExecutedIsNotReplayed(w: World, l: Lease, item: Item, d: Decision, env: ItemEnv, p: Policy)
    requires d.Execute? || d.Replay?
    ensures var a := ApplyReserved(w, l, item, d, env, p);
            a.Done? ==> a.value.1.replayed == d.Replay?
  {
    hide RenewBatch, ExecuteItem, AdvanceBatch;
    var r := RenewBatch(w, l, Some(item.id), env.renewAgainAt, p);
    if r.Done? {
      if d.Replay? {
        AdvanceFacts(r.world, r.value, item.id, d.value.(replayed := true), env.advanceAt, p);
      } else {
        ExecuteItemFacts(r.world, r.value.batch, item, d.token, env, p);
        var c := ExecuteItem(r.world, r.value.batch, item, d.token, env, p);
        if c.Done? { AdvanceFacts(c.world, r.value, item.id, c.value, env.advanceAt, p); }
      }
    }
  }

  // ---------------------------------------------------------------- all or nothing enters every item

  /** Only items that are still to be executed are reserved. */
  ghost predicate Pending(t: ItemTableT, b: BatchId, items: seq<Item>, ds: seq<Decision>, from: nat)
    requires |ds| <= |items|
  {
    forall id :: id in t.entries && !t.entries[id].phase.Completed? ==>
      exists j :: from <= j < |ds| && ds[j].Execute? && id == ItemIdentity(b, items[j].id)
  }

  lemma PendingExtends(w: World, w': World, b: BatchId, items: seq<Item>, ds: seq<Decision>, d: Decision)
    requires |ds| < |items| && Pending(w.items, b, items, ds, 0) && (d.Execute? || d.Replay?)
    requires forall id :: id in w'.items.entries && (d.Replay? || id != ItemIdentity(b, items[|ds|].id)) ==>
               id in w.items.entries && w'.items.entries[id] == w.items.entries[id]
    ensures Pending(w'.items, b, items, ds + [d], 0)
  {
    var more := ds + [d];
    forall id | id in w'.items.entries && !w'.items.entries[id].phase.Completed?
      ensures exists j :: 0 <= j < |more| && more[j].Execute? && id == ItemIdentity(b, items[j].id)
    {
      if d.Execute? && id == ItemIdentity(b, items[|ds|].id) {
        assert more[|ds|].Execute?;
      } else {
        var j :| 0 <= j < |ds| && ds[j].Execute? && id == ItemIdentity(b, items[j].id);
        assert more[j].Execute?;
      }
    }
  }

  lemma {:induction false} ReserveAllPending(
    w: World, l: Lease, items: seq<Item>, reserved: seq<Decision>, envs: nat -> ItemEnv, p: Policy, cap: Capacities)
    requires |reserved| <= |items| && forall d :: d in reserved ==> d.Execute? || d.Replay?
    requires Pending(w.items, l.batch, items, reserved, 0)
    ensures var a := ReserveAll(w, l, items, |reserved|, reserved, envs, p, cap);
            a.Done? ==> Pending(a.world.items, l.batch, items, a.value.1, 0)
    decreases |items| - |reserved|
  {
    hide ReserveNext, Pending;
    var k := |reserved|;
    if k < |items| {
      ReserveNextSourced(w, l, items[k], envs(k), p, cap);
      ReserveNextBatch(w, l, items[k], envs(k), p, cap);
      var r := ReserveNext(w, l, items[k], envs(k), p, cap);
      if r.Done? {
        PendingExtends(w, r.world, l.batch, items, reserved, r.value.1);
        ReserveAllPending(r.world, r.value.0, items, reserved + [r.value.1], envs, p, cap);
      }
    }
  }

  lemma ReserveNextBatch(w: World, l: Lease, item: Item, env: ItemEnv, p: Policy, cap: Capacities)
    ensures var a := ReserveNext(w, l, item, env, p, cap);
            a.Done? ==> a.value.0.batch == l.batch
  {
    hide ReserveItem;
    RenewBatchFacts(w, l, Some(item.id), env.renewAt, p);
  }

  lemma ApplyReservedBatch(w: World, l: Lease, item: Item, d: Decision, env: ItemEnv, p: Policy)
    requires d.Execute? || d.Replay?
    ensures var a := ApplyReserved(w, l, item, d, env, p);
            a.Done? ==> a.value.0.batch == l.batch
  {
    hide RenewBatch, ExecuteItem, AdvanceBatch;
    RenewBatchFacts(w, l, Some(item.id), env.renewAgainAt, p);
    var r := RenewBatch(w, l, Some(item.id), env.renewAgainAt, p);
    if r.Done? {
      if d.Replay? {
        AdvanceFacts(r.world, r.value, item.id, d.value.(replayed := true), env.advanceAt, p);
      } else {
        var c := ExecuteItem(r.world, r.value.batch, item, d.token, env, p);
        if c.Done? { AdvanceFacts(c.world, r.value, item.id, c.value, env.advanceAt, p); }
      }
    }
  }

  lemma PendingShrinks(w: World, w': World, b: BatchId, items: seq<Item>, ds: seq<Decision>, k: nat, receipt: Receipt,
                       until: int)
    requires k < |ds| <= |items| && Pending(w.items, b, items, ds, k)
    requires Settles(w, w', b, items[k], ds[k], receipt, until) && receipt.replayed == ds[k].Replay?
    requires ds[k].Execute? || ds[k].Replay?
    ensures Pending(w'.items, b, items, ds, k + 1)
  {
    forall id | id in w'.items.entries && !w'.items.entries[id].phase.Completed?
      ensures exists j :: k + 1 <= j < |ds| && ds[j].Execute? && id == ItemIdentity(b, items[j].id)
    {
      assert id in w.items.entries && w.items.entries[id] == w'.items.entries[id];
      var j :| k <= j < |ds| && ds[j].Execute? && id == ItemIdentity(b, items[j].id);
      assert j != k;
    }
  }

  lemma {:induction false} ApplyAllSettles(
    w: World, l: Lease, items: seq<Item>, ds: seq<Decision>, k: nat, receipts: seq<Receipt>, envs: nat -> ItemEnv,
    p: Policy)
    requires k <= |ds| == |items| && DecisionsGood(w, l.batch, items, 0, ds) && Pending(w.items, l.batch, items, ds, k)
    ensures var a := ApplyAll(w, l, items, 0, ds, k, receipts, envs, p);
            a.Done? ==> Settled(a.world.items)
    decreases |ds| - k
  {
    hide ApplyReserved, DecisionGood, BatchAtomicity.Settles;
    if k < |ds| {
      assert DecisionGood(w, l.batch, items[0 + k], ds[k]);
      ApplyingSettles(w, l, items[k], ds[k], envs(0 + k), p);
      ExecutedIsNotReplayed(w, l, items[k], ds[k], envs(0 + k), p);
      ApplyReservedBatch(w, l, items[k], ds[k], envs(0 + k), p);
      var r := ApplyReserved(w, l, items[0 + k], ds[k], envs(0 + k), p);
      if r.Done? {
        PendingShrinks(w, r.world, l.batch, items, ds, k, r.value.1, envs(k).completeAt + p.resultTtl);
        forall j | 0 <= j < |ds| ensures DecisionGood(r.world, l.batch, items[0 + j], ds[j]) {
          ApplyReservedKeepsDecision(w, l, items[k], ds[k], envs(0 + k), p, items[0 + j], ds[j]);
        }
        ApplyAllSettles(r.world, r.value.0, items, ds, k + 1, receipts + [r.value.1], envs, p);
      }
    }
  }

  lemma ExecuteAllSettles(w: World, births: map<BatchId, Birth>, l: Lease, items: seq<Item>, env: ExecEnv, p: Policy,
                          cap: Capacities)
    requires WorldGood(w, births) && Settled(w.items) && !l.resumed && l.nextIndex == 0 && l.receipts == []
    ensures var a := ExecuteAll(w, l, items, env.prefix, env.items, env.finishRenewAt, env.finishAt, p, cap);
            a.Done? ==> Settled(a.world.items)
  {
    hide WorldGood, ReserveAll, ApplyAll, Finish, Settled, Framed, SameProgress, DecisionGood;
    NothingPending(w.items, l.batch, items);
    ReserveAllPending(w, l, items, [], env.items, p, cap);
    ReserveAllGood(w, births, l, items, 0, [], env.items, p, cap);
    var reserved := ReserveAll(w, l, items, 0, [], env.items, p, cap);
    if reserved.Done? {
      SameBatch(l, reserved.value.0);
      ApplyAllSettles(reserved.world, reserved.value.0, items, reserved.value.1, 0, [], env.items, p);
      var applied := ApplyAll(reserved.world, reserved.value.0, items, 0, reserved.value.1, 0, [], env.items, p);
      if applied.Done? {
        FinishKeepsReceipts(applied.world, applied.value.0, env.finishRenewAt, env.finishAt, p);
      }
    }
  }

  lemma SameBatch(l: Lease, l': Lease)
    requires SameProgress(l, l')
    ensures l'.batch == l.batch
  {
  }

  lemma NothingPending(t: ItemTableT, b: BatchId, items: seq<Item>)
    requires Settled(t)
    ensures Pending(t, b, items, [], 0)
  {
  }

  /** The ledger's terms are those of the items that were executed. */
  ghost predicate TermsFor(g: Terms, b: BatchId, items: seq<Item>, receipts: seq<Receipt>, envs: nat -> ItemEnv,
                           resultTtl: int)
  {
    && |receipts| <= |items|
    && (forall k :: 0 <= k < |receipts| && !receipts[k].replayed ==>
          ItemIdentity(b, items[k].id) in g && g[ItemIdentity(b, items[k].id)] == envs(k).completeAt + resultTtl)
    && (forall id :: id in g ==>
          exists k :: 0 <= k < |receipts| && !receipts[k].replayed && id == ItemIdentity(b, items[k].id))
  }

  lemma TermsNext(before: Terms, g: Terms, b: BatchId, items: seq<Item>, receipts: seq<Receipt>, envs: nat -> ItemEnv,
                  resultTtl: int)
    requires DistinctIds(items) && 0 < |receipts| <= |items|
    requires var n := |receipts| - 1;
             && TermsFor(before, b, items, receipts[..n], envs, resultTtl)
             && g == if receipts[n].replayed then before
                     else before[ItemIdentity(b, items[n].id) := envs(n).completeAt + resultTtl]
    ensures TermsFor(g, b, items, receipts, envs, resultTtl)
  {
    var n := |receipts| - 1;
    var init := receipts[..n];
    forall k | 0 <= k < n ensures init[k] == receipts[k] && ItemIdentity(b, items[k].id) != ItemIdentity(b, items[n].id) {}
    forall id | id in g
      ensures exists k :: 0 <= k < |receipts| && !receipts[k].replayed && id == ItemIdentity(b, items[k].id)
    {
      if id in before {
        var k :| 0 <= k < n && !init[k].replayed && id == ItemIdentity(b, items[k].id);
        assert !receipts[k].replayed;
      } else {
        assert !receipts[n].replayed;
      }
    }
  }

  lemma NoTerms(b: BatchId, items: seq<Item>, envs: nat -> ItemEnv, resultTtl: int)
    ensures TermsFor(map[], b, items, [], envs, resultTtl)
  {
  }

  lemma {:induction false} TermsAre(b: BatchId, items: seq<Item>, receipts: seq<Receipt>, envs: nat -> ItemEnv,
                                    resultTtl: int)
    requires DistinctIds(items) && |receipts| <= |items|
    ensures TermsFor(TermsOf(b, items, receipts, envs, resultTtl), b, items, receipts, envs, resultTtl)
    decreases |receipts|
  {
    hide DistinctIds, TermsFor, ItemIdentity;
    if receipts == [] {
      NoTerms(b, items, envs, resultTtl);
    } else {
      var n := |receipts| - 1;
      TermsAre(b, items, receipts[..n], envs, resultTtl);
      TermsNext(TermsOf(b, items, receipts[..n], envs, resultTtl), TermsOf(b, items, receipts, envs, resultTtl), b, items,
                receipts, envs, resultTtl);
    }
  }

  lemma CommitSourced(t: ItemTableT, effects: seq<Effect>, w: World, b: BatchId, items: seq<Item>,
                      receipts: seq<Receipt>, envs: nat -> ItemEnv, resultTtl: int)
    requires DistinctIds(items) && |receipts| <= |items|
    requires Accounted(t, effects, w, b, items, receipts, envs, resultTtl) && Settled(w.items)
    ensures Sourced(t, w.items, TermsOf(b, items, receipts, envs, resultTtl))
  {
    hide TermsOf, Performed, ItemIdentity, DistinctIds, TermsFor, Accounted;
    TermsAre(b, items, receipts, envs, resultTtl);
    AccountedTerms(t, effects, w, b, items, receipts, envs, resultTtl, TermsOf(b, items, receipts, envs, resultTtl));
  }

  lemma AccountedTerms(t: ItemTableT, effects: seq<Effect>, w: World, b: BatchId, items: seq<Item>,
                       receipts: seq<Receipt>, envs: nat -> ItemEnv, resultTtl: int, g: Terms)
    requires Accounted(t, effects, w, b, items, receipts, envs, resultTtl) && Settled(w.items)
    requires TermsFor(g, b, items, receipts, envs, resultTtl)
    ensures Sourced(t, w.items, g)
  {
    hide Accounted, ItemIdentity;
    forall id | id in w.items.entries && id in g
      ensures w.items.entries[id].phase.Completed? && w.items.entries[id].expiresAt == g[id]
    {
      var k :| 0 <= k < |receipts| && !receipts[k].replayed && id == ItemIdentity(b, items[k].id);
      AccountedAt(t, effects, w, b, items, receipts, envs, resultTtl, k);
    }
    AccountedNoOthers(t, effects, w, b, items, receipts, envs, resultTtl);
    forall id | id in w.items.entries && id !in g
      ensures id in t.entries && w.items.entries[id] == t.entries[id]
    {
    }
  }

  lemma AccountedAt(t: ItemTableT, effects: seq<Effect>, w: World, b: BatchId, items: seq<Item>, receipts: seq<Receipt>,
                    envs: nat -> ItemEnv, resultTtl: int, k: nat)
    requires Accounted(t, effects, w, b, items, receipts, envs, resultTtl) && k < |receipts| && !receipts[k].replayed
    ensures k < |items| && RetainsUntil(w.items, b, items[k], receipts[k], envs(k).completeAt + resultTtl)
  {
    hide Performed, Retains, NoOtherReceipts;
  }

  lemma AccountedNoOthers(t: ItemTableT, effects: seq<Effect>, w: World, b: BatchId, items: seq<Item>,
                          receipts: seq<Receipt>, envs: nat -> ItemEnv, resultTtl: int)
    requires Accounted(t, effects, w, b, items, receipts, envs, resultTtl)
    ensures |receipts| <= |items| && NoOtherReceipts(t, w.items, b, items, receipts)
  {
    hide Performed, Retains, NoOtherReceipts;
  }

  lemma AllOrNothingSourced(w: World, births: map<BatchId, Birth>, r: Request, exec: ExecEnv, cap: Capacities)
    requires WorldGood(w, births) && NoneHalfWay(w) && DistinctIds(r.items) && Settled(w.items)
    ensures var (w', result) := AllOrNothing(w, r, exec, cap);
            && (result.Committed? ==>
                  && |result.receipts| == |r.items|
                  && Sourced(w.items, w'.items, TermsOf(r.batch, r.items, result.receipts, exec.items, r.policy.resultTtl)))
            && (!result.Committed? ==> Sourced(w.items, w'.items, map[]))
  {
    hide AllOrNothing, WorldGood, NoneHalfWay, DistinctIds, Settled, Sourced, Accounted, TermsOf, B.PurgeTerminal;
    GoodIsLinked(w, births);
    CommitAccounts(w, births, r, exec, cap);
    CommitSettles(w, births, r, exec, cap);
    OtherwiseNothing(w, r, exec, cap);
    var (w', result) := AllOrNothing(w, r, exec, cap);
    if result.Committed? {
      CommitSourced(w.items, w.effects, w', r.batch, r.items, result.receipts, exec.items, r.policy.resultTtl);
    } else {
      SameSourced(w.items, w'.items);
    }
  }

  lemma SameSourced(t: ItemTableT, t': ItemTableT)
    requires t'.entries == t.entries
    ensures Sourced(t, t', map[])
  {
  }

  lemma CommitSettles(w: World, births: map<BatchId, Birth>, r: Request, exec: ExecEnv, cap: Capacities)
    requires WorldGood(w, births) && NoneHalfWay(w) && DistinctIds(r.items) && Settled(w.items)
    ensures var (w', result) := AllOrNothing(w, r, exec, cap);
            result.Committed? ==> Settled(w'.items)
  {
    hide WorldGood, ExecuteAll, BeginBatch, Settled, LeaseGood, DistinctIds, Evolves;
    GoodIsLinked(w, births);
    BeginGood(w, births, r, AllOrNothingPolicy, exec.beginAt, cap);
    BeginFacts(w, births, r, AllOrNothingPolicy, exec.beginAt, cap);
    LeaseIsNew(w, r, exec.beginAt, cap);
    var (w1, begun) := BeginBatch(w, r, AllOrNothingPolicy, exec.beginAt, cap);
    if begun.Leased? {
      ExecuteAllSettles(w1, Born(births, begun, r.batch, |w.effects|), begun.lease, r.items, exec, r.policy, cap);
    }
  }

  // ---------------------------------------------------------------- every step keeps the ledger

  lemma StepSourced(s: System, ev: Event, cap: Capacities)
    requires SystemGood(s) && Settled(s.world.items)
    ensures Sourced(s.world.items, Step(s, ev, cap).world.items, NewTerms(s, ev, cap))
  {
    hide WorldGood, NoneHalfWay, WorkerGood, ProvePrefix, ApplyItem, Finish, AllOrNothing, B.Begin, Settled, TermsOf,
         DistinctIds;
    GoodIsLinked(s.world, s.births);
    match ev
    case Start(id, r, now) =>
    case ProveTx(id, prefix) =>
      if id in s.workers && s.workers[id].Proving? { ProveStepSourced(s, id, prefix, cap); }
    case ItemTx(id, env) => if id in s.workers && s.workers[id].Applying? { ItemStepSourced(s, id, env, cap); }
    case FinishTx(id, renewAt, completeAt) =>
      if id in s.workers && s.workers[id].Applying? {
        FinishLeavesItems(s.world, s.workers[id].lease, renewAt, completeAt, s.workers[id].request.policy);
      }
    case Crash(_) =>
    case AllOrNothingTx(r, exec) =>
      if DistinctIds(r.items) { AllOrNothingSourced(s.world, s.births, r, exec, cap); }
    case PurgeBatches(_, _, _) =>
    case PurgeItems(_, _, _) =>
  }

  lemma ProveStepSourced(s: System, id: nat, prefix: nat -> PrefixEnv, cap: Capacities)
    requires id in s.workers && s.workers[id].Proving?
    ensures Sourced(s.world.items, ProveStep(s, id, prefix, cap).world.items, map[])
  {
    hide ProvePrefix;
    var v := s.workers[id];
    if v.lease.nextIndex == |v.lease.receipts| <= |v.request.items| {
      if v.lease.resumed { ProvePrefixSourced(s.world, v.lease, v.request.items, 0, [], prefix, v.request.policy, cap); }
      RestoreSourced(s.world, Prove(s.world, v.lease, v.request.items, prefix, v.request.policy, cap).world);
    }
  }

  lemma ItemStepSourced(s: System, id: nat, env: ItemEnv, cap: Capacities)
    requires SystemGood(s) && id in s.workers && s.workers[id].Applying?
    ensures Sourced(s.world.items, ItemStep(s, id, env, cap).world.items, NewTerms(s, ItemTx(id, env), cap))
  {
    hide WorldGood, NoneHalfWay, WorkerGood, ApplyItem, Retains;
    var v := s.workers[id];
    if v.lease.nextIndex < |v.request.items| {
      var item := v.request.items[v.lease.nextIndex];
      ApplyItemSourced(s.world, s.births, v.lease, item, env, v.request.policy, cap);
      RestoreSourced(s.world, ApplyItem(s.world, v.lease, item, env, v.request.policy, cap).world);
    }
  }

  /** The item store holds receipts only, and each ends when the ledger says. */
  ghost predicate Recorded(t: ItemTableT, g: Terms) {
    forall id :: id in t.entries ==> t.entries[id].phase.Completed? && id in g && t.entries[id].expiresAt == g[id]
  }

  lemma RecordedIsSettled(t: ItemTableT, g: Terms)
    requires Recorded(t, g)
    ensures Settled(t)
  {
  }

  lemma RecordedNext(t: ItemTableT, t': ItemTableT, g: Terms, entered: Terms)
    requires Recorded(t, g) && Sourced(t, t', entered)
    ensures Recorded(t', g + entered)
  {
  }

  // ---------------------------------------------------------------- every receipt of a batch is held

  /** The item store holds every receipt of the batch. */
  ghost predicate Backing(w: World, b: BatchId) {
    b in w.batches.entries ==>
      var e := w.batches.entries[b];
      && |e.receipts| <= |e.fingerprint.items|
      && forall k :: 0 <= k < |e.receipts| ==> Retains(w.items, b, e.fingerprint.items[k], e.receipts[k])
  }

  /** The step reads no clock at or after the end of a receipt of the batch, where that matters. */
  ghost predicate InTime(s: System, ev: Event, g: Terms, b: BatchId) {
    forall id :: id in g && OfBatch(id, b) ==> ReadsBefore(s, ev, g[id])
  }

  /** The entry of the batch is gone, has no receipts, or has the receipts that it had. */
  ghost predicate SameReceipts(w: World, w': World, b: BatchId) {
    b in w'.batches.entries ==>
      || w'.batches.entries[b].receipts == []
      || (b in w.batches.entries && w'.batches.entries[b].receipts == w.batches.entries[b].receipts
          && w'.batches.entries[b].fingerprint == w.batches.entries[b].fingerprint)
  }

  lemma ReceiptStays(s: System, ev: Event, cap: Capacities, g: Terms, b: BatchId, item: Item, receipt: Receipt)
    requires SystemGood(s) && Recorded(s.world.items, g) && InTime(s, ev, g, b)
    requires Retains(s.world.items, b, item, receipt)
    ensures Retains(Step(s, ev, cap).world.items, b, item, receipt)
  {
    hide WorldGood, NoneHalfWay, WorkerGood, Step, ReadsBefore;
    GoodIsLinked(s.world, s.births);
    StepKeeps(s, ev, cap, g[ItemIdentity(b, item.id)]);
  }

  lemma SameStaysBacked(s: System, ev: Event, cap: Capacities, g: Terms, b: BatchId)
    requires SystemGood(s) && Recorded(s.world.items, g) && InTime(s, ev, g, b) && Backing(s.world, b)
    requires SameReceipts(s.world, Step(s, ev, cap).world, b)
    ensures Backing(Step(s, ev, cap).world, b)
  {
    hide SystemGood, Recorded, InTime, Retains, Step;
    var w' := Step(s, ev, cap).world;
    if b in w'.batches.entries && w'.batches.entries[b].receipts != [] {
      var e := s.world.batches.entries[b];
      forall k | 0 <= k < |e.receipts| ensures Retains(w'.items, b, e.fingerprint.items[k], e.receipts[k]) {
        ReceiptStays(s, ev, cap, g, b, e.fingerprint.items[k], e.receipts[k]);
      }
    }
  }

  lemma FramedSame(w: World, w': World, other: BatchId, b: BatchId)
    requires Framed(w, w', other) && b != other
    ensures SameReceipts(w, w', b)
  {
  }

  lemma RestoreSame(w: World, w': World, b: BatchId)
    ensures SameReceipts(w, Restore(w, w'), b)
  {
  }

  lemma BeginSame(w: World, r: Request, policy: BatchPolicy, now: int, cap: Capacities, b: BatchId)
    ensures SameReceipts(w, BeginBatch(w, r, policy, now, cap).0, b)
  {
  }

  /** Proving renews the lease of its batch and leaves the receipts of every batch alone. */
  lemma {:induction false} ProvePrefixSame(
    w: World, l: Lease, items: seq<Item>, k: nat, proven: seq<Receipt>, envs: nat -> PrefixEnv, p: Policy,
    cap: Capacities, b: BatchId)
    requires k <= l.nextIndex == |l.receipts| <= |items|
    ensures var a := ProvePrefix(w, l, items, k, proven, envs, p, cap);
            a.Done? ==> b in a.world.batches.entries ==>
              && b in w.batches.entries && a.world.batches.entries[b].receipts == w.batches.entries[b].receipts
              && a.world.batches.entries[b].fingerprint == w.batches.entries[b].fingerprint
    decreases l.nextIndex - k
  {
    hide RenewBatch, ReserveItem;
    if k < l.nextIndex {
      RenewBatchFacts(w, l, Some(items[k].id), envs(k).renewAt, p);
      var r := RenewBatch(w, l, Some(items[k].id), envs(k).renewAt, p);
      if r.Done? {
        ReserveItemFacts(r.world, l.batch, items[k], envs(k).reserveAt, p, cap);
        var (w2, d) := ReserveItem(r.world, l.batch, items[k], envs(k).reserveAt, p, cap);
        if d == I.Replay(l.receipts[k]) {
          ProvePrefixSame(w2, r.value, items, k + 1, proven + [l.receipts[k].(replayed := true)], envs, p, cap, b);
        }
      }
    }
  }

  lemma ProveStepSame(s: System, id: nat, prefix: nat -> PrefixEnv, cap: Capacities, b: BatchId)
    requires id in s.workers && s.workers[id].Proving?
    ensures SameReceipts(s.world, ProveStep(s, id, prefix, cap).world, b)
  {
    hide ProvePrefix;
    var v := s.workers[id];
    if v.lease.nextIndex == |v.lease.receipts| <= |v.request.items| {
      if v.lease.resumed { ProvePrefixSame(s.world, v.lease, v.request.items, 0, [], prefix, v.request.policy, cap, b); }
      RestoreSame(s.world, Prove(s.world, v.lease, v.request.items, prefix, v.request.policy, cap).world, b);
    }
  }

  lemma FinishSame(w: World, l: Lease, renewAt: int, completeAt: int, p: Policy, b: BatchId)
    ensures SameReceipts(w, Finish(w, l, renewAt, completeAt, p).0, b)
  {
  }

  /** A committed item transaction adds the receipt of the next item to its batch. */
  lemma ApplyItemGrows(w: World, births: map<BatchId, Birth>, l: Lease, items: seq<Item>, env: ItemEnv, p: Policy,
                       cap: Capacities, receipts: seq<Receipt>)
    requires WorldGood(w, births) && LeaseGood(w, l, Print(PerItemPolicy, items))
    requires l.nextIndex == |receipts| < |items| && ReceiptsGood(w.effects, l.batch, items, receipts)
    ensures var a := ApplyItem(w, l, items[l.nextIndex], env, p, cap);
            a.Done? ==>
              && Framed(w, a.world, l.batch) && l.batch in w.batches.entries
              && var e, e' := w.batches.entries[l.batch], a.world.batches.entries[l.batch];
                 && e.fingerprint == Print(PerItemPolicy, items) == e'.fingerprint && |e.receipts| == l.nextIndex
                 && e'.receipts == e.receipts + [a.value.1.(replayed := false)]
  {
    hide WorldGood, ApplyItem, ReceiptsGood;
    ApplyItemGood(w, births, l, items, env, p, cap, receipts);
    ApplyItemEntry(w, l, items[l.nextIndex], env, p, cap);
  }

  lemma ApplyItemEntry(w: World, l: Lease, item: Item, env: ItemEnv, p: Policy, cap: Capacities)
    ensures var a := ApplyItem(w, l, item, env, p, cap);
            a.Done? ==>
              && l.batch in w.batches.entries && w.batches.entries[l.batch].token == l.token
              && w.batches.entries[l.batch].receipts == l.receipts
              && l.batch in a.world.batches.entries
              && a.world.batches.entries[l.batch].receipts == l.receipts + [a.value.1.(replayed := false)]
  {
    hide RenewBatch, ExecuteItem, AdvanceBatch, ReserveItem;
    RenewBatchFacts(w, l, Some(item.id), env.renewAt, p);
    var r0 := RenewBatch(w, l, Some(item.id), env.renewAt, p);
    if r0.Done? {
      ReserveItemFacts(r0.world, l.batch, item, env.reserveAt, p, cap);
      var r := ReserveNext(w, l, item, env, p, cap);
      if r.Done? { ApplyReservedEntry(r.world, r.value.0, item, r.value.1, env, p); }
    }
  }

  lemma ApplyReservedEntry(w: World, l: Lease, item: Item, d: Decision, env: ItemEnv, p: Policy)
    requires d.Execute? || d.Replay?
    ensures var a := ApplyReserved(w, l, item, d, env, p);
            a.Done? ==>
              && l.batch in a.world.batches.entries
              && a.world.batches.entries[l.batch].receipts == l.receipts + [a.value.1.(replayed := false)]
  {
    hide RenewBatch, ExecuteItem, AdvanceBatch;
    RenewBatchFacts(w, l, Some(item.id), env.renewAgainAt, p);
    var r := RenewBatch(w, l, Some(item.id), env.renewAgainAt, p);
    if r.Done? {
      if d.Replay? {
        AdvanceFacts(r.world, r.value, item.id, d.value.(replayed := true), env.advanceAt, p);
      } else {
        ExecuteItemFacts(r.world, r.value.batch, item, d.token, env, p);
        var c := ExecuteItem(r.world, r.value.batch, item, d.token, env, p);
        if c.Done? { AdvanceFacts(c.world, r.value, item.id, c.value, env.advanceAt, p); }
      }
    }
  }

  lemma ItemStepBacks(s: System, id: nat, env: ItemEnv, cap: Capacities, g: Terms, b: BatchId)
    requires SystemGood(s) && Recorded(s.world.items, g) && InTime(s, ItemTx(id, env), g, b) && Backing(s.world, b)
    requires id in s.workers && s.workers[id].Applying?
    ensures Backing(ItemStep(s, id, env, cap).world, b)
  {
    hide WorldGood, NoneHalfWay, Recorded, InTime, ApplyItem, Framed, Retains, EntryGood, ReceiptsGood, Sourced;
    var v := s.workers[id];
    assert WorkerGood(s.world, v);
    assert Step(s, ItemTx(id, env), cap) == ItemStep(s, id, env, cap);
    if v.lease.nextIndex < |v.request.items| {
      var item := v.request.items[v.lease.nextIndex];
      var a := ApplyItem(s.world, v.lease, item, env, v.request.policy, cap);
      RestoreSame(s.world, a.world, b);
      ApplyItemGrows(s.world, s.births, v.lease, v.request.items, env, v.request.policy, cap, v.receipts);
      ApplyItemSourced(s.world, s.births, v.lease, item, env, v.request.policy, cap);
      if a.Raised? {
        SameStaysBacked(s, ItemTx(id, env), cap, g, b);
      } else if v.lease.batch != b {
        FramedSame(s.world, a.world, v.lease.batch, b);
        SameStaysBacked(s, ItemTx(id, env), cap, g, b);
      } else {
        var e := s.world.batches.entries[b];
        forall k | 0 <= k < |e.receipts| ensures Retains(a.world.items, b, e.fingerprint.items[k], e.receipts[k]) {
          ReceiptStays(s, ItemTx(id, env), cap, g, b, e.fingerprint.items[k], e.receipts[k]);
        }
      }
    }
  }

  lemma AllOrNothingOthers(s: System, r: Request, exec: ExecEnv, cap: Capacities, b: BatchId)
    requires SystemGood(s) && DistinctIds(r.items) && r.batch != b
    ensures SameReceipts(s.world, AllOrNothing(s.world, r, exec, cap).0, b)
  {
    hide WorldGood, ExecuteAll, BeginBatch, Framed, LeaseGood, WorkerGood, EntryGood;
    var w, births := s.world, s.births;
    GoodIsLinked(w, births);
    BeginGood(w, births, r, AllOrNothingPolicy, exec.beginAt, cap);
    BeginFacts(w, births, r, AllOrNothingPolicy, exec.beginAt, cap);
    BeginOthers(w, r, AllOrNothingPolicy, exec.beginAt, cap);
    BeginSame(w, r, AllOrNothingPolicy, exec.beginAt, cap, b);
    var (w1, begun) := BeginBatch(w, r, AllOrNothingPolicy, exec.beginAt, cap);
    RestoreSame(w, w1, b);
    if begun.Leased? {
      var l := begun.lease;
      LeaseFitsItems(w, r, AllOrNothingPolicy, exec.beginAt, cap);
      ExecuteAllGood(w1, Born(births, begun, r.batch, |w.effects|), l, r.items, exec, r.policy, cap);
      var a := ExecuteAll(w1, l, r.items, exec.prefix, exec.items, exec.finishRenewAt, exec.finishAt, r.policy, cap);
      RestoreSame(w, a.world, b);
      if a.Done? { FramedSame(w1, a.world, l.batch, b); }
    }
  }

  lemma AllOrNothingBacks(s: System, r: Request, exec: ExecEnv, cap: Capacities, g: Terms, b: BatchId)
    requires SystemGood(s) && Recorded(s.world.items, g) && InTime(s, AllOrNothingTx(r, exec), g, b)
    requires Backing(s.world, b) && DistinctIds(r.items)
    ensures Backing(AllOrNothing(s.world, r, exec, cap).0, b)
  {
    hide WorldGood, NoneHalfWay, WorkerGood, AllOrNothing, Recorded, InTime, Retains, Evolves, ReceiptsGood, Performed,
         NoOtherReceipts, Born, B.PurgeTerminal, BeginBatch;
    var ev := AllOrNothingTx(r, exec);
    GoodIsLinked(s.world, s.births);
    var (w', result) := AllOrNothing(s.world, r, exec, cap);
    assert Step(s, ev, cap).world == w';
    if r.batch != b {
      AllOrNothingOthers(s, r, exec, cap, b);
      SameStaysBacked(s, ev, cap, g, b);
    } else if !result.Committed? {
      OtherwiseNothing(s.world, r, exec, cap);
      OtherwiseSame(s.world, r, exec, cap, b);
      SameStaysBacked(s, ev, cap, g, b);
    } else {
      AllOrNothingGood(s.world, s.births, r, exec, cap);
      CommitAccounts(s.world, s.births, r, exec, cap);
      var receipts := result.receipts;
      forall k | 0 <= k < |receipts| ensures Retains(w'.items, b, r.items[k], receipts[k].(replayed := false)) {
        if receipts[k].replayed {
          ReceiptStays(s, ev, cap, g, b, r.items[k], receipts[k].(replayed := false));
        } else {
          assert RetainsUntil(w'.items, b, r.items[k], receipts[k], exec.items(k).completeAt + r.policy.resultTtl);
          assert receipts[k].(replayed := false) == receipts[k];
        }
      }
    }
  }

  lemma OtherwiseSame(w: World, r: Request, exec: ExecEnv, cap: Capacities, b: BatchId)
    requires B.Linked(w.batches) && !AllOrNothing(w, r, exec, cap).1.Committed?
    ensures SameReceipts(w, AllOrNothing(w, r, exec, cap).0, b)
  {
    hide AllOrNothing;
    OtherwiseNothing(w, r, exec, cap);
  }

  lemma StepBacks(s: System, ev: Event, cap: Capacities, g: Terms, b: BatchId)
    requires SystemGood(s) && Recorded(s.world.items, g) && InTime(s, ev, g, b) && Backing(s.world, b)
    ensures Backing(Step(s, ev, cap).world, b)
  {
    hide SystemGood, Recorded, InTime, Backing, SameReceipts, BeginBatch, ProveStep, ItemStep, Finish, AllOrNothing,
         B.Linked, DistinctIds, B.Purgeable, I.Purgeable;
    SystemLinked(s);
    match ev
    case Start(id, r, now) =>
      BeginSame(s.world, r, PerItemPolicy, now, cap, b);
      SameHere(s.world, b);
      SameStaysBacked(s, ev, cap, g, b);
    case ProveTx(id, prefix) =>
      SameHere(s.world, b);
      if id in s.workers && s.workers[id].Proving? { ProveStepSame(s, id, prefix, cap, b); }
      SameStaysBacked(s, ev, cap, g, b);
    case ItemTx(id, env) =>
      if id in s.workers && s.workers[id].Applying? { ItemStepBacks(s, id, env, cap, g, b); }
    case FinishTx(id, renewAt, completeAt) =>
      SameHere(s.world, b);
      if id in s.workers && s.workers[id].Applying? {
        FinishSame(s.world, s.workers[id].lease, renewAt, completeAt, s.workers[id].request.policy, b);
      }
      SameStaysBacked(s, ev, cap, g, b);
    case Crash(_) =>
      SameHere(s.world, b);
      SameStaysBacked(s, ev, cap, g, b);
    case AllOrNothingTx(r, exec) => if DistinctIds(r.items) { AllOrNothingBacks(s, r, exec, cap, g, b); }
    case PurgeBatches(gone, _, _) =>
      SameHere(s.world, b);
      SameWithout(s.world, gone, b);
      SameStaysBacked(s, ev, cap, g, b);
    case PurgeItems(_, _, _) =>
      SameHere(s.world, b);
      SameReceiptsItems(s.world, Step(s, ev, cap).world, b);
      SameStaysBacked(s, ev, cap, g, b);
  }

  lemma SameHere(w: World, b: BatchId)
    ensures SameReceipts(w, w, b)
  {
  }

  lemma SameReceiptsItems(w: World, w': World, b: BatchId)
    requires w'.batches == w.batches
    ensures SameReceipts(w, w', b)
  {
  }

  lemma SameWithout(w: World, gone: set<BatchId>, b: BatchId)
    ensures SameReceipts(w, w.(batches := B.Without(w.batches, gone)), b)
  {
  }

  /** Every step of a run is in time for the receipts of the batch that are then in the ledger. */
  ghost predicate RunInTime(s: System, events: seq<Event>, cap: Capacities, g: Terms, b: BatchId)
    decreases |events|
  {
    events == [] || (InTime(s, events[0], g, b)
                     && RunInTime(Step(s, events[0], cap), events[1..], cap, g + NewTerms(s, events[0], cap), b))
  }

  lemma {:induction false} RunBacks(s: System, events: seq<Event>, cap: Capacities, g: Terms, b: BatchId)
    requires SystemGood(s) && Recorded(s.world.items, g) && Backing(s.world, b) && RunInTime(s, events, cap, g, b)
    ensures Recorded(Run(s, events, cap).world.items, RunTerms(s, events, cap, g))
    ensures Backing(Run(s, events, cap).world, b)
    decreases |events|
  {
    hide SystemGood, Recorded, Backing, Step, InTime, NewTerms;
    if events != [] {
      var ev := events[0];
      RecordedIsSettled(s.world.items, g);
      StepSourced(s, ev, cap);
      RecordedNext(s.world.items, Step(s, ev, cap).world.items, g, NewTerms(s, ev, cap));
      StepBacks(s, ev, cap, g, b);
      StepKeepsGood(s, ev, cap);
      RunBacks(Step(s, ev, cap), events[1..], cap, g + NewTerms(s, ev, cap), b);
    }
  }

  /** Over every run whose readings lie before the ends of the batch's receipts, where that matters, the item store
    * holds every receipt of the batch, and it ends exactly where the ledger says: at the completion of its execution
    * plus the time that the executing request asked for. */
  lemma ReceiptsOutlive(events: seq<Event>, cap: Capacities, b: BatchId, k: nat)
    requires RunInTime(INITIAL, events, cap, map[], b)
    requires var w := Run(INITIAL, events, cap).world;
             b in w.batches.entries && k < w.batches.entries[b].nextIndex
    ensures var w, g := Run(INITIAL, events, cap).world, RunTerms(INITIAL, events, cap, map[]);
            var e := w.batches.entries[b];
            && k < |e.receipts| && k < |e.fingerprint.items|
            && var id := ItemIdentity(b, e.fingerprint.items[k].id);
               id in g && RetainsUntil(w.items, b, e.fingerprint.items[k], e.receipts[k], g[id])
  {
    hide Run, RunTerms, RunInTime, CountFrom, Backed;
    RunBacks(INITIAL, events, cap, map[], b);
    ReachableGood(events, cap);
    var s := Run(INITIAL, events, cap);
    assert EntryGood(b, s.world.batches.entries[b], s.world.effects, s.births[b]);
  }
}
