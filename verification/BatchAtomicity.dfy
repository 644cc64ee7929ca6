/** What an all-or-nothing execution leaves behind when it commits: exactly its own effects, and the receipts of
  * all its items in the item store and in the entry of the batch. */
module BatchAtomicity {
  import opened Prelude
  import opened BatchProtocol
  import opened BatchInvariant
  import opened BatchSteps
  import opened BatchRuns
  import B = BatchTable
  import I = IdempotencyTable

  // ---------------------------------------------------------------- definitions

  /** The item store holds the receipt of an item. */
  ghost predicate Retains(t: ItemTableT, b: BatchId, item: Item, receipt: Receipt) {
    var id := ItemIdentity(b, item.id);
    id in t.entries && t.entries[id].phase == I.Completed(receipt) && t.entries[id].fingerprint == item.payload
  }

  /** Receipts as they are stored: none of them says that it was replayed. */
  function Plain(receipts: seq<Receipt>): (r: seq<Receipt>)
    ensures |r| == |receipts| && forall k :: 0 <= k < |r| ==> r[k] == receipts[k].(replayed := false)
  {
    seq(|receipts|, k requires 0 <= k < |receipts| => receipts[k].(replayed := false))
  }

  /** The effects of the items that were not replayed, in the order of the items. */
  function Performed(b: BatchId, items: seq<Item>, receipts: seq<Receipt>): seq<Effect>
    requires |receipts| <= |items|
  {
    if receipts == [] then []
    else
      var k := |receipts| - 1;
      Performed(b, items, receipts[..k])
      + if receipts[k].replayed then [] else [Effect(b, items[k], receipts[k].result)]
  }

  /** The item store holds the receipt of an item until an instant. */
  ghost predicate RetainsUntil(t: ItemTableT, b: BatchId, item: Item, receipt: Receipt, until: int) {
    Retains(t, b, item, receipt) && t.entries[ItemIdentity(b, item.id)].expiresAt == until
  }

  /** Every receipt in the store was there before or is one of these. */
  ghost predicate NoOtherReceipts(t: ItemTableT, t': ItemTableT, b: BatchId, items: seq<Item>, receipts: seq<Receipt>)
    requires |receipts| <= |items|
  {
    forall id :: id in t'.entries && t'.entries[id].phase.Completed? ==>
      || (id in t.entries && t.entries[id] == t'.entries[id])
      || exists k :: 0 <= k < |receipts| && !receipts[k].replayed && id == ItemIdentity(b, items[k].id)
  }

  /** Since a transaction began with the given item store and effects, its world differs by what the receipts
    * say: one effect and one stored receipt for each item that was not replayed, retained from its completion
    * for the given time, and for each that was, a receipt that the store held before. */
  ghost predicate Accounted(t: ItemTableT, effects: seq<Effect>, w: World, b: BatchId, items: seq<Item>,
                            receipts: seq<Receipt>, envs: nat -> ItemEnv, resultTtl: int)
  {
    && |receipts| <= |items|
    && w.effects == effects + Performed(b, items, receipts)
    && (forall k :: 0 <= k < |receipts| ==>
          && receipts[k].itemId == items[k].id
          && if receipts[k].replayed then Retains(t, b, items[k], receipts[k].(replayed := false))
             else RetainsUntil(w.items, b, items[k], receipts[k], envs(k).completeAt + resultTtl))
    && NoOtherReceipts(t, w.items, b, items, receipts)
  }

  // ---------------------------------------------------------------- reserving

  /** No item receipt is new. */
  ghost predicate NoNewReceipts(t: ItemTableT, t': ItemTableT) {
    forall id :: id in t'.entries && t'.entries[id].phase.Completed? ==>
      id in t.entries && t.entries[id] == t'.entries[id]
  }

  /** What is to be replayed was held by the item store before. */
  ghost predicate ReplaysHeld(t: ItemTableT, b: BatchId, items: seq<Item>, ds: seq<Decision>) {
    |ds| <= |items| && forall j :: 0 <= j < |ds| && ds[j].Replay? ==> Retains(t, b, items[j], ds[j].value)
  }

  lemma ReservingIsQuiet(t: ItemTableT, w: World, l: Lease, item: Item, env: ItemEnv, p: Policy, cap: Capacities)
    requires NoNewReceipts(t, w.items)
    ensures var a := ReserveNext(w, l, item, env, p, cap);
            a.Done? ==> NoNewReceipts(t, a.world.items)
                        && (a.value.1.Replay? ==> Retains(t, l.batch, item, a.value.1.value))
  {
    RenewBatchFacts(w, l, Some(item.id), env.renewAt, p);
    var r := RenewBatch(w, l, Some(item.id), env.renewAt, p);
    if r.Done? {
      ReserveItemFacts(r.world, l.batch, item, env.reserveAt, p, cap);
    }
  }

  lemma {:induction false} ReserveAllIsQuiet(
    t: ItemTableT, w: World, births: map<BatchId, Birth>, l: Lease, items: seq<Item>, reserved: seq<Decision>,
    envs: nat -> ItemEnv, p: Policy, cap: Capacities)
    requires WorldGood(w, births) && DecisionsGood(w, l.batch, items, 0, reserved)
    requires NoNewReceipts(t, w.items) && ReplaysHeld(t, l.batch, items, reserved)
    ensures var a := ReserveAll(w, l, items, |reserved|, reserved, envs, p, cap);
            a.Done? ==> ReplaysHeld(t, l.batch, items, a.value.1) && NoNewReceipts(t, a.world.items)
    decreases |items| - |reserved|
  {
    hide WorldGood, ReserveNext, NoNewReceipts, DecisionGood, Retains, Framed;
    var k := |reserved|;
    if k < |items| {
      ReserveOneGood(w, births, l, items, 0, reserved, envs(k), p, cap);
      ReservingIsQuiet(t, w, l, items[k], envs(k), p, cap);
      var r := ReserveNext(w, l, items[k], envs(k), p, cap);
      if r.Done? {
        ReserveAllIsQuiet(t, r.world, births, r.value.0, items, reserved + [r.value.1], envs, p, cap);
      }
    }
  }

  // ---------------------------------------------------------------- applying

  /** An executed item leaves its receipt and its effect, and the other items alone. */
  lemma ExecutingStores(w: World, b: BatchId, item: Item, token: nat, env: ItemEnv, p: Policy)
    requires DecisionGood(w, b, item, I.Execute(token))
    ensures var a := ExecuteItem(w, b, item, token, env, p);
            a.Done? ==>
              && !a.value.replayed && RetainsUntil(a.world.items, b, item, a.value, env.completeAt + p.resultTtl)
              && a.world.effects == w.effects + [Effect(b, item, a.value.result)]
              && OthersKept(w.items, a.world.items, ItemIdentity(b, item.id))
  {
  }

  ghost predicate OthersKept(t: ItemTableT, t': ItemTableT, own: I.Identity) {
    && (forall id :: id in t.entries && id != own ==> id in t'.entries && t'.entries[id] == t.entries[id])
    && (forall id :: id in t'.entries && id != own ==> id in t.entries)
  }

  /** What one applied item does to the world, by the receipt it yields. */
  ghost predicate Settles(w: World, w': World, b: BatchId, item: Item, d: Decision, receipt: Receipt, until: int) {
    && OthersKept(w.items, w'.items, ItemIdentity(b, item.id))
    && receipt.itemId == item.id
    && if receipt.replayed then d == I.Replay(receipt.(replayed := false)) && w'.effects == w.effects && w'.items == w.items
       else RetainsUntil(w'.items, b, item, receipt, until)
            && w'.effects == w.effects + [Effect(b, item, receipt.result)]
  }

  lemma ApplyingSettles(w: World, l: Lease, item: Item, d: Decision, env: ItemEnv, p: Policy)
    requires (d.Execute? || d.Replay?) && DecisionGood(w, l.batch, item, d)
    ensures var a := ApplyReserved(w, l, item, d, env, p);
            a.Done? ==> Settles(w, a.world, l.batch, item, d, a.value.1, env.completeAt + p.resultTtl)
  {
    hide RenewBatch, ExecuteItem, AdvanceBatch;
    RenewBatchFacts(w, l, Some(item.id), env.renewAgainAt, p);
    var r := RenewBatch(w, l, Some(item.id), env.renewAgainAt, p);
    if r.Done? {
      if d.Replay? {
        AdvanceFacts(r.world, r.value, item.id, d.value.(replayed := true), env.advanceAt, p);
      } else {
        ExecutingStores(r.world, l.batch, item, d.token, env, p);
        ExecuteItemFacts(r.world, l.batch, item, d.token, env, p);
        var c := ExecuteItem(r.world, l.batch, item, d.token, env, p);
        if c.Done? { AdvanceFacts(c.world, r.value, item.id, c.value, env.advanceAt, p); }
      }
    }
  }

  /** One more item is accounted for. */
  lemma AccountsForNext(t: ItemTableT, effects: seq<Effect>, w: World, w': World, b: BatchId, items: seq<Item>,
                        receipts: seq<Receipt>, d: Decision, receipt: Receipt, envs: nat -> ItemEnv, resultTtl: int)
    requires DistinctIds(items) && |receipts| < |items|
    requires Accounted(t, effects, w, b, items, receipts, envs, resultTtl)
    requires Settles(w, w', b, items[|receipts|], d, receipt, envs(|receipts|).completeAt + resultTtl)
    requires d.Replay? ==> Retains(t, b, items[|receipts|], d.value)
    ensures Accounted(t, effects, w', b, items, receipts + [receipt], envs, resultTtl)
  {
    hide NoOtherReceipts, Retains, RetainsUntil, Performed, OthersKept;
    NoOthersNext(t, w, w', b, items, receipts, d, receipt, envs(|receipts|).completeAt + resultTtl);
    PerformedNext(w.effects, effects, b, items, receipts, receipt);
    var more := receipts + [receipt];
    forall k | 0 <= k < |more|
      ensures more[k].itemId == items[k].id
              && if more[k].replayed then Retains(t, b, items[k], more[k].(replayed := false))
                 else RetainsUntil(w'.items, b, items[k], more[k], envs(k).completeAt + resultTtl)
    {
      if k < |receipts| {
        assert more[k] == receipts[k];
        if !receipts[k].replayed {
          RetainedElsewhere(w, w', b, items, k, |receipts|, d, receipt, envs(|receipts|).completeAt + resultTtl,
                            receipts[k], envs(k).completeAt + resultTtl);
        }
      }
    }
  }

  lemma PerformedNext(had: seq<Effect>, effects: seq<Effect>, b: BatchId, items: seq<Item>, receipts: seq<Receipt>,
                      receipt: Receipt)
    requires |receipts| < |items| && receipt.itemId == items[|receipts|].id
    requires had == effects + Performed(b, items, receipts)
    ensures effects + Performed(b, items, receipts + [receipt]) ==
            if receipt.replayed then had else had + [Effect(b, items[|receipts|], receipt.result)]
  {
    assert (receipts + [receipt])[..|receipts|] == receipts;
  }

  /** Settling one item leaves the receipts of the others. */
  lemma RetainedElsewhere(w: World, w': World, b: BatchId, items: seq<Item>, k: nat, n: nat, d: Decision,
                          receipt: Receipt, until: int, kept: Receipt, keptUntil: int)
    requires k < n < |items| && DistinctIds(items) && Settles(w, w', b, items[n], d, receipt, until)
    requires RetainsUntil(w.items, b, items[k], kept, keptUntil)
    ensures RetainsUntil(w'.items, b, items[k], kept, keptUntil)
  {
    assert ItemIdentity(b, items[k].id) != ItemIdentity(b, items[n].id);
  }

  lemma NoOthersNext(t: ItemTableT, w: World, w': World, b: BatchId, items: seq<Item>, receipts: seq<Receipt>,
                     d: Decision, receipt: Receipt, until: int)
    requires |receipts| < |items| && NoOtherReceipts(t, w.items, b, items, receipts)
    requires Settles(w, w', b, items[|receipts|], d, receipt, until)
    ensures NoOtherReceipts(t, w'.items, b, items, receipts + [receipt])
  {
    var more := receipts + [receipt];
    assert more[|receipts|] == receipt && forall k :: 0 <= k < |receipts| ==> more[k] == receipts[k];
    forall id | id in w'.items.entries && w'.items.entries[id].phase.Completed?
      ensures (id in t.entries && t.entries[id] == w'.items.entries[id])
              || exists k :: 0 <= k < |more| && !more[k].replayed && id == ItemIdentity(b, items[k].id)
    {
      if id != ItemIdentity(b, items[|receipts|].id) || receipt.replayed {
        assert id in w.items.entries && w.items.entries[id] == w'.items.entries[id];
        if !(id in t.entries && t.entries[id] == w'.items.entries[id]) {
          var k :| 0 <= k < |receipts| && !receipts[k].replayed && id == ItemIdentity(b, items[k].id);
          assert !more[k].replayed;
        }
      } else {
        assert !more[|receipts|].replayed;
      }
    }
  }

  lemma {:induction false} ApplyAllAccounts(
    t: ItemTableT, effects: seq<Effect>, w: World, births: map<BatchId, Birth>, l: Lease, items: seq<Item>,
    ds: seq<Decision>, receipts: seq<Receipt>, envs: nat -> ItemEnv, p: Policy)
    requires WorldGood(w, births) && ItemsOfLease(w, l, items) && DistinctIds(items)
    requires |receipts| <= |ds| == |items| && l.nextIndex == |receipts|
    requires DecisionsGood(w, l.batch, items, 0, ds) && ReplaysHeld(t, l.batch, items, ds)
    requires ReceiptsGood(w.effects, l.batch, items, receipts)
    requires Accounted(t, effects, w, l.batch, items, receipts, envs, p.resultTtl) && l.receipts == Plain(receipts)
    ensures var a := ApplyAll(w, l, items, 0, ds, |receipts|, receipts, envs, p);
            a.Done? ==>
              && |a.value.1| == |items| && a.value.0.batch == l.batch && a.value.0.receipts == Plain(a.value.1)
              && Accounted(t, effects, a.world, l.batch, items, a.value.1, envs, p.resultTtl)
    decreases |ds| - |receipts|
  {
    hide WorldGood, ApplyReserved, Accounted, ItemsOfLease, Framed, DecisionGood, Retains, Settles, ReceiptsGood;
    var k := |receipts|;
    if k < |ds| {
      var item, d, env := items[0 + k], ds[k], envs(0 + k);
      assert DecisionGood(w, l.batch, item, d);
      ApplyOneGood(w, births, l, items, item, d, env, p, receipts);
      ApplyingSettles(w, l, item, d, env, p);
      ApplyReservedKeepsDecisions(w, births, l, item, d, env, p, items, 0, ds);
      var r := ApplyReserved(w, l, item, d, env, p);
      if r.Done? {
        AccountsForNext(t, effects, w, r.world, l.batch, items, receipts, d, r.value.1, envs, p.resultTtl);
        assert Plain(receipts + [r.value.1]) == Plain(receipts) + [r.value.1.(replayed := false)];
        ApplyAllAccounts(t, effects, r.world, births, r.value.0, items, ds, receipts + [r.value.1], envs, p);
      }
    }
  }

  // ---------------------------------------------------------------- the whole execution

  lemma FinishKeepsReceipts(w: World, l: Lease, renewAt: int, completeAt: int, p: Policy)
    ensures var (w', finished) := Finish(w, l, renewAt, completeAt, p);
            && w'.effects == w.effects && w'.items == w.items
            && (finished ==> l.batch in w'.batches.entries && w'.batches.entries[l.batch].receipts == l.receipts)
  {
  }

  /** A lease for an all-or-nothing batch is always new: none is ever found half way. */
  lemma LeaseIsNew(w: World, r: Request, now: int, cap: Capacities)
    requires NoneHalfWay(w)
    ensures var begun := BeginBatch(w, r, AllOrNothingPolicy, now, cap).1;
            begun.Leased? ==> !begun.lease.resumed && begun.lease.nextIndex == 0 && begun.lease.receipts == []
  {
  }

  lemma ExecuteAllAccounts(w: World, births: map<BatchId, Birth>, l: Lease, items: seq<Item>, env: ExecEnv,
                           p: Policy, cap: Capacities)
    requires WorldGood(w, births) && LeaseGood(w, l, Print(AllOrNothingPolicy, items)) && DistinctIds(items)
    requires l.batch in w.batches.entries && w.batches.entries[l.batch].token == l.token
    requires !l.resumed && l.nextIndex == 0 && l.receipts == []
    ensures var a := ExecuteAll(w, l, items, env.prefix, env.items, env.finishRenewAt, env.finishAt, p, cap);
            a.Done? ==>
              && |a.value| == |items|
              && Accounted(w.items, w.effects, a.world, l.batch, items, a.value, env.items, p.resultTtl)
              && l.batch in a.world.batches.entries
              && a.world.batches.entries[l.batch].receipts == Plain(a.value)
  {
    hide WorldGood, ReserveAll, ApplyAll, Finish, DecisionGood, ReceiptsGood, Retains;
    ReserveAllIsQuiet(w.items, w, births, l, items, [], env.items, p, cap);
    ReserveAllGood(w, births, l, items, 0, [], env.items, p, cap);
    var reserved := ReserveAll(w, l, items, 0, [], env.items, p, cap);
    if reserved.Done? {
      NothingDone(w.items, reserved.world, l.batch, items, env.items, p.resultTtl);
      ApplyAllAccounts(w.items, w.effects, reserved.world, births, reserved.value.0, items, reserved.value.1, [],
                       env.items, p);
      var applied := ApplyAll(reserved.world, reserved.value.0, items, 0, reserved.value.1, 0, [], env.items, p);
      if applied.Done? {
        FinishKeepsReceipts(applied.world, applied.value.0, env.finishRenewAt, env.finishAt, p);
      }
    }
  }

  lemma NothingDone(t: ItemTableT, w: World, b: BatchId, items: seq<Item>, envs: nat -> ItemEnv, resultTtl: int)
    requires NoNewReceipts(t, w.items)
    ensures Accounted(t, w.effects, w, b, items, [], envs, resultTtl) && ReceiptsGood(w.effects, b, items, [])
  {
  }

  /** A committed all-or-nothing execution leaves exactly what its receipts say. */
  lemma CommitAccounts(w: World, births: map<BatchId, Birth>, r: Request, env: ExecEnv, cap: Capacities)
    requires WorldGood(w, births) && NoneHalfWay(w) && DistinctIds(r.items)
    ensures var (w', result) := AllOrNothing(w, r, env, cap);
            result.Committed? ==>
              && |result.receipts| == |r.items|
              && Accounted(w.items, w.effects, w', r.batch, r.items, result.receipts, env.items, r.policy.resultTtl)
              && r.batch in w'.batches.entries && w'.batches.entries[r.batch].receipts == Plain(result.receipts)
  {
    hide WorldGood, ExecuteAll, BeginBatch, Accounted, LeaseGood;
    BeginGood(w, births, r, AllOrNothingPolicy, env.beginAt, cap);
    BeginFacts(w, births, r, AllOrNothingPolicy, env.beginAt, cap);
    LeaseIsNew(w, r, env.beginAt, cap);
    var (w1, begun) := BeginBatch(w, r, AllOrNothingPolicy, env.beginAt, cap);
    if begun.Leased? {
      ExecuteAllAccounts(w1, Born(births, begun, r.batch, |w.effects|), begun.lease, r.items, env, r.policy, cap);
    }
  }
}
