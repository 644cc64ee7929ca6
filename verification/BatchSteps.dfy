/** Every step of the coordinator keeps the invariant of the batch world. */
module BatchSteps {
  import opened Prelude
  import opened BatchProtocol
  import opened BatchInvariant
  import B = BatchTable
  import I = IdempotencyTable

  /** Inside a transaction on batch b the other entries stay put, b's keeps its fingerprint and token,
    * and the log only grows. */
  ghost predicate Framed(w: World, w': World, b: BatchId) {
    && w'.batches.entries.Keys == w.batches.entries.Keys
    && (forall c :: c in w.batches.entries && c != b ==> w'.batches.entries[c] == w.batches.entries[c])
    && (b in w.batches.entries ==>
          && w'.batches.entries[b].fingerprint == w.batches.entries[b].fingerprint
          && w'.batches.entries[b].token == w.batches.entries[b].token)
    && w.effects <= w'.effects
  }

  lemma FramedHere(w: World, b: BatchId)
    ensures Framed(w, w, b)
  {
  }

  lemma FramedTrans(w: World, v: World, u: World, b: BatchId)
    requires Framed(w, v, b) && Framed(v, u, b)
    ensures Framed(w, u, b)
  {
  }

  // ---------------------------------------------------------------- the item store alone

  /** Expiry and maintenance only take item entries away. */
  lemma ItemsWithoutGood(w: World, births: map<BatchId, Birth>, gone: set<I.Identity>)
    requires WorldGood(w, births)
    ensures WorldGood(w.(items := I.Without(w.items, gone)), births)
  {
    I.WithoutKeepsLinks(w.items, gone);
  }

  /** Adding a reservation under a new token keeps the world good. */
  lemma NewReservationGood(w: World, births: map<BatchId, Birth>, b: BatchId, item: Item, expiresAt: int)
    requires WorldGood(w, births)
    requires ItemIdentity(b, item.id) !in w.items.entries
    ensures var id := ItemIdentity(b, item.id);
            var token := w.items.issued;
            WorldGood(w.(items := I.Table(w.items.entries[id := I.Entry(token, item.payload, expiresAt, I.Reserved)],
                                          w.items.tokens[token := id], token + 1)), births)
  {
    var id := ItemIdentity(b, item.id);
    assert B.BatchId(id.scope.namespace, id.scope.subject) == b;
  }

  /** The world and the decision of a reservation, over the world without its expired items. */
  lemma ReserveItemFacts(w: World, b: BatchId, item: Item, now: int, p: Policy, cap: Capacities)
    ensures var (w', d) := ReserveItem(w, b, item, now, p, cap);
            var id := ItemIdentity(b, item.id);
            var t := I.Purged(w.items, now);
            && w' == w.(items := w'.items)
            && (d.Execute? ==>
                  && id !in t.entries && d.token == t.issued
                  && w'.items == I.Table(t.entries[id := I.Entry(t.issued, item.payload, now + p.leaseTtl, I.Reserved)],
                                         t.tokens[t.issued := id], t.issued + 1))
            && (!d.Execute? ==> w'.items == t)
            && (d.Replay? ==> id in t.entries && t.entries[id].phase == I.Completed(d.value)
                              && t.entries[id].fingerprint == item.payload)
  {
  }

  lemma ReserveItemGood(
    w: World, births: map<BatchId, Birth>, b: BatchId, item: Item, now: int, p: Policy, cap: Capacities)
    requires WorldGood(w, births)
    ensures var (w', d) := ReserveItem(w, b, item, now, p, cap);
            && WorldGood(w', births) && DecisionGood(w', b, item, d)
            && w' == w.(items := w'.items)
  {
    ItemsWithoutGood(w, births, I.ExpiredAt(w.items, now));
    ReserveItemFacts(w, b, item, now, p, cap);
    var (w', d) := ReserveItem(w, b, item, now, p, cap);
    ReservedGood(w.(items := I.Purged(w.items, now)), births, b, item, now + p.leaseTtl, w', d);
  }

  lemma ReservedGood(w: World, births: map<BatchId, Birth>, b: BatchId, item: Item, expiresAt: int,
                     w': World, d: Decision)
    requires WorldGood(w, births)
    requires var id := ItemIdentity(b, item.id);
             && (d.Execute? ==>
                   && id !in w.items.entries && d.token == w.items.issued
                   && w' == w.(items := I.Table(
                        w.items.entries[id := I.Entry(w.items.issued, item.payload, expiresAt, I.Reserved)],
                        w.items.tokens[w.items.issued := id], w.items.issued + 1)))
             && (!d.Execute? ==> w' == w)
             && (d.Replay? ==> id in w.items.entries && w.items.entries[id].phase == I.Completed(d.value)
                               && w.items.entries[id].fingerprint == item.payload)
    ensures WorldGood(w', births) && DecisionGood(w', b, item, d)
  {
    if d.Execute? {
      NewReservationGood(w, births, b, item, expiresAt);
    } else if d.Replay? {
      ReplayIsGood(w, births, b, item, d.value);
    }
  }

  lemma ReplayIsGood(w: World, births: map<BatchId, Birth>, b: BatchId, item: Item, v: Receipt)
    requires WorldGood(w, births)
    requires var id := ItemIdentity(b, item.id);
             && id in w.items.entries && w.items.entries[id].phase == I.Completed(v)
             && w.items.entries[id].fingerprint == item.payload
    ensures DecisionGood(w, b, item, I.Replay(v))
  {
    assert ItemGood(ItemIdentity(b, item.id), w.items.entries[ItemIdentity(b, item.id)], w.effects);
  }

  /** A reservation of a different identity, or any expiry, leaves an earlier decision good. */
  lemma ReserveItemKeepsDecision(
    w: World, births: map<BatchId, Birth>, b: BatchId, item: Item, now: int, p: Policy, cap: Capacities,
    earlier: Item, d: Decision)
    requires WorldGood(w, births) && DecisionGood(w, b, earlier, d)
    ensures DecisionGood(ReserveItem(w, b, item, now, p, cap).0, b, earlier, d)
  {
  }

  /** Storing an item receipt together with its effect keeps every item entry good. */
  lemma CompleteItemGood(w: World, births: map<BatchId, Birth>, b: BatchId, item: Item, token: nat,
                         receipt: Receipt, now: int, ttl: int)
    requires WorldGood(w, births) && DecisionGood(w, b, item, I.Execute(token))
    requires receipt.itemId == item.id && !receipt.replayed
    ensures var (t, settled) := I.Complete(w.items, token, receipt, now, ttl);
            var effects := w.effects + [Effect(b, item, receipt.result)];
            !settled.Stale? ==>
              && I.Linked(t) && t.issued == w.items.issued && t.tokens == w.items.tokens
              && (forall id :: id in t.entries ==> ItemGood(id, t.entries[id], effects))
              && (forall id :: id in w.items.entries ==>
                    id in t.entries && t.entries[id].fingerprint == w.items.entries[id].fingerprint)
  {
    var (t, settled) := I.Complete(w.items, token, receipt, now, ttl);
    var effects := w.effects + [Effect(b, item, receipt.result)];
    if !settled.Stale? {
      var own := ItemIdentity(b, item.id);
      forall id | id in t.entries
        ensures ItemGood(id, t.entries[id], effects)
      {
        assert ItemGood(id, w.items.entries[id], w.effects);
        if id == own {
          assert effects[|w.effects|] == Effect(b, item, receipt.result);
          assert B.BatchId(id.scope.namespace, id.scope.subject) == b;
        }
      }
    }
  }

  // ---------------------------------------------------------------- one batch entry replaced

  /** Only the entry of batch b differs, and it differs in a good way. */
  lemma ReplaceEntryGood(w: World, births: map<BatchId, Birth>, b: BatchId, e: B.Stored<Print, Result>)
    requires WorldGood(w, births)
    requires b in w.batches.entries && EntryGood(b, e, w.effects, births[b])
    requires e.token == w.batches.entries[b].token
    requires B.ExecutingState(w.batches.entries[b].state) && B.ExecutingState(e.state)
    ensures WorldGood(w.(batches := w.batches.(entries := w.batches.entries[b := e])), births)
  {
    assert B.EntryLinked(w.batches, b);
    assert w.batches.tokens == (w.batches.tokens - {e.token})[e.token := b];
    B.ReplacingKeepsLinks(w.batches, b, e, w.batches.issued);
  }

  /** The world and the lease after a successful renewal. */
  lemma RenewBatchFacts(w: World, l: Lease, itemId: Option<string>, now: int, p: Policy)
    ensures var a := RenewBatch(w, l, itemId, now, p);
            a.Done? ==>
              && B.Active(w.batches, l, now)
              && var e := w.batches.entries[l.batch].(leaseExpiresAt := now + p.leaseTtl);
              && a.world == w.(batches := w.batches.(entries := w.batches.entries[l.batch := e]))
              && a.value == B.LeaseOf(l.batch, e, l.resumed)
  {
  }

  lemma RenewBatchGood(w: World, births: map<BatchId, Birth>, l: Lease, itemId: Option<string>, now: int, p: Policy)
    requires WorldGood(w, births)
    ensures var a := RenewBatch(w, l, itemId, now, p);
            a.Done? ==> WorldGood(a.world, births)
  {
    RenewBatchFacts(w, l, itemId, now, p);
    if B.Active(w.batches, l, now) {
      var e := w.batches.entries[l.batch];
      var e' := e.(leaseExpiresAt := now + p.leaseTtl);
      assert EntryGood(l.batch, e, w.effects, births[l.batch]);
      assert EntryGood(l.batch, e', w.effects, births[l.batch]);
      ReplaceEntryGood(w, births, l.batch, e');
    }
  }

  // ---------------------------------------------------------------- applying one item

  /** What applying one item does to its lease: one step of progress, with the receipt it returns. */
  ghost predicate LeaseStepped(l: Lease, l': Lease, item: Item, receipt: Receipt) {
    && l'.batch == l.batch && l'.token == l.token && l'.resumed == l.resumed
    && l'.nextIndex == l.nextIndex + 1
    && l'.receipts == l.receipts + [receipt.(replayed := false)]
    && receipt.itemId == item.id
  }

  /** The item is the next one of the batch, as long as the lease's token is still the batch's. */
  ghost predicate ItemIsNext(w: World, l: Lease, item: Item) {
    l.batch in w.batches.entries && w.batches.entries[l.batch].token == l.token ==>
      var items := w.batches.entries[l.batch].fingerprint.items;
      l.nextIndex < |items| && items[l.nextIndex] == item
  }

  lemma AdvanceFacts(w: World, l: Lease, itemId: string, receipt: Receipt, now: int, p: Policy)
    ensures var a := AdvanceBatch(w, l, itemId, receipt, now, p);
            a.Done? ==>
              && B.Active(w.batches, l, now) && a.value.1 == receipt
              && w.batches.entries[l.batch].nextIndex < w.batches.entries[l.batch].totalItems
              && var e := Advanced(w.batches.entries[l.batch], receipt.(replayed := false), now + p.leaseTtl);
              && a.world == w.(batches := w.batches.(entries := w.batches.entries[l.batch := e]))
              && a.value.0 == B.LeaseOf(l.batch, e, l.resumed)
  {
  }

  lemma AdvanceReplayGood(
    w: World, births: map<BatchId, Birth>, l: Lease, item: Item, receipt: Receipt, now: int, p: Policy)
    requires WorldGood(w, births) && ItemIsNext(w, l, item)
    requires receipt.itemId == item.id && Effect(l.batch, item, receipt.result) in w.effects
    ensures var a := AdvanceBatch(w, l, item.id, receipt, now, p);
            a.Done? ==> WorldGood(a.world, births) && LeaseStepped(l, a.value.0, item, receipt)
  {
    AdvanceFacts(w, l, item.id, receipt, now, p);
    if AdvanceBatch(w, l, item.id, receipt, now, p).Done? {
      var e := w.batches.entries[l.batch];
      assert EntryGood(l.batch, e, w.effects, births[l.batch]);
      EntryGoodReplay(l.batch, e, w.effects, births[l.batch], receipt.result, now + p.leaseTtl);
      ReplaceEntryGood(w, births, l.batch, Advanced(e, receipt.(replayed := false), now + p.leaseTtl));
    }
  }

  /** Committing an effect, its item receipt and the batch's progress together keeps the world good. */
  lemma ExecuteAndAdvanceGood(
    w: World, births: map<BatchId, Birth>, l: Lease, item: Item, token: nat, env: ItemEnv, p: Policy)
    requires WorldGood(w, births) && ItemIsNext(w, l, item)
    requires DecisionGood(w, l.batch, item, I.Execute(token))
    ensures var a := ExecuteItem(w, l.batch, item, token, env, p);
            a.Done? ==>
              var c := AdvanceBatch(a.world, l, item.id, a.value, env.advanceAt, p);
              c.Done? ==> WorldGood(c.world, births) && LeaseStepped(l, c.value.0, item, a.value)
  {
    hide EntryGood, ItemGood, AdvanceBatch, B.Linked, I.Linked;
    var a := ExecuteItem(w, l.batch, item, token, env, p);
    if a.Done? {
      var renewed := I.Renew(w.items, token, env.itemRenewAt, p.leaseTtl).0;
      var v := w.(items := renewed);
      RenewItemGood(w, births, l.batch, item, token, env.itemRenewAt, p.leaseTtl);
      CompleteItemGood(v, births, l.batch, item, token, a.value, env.completeAt, p.resultTtl);
      AdvanceFacts(a.world, l, item.id, a.value, env.advanceAt, p);
      var c := AdvanceBatch(a.world, l, item.id, a.value, env.advanceAt, p);
      if c.Done? {
        ProgressGood(w, births, l, item, a.value, c.world, env.advanceAt + p.leaseTtl);
      }
    }
  }

  lemma RenewItemGood(
    w: World, births: map<BatchId, Birth>, b: BatchId, item: Item, token: nat, now: int, ttl: int)
    requires WorldGood(w, births) && DecisionGood(w, b, item, I.Execute(token))
    ensures var v := w.(items := I.Renew(w.items, token, now, ttl).0);
            WorldGood(v, births) && DecisionGood(v, b, item, I.Execute(token))
  {
    var v := w.(items := I.Renew(w.items, token, now, ttl).0);
    forall id | id in v.items.entries ensures ItemGood(id, v.items.entries[id], v.effects) {
      assert ItemGood(id, w.items.entries[id], w.effects);
    }
  }

  /** The batch side of a committed item. */
  lemma ProgressGood(w: World, births: map<BatchId, Birth>, l: Lease, item: Item, receipt: Receipt,
                     w': World, expiresAt: int)
    requires WorldGood(w, births) && ItemIsNext(w, l, item)
    requires l.batch in w.batches.entries && w.batches.entries[l.batch].token == l.token
    requires B.ExecutingState(w.batches.entries[l.batch].state)
    requires w.batches.entries[l.batch].nextIndex == l.nextIndex
    requires receipt.itemId == item.id && !receipt.replayed
    requires w'.effects == w.effects + [Effect(l.batch, item, receipt.result)]
    requires w'.batches == w.batches.(entries := w.batches.entries[
               l.batch := Advanced(w.batches.entries[l.batch], receipt, expiresAt)])
    requires I.Linked(w'.items)
    requires forall id :: id in w'.items.entries ==> ItemGood(id, w'.items.entries[id], w'.effects)
    ensures WorldGood(w', births)
  {
    hide B.Linked, I.Linked, ItemGood;
    var e := w.batches.entries[l.batch];
    var eff := Effect(l.batch, item, receipt.result);
    assert EntryGood(l.batch, e, w.effects, births[l.batch]);
    EntryGoodExecute(l.batch, e, w.effects, births[l.batch], receipt.result, expiresAt);
    assert receipt == B.Receipt(item.id, receipt.result, false);
    forall c | c in w'.batches.entries
      ensures c in births && EntryGood(c, w'.batches.entries[c], w'.effects, births[c])
    {
      if c != l.batch {
        assert EntryGood(c, w.batches.entries[c], w.effects, births[c]);
        EntryGoodAppendOther(c, w.batches.entries[c], w.effects, births[c], eff);
      }
    }
    LinksAfterReplace(w.batches, l.batch, Advanced(e, receipt, expiresAt));
  }

  lemma LinksAfterReplace(t: BatchTableT, b: BatchId, e: B.Stored<Print, Result>)
    requires B.Linked(t) && b in t.entries && e.token == t.entries[b].token
    requires B.ExecutingState(t.entries[b].state) && B.ExecutingState(e.state)
    requires e.nextIndex == |e.receipts| <= e.totalItems
    ensures B.Linked(t.(entries := t.entries[b := e]))
  {
    assert B.EntryLinked(t, b);
    assert t.tokens == (t.tokens - {e.token})[e.token := b];
    B.ReplacingKeepsLinks(t, b, e, t.issued);
  }

  lemma ApplyReservedGood(
    w: World, births: map<BatchId, Birth>, l: Lease, item: Item, d: Decision, env: ItemEnv, p: Policy)
    requires WorldGood(w, births) && ItemIsNext(w, l, item)
    requires (d.Execute? || d.Replay?) && DecisionGood(w, l.batch, item, d)
    ensures var a := ApplyReserved(w, l, item, d, env, p);
            a.Done? ==> WorldGood(a.world, births) && LeaseStepped(l, a.value.0, item, a.value.1)
  {
    hide WorldGood, RenewBatch, ExecuteItem;
    var r := RenewBatch(w, l, Some(item.id), env.renewAgainAt, p);
    RenewBatchGood(w, births, l, Some(item.id), env.renewAgainAt, p);
    RenewBatchFacts(w, l, Some(item.id), env.renewAgainAt, p);
    if r.Done? {
      if d.Replay? {
        AdvanceReplayGood(r.world, births, r.value, item, d.value.(replayed := true), env.advanceAt, p);
      } else {
        ExecuteAndAdvanceGood(r.world, births, r.value, item, d.token, env, p);
      }
    }
  }

  /** What an applied item leaves for its caller: the world, the lease, and a receipt with its effect. */
  lemma AppliedReceiptIsBacked(
    w: World, births: map<BatchId, Birth>, l: Lease, item: Item, d: Decision, env: ItemEnv, p: Policy)
    requires WorldGood(w, births) && ItemIsNext(w, l, item)
    requires (d.Execute? || d.Replay?) && DecisionGood(w, l.batch, item, d)
    ensures var a := ApplyReserved(w, l, item, d, env, p);
            a.Done? ==> Effect(l.batch, item, a.value.1.result) in a.world.effects
  {
    var r := RenewBatch(w, l, Some(item.id), env.renewAgainAt, p);
    RenewBatchFacts(w, l, Some(item.id), env.renewAgainAt, p);
    if r.Done? && d.Replay? {
      AdvanceFacts(r.world, r.value, item.id, d.value.(replayed := true), env.advanceAt, p);
    } else if r.Done? {
      var c := ExecuteItem(r.world, l.batch, item, d.token, env, p);
      if c.Done? {
        AdvanceFacts(c.world, r.value, item.id, c.value, env.advanceAt, p);
        assert c.world.effects[|w.effects|] == Effect(l.batch, item, c.value.result);
      }
    }
  }

  lemma ApplyReservedFrame(w: World, l: Lease, item: Item, d: Decision, env: ItemEnv, p: Policy)
    requires d.Execute? || d.Replay?
    ensures var a := ApplyReserved(w, l, item, d, env, p);
            a.Done? ==> Framed(w, a.world, l.batch)
  {
    RenewBatchFacts(w, l, Some(item.id), env.renewAgainAt, p);
    var r := RenewBatch(w, l, Some(item.id), env.renewAgainAt, p);
    if r.Done? {
      if d.Replay? {
        AdvanceFacts(r.world, r.value, item.id, d.value.(replayed := true), env.advanceAt, p);
      } else {
        var c := ExecuteItem(r.world, l.batch, item, d.token, env, p);
        if c.Done? { AdvanceFacts(c.world, r.value, item.id, c.value, env.advanceAt, p); }
      }
    }
  }

  /** Applying one item leaves the decisions about the others as good as they were. */
  lemma ApplyReservedKeepsDecision(
    w: World, l: Lease, item: Item, d: Decision, env: ItemEnv, p: Policy,
    other: Item, od: Decision)
    requires (d.Execute? || d.Replay?) && DecisionGood(w, l.batch, other, od)
    ensures var a := ApplyReserved(w, l, item, d, env, p);
            a.Done? ==> DecisionGood(a.world, l.batch, other, od)
  {
    RenewBatchFacts(w, l, Some(item.id), env.renewAgainAt, p);
    var r := RenewBatch(w, l, Some(item.id), env.renewAgainAt, p);
    if r.Done? && d.Replay? {
      AdvanceFacts(r.world, r.value, item.id, d.value.(replayed := true), env.advanceAt, p);
    } else if r.Done? {
      ExecuteItemFacts(r.world, l.batch, item, d.token, env, p);
      var c := ExecuteItem(r.world, l.batch, item, d.token, env, p);
      if c.Done? {
        assert DecisionGood(c.world, l.batch, other, od);
        AdvanceFacts(c.world, r.value, item.id, c.value, env.advanceAt, p);
      }
    }
  }

  /** Executing an item changes no fingerprint and no token of the item store. */
  lemma ExecuteItemFacts(w: World, b: BatchId, item: Item, token: nat, env: ItemEnv, p: Policy)
    ensures var c := ExecuteItem(w, b, item, token, env, p);
            c.Done? ==>
              && c.world.items.tokens == w.items.tokens && c.world.items.issued == w.items.issued
              && (forall id :: id in w.items.entries ==>
                    id in c.world.items.entries
                    && c.world.items.entries[id].fingerprint == w.items.entries[id].fingerprint)
              && c.world.effects == w.effects + [Effect(b, item, c.value.result)]
              && c.world.batches == w.batches
              && c.value.itemId == item.id && !c.value.replayed
  {
  }

  // ---------------------------------------------------------------- loops over items

  lemma ReserveNextGood(
    w: World, births: map<BatchId, Birth>, l: Lease, item: Item, env: ItemEnv, p: Policy, cap: Capacities)
    requires WorldGood(w, births)
    ensures var a := ReserveNext(w, l, item, env, p, cap);
            a.Done? ==>
              && WorldGood(a.world, births) && DecisionGood(a.world, l.batch, item, a.value.1)
              && Framed(w, a.world, l.batch) && a.world.effects == w.effects
              && SameProgress(l, a.value.0)
  {
    var r := RenewBatch(w, l, Some(item.id), env.renewAt, p);
    RenewBatchGood(w, births, l, Some(item.id), env.renewAt, p);
    RenewBatchFacts(w, l, Some(item.id), env.renewAt, p);
    if r.Done? {
      ReserveItemGood(r.world, births, l.batch, item, env.reserveAt, p, cap);
    }
  }

  /** A successful renewal leaves decisions about items alone, and so does the next reservation. */
  lemma ReserveNextKeepsDecision(
    w: World, births: map<BatchId, Birth>, l: Lease, item: Item, env: ItemEnv, p: Policy, cap: Capacities,
    earlier: Item, d: Decision)
    requires WorldGood(w, births) && DecisionGood(w, l.batch, earlier, d)
    ensures var a := ReserveNext(w, l, item, env, p, cap);
            a.Done? ==> DecisionGood(a.world, l.batch, earlier, d)
  {
    var r := RenewBatch(w, l, Some(item.id), env.renewAt, p);
    RenewBatchGood(w, births, l, Some(item.id), env.renewAt, p);
    RenewBatchFacts(w, l, Some(item.id), env.renewAt, p);
    if r.Done? {
      ReserveItemKeepsDecision(r.world, births, l.batch, item, env.reserveAt, p, cap, earlier, d);
    }
  }

  /** Decisions the transaction may act on, one for each item from position from on. */
  ghost predicate DecisionsGood(w: World, b: BatchId, items: seq<Item>, from: nat, ds: seq<Decision>) {
    && from + |ds| <= |items|
    && (forall d :: d in ds ==> d.Execute? || d.Replay?)
    && (forall j :: 0 <= j < |ds| ==> DecisionGood(w, b, items[from + j], ds[j]))
  }

  lemma DecisionsExtend(w: World, b: BatchId, items: seq<Item>, from: nat, ds: seq<Decision>, d: Decision)
    requires from + |ds| < |items|
    requires DecisionsGood(w, b, items, from, ds)
    requires (d.Execute? || d.Replay?) && DecisionGood(w, b, items[from + |ds|], d)
    ensures DecisionsGood(w, b, items, from, ds + [d])
  {
    var es := ds + [d];
    forall j | 0 <= j < |es| ensures DecisionGood(w, b, items[from + j], es[j]) {
      if j < |ds| { assert es[j] == ds[j]; }
    }
  }

  lemma ReserveNextKeepsDecisions(
    w: World, births: map<BatchId, Birth>, l: Lease, item: Item, env: ItemEnv, p: Policy, cap: Capacities,
    items: seq<Item>, from: nat, ds: seq<Decision>)
    requires WorldGood(w, births) && DecisionsGood(w, l.batch, items, from, ds)
    ensures var r := ReserveNext(w, l, item, env, p, cap);
            r.Done? ==> DecisionsGood(r.world, l.batch, items, from, ds)
  {
    var r := ReserveNext(w, l, item, env, p, cap);
    if r.Done? {
      forall j | 0 <= j < |ds| ensures DecisionGood(r.world, l.batch, items[from + j], ds[j]) {
        ReserveNextKeepsDecision(w, births, l, item, env, p, cap, items[from + j], ds[j]);
      }
    }
  }

  lemma ApplyReservedKeepsDecisions(
    w: World, births: map<BatchId, Birth>, l: Lease, item: Item, d: Decision, env: ItemEnv, p: Policy,
    items: seq<Item>, from: nat, ds: seq<Decision>)
    requires (d.Execute? || d.Replay?) && WorldGood(w, births) && DecisionsGood(w, l.batch, items, from, ds)
    ensures var r := ApplyReserved(w, l, item, d, env, p);
            r.Done? ==> DecisionsGood(r.world, l.batch, items, from, ds)
  {
    var r := ApplyReserved(w, l, item, d, env, p);
    if r.Done? {
      forall j | 0 <= j < |ds| ensures DecisionGood(r.world, l.batch, items[from + j], ds[j]) {
        ApplyReservedKeepsDecision(w, l, item, d, env, p, items[from + j], ds[j]);
      }
    }
  }

  /** Renewing moves a lease's instant of expiry and nothing that identifies or counts. */
  ghost predicate SameProgress(l: Lease, l': Lease) {
    && l'.batch == l.batch && l'.token == l.token && l'.resumed == l.resumed
    && l'.nextIndex == l.nextIndex && l'.receipts == l.receipts
  }

  /** One reserved item, with everything the next item needs. */
  lemma ReserveOneGood(
    w: World, births: map<BatchId, Birth>, l: Lease, items: seq<Item>, from: nat,
    reserved: seq<Decision>, env: ItemEnv, p: Policy, cap: Capacities)
    requires WorldGood(w, births) && from + |reserved| < |items|
    requires DecisionsGood(w, l.batch, items, from, reserved)
    ensures var r := ReserveNext(w, l, items[from + |reserved|], env, p, cap);
            r.Done? ==>
              && WorldGood(r.world, births) && Framed(w, r.world, l.batch) && r.world.effects == w.effects
              && DecisionsGood(r.world, l.batch, items, from, reserved + [r.value.1])
              && SameProgress(l, r.value.0)
  {
    var item := items[from + |reserved|];
    ReserveNextGood(w, births, l, item, env, p, cap);
    ReserveNextKeepsDecisions(w, births, l, item, env, p, cap, items, from, reserved);
    var r := ReserveNext(w, l, item, env, p, cap);
    if r.Done? {
      DecisionsExtend(r.world, l.batch, items, from, reserved, r.value.1);
    }
  }

  lemma {:induction false} ReserveAllGood(
    w: World, births: map<BatchId, Birth>, l: Lease, items: seq<Item>, from: nat,
    reserved: seq<Decision>, envs: nat -> ItemEnv, p: Policy, cap: Capacities)
    requires WorldGood(w, births)
    requires DecisionsGood(w, l.batch, items, from, reserved)
    ensures var a := ReserveAll(w, l, items, from + |reserved|, reserved, envs, p, cap);
            a.Done? ==>
              && WorldGood(a.world, births) && Framed(w, a.world, l.batch) && a.world.effects == w.effects
              && DecisionsGood(a.world, l.batch, items, from, a.value.1)
              && SameProgress(l, a.value.0)
    decreases |items| - |reserved|
  {
    hide WorldGood, ReserveNext, DecisionGood, Framed;
    var k := from + |reserved|;
    FramedHere(w, l.batch);
    if k < |items| {
      ReserveOneGood(w, births, l, items, from, reserved, envs(k), p, cap);
      var r := ReserveNext(w, l, items[k], envs(k), p, cap);
      if r.Done? {
        ReserveAllGood(r.world, births, r.value.0, items, from, reserved + [r.value.1], envs, p, cap);
        var a := ReserveAll(r.world, r.value.0, items, k + 1, reserved + [r.value.1], envs, p, cap);
        if a.Done? { FramedTrans(w, r.world, a.world, l.batch); }
      }
    }
  }

  /** The lease belongs to a batch of exactly these items, as long as its token is the batch's. */
  ghost predicate ItemsOfLease(w: World, l: Lease, items: seq<Item>) {
    l.batch in w.batches.entries && w.batches.entries[l.batch].token == l.token ==>
      w.batches.entries[l.batch].fingerprint.items == items
  }

  lemma ReceiptsExtend(effects: seq<Effect>, more: seq<Effect>, b: BatchId, items: seq<Item>,
                       receipts: seq<Receipt>, r: Receipt)
    requires effects <= more && |receipts| < |items|
    requires ReceiptsGood(effects, b, items, receipts)
    requires r.itemId == items[|receipts|].id && Effect(b, items[|receipts|], r.result) in more
    ensures ReceiptsGood(more, b, items, receipts + [r])
  {
  }

  lemma {:induction false} ApplyAllGood(
    w: World, births: map<BatchId, Birth>, l: Lease, items: seq<Item>, from: nat, ds: seq<Decision>, k: nat,
    receipts: seq<Receipt>, envs: nat -> ItemEnv, p: Policy)
    requires WorldGood(w, births) && ItemsOfLease(w, l, items)
    requires k <= |ds| && from + |ds| == |items| && l.nextIndex == from + k == |receipts|
    requires DecisionsGood(w, l.batch, items, from, ds)
    requires ReceiptsGood(w.effects, l.batch, items, receipts)
    ensures var a := ApplyAll(w, l, items, from, ds, k, receipts, envs, p);
            a.Done? ==>
              && WorldGood(a.world, births) && Framed(w, a.world, l.batch)
              && a.value.0.batch == l.batch && a.value.0.token == l.token
              && |a.value.1| == |items| && ReceiptsGood(a.world.effects, l.batch, items, a.value.1)
    decreases |ds| - k
  {
    hide WorldGood, ApplyReserved, DecisionGood, Framed, ItemsOfLease, ReceiptsGood;
    FramedHere(w, l.batch);
    if k < |ds| {
      var item, d, env := items[from + k], ds[k], envs(from + k);
      assert DecisionGood(w, l.batch, item, d);
      var r := ApplyReserved(w, l, item, d, env, p);
      ApplyOneGood(w, births, l, items, item, d, env, p, receipts);
      if r.Done? {
        ApplyReservedKeepsDecisions(w, births, l, item, d, env, p, items, from, ds);
        ApplyAllGood(r.world, births, r.value.0, items, from, ds, k + 1, receipts + [r.value.1], envs, p);
        var a := ApplyAll(r.world, r.value.0, items, from, ds, k + 1, receipts + [r.value.1], envs, p);
        if a.Done? { FramedTrans(w, r.world, a.world, l.batch); }
      }
    }
  }

  /** One applied item, with everything the next item needs. */
  lemma ApplyOneGood(
    w: World, births: map<BatchId, Birth>, l: Lease, items: seq<Item>, item: Item, d: Decision, env: ItemEnv,
    p: Policy, receipts: seq<Receipt>)
    requires WorldGood(w, births) && ItemsOfLease(w, l, items)
    requires l.nextIndex == |receipts| < |items| && item == items[l.nextIndex]
    requires (d.Execute? || d.Replay?) && DecisionGood(w, l.batch, item, d)
    requires ReceiptsGood(w.effects, l.batch, items, receipts)
    ensures var r := ApplyReserved(w, l, item, d, env, p);
            r.Done? ==>
              && WorldGood(r.world, births) && Framed(w, r.world, l.batch) && ItemsOfLease(r.world, r.value.0, items)
              && LeaseStepped(l, r.value.0, item, r.value.1)
              && ReceiptsGood(r.world.effects, l.batch, items, receipts + [r.value.1])
  {
    assert ItemIsNext(w, l, item);
    ApplyReservedGood(w, births, l, item, d, env, p);
    ApplyReservedFrame(w, l, item, d, env, p);
    AppliedReceiptIsBacked(w, births, l, item, d, env, p);
    var r := ApplyReserved(w, l, item, d, env, p);
    if r.Done? {
      ReceiptsExtend(w.effects, r.world.effects, l.batch, items, receipts, r.value.1);
    }
  }

  // ---------------------------------------------------------------- proving a resumed prefix

  lemma {:induction false} ProvePrefixGood(
    w: World, births: map<BatchId, Birth>, l: Lease, items: seq<Item>, k: nat, proven: seq<Receipt>,
    envs: nat -> PrefixEnv, p: Policy, cap: Capacities)
    requires WorldGood(w, births) && k <= l.nextIndex == |l.receipts| <= |items| && |proven| == k
    requires forall j :: 0 <= j < k ==> proven[j] == l.receipts[j].(replayed := true)
    ensures var a := ProvePrefix(w, l, items, k, proven, envs, p, cap);
            a.Done? ==>
              && WorldGood(a.world, births) && Framed(w, a.world, l.batch) && a.world.effects == w.effects
              && SameProgress(l, a.value.0)
              && |a.value.1| == l.nextIndex
              && forall j :: 0 <= j < l.nextIndex ==> a.value.1[j] == l.receipts[j].(replayed := true)
    decreases l.nextIndex - k
  {
    hide WorldGood, RenewBatch, ReserveItem;
    if k < l.nextIndex {
      var env := envs(k);
      RenewBatchGood(w, births, l, Some(items[k].id), env.renewAt, p);
      RenewBatchFacts(w, l, Some(items[k].id), env.renewAt, p);
      var r := RenewBatch(w, l, Some(items[k].id), env.renewAt, p);
      if r.Done? {
        ReserveItemGood(r.world, births, l.batch, items[k], env.reserveAt, p, cap);
        var (w2, d) := ReserveItem(r.world, l.batch, items[k], env.reserveAt, p, cap);
        if d == I.Replay(l.receipts[k]) {
          ProvePrefixGood(w2, births, r.value, items, k + 1, proven + [l.receipts[k].(replayed := true)],
                          envs, p, cap);
        }
      }
    }
  }

  // ---------------------------------------------------------------- finishing

  lemma FinishGood(w: World, births: map<BatchId, Birth>, l: Lease, renewAt: int, completeAt: int, p: Policy)
    requires WorldGood(w, births)
    ensures WorldGood(Finish(w, l, renewAt, completeAt, p).0, births)
  {
    RenewBatchGood(w, births, l, None, renewAt, p);
    RenewBatchFacts(w, l, None, renewAt, p);
    var r := RenewBatch(w, l, None, renewAt, p);
    if r.Done? {
      CompleteGood(r.world, births, r.value, completeAt, p.resultTtl);
    }
  }

  lemma FinishFacts(w: World, l: Lease, renewAt: int, completeAt: int, p: Policy)
    ensures var (w', finished) := Finish(w, l, renewAt, completeAt, p);
            && Framed(w, w', l.batch) && w'.effects == w.effects && w'.items == w.items
            && (finished ==> l.batch in w'.batches.entries && w'.batches.entries[l.batch].state.Completed?)
            && (forall b :: b in w.batches.entries ==>
                  w'.batches.entries[b].state == w.batches.entries[b].state
                  || (w'.batches.entries[b].state.Completed? && b == l.batch))
  {
  }

  lemma CompleteGood(w: World, births: map<BatchId, Birth>, l: Lease, now: int, ttl: int)
    requires WorldGood(w, births)
    ensures WorldGood(w.(batches := B.Complete(w.batches, l, now, ttl).0), births)
  {
    var t := B.Complete(w.batches, l, now, ttl).0;
    if B.Complete(w.batches, l, now, ttl).1.Some? {
      B.CompleteKeepsLinks(w.batches, l, now, ttl);
      forall b | b in t.entries ensures b in births && EntryGood(b, t.entries[b], w.effects, births[b]) {
        assert EntryGood(b, w.batches.entries[b], w.effects, births[b]);
      }
    }
  }
}
