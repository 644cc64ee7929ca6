/** The mutation-batch coordinator as it is written: it drives two stores in place, rebinds its lease
  * from step to step, and restores a snapshot when a transaction raises. Every method computes what the
  * protocol functions say. */
module BatchCoordinator {
  import opened Prelude
  import opened BatchProtocol
  import Ops = BatchProtocol
  import B = BatchTable
  import I = IdempotencyTable
  import Batches
  import Idempotency

  /** A method that ran inside a transaction agrees with the attempt it implements. */
  ghost predicate Agrees<T>(a: Attempt<T>, w: World, failure: Option<BatchResult>, v: T) {
    a == match failure case None => Done(w, v) case Some(f) => Raised(w, f)
  }

  class MutationBatchCoordinator {
    const batches: Batches.InMemoryMutationBatchStore<Print, Result>
    const items: Idempotency.InMemoryIdempotencyStore<Payload, Receipt>
    var effects: seq<Effect>

    constructor (batches: Batches.InMemoryMutationBatchStore<Print, Result>,
                 items: Idempotency.InMemoryIdempotencyStore<Payload, Receipt>)
      requires batches.Valid() && items.Valid()
      ensures Valid() && this.batches == batches && this.items == items
      ensures World() == Ops.World(batches.State(), items.State(), [])
    {
      this.batches, this.items := batches, items;
      effects := [];
    }

    ghost predicate Valid()
      reads this, batches, items
    {
      batches.Valid() && items.Valid()
    }

    ghost function World(): World
      reads this, batches, items
    {
      Ops.World(batches.State(), items.State(), effects)
    }

    ghost function Caps(): Capacities {
      Capacities(batches.capacity, items.capacity)
    }

    /** Restores a snapshot; identifiers that were handed out stay handed out. */
    method Rollback(b: map<BatchId, B.Stored<Print, Result>>, bt: map<nat, BatchId>,
                    i: map<I.Identity, I.Entry<Payload, Receipt>>, it: map<nat, I.Identity>, e: seq<Effect>,
                    ghost before: World)
      requires before.batches.entries == b && before.batches.tokens == bt
      requires before.items.entries == i && before.items.tokens == it && before.effects == e
      requires B.Linked(before.batches) && I.Linked(before.items)
      requires before.batches.issued <= batches.issued && before.items.issued <= items.issued
      modifies this, batches, items
      ensures Valid() && World() == Restore(before, old(World()))
    {
      batches.entries, batches.tokens := b, bt;
      items.entries, items.tokens := i, it;
      effects := e;
      var t := batches.State();
      forall c | c in t.entries ensures B.EntryLinked(t, c) { assert B.EntryLinked(before.batches, c); }
      forall tk | tk in t.tokens ensures B.TokenLinked(t, tk) { assert B.TokenLinked(before.batches, tk); }
    }

    method RenewBatch(l: Lease, itemId: Option<string>, now: int, p: Policy)
      returns (failure: Option<BatchResult>, lease: Lease)
      requires Valid() && p.leaseTtl > 0
      modifies batches
      ensures Valid() && Agrees(Ops.RenewBatch(old(World()), l, itemId, now, p), World(), failure, lease)
    {
      var renewal := batches.Renew(l, now, p.leaseTtl);
      match renewal {
        case Some(l') => return None, l';
        case None => return Some(Uncertain(itemId, STALE_REASON)), l;
      }
    }

    method ReserveItem(b: BatchId, item: Item, now: int, p: Policy) returns (d: Decision)
      requires Valid() && p.leaseTtl > 0
      modifies items
      ensures Valid() && (World(), d) == Ops.ReserveItem(old(World()), b, item, now, p, Caps())
    {
      d := items.Reserve(ItemIdentity(b, item.id), item.payload, now, p.leaseTtl);
    }

    /** Re-reads every receipt of a resumed lease, in order. */
    method Prove(start: Lease, its: seq<Item>, envs: nat -> PrefixEnv, p: Policy)
      returns (failure: Option<BatchResult>, lease: Lease, proven: seq<Receipt>)
      requires Valid() && p.leaseTtl > 0 && p.uncertaintyTtl > 0
      requires start.nextIndex == |start.receipts| <= |its|
      modifies batches, items
      ensures Valid() && Agrees(Ops.Prove(old(World()), start, its, envs, p, Caps()), World(), failure, (lease, proven))
    {
      hide B.Linked, I.Linked, I.Reserve, B.Renew;
      lease, proven := start, [];
      if !start.resumed {
        return None, start, start.receipts;
      }
      var k := 0;
      while k < start.nextIndex
        invariant Valid() && k <= start.nextIndex
        invariant lease.nextIndex == start.nextIndex && lease.receipts == start.receipts
        invariant Ops.ProvePrefix(old(World()), start, its, 0, [], envs, p, Caps()) ==
                  Ops.ProvePrefix(World(), lease, its, k, proven, envs, p, Caps())
      {
        var item, stored, env := its[k], start.receipts[k], envs(k);
        failure, lease := RenewBatch(lease, Some(item.id), env.renewAt, p);
        if failure.Some? {
          return failure, lease, proven;
        }
        var decision := ReserveItem(lease.batch, item, env.reserveAt, p);
        if decision != I.Replay(stored) {
          if decision.Execute? {
            var _ := items.Abandon(decision.token, env.abandonAt);
          }
          var _ := batches.MarkUncertain(lease, PROOF_REASON, env.markAt, p.uncertaintyTtl);
          return Some(Uncertain(Some(item.id), PROOF_REASON)), lease, proven;
        }
        proven := proven + [stored.(replayed := true)];
        k := k + 1;
      }
      return None, lease, proven;
    }

    method ApplyReserved(start: Lease, item: Item, d: Decision, env: ItemEnv, p: Policy)
      returns (failure: Option<BatchResult>, lease: Lease, receipt: Option<Receipt>)
      requires Valid() && p.leaseTtl > 0 && p.resultTtl > 0 && (d.Execute? || d.Replay?)
      modifies this, batches, items
      ensures Valid()
      ensures match Ops.ApplyReserved(old(World()), start, item, d, env, p)
              case Done(w, v) => World() == w && failure == None && lease == v.0 && receipt == Some(v.1)
              case Raised(w, f) => World() == w && failure == Some(f)
    {
      hide B.Linked, I.Linked, I.SetEntry;
      receipt := None;
      failure, lease := RenewBatch(start, Some(item.id), env.renewAgainAt, p);
      if failure.Some? {
        return;
      }
      var r: Receipt;
      if d.Replay? {
        if d.value.itemId != item.id {
          failure := Some(Uncertain(Some(item.id), MISMATCH_REASON));
          return;
        }
        r := d.value.(replayed := true);
      } else {
        var renewed := items.Renew(d.token, env.itemRenewAt, p.leaseTtl);
        if renewed.Stale? {
          failure := Some(Uncertain(Some(item.id), ITEM_LEASE_REASON));
          return;
        }
        if env.answer.None? {
          failure := Some(Crashed);
          return;
        }
        effects := effects + [Effect(lease.batch, item, env.answer.value)];
        r := B.Receipt(item.id, env.answer.value, false);
        var completed := items.Complete(d.token, r, env.completeAt, p.resultTtl);
        if completed.Stale? {
          failure := Some(Uncertain(Some(item.id), ITEM_CAS_REASON));
          return;
        }
      }
      var progressed := batches.Advance(lease, r.(replayed := false), env.advanceAt, p.leaseTtl);
      match progressed {
        case Some(l') => return None, l', Some(r);
        case None => failure := Some(Uncertain(Some(item.id), PROGRESS_REASON));
      }
    }

    method ReserveNext(start: Lease, item: Item, env: ItemEnv, p: Policy)
      returns (failure: Option<BatchResult>, lease: Lease, d: Decision)
      requires Valid() && p.leaseTtl > 0
      modifies batches, items
      ensures Valid()
      ensures match Ops.ReserveNext(old(World()), start, item, env, p, Caps())
              case Done(w, v) => World() == w && failure == None && lease == v.0 && d == v.1
              case Raised(w, f) => World() == w && failure == Some(f)
    {
      d := I.Conflict;
      failure, lease := RenewBatch(start, Some(item.id), env.renewAt, p);
      if failure.None? {
        d := ReserveItem(lease.batch, item, env.reserveAt, p);
        failure := ItemDecision(d, item.id);
      }
    }

    method Finish(l: Lease, renewAt: int, completeAt: int, p: Policy) returns (finished: bool)
      requires Valid() && p.leaseTtl > 0 && p.resultTtl > 0
      modifies batches
      ensures Valid() && (World(), finished) == Ops.Finish(old(World()), l, renewAt, completeAt, p)
    {
      var renewal := batches.Renew(l, renewAt, p.leaseTtl);
      if renewal.None? {
        return false;
      }
      var completed := batches.Complete(renewal.value, completeAt, p.resultTtl);
      return completed.Some?;
    }

    /** Every item under its own transaction. */
    method PerItem(r: Request, env: ExecEnv) returns (result: BatchResult)
      requires Valid() && r.policy.leaseTtl > 0 && r.policy.resultTtl > 0 && r.policy.uncertaintyTtl > 0
      modifies this, batches, items
      ensures Valid() && (World(), result) == Ops.PerItem(old(World()), r, env, Caps())
    {
      hide Ops.ReserveNext, Ops.ApplyReserved, Ops.Prove, Ops.Finish, B.Linked, I.Linked, B.Begin;
      ghost var w0 := World();
      LeaseFitsItems(w0, r, PerItemPolicy, env.beginAt, Caps());
      var begun := batches.Begin(r.batch, Print(PerItemPolicy, r.items), |r.items|, env.beginAt, r.policy.leaseTtl);
      if !begun.Leased? {
        return EarlyResult(begun);
      }
      ghost var w1 := World();
      var b, bt, i, it, e := batches.entries, batches.tokens, items.entries, items.tokens, effects;
      var failure, lease, receipts := Prove(begun.lease, r.items, env.prefix, r.policy);
      if failure.Some? {
        Rollback(b, bt, i, it, e, w1);
        return failure.value;
      }
      var k := lease.nextIndex;
      while k < |r.items|
        invariant Valid() && k <= |r.items|
        invariant Ops.PerItem(w0, r, env, Caps()) ==
                  ItemsFrom(World(), lease, r.items, k, receipts, env, r.policy, Caps())
      {
        ghost var w2 := World();
        b, bt, i, it, e := batches.entries, batches.tokens, items.entries, items.tokens, effects;
        var reserveFailure, reserved, decision := ReserveNext(lease, r.items[k], env.items(k), r.policy);
        if reserveFailure.Some? {
          Rollback(b, bt, i, it, e, w2);
          return reserveFailure.value;
        }
        var applyFailure, applied, receipt := ApplyReserved(reserved, r.items[k], decision, env.items(k), r.policy);
        if applyFailure.Some? {
          Rollback(b, bt, i, it, e, w2);
          return applyFailure.value;
        }
        lease, receipts := applied, receipts + [receipt.value];
        k := k + 1;
      }
      var finished := Finish(lease, env.finishRenewAt, env.finishAt, r.policy);
      return if finished then Committed(receipts) else EnvelopeUnconfirmed(receipts);
    }

    /** Reserves every item, in order, before the first mutation. */
    method ReserveAll(start: Lease, its: seq<Item>, envs: nat -> ItemEnv, p: Policy)
      returns (failure: Option<BatchResult>, lease: Lease, reservations: seq<Decision>)
      requires Valid() && p.leaseTtl > 0 && start.nextIndex <= |its|
      modifies batches, items
      ensures Valid()
      ensures match Ops.ReserveAll(old(World()), start, its, start.nextIndex, [], envs, p, Caps())
              case Done(w, v) => World() == w && failure == None && lease == v.0 && reservations == v.1
              case Raised(w, f) => World() == w && failure == Some(f)
    {
      hide Ops.ReserveNext, World, Valid;
      failure, lease, reservations := None, start, [];
      var k := start.nextIndex;
      while k < |its|
        invariant Valid() && k <= |its| && failure == None
        invariant forall d :: d in reservations ==> d.Execute? || d.Replay?
        invariant Ops.ReserveAll(old(World()), start, its, start.nextIndex, [], envs, p, Caps()) ==
                  Ops.ReserveAll(World(), lease, its, k, reservations, envs, p, Caps())
      {
        var d;
        failure, lease, d := ReserveNext(lease, its[k], envs(k), p);
        if failure.Some? {
          return;
        }
        reservations := reservations + [d];
        k := k + 1;
      }
    }

    /** Applies reserved items in order and completes the batch. */
    method ApplyAndFinish(start: Lease, its: seq<Item>, from: nat, reservations: seq<Decision>,
                          proven: seq<Receipt>, env: ExecEnv, p: Policy)
      returns (failure: Option<BatchResult>, receipts: seq<Receipt>)
      requires Valid() && p.leaseTtl > 0 && p.resultTtl > 0 && from + |reservations| == |its|
      requires forall d :: d in reservations ==> d.Execute? || d.Replay?
      modifies this, batches, items
      ensures Valid()
      ensures match Ops.ApplyAndFinish(old(World()), start, its, from, reservations, proven, env.items,
                                       env.finishRenewAt, env.finishAt, p)
              case Done(w, v) => World() == w && failure == None && receipts == v
              case Raised(w, f) => World() == w && failure == Some(f)
    {
      hide Ops.ApplyReserved, Ops.Finish, World, Valid;
      failure, receipts := None, proven;
      var k, lease := 0, start;
      while k < |reservations|
        invariant Valid() && k <= |reservations| && failure == None
        invariant Ops.ApplyAll(old(World()), start, its, from, reservations, 0, proven, env.items, p) ==
                  Ops.ApplyAll(World(), lease, its, from, reservations, k, receipts, env.items, p)
      {
        var receipt;
        failure, lease, receipt := ApplyReserved(lease, its[from + k], reservations[k], env.items(from + k), p);
        if failure.Some? {
          return;
        }
        receipts := receipts + [receipt.value];
        k := k + 1;
      }
      var finished := Finish(lease, env.finishRenewAt, env.finishAt, p);
      if !finished {
        failure := Some(Uncertain(None, FINAL_REASON));
      }
    }

    /** Everything after begin of an all-or-nothing execution, inside its one transaction. */
    method ExecuteAll(start: Lease, its: seq<Item>, env: ExecEnv, p: Policy)
      returns (failure: Option<BatchResult>, receipts: seq<Receipt>)
      requires Valid() && p.leaseTtl > 0 && p.resultTtl > 0 && p.uncertaintyTtl > 0
      requires start.nextIndex == |start.receipts| <= |its|
      modifies this, batches, items
      ensures Valid()
      ensures match Ops.ExecuteAll(old(World()), start, its, env.prefix, env.items, env.finishRenewAt, env.finishAt,
                                   p, Caps())
              case Done(w, v) => World() == w && failure == None && receipts == v
              case Raised(w, f) => World() == w && failure == Some(f)
    {
      hide Ops.Prove, Ops.ReserveAll, Ops.ApplyAndFinish, World, Valid;
      var lease, reservations;
      failure, lease, receipts := Prove(start, its, env.prefix, p);
      if failure.Some? {
        return;
      }
      var from := lease.nextIndex;
      failure, lease, reservations := ReserveAll(lease, its, env.items, p);
      if failure.Some? {
        return;
      }
      failure, receipts := ApplyAndFinish(lease, its, from, reservations, receipts, env, p);
    }

    /** The whole batch, begin included, under one transaction. */
    method AllOrNothing(r: Request, env: ExecEnv) returns (result: BatchResult)
      requires Valid() && r.policy.leaseTtl > 0 && r.policy.resultTtl > 0 && r.policy.uncertaintyTtl > 0
      modifies this, batches, items
      ensures Valid() && (World(), result) == Ops.AllOrNothing(old(World()), r, env, Caps())
    {
      hide Ops.ExecuteAll, B.Begin, B.Linked, I.Linked;
      ghost var w0 := World();
      var b, bt, i, it, e := batches.entries, batches.tokens, items.entries, items.tokens, effects;
      LeaseFitsItems(w0, r, AllOrNothingPolicy, env.beginAt, Caps());
      B.BeginIssues(w0.batches, r.batch, Print(AllOrNothingPolicy, r.items), |r.items|, env.beginAt, r.policy.leaseTtl,
                    batches.capacity);
      var begun := batches.Begin(r.batch, Print(AllOrNothingPolicy, r.items), |r.items|, env.beginAt,
                                 r.policy.leaseTtl);
      if !begun.Leased? {
        if !begun.BatchReplay? {
          Rollback(b, bt, i, it, e, w0);
        }
        return EarlyResult(begun);
      }
      var failure, receipts := ExecuteAll(begun.lease, r.items, env, r.policy);
      if failure.Some? {
        Rollback(b, bt, i, it, e, w0);
        return failure.value;
      }
      return Committed(receipts);
    }
  }
}
