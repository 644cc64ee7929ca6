/** What the rolled-back mark of a failed proof leads to: a batch one of whose receipts has left the item store can
  * never be completed, marked or removed again. */
module BatchStalled {
  import opened Prelude
  import opened BatchProtocol
  import opened BatchInvariant
  import opened BatchSteps
  import opened BatchRuns
  import opened BatchAtomicity
  import opened BatchTheorems
  import B = BatchTable
  import I = IdempotencyTable

  // ---------------------------------------------------------------- definitions

  /** The item store does not hold this receipt. */
  ghost predicate Lost(t: ItemTableT, id: I.Identity, receipt: Receipt) {
    id in t.entries ==> t.entries[id].phase != I.Completed(receipt)
  }

  /** Nothing but the token and the end of the lease differs. */
  ghost predicate SameButLease(e: B.Stored<Print, Result>, e': B.Stored<Print, Result>) {
    e' == e.(token := e'.token, leaseExpiresAt := e'.leaseExpiresAt)
  }

  /** The batch stands where the given entry says, and receipt k of that entry is lost. */
  ghost predicate Stalled(w: World, b: BatchId, e: B.Stored<Print, Result>, k: nat) {
    && B.ExecutingState(e.state) && e.fingerprint.policy.PerItemPolicy?
    && k < e.nextIndex == |e.receipts| <= |e.fingerprint.items|
    && b in w.batches.entries && SameButLease(e, w.batches.entries[b])
    && Lost(w.items, ItemIdentity(b, e.fingerprint.items[k].id), e.receipts[k])
  }

  /** A worker can do nothing for the batch but try to prove its receipts. */
  ghost predicate Harmless(w: World, v: Worker, b: BatchId)
    requires b in w.batches.entries
  {
    var e := w.batches.entries[b];
    match v
    case Proving(r, l) =>
      l.batch == b && l.token == e.token ==>
        l.resumed && l.nextIndex == e.nextIndex && l.receipts == e.receipts && r.items == e.fingerprint.items
    case Applying(_, l, _) => l.batch == b ==> l.token != e.token
    case Stopped(_, _) => true
  }

  ghost predicate AllHarmless(s: System, b: BatchId)
    requires b in s.world.batches.entries
  {
    forall id :: id in s.workers ==> Harmless(s.world, s.workers[id], b)
  }

  // ---------------------------------------------------------------- other batches leave its receipts alone

  /** No item receipt is new, except of one batch. */
  ghost predicate Quiet(t: ItemTableT, t': ItemTableT, b: BatchId) {
    forall id :: id in t'.entries && t'.entries[id].phase.Completed? && !OfBatch(id, b) ==>
      id in t.entries && t.entries[id].phase == t'.entries[id].phase
  }

  lemma QuietTwice(t: ItemTableT, u: ItemTableT, v: ItemTableT, b: BatchId)
    requires Quiet(t, u, b) && Quiet(u, v, b)
    ensures Quiet(t, v, b)
  {
  }

  lemma QuietHere(t: ItemTableT, b: BatchId)
    ensures Quiet(t, t, b)
  {
  }

  lemma QuietKeepsLost(t: ItemTableT, t': ItemTableT, other: BatchId, b: BatchId, itemId: string, receipt: Receipt)
    requires Quiet(t, t', other) && b != other && Lost(t, ItemIdentity(b, itemId), receipt)
    ensures Lost(t', ItemIdentity(b, itemId), receipt)
  {
  }

  lemma ReservingAdds(w: World, b: BatchId, item: Item, now: int, p: Policy, cap: Capacities)
    ensures NoNewReceipts(w.items, ReserveItem(w, b, item, now, p, cap).0.items)
  {
    ReserveItemFacts(w, b, item, now, p, cap);
  }

  lemma ReserveNextQuiet(w: World, l: Lease, item: Item, env: ItemEnv, p: Policy, cap: Capacities)
    ensures var a := ReserveNext(w, l, item, env, p, cap);
            a.Done? ==> a.value.0.batch == l.batch && Quiet(w.items, a.world.items, l.batch)
  {
    hide ReserveItem, RenewBatch;
    RenewBatchFacts(w, l, Some(item.id), env.renewAt, p);
    var r := RenewBatch(w, l, Some(item.id), env.renewAt, p);
    if r.Done? { ReservingAdds(r.world, l.batch, item, env.reserveAt, p, cap); }
  }

  lemma ExecuteQuiet(w: World, b: BatchId, item: Item, token: nat, env: ItemEnv, p: Policy)
    requires DecisionGood(w, b, item, I.Execute(token))
    ensures var a := ExecuteItem(w, b, item, token, env, p);
            a.Done? ==> Quiet(w.items, a.world.items, b)
  {
  }

  lemma ApplyReservedQuiet(w: World, l: Lease, item: Item, d: Decision, env: ItemEnv, p: Policy)
    requires (d.Execute? || d.Replay?) && DecisionGood(w, l.batch, item, d)
    ensures var a := ApplyReserved(w, l, item, d, env, p);
            a.Done? ==> a.value.0.batch == l.batch && Quiet(w.items, a.world.items, l.batch)
  {
    hide RenewBatch, ExecuteItem, AdvanceBatch, Quiet;
    QuietHere(w.items, l.batch);
    RenewBatchFacts(w, l, Some(item.id), env.renewAgainAt, p);
    var r := RenewBatch(w, l, Some(item.id), env.renewAgainAt, p);
    if r.Done? {
      if d.Replay? {
        AdvanceFacts(r.world, r.value, item.id, d.value.(replayed := true), env.advanceAt, p);
      } else {
        ExecuteQuiet(r.world, l.batch, item, d.token, env, p);
        var c := ExecuteItem(r.world, l.batch, item, d.token, env, p);
        if c.Done? { AdvanceFacts(c.world, r.value, item.id, c.value, env.advanceAt, p); }
      }
    }
  }

  lemma {:induction false} ProvePrefixQuiet(
    w: World, l: Lease, items: seq<Item>, k: nat, proven: seq<Receipt>, envs: nat -> PrefixEnv, p: Policy,
    cap: Capacities)
    requires k <= l.nextIndex == |l.receipts| <= |items|
    ensures var a := ProvePrefix(w, l, items, k, proven, envs, p, cap);
            a.Done? ==> a.value.0.batch == l.batch && Quiet(w.items, a.world.items, l.batch)
    decreases l.nextIndex - k
  {
    hide RenewBatch, ReserveItem, Quiet;
    QuietHere(w.items, l.batch);
    if k < l.nextIndex {
      RenewBatchFacts(w, l, Some(items[k].id), envs(k).renewAt, p);
      var r := RenewBatch(w, l, Some(items[k].id), envs(k).renewAt, p);
      if r.Done? {
        ReservingAdds(r.world, l.batch, items[k], envs(k).reserveAt, p, cap);
        var (w2, d) := ReserveItem(r.world, l.batch, items[k], envs(k).reserveAt, p, cap);
        NoneNewIsQuiet(w.items, w2.items, l.batch);
        if d == I.Replay(l.receipts[k]) {
          var more := proven + [l.receipts[k].(replayed := true)];
          ProvePrefixQuiet(w2, r.value, items, k + 1, more, envs, p, cap);
          var a := ProvePrefix(w2, r.value, items, k + 1, more, envs, p, cap);
          if a.Done? { QuietTwice(w.items, w2.items, a.world.items, l.batch); }
        }
      }
    }
  }

  lemma NoneNewIsQuiet(t: ItemTableT, t': ItemTableT, b: BatchId)
    requires NoNewReceipts(t, t')
    ensures Quiet(t, t', b)
  {
  }

  lemma ProveQuiet(w: World, l: Lease, items: seq<Item>, envs: nat -> PrefixEnv, p: Policy, cap: Capacities)
    requires l.nextIndex == |l.receipts| <= |items|
    ensures var a := Prove(w, l, items, envs, p, cap);
            a.Done? ==> a.value.0.batch == l.batch && Quiet(w.items, a.world.items, l.batch)
  {
    hide ProvePrefix;
    if l.resumed { ProvePrefixQuiet(w, l, items, 0, [], envs, p, cap); }
  }

  lemma {:induction false} ReserveAllQuiet(
    w: World, l: Lease, items: seq<Item>, k: nat, reserved: seq<Decision>, envs: nat -> ItemEnv, p: Policy,
    cap: Capacities)
    requires k <= |items| && forall d :: d in reserved ==> d.Execute? || d.Replay?
    ensures var a := ReserveAll(w, l, items, k, reserved, envs, p, cap);
            a.Done? ==> a.value.0.batch == l.batch && Quiet(w.items, a.world.items, l.batch)
    decreases |items| - k
  {
    hide ReserveNext, Quiet;
    QuietHere(w.items, l.batch);
    if k < |items| {
      ReserveNextQuiet(w, l, items[k], envs(k), p, cap);
      var r := ReserveNext(w, l, items[k], envs(k), p, cap);
      if r.Done? {
        ReserveAllQuiet(r.world, r.value.0, items, k + 1, reserved + [r.value.1], envs, p, cap);
        var a := ReserveAll(r.world, r.value.0, items, k + 1, reserved + [r.value.1], envs, p, cap);
        if a.Done? { QuietTwice(w.items, r.world.items, a.world.items, l.batch); }
      }
    }
  }

  lemma {:induction false} ApplyAllQuiet(
    w: World, l: Lease, items: seq<Item>, from: nat, ds: seq<Decision>, k: nat, receipts: seq<Receipt>,
    envs: nat -> ItemEnv, p: Policy)
    requires k <= |ds| && from + |ds| == |items| && DecisionsGood(w, l.batch, items, from, ds)
    ensures var a := ApplyAll(w, l, items, from, ds, k, receipts, envs, p);
            a.Done? ==> a.value.0.batch == l.batch && Quiet(w.items, a.world.items, l.batch)
    decreases |ds| - k
  {
    hide ApplyReserved, Quiet, DecisionGood;
    QuietHere(w.items, l.batch);
    if k < |ds| {
      ApplyReservedQuiet(w, l, items[from + k], ds[k], envs(from + k), p);
      var r := ApplyReserved(w, l, items[from + k], ds[k], envs(from + k), p);
      if r.Done? {
        forall j | 0 <= j < |ds| ensures DecisionGood(r.world, l.batch, items[from + j], ds[j]) {
          ApplyReservedKeepsDecision(w, l, items[from + k], ds[k], envs(from + k), p, items[from + j], ds[j]);
        }
        ApplyAllQuiet(r.world, r.value.0, items, from, ds, k + 1, receipts + [r.value.1], envs, p);
        var a := ApplyAll(r.world, r.value.0, items, from, ds, k + 1, receipts + [r.value.1], envs, p);
        if a.Done? { QuietTwice(w.items, r.world.items, a.world.items, l.batch); }
      }
    }
  }

  lemma ExecuteAllQuiet(w: World, births: map<BatchId, Birth>, l: Lease, items: seq<Item>, env: ExecEnv, p: Policy,
                        cap: Capacities)
    requires WorldGood(w, births) && l.nextIndex == |l.receipts| <= |items|
    ensures var a := ExecuteAll(w, l, items, env.prefix, env.items, env.finishRenewAt, env.finishAt, p, cap);
            a.Done? ==> Quiet(w.items, a.world.items, l.batch)
  {
    hide WorldGood, Prove, ReserveAll, ApplyAll, Finish, Quiet, DecisionsGood, Framed, SameProgress;
    ProveGood(w, births, l, items, env.prefix, p, cap);
    ProveQuiet(w, l, items, env.prefix, p, cap);
    var proved := Prove(w, l, items, env.prefix, p, cap);
    if proved.Done? {
      var l1 := proved.value.0;
      NoDecisions(proved.world, l1.batch, items, l1.nextIndex);
      ReserveAllGood(proved.world, births, l1, items, l1.nextIndex, [], env.items, p, cap);
      ReserveAllQuiet(proved.world, l1, items, l1.nextIndex, [], env.items, p, cap);
      var reserved := ReserveAll(proved.world, l1, items, l1.nextIndex, [], env.items, p, cap);
      if reserved.Done? {
        var l2, ds := reserved.value.0, reserved.value.1;
        QuietTwice(w.items, proved.world.items, reserved.world.items, l.batch);
        ApplyAllQuiet(reserved.world, l2, items, l1.nextIndex, ds, 0, proved.value.1, env.items, p);
        var applied := ApplyAll(reserved.world, l2, items, l1.nextIndex, ds, 0, proved.value.1, env.items, p);
        if applied.Done? {
          QuietTwice(w.items, reserved.world.items, applied.world.items, l.batch);
          FinishKeepsReceipts(applied.world, applied.value.0, env.finishRenewAt, env.finishAt, p);
        }
      }
    }
  }

  lemma NoDecisions(w: World, b: BatchId, items: seq<Item>, from: nat)
    requires from <= |items|
    ensures DecisionsGood(w, b, items, from, [])
  {
  }

  // ---------------------------------------------------------------- the proof fails

  /** A prefix with a lost receipt is never proved. */
  lemma {:induction false} LostIsNotProved(
    w: World, l: Lease, items: seq<Item>, j: nat, k: nat, proven: seq<Receipt>, envs: nat -> PrefixEnv, p: Policy,
    cap: Capacities)
    requires j <= k < l.nextIndex == |l.receipts| <= |items|
    requires Lost(w.items, ItemIdentity(l.batch, items[k].id), l.receipts[k])
    ensures ProvePrefix(w, l, items, j, proven, envs, p, cap).Raised?
    decreases l.nextIndex - j
  {
    hide RenewBatch, ReserveItem;
    RenewBatchFacts(w, l, Some(items[j].id), envs(j).renewAt, p);
    var r := RenewBatch(w, l, Some(items[j].id), envs(j).renewAt, p);
    if r.Done? {
      ReserveItemFacts(r.world, l.batch, items[j], envs(j).reserveAt, p, cap);
      ReservingAdds(r.world, l.batch, items[j], envs(j).reserveAt, p, cap);
      var (w2, d) := ReserveItem(r.world, l.batch, items[j], envs(j).reserveAt, p, cap);
      if d == I.Replay(l.receipts[j]) {
        LostIsNotProved(w2, r.value, items, j + 1, k, proven + [l.receipts[j].(replayed := true)], envs, p, cap);
      }
    }
  }

  // ---------------------------------------------------------------- every step keeps it stalled

  /** What a step may do to the world of a stalled batch: nothing to its entry, or a takeover under a new token. */
  ghost predicate Untouched(w: World, w': World, b: BatchId) {
    && b in w.batches.entries && b in w'.batches.entries
    && var e, e' := w.batches.entries[b], w'.batches.entries[b];
       && (e' == e || (SameButLease(e, e') && e'.token >= w.batches.issued))
  }

  /** Harmless workers stay so: the token of the batch is the old one, or newer than any that they hold. */
  lemma StayHarmless(s: System, w': World, b: BatchId)
    requires SystemGood(s) && Untouched(s.world, w', b) && AllHarmless(s, b)
    ensures forall id :: id in s.workers ==> Harmless(w', s.workers[id], b)
  {
    hide WorldGood, EntryGood, ReceiptsGood;
    forall id | id in s.workers ensures Harmless(w', s.workers[id], b) {
      assert Harmless(s.world, s.workers[id], b) && WorkerGood(s.world, s.workers[id]);
    }
  }

  lemma StaysStalled(w: World, w': World, b: BatchId, e: B.Stored<Print, Result>, k: nat)
    requires Stalled(w, b, e, k) && Untouched(w, w', b)
    requires Lost(w'.items, ItemIdentity(b, e.fingerprint.items[k].id), e.receipts[k])
    ensures Stalled(w', b, e, k)
  {
  }

  lemma RestoreUntouched(w: World, w': World, b: BatchId)
    requires b in w.batches.entries
    ensures Untouched(w, Restore(w, w'), b) && Restore(w, w').items.entries == w.items.entries
  {
  }

  lemma FramedUntouched(w: World, w': World, other: BatchId, b: BatchId)
    requires Framed(w, w', other) && b != other && b in w.batches.entries
    ensures Untouched(w, w', b)
  {
  }

  /** A begin takes the batch over, with its receipts, or leaves it alone. */
  lemma BeginUntouched(w: World, r: Request, policy: BatchPolicy, now: int, cap: Capacities, b: BatchId,
                       e: B.Stored<Print, Result>, k: nat)
    requires Stalled(w, b, e, k)
    ensures var (w1, begun) := BeginBatch(w, r, policy, now, cap);
            && Untouched(w, w1, b) && w1.items == w.items
            && (begun.Leased? && r.batch == b ==>
                  && policy.PerItemPolicy? && r.items == e.fingerprint.items
                  && begun.lease == B.LeaseOf(b, w1.batches.entries[b], true))
            && (begun.Leased? && r.batch != b ==> begun.lease.batch != b)
  {
    hide Lost;
  }

  lemma StartStalled(s: System, id: nat, r: Request, now: int, cap: Capacities, b: BatchId,
                     e: B.Stored<Print, Result>, k: nat)
    requires SystemGood(s) && Stalled(s.world, b, e, k) && AllHarmless(s, b)
    ensures var s' := StartStep(s, id, r, now, cap);
            Stalled(s'.world, b, e, k) && AllHarmless(s', b)
  {
    hide SystemGood, BeginBatch, Untouched, Lost;
    BeginUntouched(s.world, r, PerItemPolicy, now, cap, b, e, k);
    var s' := StartStep(s, id, r, now, cap);
    StaysStalled(s.world, s'.world, b, e, k);
    StayHarmless(s, s'.world, b);
  }

  lemma ProveSuperseded(w: World, l: Lease, items: seq<Item>, envs: nat -> PrefixEnv, p: Policy, cap: Capacities)
    requires Superseded(w, l) && l.nextIndex == |l.receipts| <= |items|
    ensures var a := Prove(w, l, items, envs, p, cap);
            a.Done? ==> a.world == w && a.value.0 == l
  {
  }

  lemma ProveStalled(s: System, id: nat, prefix: nat -> PrefixEnv, cap: Capacities, b: BatchId,
                     e: B.Stored<Print, Result>, k: nat)
    requires SystemGood(s) && Stalled(s.world, b, e, k) && AllHarmless(s, b)
    requires id in s.workers && s.workers[id].Proving?
    ensures var s' := ProveStep(s, id, prefix, cap);
            Stalled(s'.world, b, e, k) && AllHarmless(s', b)
  {
    hide WorldGood, Prove, Untouched, Framed, Quiet, EntryGood;
    var v := s.workers[id];
    var l, items, p := v.lease, v.request.items, v.request.policy;
    assert WorkerGood(s.world, v) && Harmless(s.world, v, b);
    var a := Prove(s.world, l, items, prefix, p, cap);
    ProveGood(s.world, s.births, l, items, prefix, p, cap);
    RestoreUntouched(s.world, a.world, b);
    if a.Raised? {
      StaysStalled(s.world, Restore(s.world, a.world), b, e, k);
      StayHarmless(s, Restore(s.world, a.world), b);
    } else if l.batch != b {
      ProveQuiet(s.world, l, items, prefix, p, cap);
      FramedUntouched(s.world, a.world, l.batch, b);
      QuietKeepsLost(s.world.items, a.world.items, l.batch, b, e.fingerprint.items[k].id, e.receipts[k]);
      StaysStalled(s.world, a.world, b, e, k);
      StayHarmless(s, a.world, b);
    } else if l.token == s.world.batches.entries[b].token {
      ProveLost(s.world, l, items, k, prefix, p, cap);
    } else {
      ProveSuperseded(s.world, l, items, prefix, p, cap);
    }
  }

  lemma ProveLost(w: World, l: Lease, items: seq<Item>, k: nat, envs: nat -> PrefixEnv, p: Policy, cap: Capacities)
    requires l.resumed && k < l.nextIndex == |l.receipts| <= |items|
    requires Lost(w.items, ItemIdentity(l.batch, items[k].id), l.receipts[k])
    ensures Prove(w, l, items, envs, p, cap).Raised?
  {
    hide ProvePrefix;
    LostIsNotProved(w, l, items, 0, k, [], envs, p, cap);
  }

  /** An item transaction of another batch leaves this one alone, and its receipts. */
  lemma OtherItemQuiet(w: World, births: map<BatchId, Birth>, l: Lease, item: Item, env: ItemEnv, p: Policy,
                       cap: Capacities)
    requires WorldGood(w, births)
    ensures var a := ApplyItem(w, l, item, env, p, cap);
            a.Done? ==> a.value.0.batch == l.batch && Framed(w, a.world, l.batch)
                        && Quiet(w.items, a.world.items, l.batch)
  {
    hide WorldGood, ReserveNext, ApplyReserved, Quiet, Framed;
    ReserveNextGood(w, births, l, item, env, p, cap);
    ReserveNextQuiet(w, l, item, env, p, cap);
    var r := ReserveNext(w, l, item, env, p, cap);
    if r.Done? {
      ApplyReservedQuiet(r.world, r.value.0, item, r.value.1, env, p);
      ApplyReservedFrame(r.world, r.value.0, item, r.value.1, env, p);
      var a := ApplyReserved(r.world, r.value.0, item, r.value.1, env, p);
      if a.Done? {
        QuietTwice(w.items, r.world.items, a.world.items, l.batch);
        FramedTrans(w, r.world, a.world, l.batch);
      }
    }
  }

  lemma ItemStalled(s: System, id: nat, env: ItemEnv, cap: Capacities, b: BatchId, e: B.Stored<Print, Result>, k: nat)
    requires SystemGood(s) && Stalled(s.world, b, e, k) && AllHarmless(s, b)
    requires id in s.workers && s.workers[id].Applying? && s.workers[id].lease.nextIndex < |s.workers[id].request.items|
    ensures var s' := ItemStep(s, id, env, cap);
            Stalled(s'.world, b, e, k) && AllHarmless(s', b)
  {
    hide WorldGood, ApplyItem, Untouched, Framed, Quiet, EntryGood, ReceiptsGood, Prove, Finish;
    var v := s.workers[id];
    var l, item, p := v.lease, v.request.items[v.lease.nextIndex], v.request.policy;
    assert WorkerGood(s.world, v) && Harmless(s.world, v, b);
    var a := ApplyItem(s.world, l, item, env, p, cap);
    RestoreUntouched(s.world, a.world, b);
    OtherItemQuiet(s.world, s.births, l, item, env, p, cap);
    if a.Done? && l.batch == b { SupersededItem(s.world, l, item, env, p, cap); }
    if a.Raised? {
      StaysStalled(s.world, Restore(s.world, a.world), b, e, k);
      StayHarmless(s, Restore(s.world, a.world), b);
    } else {
      FramedUntouched(s.world, a.world, l.batch, b);
      QuietKeepsLost(s.world.items, a.world.items, l.batch, b, e.fingerprint.items[k].id, e.receipts[k]);
      StaysStalled(s.world, a.world, b, e, k);
      StayHarmless(s, a.world, b);
    }
  }

  lemma SupersededItem(w: World, l: Lease, item: Item, env: ItemEnv, p: Policy, cap: Capacities)
    requires Superseded(w, l)
    ensures ApplyItem(w, l, item, env, p, cap).Raised?
  {
  }

  lemma SupersededFinish(w: World, l: Lease, renewAt: int, completeAt: int, p: Policy)
    requires Superseded(w, l)
    ensures Finish(w, l, renewAt, completeAt, p) == (w, false)
  {
  }

  lemma FinishStalled(s: System, id: nat, renewAt: int, completeAt: int, b: BatchId, e: B.Stored<Print, Result>, k: nat)
    requires SystemGood(s) && Stalled(s.world, b, e, k) && AllHarmless(s, b)
    requires id in s.workers && s.workers[id].Applying?
    ensures var s' := FinishStep(s, id, renewAt, completeAt);
            Stalled(s'.world, b, e, k) && AllHarmless(s', b)
  {
    hide WorldGood, Finish, Untouched, Framed, EntryGood, ReceiptsGood;
    var v := s.workers[id];
    var l, p := v.lease, v.request.policy;
    assert Harmless(s.world, v, b);
    if l.batch == b {
      SupersededFinish(s.world, l, renewAt, completeAt, p);
    } else {
      FinishFacts(s.world, l, renewAt, completeAt, p);
      var w' := Finish(s.world, l, renewAt, completeAt, p).0;
      FramedUntouched(s.world, w', l.batch, b);
      StaysStalled(s.world, w', b, e, k);
      StayHarmless(s, w', b);
    }
  }

  lemma AllOrNothingUntouched(s: System, r: Request, env: ExecEnv, cap: Capacities, b: BatchId,
                              e: B.Stored<Print, Result>, k: nat)
    requires SystemGood(s) && Stalled(s.world, b, e, k) && DistinctIds(r.items)
    ensures var w' := AllOrNothing(s.world, r, env, cap).0;
            Untouched(s.world, w', b) && Stalled(w', b, e, k)
  {
    hide WorldGood, ExecuteAll, BeginBatch, Untouched, Framed, Quiet, EntryGood, LeaseGood, ReceiptsGood, WorkerGood;
    var w, births := s.world, s.births;
    GoodIsLinked(w, births);
    BeginUntouched(w, r, AllOrNothingPolicy, env.beginAt, cap, b, e, k);
    BeginGood(w, births, r, AllOrNothingPolicy, env.beginAt, cap);
    BeginFacts(w, births, r, AllOrNothingPolicy, env.beginAt, cap);
    var (w1, begun) := BeginBatch(w, r, AllOrNothingPolicy, env.beginAt, cap);
    RestoreUntouched(w, w1, b);
    StaysStalled(w, w1, b, e, k);
    if !begun.Leased? {
      StaysStalled(w, Restore(w, w1), b, e, k);
    } else {
      var births1, l := Born(births, begun, r.batch, |w.effects|), begun.lease;
      LeaseFitsItems(w, r, AllOrNothingPolicy, env.beginAt, cap);
      ExecuteAllGood(w1, births1, l, r.items, env, r.policy, cap);
      ExecuteAllQuiet(w1, births1, l, r.items, env, r.policy, cap);
      var a := ExecuteAll(w1, l, r.items, env.prefix, env.items, env.finishRenewAt, env.finishAt, r.policy, cap);
      RestoreUntouched(w, a.world, b);
      if a.Raised? {
        StaysStalled(w, Restore(w, a.world), b, e, k);
      } else {
        FramedUntouched(w1, a.world, l.batch, b);
        QuietKeepsLost(w1.items, a.world.items, l.batch, b, e.fingerprint.items[k].id, e.receipts[k]);
        StaysStalled(w1, a.world, b, e, k);
        UntouchedTwice(w, w1, a.world, b);
      }
    }
  }

  lemma UntouchedTwice(w: World, w1: World, w2: World, b: BatchId)
    requires Untouched(w, w1, b) && Untouched(w1, w2, b) && w.batches.issued <= w1.batches.issued
    ensures Untouched(w, w2, b)
  {
  }

  lemma PurgesStalled(s: System, gone: set<BatchId>, goneItems: set<I.Identity>, cutoff: int, all: bool, b: BatchId,
                      e: B.Stored<Print, Result>, k: nat)
    requires Stalled(s.world, b, e, k) && AllHarmless(s, b)
    requires forall c :: c in gone && c in s.world.batches.entries ==> B.Purgeable(s.world.batches.entries[c], cutoff, all)
    ensures var s1 := s.(world := s.world.(batches := B.Without(s.world.batches, gone)));
            Stalled(s1.world, b, e, k) && AllHarmless(s1, b)
    ensures var s2 := s.(world := s.world.(items := I.Without(s.world.items, goneItems)));
            Stalled(s2.world, b, e, k) && AllHarmless(s2, b)
  {
    forall id | id in s.workers ensures Harmless(s.world, s.workers[id], b) {}
  }

  lemma StepStalled(s: System, ev: Event, cap: Capacities, b: BatchId, e: B.Stored<Print, Result>, k: nat)
    requires SystemGood(s) && Stalled(s.world, b, e, k) && AllHarmless(s, b)
    ensures Stalled(Step(s, ev, cap).world, b, e, k) && AllHarmless(Step(s, ev, cap), b)
  {
    hide SystemGood, Stalled, Harmless, StartStep, ProveStep, ItemStep, FinishStep, AllOrNothing, BeginBatch,
         DistinctIds,
         B.Linked, B.Purgeable, I.Purgeable;
    InTable(s, b, e, k);
    match ev
    case Start(id, r, now) => if id !in s.workers && DistinctIds(r.items) { StartStalled(s, id, r, now, cap, b, e, k); }
    case ProveTx(id, prefix) =>
      if id in s.workers && s.workers[id].Proving? { ProveStalled(s, id, prefix, cap, b, e, k); }
    case ItemTx(id, env) =>
      if id in s.workers && s.workers[id].Applying? { ItemOrNothing(s, id, env, cap, b, e, k); }
    case FinishTx(id, renewAt, completeAt) =>
      if id in s.workers && s.workers[id].Applying? { FinishStalled(s, id, renewAt, completeAt, b, e, k); }
    case Crash(id) => CrashStalled(s, id, b);
    case AllOrNothingTx(r, exec) =>
      if DistinctIds(r.items) { AllOrNothingStalled(s, r, exec, cap, b, e, k); }
    case PurgeBatches(gone, cutoff, all) =>
      if forall c :: c in gone && c in s.world.batches.entries ==> B.Purgeable(s.world.batches.entries[c], cutoff, all) {
        PurgesStalled(s, gone, {}, cutoff, all, b, e, k);
      }
    case PurgeItems(gone, cutoff, all) => PurgesStalled(s, {}, gone, cutoff, all, b, e, k);
  }

  lemma InTable(s: System, b: BatchId, e: B.Stored<Print, Result>, k: nat)
    requires Stalled(s.world, b, e, k)
    ensures b in s.world.batches.entries
  {
  }

  lemma ItemOrNothing(s: System, id: nat, env: ItemEnv, cap: Capacities, b: BatchId, e: B.Stored<Print, Result>, k: nat)
    requires SystemGood(s) && Stalled(s.world, b, e, k) && AllHarmless(s, b)
    requires id in s.workers && s.workers[id].Applying?
    ensures var s' := ItemStep(s, id, env, cap);
            Stalled(s'.world, b, e, k) && AllHarmless(s', b)
  {
    hide SystemGood, Harmless, ApplyItem, Lost;
    if s.workers[id].lease.nextIndex < |s.workers[id].request.items| { ItemStalled(s, id, env, cap, b, e, k); }
  }

  lemma CrashStalled(s: System, id: nat, b: BatchId)
    requires b in s.world.batches.entries && AllHarmless(s, b)
    ensures id in s.workers ==> AllHarmless(s.(workers := s.workers[id := Stopped(s.workers[id].request, Crashed)]), b)
  {
  }

  lemma AllOrNothingStalled(s: System, r: Request, exec: ExecEnv, cap: Capacities, b: BatchId,
                            e: B.Stored<Print, Result>, k: nat)
    requires SystemGood(s) && Stalled(s.world, b, e, k) && AllHarmless(s, b) && DistinctIds(r.items)
    ensures var s' := AllOrNothingStep(s, r, exec, cap);
            Stalled(s'.world, b, e, k) && AllHarmless(s', b)
  {
    hide Stalled, Harmless, AllOrNothing, BeginBatch, WorldGood, WorkerGood, NoneHalfWay, Untouched;
    InTable(s, b, e, k);
    AllOrNothingUntouched(s, r, exec, cap, b, e, k);
    GoodIsLinked(s.world, s.births);
    var w' := AllOrNothing(s.world, r, exec, cap).0;
    StayHarmless(s, w', b);
    InTable(s.(world := w'), b, e, k);
  }

  lemma {:induction false} RunStalled(s: System, events: seq<Event>, cap: Capacities, b: BatchId,
                                      e: B.Stored<Print, Result>, k: nat)
    requires SystemGood(s) && Stalled(s.world, b, e, k) && AllHarmless(s, b)
    ensures Stalled(Run(s, events, cap).world, b, e, k)
    decreases |events|
  {
    hide SystemGood, Stalled, Harmless, Step;
    if events != [] {
      StepKeepsGood(s, events[0], cap);
      StepStalled(s, events[0], cap, b, e, k);
      InTable(s, b, e, k);
      InTable(Step(s, events[0], cap), b, e, k);
      RunStalled(Step(s, events[0], cap), events[1..], cap, b, e, k);
    }
  }

  // ---------------------------------------------------------------- theorems

  /** Once a receipt of a per-item batch has left the item store, and no worker holds the current lease of the
    * batch, no run ever completes, marks or removes it, or moves its progress: every later lease ends in a failed
    * proof, whose mark does not last. */
  lemma StalledForever(s: System, events: seq<Event>, cap: Capacities, b: BatchId, k: nat)
    requires SystemGood(s) && b in s.world.batches.entries
    requires var e := s.world.batches.entries[b];
             && B.ExecutingState(e.state) && e.fingerprint.policy.PerItemPolicy? && k < e.nextIndex
             && k < |e.receipts| && k < |e.fingerprint.items|
             && Lost(s.world.items, ItemIdentity(b, e.fingerprint.items[k].id), e.receipts[k])
             && forall id :: id in s.workers && !s.workers[id].Stopped? && s.workers[id].lease.batch == b ==>
                  s.workers[id].lease.token != e.token
    ensures var e, w := s.world.batches.entries[b], Run(s, events, cap).world;
            && b in w.batches.entries
            && w.batches.entries[b].state == e.state && w.batches.entries[b].fingerprint == e.fingerprint
            && w.batches.entries[b].nextIndex == e.nextIndex && w.batches.entries[b].receipts == e.receipts
  {
    hide Run, Step, Lost;
    var e := s.world.batches.entries[b];
    assert EntryGood(b, e, s.world.effects, s.births[b]);
    RunStalled(s, events, cap, b, e, k);
  }

  // ---------------------------------------------------------------- a run that ends there

  const BRIEF := Policy(10, 10, 10)

  /** Every reading of the item's transaction is 1; the mutation answers. */
  function Once(result: Result): ItemEnv {
    ItemEnv(1, 1, 1, 1, 1, 1, Some(result))
  }

  /** The entry of a batch of one item, before the item and after it. */
  function NewEntry(item: Item, until: int): B.Stored<Print, Result> {
    B.Stored(Print(PerItemPolicy, [item]), 1, 0, B.Processing, 0, [], until, None, None)
  }

  function HalfDone(item: Item, receipt: Receipt): B.Stored<Print, Result> {
    NewEntry(item, 11).(state := B.PartiallyCommitted, nextIndex := 1, receipts := [receipt])
  }

  function OneBatch(b: BatchId, e: B.Stored<Print, Result>): BatchTableT {
    B.Table(map[b := e], map[e.token := b], e.token + 1)
  }

  function OneItem(b: BatchId, item: Item, phase: I.Phase<Receipt>): ItemTableT {
    var id := ItemIdentity(b, item.id);
    I.Table(map[id := I.Entry(0, item.payload, 11, phase)], map[0 := id], 1)
  }

  const NO_ITEMS: ItemTableT := I.Table(map[], map[], 0)

  lemma FirstBegun(b: BatchId, item: Item, cap: Capacities)
    requires cap.batches > 0
    ensures BeginBatch(EMPTY, Request(b, [item], BRIEF), PerItemPolicy, 0, cap)
            == (World(OneBatch(b, NewEntry(item, 10)), NO_ITEMS, []),
                B.Leased(B.LeaseOf(b, NewEntry(item, 10), false)))
  {
    assert B.PurgeTerminal(EMPTY.batches, 0) == EMPTY.batches;
  }

  lemma FirstReserved(b: BatchId, item: Item, result: Result, cap: Capacities)
    requires cap.items > 0
    ensures ReserveNext(World(OneBatch(b, NewEntry(item, 10)), NO_ITEMS, []), B.LeaseOf(b, NewEntry(item, 10), false),
                        item, Once(result), BRIEF, cap)
            == Done(World(OneBatch(b, NewEntry(item, 11)), OneItem(b, item, I.Reserved), []),
                    (B.LeaseOf(b, NewEntry(item, 11), false), I.Execute(0)))
  {
    assert I.Purged(NO_ITEMS, 1) == NO_ITEMS;
    assert map[b := NewEntry(item, 10)][b := NewEntry(item, 11)] == map[b := NewEntry(item, 11)];
  }

  lemma FirstExecuted(w: World, b: BatchId, item: Item, result: Result)
    requires w.items == OneItem(b, item, I.Reserved)
    ensures var receipt := B.Receipt(item.id, result, false);
            ExecuteItem(w, b, item, 0, Once(result), BRIEF)
            == Done(World(w.batches, OneItem(b, item, I.Completed(receipt)), w.effects + [Effect(b, item, result)]), receipt)
  {
    var receipt := B.Receipt(item.id, result, false);
    var id := ItemIdentity(b, item.id);
    assert I.Renew(w.items, 0, 1, 10).0.entries == w.items.entries;
    assert I.Complete(w.items, 0, receipt, 1, 10).0.entries == OneItem(b, item, I.Completed(receipt)).entries;
  }

  lemma FirstApplied(b: BatchId, item: Item, result: Result)
    ensures var receipt := B.Receipt(item.id, result, false);
            ApplyReserved(World(OneBatch(b, NewEntry(item, 11)), OneItem(b, item, I.Reserved), []),
                          B.LeaseOf(b, NewEntry(item, 11), false), item, I.Execute(0), Once(result), BRIEF)
            == Done(World(OneBatch(b, HalfDone(item, receipt)), OneItem(b, item, I.Completed(receipt)),
                          [Effect(b, item, result)]),
                    (B.LeaseOf(b, HalfDone(item, receipt), false), receipt))
  {
    hide ExecuteItem, OneItem, RenewBatch, AdvanceBatch;
    var receipt := B.Receipt(item.id, result, false);
    var w := World(OneBatch(b, NewEntry(item, 11)), OneItem(b, item, I.Reserved), []);
    FirstExecuted(w, b, item, result);
    FirstRenewed(w, b, item);
    FirstAdvanced(World(w.batches, OneItem(b, item, I.Completed(receipt)), [Effect(b, item, result)]), b, item, receipt);
    assert w.effects + [Effect(b, item, result)] == [Effect(b, item, result)];
  }

  lemma FirstRenewed(w: World, b: BatchId, item: Item)
    requires w.batches == OneBatch(b, NewEntry(item, 11))
    ensures var l := B.LeaseOf(b, NewEntry(item, 11), false);
            RenewBatch(w, l, Some(item.id), 1, BRIEF) == Done(w, l)
  {
    assert w.batches.entries[b := NewEntry(item, 11)] == w.batches.entries;
  }

  lemma FirstAdvanced(w: World, b: BatchId, item: Item, receipt: Receipt)
    requires w.batches == OneBatch(b, NewEntry(item, 11)) && !receipt.replayed
    ensures AdvanceBatch(w, B.LeaseOf(b, NewEntry(item, 11), false), item.id, receipt, 1, BRIEF)
            == Done(w.(batches := OneBatch(b, HalfDone(item, receipt))),
                    (B.LeaseOf(b, HalfDone(item, receipt), false), receipt))
  {
    assert receipt.(replayed := false) == receipt && [] + [receipt] == [receipt];
    assert w.batches.entries[b := HalfDone(item, receipt)] == map[b := HalfDone(item, receipt)];
  }

  /** One worker commits the one item of a batch, and crashes before it completes the batch. */
  lemma ItemCommitted(b: BatchId, item: Item, result: Result, prefix: nat -> PrefixEnv, cap: Capacities)
    requires cap.batches > 0 && cap.items > 0
    ensures var r := Request(b, [item], BRIEF);
            var receipt := B.Receipt(item.id, result, false);
            var s2 := Step(Step(INITIAL, Start(1, r, 0), cap), ProveTx(1, prefix), cap);
            var s4 := Step(Step(s2, ItemTx(1, Once(result)), cap), Crash(1), cap);
            && s4.world == World(OneBatch(b, HalfDone(item, receipt)), OneItem(b, item, I.Completed(receipt)),
                                 [Effect(b, item, result)])
            && s4.workers == map[1 := Stopped(r, Crashed)]
  {
    hide BeginBatch, ReserveNext, ApplyReserved, OneBatch, OneItem, HalfDone;
    var r, receipt := Request(b, [item], BRIEF), B.Receipt(item.id, result, false);
    FirstBegun(b, item, cap);
    FirstReserved(b, item, result, cap);
    FirstApplied(b, item, result);
    var s1 := Step(INITIAL, Start(1, r, 0), cap);
    assert s1.workers == map[1 := Proving(r, B.LeaseOf(b, NewEntry(item, 10), false))];
    var s2 := Step(s1, ProveTx(1, prefix), cap);
    assert s2.world == s1.world;
    assert s2.workers == map[1 := Applying(r, B.LeaseOf(b, NewEntry(item, 10), false), [])];
    var s3 := Step(s2, ItemTx(1, Once(result)), cap);
    assert s3.world.effects == [Effect(b, item, result)];
  }

  /** Much later: the readings of a proof. */
  function Late(j: nat): PrefixEnv {
    PrefixEnv(101, 102, 103, 104)
  }

  /** The batch under the lease of a second worker. */
  function TakenOver(item: Item, receipt: Receipt, until: int): B.Stored<Print, Result> {
    HalfDone(item, receipt).(token := 1, leaseExpiresAt := until)
  }

  lemma SecondBegun(w: World, b: BatchId, item: Item, receipt: Receipt, cap: Capacities)
    requires w.batches == OneBatch(b, HalfDone(item, receipt))
    ensures BeginBatch(w, Request(b, [item], BRIEF), PerItemPolicy, 100, cap)
            == (w.(batches := OneBatch(b, TakenOver(item, receipt, 110))),
                B.Leased(B.LeaseOf(b, TakenOver(item, receipt, 110), true)))
  {
    assert B.PurgeTerminal(w.batches, 100) == w.batches;
    assert (w.batches.tokens - {0})[1 := b] == map[1 := b];
    assert w.batches.entries[b := TakenOver(item, receipt, 110)] == map[b := TakenOver(item, receipt, 110)];
  }

  lemma SecondRenewed(w: World, b: BatchId, item: Item, receipt: Receipt)
    requires w.batches == OneBatch(b, TakenOver(item, receipt, 110))
    ensures RenewBatch(w, B.LeaseOf(b, TakenOver(item, receipt, 110), true), Some(item.id), 101, BRIEF)
            == Done(w.(batches := OneBatch(b, TakenOver(item, receipt, 111))),
                    B.LeaseOf(b, TakenOver(item, receipt, 111), true))
  {
    assert w.batches.entries[b := TakenOver(item, receipt, 111)] == map[b := TakenOver(item, receipt, 111)];
  }

  lemma SecondReserved(w: World, b: BatchId, item: Item, cap: Capacities)
    requires w.items.entries == map[] && cap.items > 0
    ensures ReserveItem(w, b, item, 102, BRIEF, cap).1 == I.Execute(w.items.issued)
  {
    assert I.Purged(w.items, 102).entries == map[];
  }

  /** The second worker cannot prove the receipt: it marks the batch and raises, for want of the receipt. */
  lemma SecondFails(w: World, b: BatchId, item: Item, receipt: Receipt, cap: Capacities)
    requires w.batches == OneBatch(b, TakenOver(item, receipt, 110)) && w.items.entries == map[] && cap.items > 0
    ensures var a := Prove(w, B.LeaseOf(b, TakenOver(item, receipt, 110), true), [item], Late, BRIEF, cap);
            && a.Raised? && a.failure == Uncertain(Some(item.id), PROOF_REASON)
            && b in a.world.batches.entries && a.world.batches.entries[b].state == B.Uncertain
  {
    hide RenewBatch, ReserveItem, OneBatch;
    var l := B.LeaseOf(b, TakenOver(item, receipt, 110), true);
    SecondRenewed(w, b, item, receipt);
    var r := RenewBatch(w, l, Some(item.id), 101, BRIEF);
    SecondReserved(r.world, b, item, cap);
    ReserveItemFacts(r.world, b, item, 102, BRIEF, cap);
    var (w2, d) := ReserveItem(r.world, b, item, 102, BRIEF, cap);
    Marked(w2.batches, b, item, receipt);
    assert [item][0] == item;
  }

  lemma Marked(t: BatchTableT, b: BatchId, item: Item, receipt: Receipt)
    requires t == OneBatch(b, TakenOver(item, receipt, 111))
    ensures var u := B.MarkUncertain(t, B.LeaseOf(b, TakenOver(item, receipt, 111), true), PROOF_REASON, 104, 10).0;
            b in u.entries && u.entries[b].state == B.Uncertain
  {
  }

  /** The events: the first worker commits the item and crashes, its receipt is removed after its retention, and a
    * second worker takes the batch over and fails to prove it. */
  function Failing(b: BatchId, item: Item, result: Result): seq<Event> {
    var r := Request(b, [item], BRIEF);
    [Start(1, r, 0), ProveTx(1, Late), ItemTx(1, Once(result)), Crash(1),
     PurgeItems({ItemIdentity(b, item.id)}, 50, false), Start(2, r, 100), ProveTx(2, Late)]
  }

  lemma SevenSteps(s: System, es: seq<Event>, cap: Capacities)
    requires |es| == 7
    ensures Run(s, es, cap) == Step(Step(Step(Step(Step(Step(Step(
              s, es[0], cap), es[1], cap), es[2], cap), es[3], cap), es[4], cap), es[5], cap), es[6], cap)
  {
    hide Step;
    var s2 := Step(Step(s, es[0], cap), es[1], cap);
    var s4 := Step(Step(s2, es[2], cap), es[3], cap);
    var s6 := Step(Step(s4, es[4], cap), es[5], cap);
    assert es[1..][1..] == es[2..] && es[2..][1..] == es[3..] && es[3..][1..] == es[4..];
    assert es[4..][1..] == es[5..] && es[5..][1..] == es[6..] && es[6..][1..] == [];
    assert Run(s, es, cap) == Run(s2, es[2..], cap);
    assert Run(s2, es[2..], cap) == Run(s4, es[4..], cap);
    assert Run(s4, es[4..], cap) == Run(s6, es[6..], cap);
    assert Run(s6, es[6..], cap) == Run(Step(s6, es[6], cap), [], cap);
  }

  /** From where the first worker crashed: the receipt is removed, and the second worker's proof fails. */
  lemma SecondWorker(s: System, b: BatchId, item: Item, receipt: Receipt, cap: Capacities)
    requires s.world.batches == OneBatch(b, HalfDone(item, receipt))
    requires s.world.items == OneItem(b, item, I.Completed(receipt)) && 2 !in s.workers && cap.items > 0
    ensures var r, id := Request(b, [item], BRIEF), ItemIdentity(b, item.id);
            var s5 := Step(s, PurgeItems({id}, 50, false), cap);
            var s7 := Step(Step(s5, Start(2, r, 100), cap), ProveTx(2, Late), cap);
            && s7.workers == s.workers[2 := Stopped(r, Uncertain(Some(item.id), PROOF_REASON))]
            && s7.world.batches.entries == map[b := TakenOver(item, receipt, 110)]
            && s7.world.items.entries == map[] && s7.world.effects == s.world.effects
  {
    hide BeginBatch, Prove, OneBatch, TakenOver;
    var r, id := Request(b, [item], BRIEF), ItemIdentity(b, item.id);
    var s5 := Step(s, PurgeItems({id}, 50, false), cap);
    assert s5.world.items.entries == map[] && s5.world.batches == s.world.batches && s5.workers == s.workers;
    SecondBegun(s5.world, b, item, receipt, cap);
    var s6 := Step(s5, Start(2, r, 100), cap);
    var l := B.LeaseOf(b, TakenOver(item, receipt, 110), true);
    assert s6.workers == s.workers[2 := Proving(r, l)];
    TakenOverHas(b, item, receipt);
    SecondFails(s6.world, b, item, receipt, cap);
  }

  lemma TakenOverHas(b: BatchId, item: Item, receipt: Receipt)
    ensures var l := B.LeaseOf(b, TakenOver(item, receipt, 110), true);
            l.nextIndex == 1 && l.receipts == [receipt] && l.batch == b && l.resumed && l.token == 1
    ensures OneBatch(b, TakenOver(item, receipt, 110)).entries == map[b := TakenOver(item, receipt, 110)]
  {
  }

  /** A run that contradicts the documentation: a proof fails and the worker reports the batch as uncertain, but its
    * entry is not; and in whatever goes on from there it is never uncertain, completed or removed. */
  lemma ProofFails(b: BatchId, item: Item, result: Result, more: seq<Event>, cap: Capacities)
    requires cap.batches > 0 && cap.items > 0
    ensures var s := Run(INITIAL, Failing(b, item, result), cap);
            && 2 in s.workers && s.workers[2].Stopped?
            && s.workers[2].result == Uncertain(Some(item.id), PROOF_REASON)
            && s.world.effects == [Effect(b, item, result)]
            && b in s.world.batches.entries && s.world.batches.entries[b].state == B.PartiallyCommitted
            && var w := Run(s, more, cap).world;
               b in w.batches.entries && w.batches.entries[b].state == B.PartiallyCommitted
               && w.batches.entries[b].nextIndex == 1
  {
    hide Run, Step, OneItem, OneBatch;
    var receipt := B.Receipt(item.id, result, false);
    ItemCommitted(b, item, result, Late, cap);
    var r := Request(b, [item], BRIEF);
    var s2 := Step(Step(INITIAL, Start(1, r, 0), cap), ProveTx(1, Late), cap);
    SecondWorker(Step(Step(s2, ItemTx(1, Once(result)), cap), Crash(1), cap), b, item, receipt, cap);
    SevenSteps(INITIAL, Failing(b, item, result), cap);
    ReachableGood(Failing(b, item, result), cap);
    StalledForever(Run(INITIAL, Failing(b, item, result), cap), more, cap, b, 0);
  }
}
