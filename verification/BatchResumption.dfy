/** Takeovers in time: a partially committed batch is proved, its remaining items are applied, and it is completed. */
module BatchResumption {
  import opened Prelude
  import opened BatchProtocol
  import opened BatchInvariant
  import opened BatchSteps
  import opened BatchRuns
  import opened BatchAtomicity
  import opened BatchTheorems
  import opened BatchRetention
  import opened BatchLedger
  import B = BatchTable
  import I = IdempotencyTable

  // ---------------------------------------------------------------- readings in time

  /** Each renewal of the lease comes before the previous one ends. */
  predicate PrefixSteady(prefix: nat -> PrefixEnv, k: nat, n: nat, last: int, ttl: int)
    decreases n - k
  {
    k >= n || (prefix(k).renewAt < last + ttl && PrefixSteady(prefix, k + 1, n, prefix(k).renewAt, ttl))
  }

  /** The reading of the last renewal of a proof. */
  function LastProof(prefix: nat -> PrefixEnv, k: nat, n: nat, last: int): int
    decreases n - k
  {
    if k >= n then last else LastProof(prefix, k + 1, n, prefix(k).renewAt)
  }

  /** Within one item both leases are renewed in time, and the mutation answers. */
  predicate ItemSteady(env: ItemEnv, last: int, ttl: int) {
    && env.renewAt < last + ttl && env.renewAgainAt < env.renewAt + ttl && env.advanceAt < env.renewAgainAt + ttl
    && env.itemRenewAt < env.reserveAt + ttl && env.completeAt < env.itemRenewAt + ttl && env.answer.Some?
  }

  predicate ItemsSteady(envs: nat -> ItemEnv, k: nat, n: nat, last: int, ttl: int)
    decreases n - k
  {
    k >= n || (ItemSteady(envs(k), last, ttl) && ItemsSteady(envs, k + 1, n, envs(k).advanceAt, ttl))
  }

  function LastItem(envs: nat -> ItemEnv, k: nat, n: nat, last: int): int
    decreases n - k
  {
    if k >= n then last else LastItem(envs, k + 1, n, envs(k).advanceAt)
  }

  // ---------------------------------------------------------------- proving the prefix

  /** The item store holds the receipts of items k to n, past every reading of the proof. */
  ghost predicate HeldFor(t: ItemTableT, b: BatchId, items: seq<Item>, receipts: seq<Receipt>, k: nat, n: nat,
                          prefix: nat -> PrefixEnv)
    requires n <= |items| && n == |receipts|
  {
    forall i :: k <= i < n ==>
      && Retains(t, b, items[i], receipts[i])
      && forall j: nat :: k <= j < n ==> prefix(j).reserveAt < t.entries[ItemIdentity(b, items[i].id)].expiresAt
  }

  lemma HeldReplays(w: World, b: BatchId, items: seq<Item>, receipts: seq<Receipt>, k: nat, n: nat,
                    prefix: nat -> PrefixEnv, p: Policy, cap: Capacities)
    requires k < n <= |items| && n == |receipts| && HeldFor(w.items, b, items, receipts, k, n, prefix)
    ensures var (w2, d) := ReserveItem(w, b, items[k], prefix(k).reserveAt, p, cap);
            && d == I.Replay(receipts[k]) && w2 == w.(items := w2.items)
            && HeldFor(w2.items, b, items, receipts, k + 1, n, prefix)
            && w2.items.entries.Keys <= w.items.entries.Keys
  {
  }

  lemma {:induction false} PrefixProved(
    w: World, l: Lease, items: seq<Item>, k: nat, proven: seq<Receipt>, prefix: nat -> PrefixEnv, p: Policy,
    cap: Capacities, last: int)
    requires k <= l.nextIndex == |l.receipts| <= |items|
    requires Holds(w.batches, l, |items|, last + p.leaseTtl) && PrefixSteady(prefix, k, l.nextIndex, last, p.leaseTtl)
    requires HeldFor(w.items, l.batch, items, l.receipts, k, l.nextIndex, prefix)
    ensures var a := ProvePrefix(w, l, items, k, proven, prefix, p, cap);
            && a.Done? && a.world.effects == w.effects && SameProgress(l, a.value.0)
            && Holds(a.world.batches, a.value.0, |items|, LastProof(prefix, k, l.nextIndex, last) + p.leaseTtl)
            && a.world.items.entries.Keys <= w.items.entries.Keys
            && |a.value.1| == |proven| + l.nextIndex - k
    decreases l.nextIndex - k
  {
    hide RenewBatch, ReserveItem, Holds, HeldFor;
    if k < l.nextIndex {
      HeldRenewsTo(w, l, |items|, last, Some(items[k].id), prefix(k).renewAt, p);
      var r := RenewBatch(w, l, Some(items[k].id), prefix(k).renewAt, p);
      HeldReplays(r.world, l.batch, items, l.receipts, k, l.nextIndex, prefix, p, cap);
      var w2 := ReserveItem(r.world, l.batch, items[k], prefix(k).reserveAt, p, cap).0;
      PrefixProved(w2, r.value, items, k + 1, proven + [l.receipts[k].(replayed := true)], prefix, p, cap,
                   prefix(k).renewAt);
    }
  }

  /** A lease that is held is prolonged by a renewal, from its reading. */
  lemma HeldRenewsTo(w: World, l: Lease, total: nat, last: int, itemId: Option<string>, now: int, p: Policy)
    requires Holds(w.batches, l, total, last + p.leaseTtl) && now < last + p.leaseTtl
    ensures var r := RenewBatch(w, l, itemId, now, p);
            && r.Done? && Holds(r.world.batches, r.value, total, now + p.leaseTtl)
            && r.world == w.(batches := r.world.batches) && SameProgress(l, r.value)
  {
  }

  // ---------------------------------------------------------------- applying the rest

  lemma FreshReserves(w: World, b: BatchId, item: Item, now: int, p: Policy, cap: Capacities)
    requires ItemIdentity(b, item.id) !in w.items.entries && |w.items.entries| < cap.items
    ensures var (w2, d) := ReserveItem(w, b, item, now, p, cap);
            var id := ItemIdentity(b, item.id);
            && d.Execute? && w2 == w.(items := w2.items)
            && d.token in w2.items.tokens && w2.items.tokens[d.token] == id && id in w2.items.entries
            && w2.items.entries[id] == I.Entry(d.token, item.payload, now + p.leaseTtl, I.Reserved)
            && w2.items.entries.Keys <= w.items.entries.Keys + {id}
  {
    Cardinality(I.Purged(w.items, now).entries.Keys, w.items.entries.Keys);
  }

  lemma FreshExecutes(w: World, b: BatchId, item: Item, token: nat, env: ItemEnv, p: Policy, now: int)
    requires token in w.items.tokens && w.items.tokens[token] == ItemIdentity(b, item.id)
    requires ItemIdentity(b, item.id) in w.items.entries
    requires w.items.entries[ItemIdentity(b, item.id)] == I.Entry(token, item.payload, now + p.leaseTtl, I.Reserved)
    requires env.itemRenewAt < now + p.leaseTtl && env.completeAt < env.itemRenewAt + p.leaseTtl && env.answer.Some?
    ensures var a := ExecuteItem(w, b, item, token, env, p);
            && a.Done? && a.value == B.Receipt(item.id, env.answer.value, false) && a.world.batches == w.batches
            && a.world.effects == w.effects + [Effect(b, item, env.answer.value)]
            && a.world.items.entries.Keys == w.items.entries.Keys
  {
  }

  lemma HeldAdvances(w: World, l: Lease, total: nat, last: int, itemId: string, receipt: Receipt, now: int, p: Policy)
    requires Holds(w.batches, l, total, last + p.leaseTtl) && now < last + p.leaseTtl && l.nextIndex < total
    ensures var a := AdvanceBatch(w, l, itemId, receipt, now, p);
            && a.Done? && a.value.1 == receipt && a.world == w.(batches := a.world.batches)
            && Holds(a.world.batches, a.value.0, total, now + p.leaseTtl)
            && a.value.0.batch == l.batch && a.value.0.nextIndex == l.nextIndex + 1
            && a.value.0.receipts == l.receipts + [receipt.(replayed := false)]
  {
  }

  lemma ItemApplied(w: World, l: Lease, items: seq<Item>, item: Item, env: ItemEnv, p: Policy, cap: Capacities,
                    last: int)
    requires Holds(w.batches, l, |items|, last + p.leaseTtl) && l.nextIndex < |items|
    requires ItemSteady(env, last, p.leaseTtl)
    requires ItemIdentity(l.batch, item.id) !in w.items.entries && |w.items.entries| < cap.items
    ensures var a := ApplyItem(w, l, item, env, p, cap);
            && a.Done? && a.value.1 == B.Receipt(item.id, env.answer.value, false)
            && a.world.effects == w.effects + [Effect(l.batch, item, env.answer.value)]
            && Holds(a.world.batches, a.value.0, |items|, env.advanceAt + p.leaseTtl)
            && a.value.0.batch == l.batch && a.value.0.nextIndex == l.nextIndex + 1
            && a.world.items.entries.Keys <= w.items.entries.Keys + {ItemIdentity(l.batch, item.id)}
  {
    hide RenewBatch, ReserveItem, ExecuteItem, AdvanceBatch, Holds;
    HeldRenewsTo(w, l, |items|, last, Some(item.id), env.renewAt, p);
    var r := RenewBatch(w, l, Some(item.id), env.renewAt, p);
    FreshReserves(r.world, l.batch, item, env.reserveAt, p, cap);
    var (w2, d) := ReserveItem(r.world, l.batch, item, env.reserveAt, p, cap);
    HeldRenewsTo(w2, r.value, |items|, env.renewAt, Some(item.id), env.renewAgainAt, p);
    var r2 := RenewBatch(w2, r.value, Some(item.id), env.renewAgainAt, p);
    FreshExecutes(r2.world, l.batch, item, d.token, env, p, env.reserveAt);
    var x := ExecuteItem(r2.world, l.batch, item, d.token, env, p);
    HeldAdvances(x.world, r2.value, |items|, env.renewAgainAt, item.id, x.value, env.advanceAt, p);
  }

  /** The effects of items k and later, in order, with the answers of their mutations. */
  function Rest(b: BatchId, items: seq<Item>, k: nat, envs: nat -> ItemEnv): seq<Effect>
    requires forall j: nat :: k <= j < |items| ==> envs(j).answer.Some?
    decreases |items| - k
  {
    if k >= |items| then [] else [Effect(b, items[k], envs(k).answer.value)] + Rest(b, items, k + 1, envs)
  }

  ghost predicate Untouched(t: ItemTableT, b: BatchId, items: seq<Item>, k: nat) {
    forall i :: k <= i < |items| ==> ItemIdentity(b, items[i].id) !in t.entries
  }

  lemma UntouchedNext(t: ItemTableT, t': ItemTableT, b: BatchId, items: seq<Item>, k: nat)
    requires DistinctIds(items) && k < |items| && Untouched(t, b, items, k)
    requires t'.entries.Keys <= t.entries.Keys + {ItemIdentity(b, items[k].id)}
    ensures Untouched(t', b, items, k + 1) && |t'.entries| <= |t.entries| + 1
  {
    Cardinality(t'.entries.Keys, t.entries.Keys + {ItemIdentity(b, items[k].id)});
  }

  /** The remaining items are committed, each with its one effect, in order, and the batch is completed. */
  ghost predicate CommitsRest(w: World, w': World, result: BatchResult, b: BatchId, items: seq<Item>, k: nat,
                              env: ExecEnv, p: Policy)
  {
    && (forall j: nat :: k <= j < |items| ==> env.items(j).answer.Some?)
    && result.Committed? && |result.receipts| == |items|
    && w'.effects == w.effects + Rest(b, items, k, env.items)
    && b in w'.batches.entries && w'.batches.entries[b].state.Completed?
    && w'.batches.entries[b].retentionExpiresAt == Some(env.finishAt + p.resultTtl)
  }

  lemma CommitsOneMore(w: World, w1: World, w': World, result: BatchResult, b: BatchId, items: seq<Item>, k: nat,
                       env: ExecEnv, p: Policy)
    requires k < |items| && env.items(k).answer.Some? && CommitsRest(w1, w', result, b, items, k + 1, env, p)
    requires w1.effects == w.effects + [Effect(b, items[k], env.items(k).answer.value)]
    ensures CommitsRest(w, w', result, b, items, k, env, p)
  {
    Regrouped(w.effects, Effect(b, items[k], env.items(k).answer.value), Rest(b, items, k + 1, env.items));
  }

  lemma {:induction false} ItemsApplied(
    w: World, l: Lease, items: seq<Item>, receipts: seq<Receipt>, env: ExecEnv, p: Policy, cap: Capacities, last: int)
    requires DistinctIds(items) && l.nextIndex == |receipts| <= |items|
    requires Holds(w.batches, l, |items|, last + p.leaseTtl)
    requires ItemsSteady(env.items, l.nextIndex, |items|, last, p.leaseTtl)
    requires Untouched(w.items, l.batch, items, l.nextIndex)
    requires |w.items.entries| + |items| - l.nextIndex <= cap.items
    requires env.finishRenewAt < LastItem(env.items, l.nextIndex, |items|, last) + p.leaseTtl
    requires env.finishAt < env.finishRenewAt + p.leaseTtl
    ensures var (w', result) := ItemsFrom(w, l, items, l.nextIndex, receipts, env, p, cap);
            CommitsRest(w, w', result, l.batch, items, l.nextIndex, env, p)
    decreases |items| - l.nextIndex
  {
    hide ApplyItem, Holds, Finish, DistinctIds, Untouched, ItemsFrom, CommitsRest;
    var k := l.nextIndex;
    if k == |items| {
      NothingLeft(w, l, items, receipts, env, p, cap, last);
    } else {
      UntouchedAt(w.items, l.batch, items, k);
      ItemApplied(w, l, items, items[k], env.items(k), p, cap, last);
      var a := ApplyItem(w, l, items[k], env.items(k), p, cap);
      UntouchedNext(w.items, a.world.items, l.batch, items, k);
      ItemsApplied(a.world, a.value.0, items, receipts + [a.value.1], env, p, cap, env.items(k).advanceAt);
      ItemsFromOnce(w, l, items, k, receipts, env, p, cap);
      var (w', result) := ItemsFrom(a.world, a.value.0, items, k + 1, receipts + [a.value.1], env, p, cap);
      CommitsOneMore(w, a.world, w', result, l.batch, items, k, env, p);
    }
  }

  lemma NothingLeft(w: World, l: Lease, items: seq<Item>, receipts: seq<Receipt>, env: ExecEnv, p: Policy,
                    cap: Capacities, last: int)
    requires l.nextIndex == |receipts| == |items| && Holds(w.batches, l, |items|, last + p.leaseTtl)
    requires env.finishRenewAt < last + p.leaseTtl && env.finishAt < env.finishRenewAt + p.leaseTtl
    ensures var (w', result) := ItemsFrom(w, l, items, |items|, receipts, env, p, cap);
            CommitsRest(w, w', result, l.batch, items, |items|, env, p)
  {
    hide Finish, Holds, ItemsFrom;
    HeldFinishes(w, l, last, env.finishRenewAt, env.finishAt, p);
    ItemsFromEnd(w, l, items, receipts, env, p, cap);
    assert w.effects + Rest(l.batch, items, |items|, env.items) == w.effects;
  }

  lemma ItemsFromEnd(w: World, l: Lease, items: seq<Item>, receipts: seq<Receipt>, env: ExecEnv, p: Policy,
                     cap: Capacities)
    ensures var (w1, finished) := Finish(w, l, env.finishRenewAt, env.finishAt, p);
            ItemsFrom(w, l, items, |items|, receipts, env, p, cap)
            == (w1, if finished then Committed(receipts) else EnvelopeUnconfirmed(receipts))
  {
    hide Finish;
  }

  lemma Regrouped(a: seq<Effect>, e: Effect, b: seq<Effect>)
    ensures a + [e] + b == a + ([e] + b)
  {
  }

  lemma UntouchedAt(t: ItemTableT, b: BatchId, items: seq<Item>, k: nat)
    requires Untouched(t, b, items, k) && k < |items|
    ensures ItemIdentity(b, items[k].id) !in t.entries
  {
  }

  lemma HeldFinishes(w: World, l: Lease, last: int, renewAt: int, completeAt: int, p: Policy)
    requires Holds(w.batches, l, l.nextIndex, last + p.leaseTtl)
    requires renewAt < last + p.leaseTtl && completeAt < renewAt + p.leaseTtl
    ensures var (w', finished) := Finish(w, l, renewAt, completeAt, p);
            && finished && w'.effects == w.effects && l.batch in w'.batches.entries
            && w'.batches.entries[l.batch].state.Completed?
            && w'.batches.entries[l.batch].retentionExpiresAt == Some(completeAt + p.resultTtl)
  {
  }

  // ---------------------------------------------------------------- the whole takeover

  /** The readings and answers of a takeover that comes in time. */
  ghost predicate Steady(env: ExecEnv, n: nat, total: nat, ttl: int) {
    var proved := LastProof(env.prefix, 0, n, env.beginAt);
    && PrefixSteady(env.prefix, 0, n, env.beginAt, ttl)
    && ItemsSteady(env.items, n, total, proved, ttl)
    && env.finishRenewAt < LastItem(env.items, n, total, proved) + ttl
    && env.finishAt < env.finishRenewAt + ttl
  }

  lemma TakeoverCompletes(w: World, births: map<BatchId, Birth>, r: Request, env: ExecEnv, cap: Capacities)
    requires WorldGood(w, births) && DistinctIds(r.items) && r.batch in w.batches.entries
    requires var e := w.batches.entries[r.batch];
             && e.fingerprint == Print(PerItemPolicy, r.items) && B.ExecutingState(e.state)
             && e.leaseExpiresAt <= env.beginAt
             && e.nextIndex == |e.receipts| <= |r.items|
             && Steady(env, e.nextIndex, |r.items|, r.policy.leaseTtl)
             && HeldFor(w.items, r.batch, r.items, e.receipts, 0, e.nextIndex, env.prefix)
             && Untouched(w.items, r.batch, r.items, e.nextIndex)
             && |w.items.entries| + |r.items| - e.nextIndex <= cap.items
    ensures var n := w.batches.entries[r.batch].nextIndex;
            var (w', result) := PerItem(w, r, env, cap);
            CommitsRest(w, w', result, r.batch, r.items, n, env, r.policy)
  {
    hide WorldGood, BeginBatch, ProvePrefix, ItemsFrom, Holds, DistinctIds, HeldFor, Untouched, Rest;
    GoodIsLinked(w, births);
    TakeoverHolds(w, births, r, env.beginAt, cap);
    var (w1, begun) := BeginBatch(w, r, PerItemPolicy, env.beginAt, cap);
    var l := begun.lease;
    PrefixProved(w1, l, r.items, 0, [], env.prefix, r.policy, cap, env.beginAt);
    ProveResumed(w1, l, r.items, env.prefix, r.policy, cap);
    var a := Prove(w1, l, r.items, env.prefix, r.policy, cap);
    Cardinality(a.world.items.entries.Keys, w.items.entries.Keys);
    UntouchedFewer(w.items, a.world.items, r.batch, r.items, l.nextIndex);
    ItemsApplied(a.world, a.value.0, r.items, a.value.1, env, r.policy, cap,
                 LastProof(env.prefix, 0, l.nextIndex, env.beginAt));
    LeaseFitsItems(w, r, PerItemPolicy, env.beginAt, cap);
  }

  lemma UntouchedFewer(t: ItemTableT, t': ItemTableT, b: BatchId, items: seq<Item>, k: nat)
    requires Untouched(t, b, items, k) && t'.entries.Keys <= t.entries.Keys
    ensures Untouched(t', b, items, k)
  {
  }

  /** What the store holds of a batch in its first life: its receipts, until the ends in the ledger, and nothing of the
    * items that are still to come. */
  lemma FirstLife(events: seq<Event>, cap: Capacities, b: BatchId, prefix: nat -> PrefixEnv)
    requires RunInTime(INITIAL, events, cap, map[], b)
    requires var s := Run(INITIAL, events, cap);
             b in s.world.batches.entries && b in s.births && s.births[b].earlier == 0
    requires var s, g := Run(INITIAL, events, cap), RunTerms(INITIAL, events, cap, map[]);
             var n := s.world.batches.entries[b].nextIndex;
             forall id, j: nat :: id in g && OfBatch(id, b) && j < n ==> prefix(j).reserveAt < g[id]
    ensures var w := Run(INITIAL, events, cap).world;
            var e := w.batches.entries[b];
            && e.nextIndex == |e.receipts| <= |e.fingerprint.items|
            && DistinctIds(e.fingerprint.items)
            && HeldFor(w.items, b, e.fingerprint.items, e.receipts, 0, e.nextIndex, prefix)
            && Untouched(w.items, b, e.fingerprint.items, e.nextIndex)
  {
    hide Run, RunTerms, RunInTime, CountFrom, Backed, DistinctIds;
    ReachableGood(events, cap);
    ExactlyOnce(events, cap, b);
    var s, g := Run(INITIAL, events, cap), RunTerms(INITIAL, events, cap, map[]);
    var e := s.world.batches.entries[b];
    assert EntryGood(b, e, s.world.effects, s.births[b]);
    RunBacks(INITIAL, events, cap, map[], b);
    forall i | 0 <= i < e.nextIndex
      ensures Retains(s.world.items, b, e.fingerprint.items[i], e.receipts[i])
              && forall j: nat :: 0 <= j < e.nextIndex ==>
                   prefix(j).reserveAt < s.world.items.entries[ItemIdentity(b, e.fingerprint.items[i].id)].expiresAt
    {
      assert OfBatch(ItemIdentity(b, e.fingerprint.items[i].id), b);
    }
    forall i | e.nextIndex <= i < |e.fingerprint.items|
      ensures ItemIdentity(b, e.fingerprint.items[i].id) !in s.world.items.entries
    {
      NoReceiptBeforeEffect(s.world, b, e.fingerprint.items[i].id);
    }
  }

  /** The store holds no receipt of an item without an effect. */
  lemma NoReceiptBeforeEffect(w: World, b: BatchId, itemId: string)
    requires CountFrom(w.effects, 0, b, itemId) == 0
    requires forall id :: id in w.items.entries ==> w.items.entries[id].phase.Completed?
    requires forall id :: id in w.items.entries ==> ItemGood(id, w.items.entries[id], w.effects)
    ensures ItemIdentity(b, itemId) !in w.items.entries
  {
    var id := ItemIdentity(b, itemId);
    if id in w.items.entries {
      var e := w.items.entries[id];
      assert ItemGood(id, e, w.effects);
      assert B.BatchId(id.scope.namespace, id.scope.subject) == b;
      var i :| 0 <= i < |w.effects| && w.effects[i] == Effect(b, Item(id.key, e.fingerprint), e.phase.value.result);
      CountedAtLeastOnce(w.effects, 0, i);
      assert false;
    }
  }

  /** A batch that was left half way, in its first life, after any run that was in time: once its lease has run out, the
    * same request takes it over. If the proof reads its clocks before every end in the ledger, that is before the
    * completion of each item plus the time that its request asked for, and renews its leases in time, it proves the
    * prefix, repeats no effect, commits the remaining items in order, each once, and completes the batch. */
  lemma ResumedInTime(events: seq<Event>, cap: Capacities, r: Request, env: ExecEnv)
    requires RunInTime(INITIAL, events, cap, map[], r.batch)
    requires var s, g := Run(INITIAL, events, cap), RunTerms(INITIAL, events, cap, map[]);
             && r.batch in s.world.batches.entries && r.batch in s.births && s.births[r.batch].earlier == 0
             && var e := s.world.batches.entries[r.batch];
             && e.fingerprint == Print(PerItemPolicy, r.items) && B.ExecutingState(e.state)
             && e.leaseExpiresAt <= env.beginAt
             && (forall id, j: nat :: id in g && OfBatch(id, r.batch) && j < e.nextIndex ==>
                   env.prefix(j).reserveAt < g[id])
             && Steady(env, e.nextIndex, |r.items|, r.policy.leaseTtl)
             && e.nextIndex <= |r.items| && |s.world.items.entries| + |r.items| - e.nextIndex <= cap.items
    ensures B.Linked(Run(INITIAL, events, cap).world.batches)
    ensures var s := Run(INITIAL, events, cap);
            var n := s.world.batches.entries[r.batch].nextIndex;
            var (w', result) := PerItem(s.world, r, env, cap);
            CommitsRest(s.world, w', result, r.batch, r.items, n, env, r.policy)
  {
    hide Run, RunTerms, RunInTime, WorldGood, PerItem, Steady, HeldFor, Untouched, DistinctIds, CommitsRest;
    ReachableGood(events, cap);
    GoodIsLinked(Run(INITIAL, events, cap).world, Run(INITIAL, events, cap).births);
    FirstLife(events, cap, r.batch, env.prefix);
    TakeoverCompletes(Run(INITIAL, events, cap).world, Run(INITIAL, events, cap).births, r, env, cap);
  }
}
