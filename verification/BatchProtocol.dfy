/** What one call of the mutation-batch coordinator does, as functions on the world of its stores.
  * The world is the batch store, the item store and the log of committed effects. Code inside one
  * transaction is an Attempt: it is done with a new world, or it raised and the transaction restores
  * the old one. Clock readings and the answers of the consumer's mutation are parameters, and a
  * request fingerprint is the fingerprinted value itself. */
module BatchProtocol {
  import opened Prelude
  import B = BatchTable
  import I = IdempotencyTable

  type Payload(==, !new)
  type Result(==, !new)

  type BatchId = B.BatchId
  type Lease = B.Lease<Result>
  type Receipt = B.Receipt<Result>
  type Decision = I.Decision<Receipt>

  datatype Item = Item(id: string, payload: Payload)

  datatype BatchPolicy = AllOrNothingPolicy | PerItemPolicy

  datatype Print = Print(policy: BatchPolicy, items: seq<Item>)

  datatype Policy = Policy(leaseTtl: int, resultTtl: int, uncertaintyTtl: int)

  datatype Capacities = Capacities(batches: nat, items: nat)

  datatype Request = Request(batch: BatchId, items: seq<Item>, policy: Policy)

  datatype Effect = Effect(batch: BatchId, item: Item, result: Result)

  type BatchTableT = B.Table<Print, Result>
  type ItemTableT = I.Table<Payload, Receipt>

  datatype World = World(batches: BatchTableT, items: ItemTableT, effects: seq<Effect>)

  datatype BatchResult =
    | Committed(receipts: seq<Receipt>)
    | Replayed(receipts: seq<Receipt>)
    | Conflict(itemId: Option<string>)
    | InProgress(itemId: Option<string>, retryAfter: int)
    | Uncertain(itemId: Option<string>, reason: string)
    | EnvelopeUnconfirmed(receipts: seq<Receipt>)
    | Crashed  // the mutation, or the process, failed inside a transaction

  /** The outcome of code that runs inside a transaction. */
  datatype Attempt<+T> = Done(world: World, value: T) | Raised(world: World, failure: BatchResult) {
    predicate IsFailure() { Raised? }
    function PropagateFailure<U>(): Attempt<U>
      requires Raised?
    { Raised(world, failure) }
    function Extract(): (World, T)
      requires Done?
    { (world, value) }
  }

  /** Clock readings and the mutation's answer while one item is reserved and applied. */
  datatype ItemEnv = ItemEnv(
    renewAt: int, reserveAt: int, renewAgainAt: int, itemRenewAt: int, completeAt: int, advanceAt: int,
    answer: Option<Result>)

  /** Clock readings while one item of a resumed prefix is proved. */
  datatype PrefixEnv = PrefixEnv(renewAt: int, reserveAt: int, abandonAt: int, markAt: int)

  const PROOF_REASON := "a committed item receipt is no longer provable within retention"
  const STALE_REASON := "batch lease is absent, expired, or no longer authoritative"
  const MISMATCH_REASON := "stored item receipt identity does not match"
  const ITEM_LEASE_REASON := "item lease renewal failed before mutation"
  const ITEM_CAS_REASON := "item receipt CAS failed; mutation rolled back"
  const PROGRESS_REASON := "batch progress CAS failed; item rolled back"
  const FINAL_REASON := "final batch CAS failed"

  /** Results that report no committed item. */
  predicate Refusal(r: BatchResult) {
    !r.Committed? && !r.Replayed? && !r.EnvelopeUnconfirmed?
  }

  /** Inside a transaction no batch appears or disappears and no batch token is issued, item tokens are
    * only added, and raising reports nothing as committed. */
  predicate Within<T>(w: World, a: Attempt<T>) {
    && a.world.batches.entries.Keys == w.batches.entries.Keys
    && a.world.batches.issued == w.batches.issued && a.world.items.issued >= w.items.issued
    && (a.Raised? ==> Refusal(a.failure))
  }

  // ---------------------------------------------------------------- steps inside a transaction

  /** The idempotency identity under which an item of a batch is reserved. */
  function ItemIdentity(b: BatchId, itemId: string): I.Identity {
    I.Identity(I.Scope(b.namespace, b.batch, I.MutationItem(itemId)), itemId)
  }

  function RenewBatch(w: World, l: Lease, itemId: Option<string>, now: int, p: Policy): (r: Attempt<Lease>)
    ensures r.Done? ==> r.value == l.(expiresAt := now + p.leaseTtl, state := r.value.state,
                                      totalItems := r.value.totalItems)
    ensures Within(w, r)
  {
    var (t, renewed) := B.Renew(w.batches, l, now, p.leaseTtl);
    match renewed
    case Some(l') => Done(w.(batches := t), l')
    case None => Raised(w, Uncertain(itemId, STALE_REASON))
  }

  function ReserveItem(w: World, b: BatchId, item: Item, now: int, p: Policy, cap: Capacities): (World, Decision) {
    var (t, d) := I.Reserve(w.items, ItemIdentity(b, item.id), item.payload, now, p.leaseTtl, cap.items);
    (w.(items := t), d)
  }

  /** The result with which a reservation that neither executes nor replays ends the transaction. */
  function ItemDecision(d: Decision, itemId: string): (r: Option<BatchResult>)
    ensures r.Some? ==> Refusal(r.value)
  {
    match d
    case Conflict => Some(Conflict(Some(itemId)))
    case InProgress(at) => Some(InProgress(Some(itemId), at))
    case Uncertain(reason) => Some(Uncertain(Some(itemId), reason))
    case _ => None
  }

  /** Re-reads the receipts of items k and later of a resumed lease. A receipt that cannot be
    * replayed marks the batch uncertain and then raises. */
  function ProvePrefix(
    w: World, l: Lease, items: seq<Item>, k: nat, proven: seq<Receipt>, envs: nat -> PrefixEnv,
    p: Policy, cap: Capacities)
    : (r: Attempt<(Lease, seq<Receipt>)>)
    requires k <= l.nextIndex == |l.receipts| <= |items|
    ensures r.Done? ==> r.value.0.nextIndex == l.nextIndex
    ensures Within(w, r)
    decreases l.nextIndex - k
  {
    if k == l.nextIndex then Done(w, (l, proven)) else
    var env := envs(k);
    var (w1, l1) :- RenewBatch(w, l, Some(items[k].id), env.renewAt, p);
    var (w2, d) := ReserveItem(w1, l1.batch, items[k], env.reserveAt, p, cap);
    if d == I.Replay(l.receipts[k]) then
      ProvePrefix(w2, l1, items, k + 1, proven + [l.receipts[k].(replayed := true)], envs, p, cap)
    else
      var w3 := if d.Execute? then w2.(items := I.Abandon(w2.items, d.token, env.abandonAt).0) else w2;
      var marked := B.MarkUncertain(w3.batches, l1, PROOF_REASON, env.markAt, p.uncertaintyTtl).0;
      Raised(w3.(batches := marked), Uncertain(Some(items[k].id), PROOF_REASON))
  }

  function Prove(w: World, l: Lease, items: seq<Item>, envs: nat -> PrefixEnv, p: Policy, cap: Capacities)
    : (r: Attempt<(Lease, seq<Receipt>)>)
    requires l.nextIndex == |l.receipts| <= |items|
    ensures r.Done? ==> r.value.0.nextIndex == l.nextIndex
    ensures Within(w, r)
  {
    if !l.resumed then Done(w, (l, l.receipts)) else ProvePrefix(w, l, items, 0, [], envs, p, cap)
  }

  function AdvanceBatch(w: World, l: Lease, itemId: string, receipt: Receipt, now: int, p: Policy)
    : (r: Attempt<(Lease, Receipt)>)
    ensures Within(w, r)
  {
    var (t, advanced) := B.Advance(w.batches, l, receipt.(replayed := false), now, p.leaseTtl);
    match advanced
    case Some(l') => Done(w.(batches := t), (l', receipt))
    case None => Raised(w, Uncertain(Some(itemId), PROGRESS_REASON))
  }

  /** Runs the mutation under a reservation and stores the item receipt. */
  function ExecuteItem(w: World, b: BatchId, item: Item, token: nat, env: ItemEnv, p: Policy): (r: Attempt<Receipt>)
    ensures Within(w, r)
  {
    var (t, renewed) := I.Renew(w.items, token, env.itemRenewAt, p.leaseTtl);
    if renewed.Stale? then Raised(w, Uncertain(Some(item.id), ITEM_LEASE_REASON))
    else if env.answer.None? then Raised(w.(items := t), Crashed)
    else
      var receipt := B.Receipt(item.id, env.answer.value, false);
      var (u, completed) := I.Complete(t, token, receipt, env.completeAt, p.resultTtl);
      var w' := World(w.batches, u, w.effects + [Effect(b, item, env.answer.value)]);
      if completed.Stale? then Raised(w', Uncertain(Some(item.id), ITEM_CAS_REASON))
      else Done(w', receipt)
  }

  function ApplyReserved(w: World, l: Lease, item: Item, d: Decision, env: ItemEnv, p: Policy)
    : (r: Attempt<(Lease, Receipt)>)
    requires d.Execute? || d.Replay?
    ensures Within(w, r)
  {
    var (w1, l1) :- RenewBatch(w, l, Some(item.id), env.renewAgainAt, p);
    if d.Replay? then
      if d.value.itemId != item.id then Raised(w1, Uncertain(Some(item.id), MISMATCH_REASON))
      else AdvanceBatch(w1, l1, item.id, d.value.(replayed := true), env.advanceAt, p)
    else
      var (w2, receipt) :- ExecuteItem(w1, l1.batch, item, d.token, env, p);
      AdvanceBatch(w2, l1, item.id, receipt, env.advanceAt, p)
  }

  /** Renews the batch lease and reserves one item. */
  function ReserveNext(w: World, l: Lease, item: Item, env: ItemEnv, p: Policy, cap: Capacities)
    : (r: Attempt<(Lease, Decision)>)
    ensures r.Done? ==> r.value.1.Execute? || r.value.1.Replay?
    ensures Within(w, r)
  {
    var (w1, l1) :- RenewBatch(w, l, Some(item.id), env.renewAt, p);
    var (w2, d) := ReserveItem(w1, l1.batch, item, env.reserveAt, p, cap);
    match ItemDecision(d, item.id)
    case Some(early) => Raised(w2, early)
    case None => Done(w2, (l1, d))
  }

  function ApplyItem(w: World, l: Lease, item: Item, env: ItemEnv, p: Policy, cap: Capacities)
    : (r: Attempt<(Lease, Receipt)>)
    ensures Within(w, r)
  {
    var (w1, reserved) :- ReserveNext(w, l, item, env, p, cap);
    ApplyReserved(w1, reserved.0, item, reserved.1, env, p)
  }

  function Finish(w: World, l: Lease, renewAt: int, completeAt: int, p: Policy): (World, bool) {
    var (t, renewed) := B.Renew(w.batches, l, renewAt, p.leaseTtl);
    if renewed.None? then (w, false) else
    var (u, completed) := B.Complete(t, renewed.value, completeAt, p.resultTtl);
    (w.(batches := u), completed.Some?)
  }

  // ---------------------------------------------------------------- transactions

  /** What a transaction restores when it raises: everything but the supply of random identifiers. */
  function Restore(before: World, after: World): World {
    World(before.batches.(issued := after.batches.issued), before.items.(issued := after.items.issued),
          before.effects)
  }

  function Atomically<T>(w: World, a: Attempt<T>): World {
    match a
    case Done(w', _) => w'
    case Raised(w', _) => Restore(w, w')
  }

  function BeginBatch(w: World, r: Request, policy: BatchPolicy, now: int, cap: Capacities)
    : (World, B.Begun<Result>)
  {
    var (t, begun) := B.Begin(w.batches, r.batch, Print(policy, r.items), |r.items|, now, r.policy.leaseTtl,
                              cap.batches);
    (w.(batches := t), begun)
  }

  /** The result of a begin that issues no lease. */
  function EarlyResult(begun: B.Begun<Result>): BatchResult
    requires !begun.Leased?
  {
    match begun
    case BatchReplay(receipts) => Replayed(receipts)
    case BatchConflict => Conflict(None)
    case BatchInProgress(at) => InProgress(None, at)
    case BatchUncertain(reason) => Uncertain(None, reason)
  }

  // ---------------------------------------------------------------- all or nothing

  function ReserveAll(
    w: World, l: Lease, items: seq<Item>, k: nat, reserved: seq<Decision>, envs: nat -> ItemEnv,
    p: Policy, cap: Capacities)
    : (r: Attempt<(Lease, seq<Decision>)>)
    requires k <= |items|
    requires forall d :: d in reserved ==> d.Execute? || d.Replay?
    ensures r.Done? ==> |r.value.1| == |reserved| + |items| - k
    ensures r.Done? ==> forall d :: d in r.value.1 ==> d.Execute? || d.Replay?
    ensures Within(w, r)
    decreases |items| - k
  {
    if k == |items| then Done(w, (l, reserved)) else
    var (w1, v) :- ReserveNext(w, l, items[k], envs(k), p, cap);
    ReserveAll(w1, v.0, items, k + 1, reserved + [v.1], envs, p, cap)
  }

  function ApplyAll(
    w: World, l: Lease, items: seq<Item>, from: nat, decisions: seq<Decision>, k: nat, receipts: seq<Receipt>,
    envs: nat -> ItemEnv, p: Policy)
    : (r: Attempt<(Lease, seq<Receipt>)>)
    requires k <= |decisions| && from + |decisions| == |items|
    requires forall d :: d in decisions ==> d.Execute? || d.Replay?
    ensures Within(w, r)
    decreases |decisions| - k
  {
    if k == |decisions| then Done(w, (l, receipts)) else
    var (w1, v) :- ApplyReserved(w, l, items[from + k], decisions[k], envs(from + k), p);
    ApplyAll(w1, v.0, items, from, decisions, k + 1, receipts + [v.1], envs, p)
  }

  /** Applies reserved items and completes the batch. */
  function ApplyAndFinish(
    w: World, l: Lease, items: seq<Item>, from: nat, decisions: seq<Decision>, receipts: seq<Receipt>,
    envs: nat -> ItemEnv, finishRenewAt: int, finishAt: int, p: Policy)
    : (r: Attempt<seq<Receipt>>)
    requires from + |decisions| == |items|
    requires forall d :: d in decisions ==> d.Execute? || d.Replay?
    ensures Within(w, r)
  {
    var (w1, applied) :- ApplyAll(w, l, items, from, decisions, 0, receipts, envs, p);
    var (w2, finished) := Finish(w1, applied.0, finishRenewAt, finishAt, p);
    if finished then Done(w2, applied.1) else Raised(w2, Uncertain(None, FINAL_REASON))
  }

  /** Everything an all-or-nothing execution does after its lease was issued. */
  function ExecuteAll(
    w: World, l: Lease, items: seq<Item>, prefix: nat -> PrefixEnv, envs: nat -> ItemEnv,
    finishRenewAt: int, finishAt: int, p: Policy, cap: Capacities)
    : (r: Attempt<seq<Receipt>>)
    requires l.nextIndex == |l.receipts| <= |items|
    ensures Within(w, r)
  {
    var (w1, proved) :- Prove(w, l, items, prefix, p, cap);
    var (w2, reserved) :- ReserveAll(w1, proved.0, items, proved.0.nextIndex, [], envs, p, cap);
    ApplyAndFinish(w2, reserved.0, items, proved.0.nextIndex, reserved.1, proved.1, envs, finishRenewAt, finishAt, p)
  }

  /** Clock readings and mutation answers of one whole execution. */
  datatype ExecEnv = ExecEnv(
    beginAt: int, prefix: nat -> PrefixEnv, items: nat -> ItemEnv, finishRenewAt: int, finishAt: int)

  function AllOrNothing(w: World, r: Request, env: ExecEnv, cap: Capacities): (World, BatchResult)
    requires B.Linked(w.batches)
  {
    B.BeginKeepsLinks(w.batches, r.batch, Print(AllOrNothingPolicy, r.items), |r.items|, env.beginAt,
                      r.policy.leaseTtl, cap.batches);
    var (w1, begun) := BeginBatch(w, r, AllOrNothingPolicy, env.beginAt, cap);
    if begun.BatchReplay? then (w1, Replayed(begun.receipts))
    else if !begun.Leased? then (Restore(w, w1), EarlyResult(begun))
    else
      LeaseFitsItems(w, r, AllOrNothingPolicy, env.beginAt, cap);
      var a := ExecuteAll(w1, begun.lease, r.items, env.prefix, env.items, env.finishRenewAt, env.finishAt,
                          r.policy, cap);
      (Atomically(w, a), if a.Done? then Committed(a.value) else a.failure)
  }

  // ---------------------------------------------------------------- per item

  /** The item transactions of a per-item execution from item k on, and its final transaction. */
  function ItemsFrom(
    w: World, l: Lease, items: seq<Item>, k: nat, receipts: seq<Receipt>, env: ExecEnv, p: Policy, cap: Capacities)
    : (World, BatchResult)
    requires k <= |items|
    decreases |items| - k
  {
    if k == |items| then
      var (w1, finished) := Finish(w, l, env.finishRenewAt, env.finishAt, p);
      (w1, if finished then Committed(receipts) else EnvelopeUnconfirmed(receipts))
    else
      var a := ApplyItem(w, l, items[k], env.items(k), p, cap);
      if a.Raised? then (Atomically(w, a), a.failure)
      else ItemsFrom(a.world, a.value.0, items, k + 1, receipts + [a.value.1], env, p, cap)
  }

  function PerItem(w: World, r: Request, env: ExecEnv, cap: Capacities): (World, BatchResult)
    requires B.Linked(w.batches)
  {
    B.BeginKeepsLinks(w.batches, r.batch, Print(PerItemPolicy, r.items), |r.items|, env.beginAt,
                      r.policy.leaseTtl, cap.batches);
    var (w1, begun) := BeginBatch(w, r, PerItemPolicy, env.beginAt, cap);
    if !begun.Leased? then (w1, EarlyResult(begun)) else
    LeaseFitsItems(w, r, PerItemPolicy, env.beginAt, cap);
    var a := Prove(w1, begun.lease, r.items, env.prefix, r.policy, cap);
    if a.Raised? then (Atomically(w1, a), a.failure)
    else ItemsFrom(a.world, a.value.0, r.items, a.value.0.nextIndex, a.value.1, env, r.policy, cap)
  }

  /** A lease that begin issues is for exactly the items of the request. */
  lemma LeaseFitsItems(w: World, r: Request, policy: BatchPolicy, now: int, cap: Capacities)
    requires B.Linked(w.batches)
    ensures var (w1, begun) := BeginBatch(w, r, policy, now, cap);
            begun.Leased? ==>
              && begun.lease.nextIndex == |begun.lease.receipts| <= |r.items|
              && begun.lease.totalItems == |r.items| && begun.lease.batch == r.batch
  {
    var (w1, begun) := BeginBatch(w, r, policy, now, cap);
    if begun.Leased? && begun.lease.resumed {
      assert B.EntryLinked(w.batches, r.batch);
    }
  }
}
