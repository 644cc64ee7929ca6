/** The invariant of the batch world: what the stores say happened is what the effect log says happened. */
module BatchInvariant {
  import opened Prelude
  import opened BatchProtocol
  import B = BatchTable
  import I = IdempotencyTable

  // ---------------------------------------------------------------- definitions

  /** When the current entry of a batch was created: the length of the effect log at that moment, and
    * how many earlier entries the batch identity has had. Only the proof keeps this. */
  datatype Birth = Birth(mark: nat, earlier: nat)

  /** Effects of one item of one batch in the log from position mark on. */
  ghost function CountFrom(effects: seq<Effect>, mark: nat, b: BatchId, itemId: string): nat {
    if |effects| <= mark then 0
    else
      var last := effects[|effects| - 1];
      CountFrom(effects[..|effects| - 1], mark, b, itemId) + if last.batch == b && last.item.id == itemId then 1 else 0
  }

  /** A receipt stands for one committed effect with its result: the only one since the entry was
    * created, or one carried over from before with none since. */
  ghost predicate Backed(effects: seq<Effect>, mark: nat, b: BatchId, item: Item, result: Result) {
    exists i :: 0 <= i < |effects| && effects[i] == Effect(b, item, result)
                && CountFrom(effects, mark, b, item.id) == if mark <= i then 1 else 0
  }

  predicate DistinctIds(items: seq<Item>) {
    forall i, j :: 0 <= i < j < |items| ==> items[i].id != items[j].id
  }

  /** Progress and receipts of one entry agree, item by item, with the effects since its creation. */
  ghost predicate EntryGood(b: BatchId, e: B.Stored<Print, Result>, effects: seq<Effect>, birth: Birth) {
    var items := e.fingerprint.items;
    && DistinctIds(items)
    && e.nextIndex == |e.receipts| <= e.totalItems == |items|
    && !e.state.Uncertain?
    && (e.state.Completed? ==> e.nextIndex == e.totalItems)
    && birth.mark <= |effects|
    && (birth.earlier == 0 ==> forall i :: 0 <= i < birth.mark ==> effects[i].batch != b)
    && (forall k :: 0 <= k < e.nextIndex ==>
          && e.receipts[k].itemId == items[k].id && !e.receipts[k].replayed
          && Backed(effects, birth.mark, b, items[k], e.receipts[k].result))
    && (forall k :: e.nextIndex <= k < |items| ==> CountFrom(effects, birth.mark, b, items[k].id) == 0)
  }

  /** The identity is one of an item of this batch. */
  predicate OfBatch(id: I.Identity, b: BatchId) {
    id.scope.namespace == b.namespace && id.scope.subject == b.batch
  }

  /** A completed item receipt records an effect of its batch and item. */
  ghost predicate ItemGood(id: I.Identity, e: I.Entry<Payload, Receipt>, effects: seq<Effect>) {
    var b := B.BatchId(id.scope.namespace, id.scope.subject);
    && id == ItemIdentity(b, id.key)
    && !e.phase.MarkedUncertain?
    && (e.phase.Completed? ==>
          && e.phase.value.itemId == id.key && !e.phase.value.replayed
          && Effect(b, Item(id.key, e.fingerprint), e.phase.value.result) in effects)
  }

  ghost predicate WorldGood(w: World, births: map<BatchId, Birth>) {
    && B.Linked(w.batches) && I.Linked(w.items)
    && (forall b :: b in w.batches.entries ==>
          b in births && EntryGood(b, w.batches.entries[b], w.effects, births[b]))
    && (forall id :: id in w.items.entries ==> ItemGood(id, w.items.entries[id], w.effects))
    && (forall i :: 0 <= i < |w.effects| ==> w.effects[i].batch in births)
  }

  /** If the lease's token is still the token of its batch, the batch is the one the items belong to. */
  ghost predicate LeaseGood(w: World, l: Lease, printed: Print) {
    && l.token < w.batches.issued
    && l.nextIndex == |l.receipts| <= |printed.items|
    && (l.batch in w.batches.entries && w.batches.entries[l.batch].token == l.token ==>
          w.batches.entries[l.batch].fingerprint == printed)
    && (forall k :: 0 <= k < l.nextIndex ==>
          && l.receipts[k].itemId == printed.items[k].id && !l.receipts[k].replayed
          && Effect(l.batch, printed.items[k], l.receipts[k].result) in w.effects)
  }

  /** What a reservation that the transaction may act on says about the item. */
  ghost predicate DecisionGood(w: World, b: BatchId, item: Item, d: Decision) {
    match d
    case Replay(v) => v.itemId == item.id && !v.replayed && Effect(b, item, v.result) in w.effects
    case Execute(token) =>
      && token < w.items.issued
      && (token in w.items.tokens ==>
            && w.items.tokens[token] == ItemIdentity(b, item.id)
            && ItemIdentity(b, item.id) in w.items.entries
            && w.items.entries[ItemIdentity(b, item.id)].fingerprint == item.payload)
    case _ => true
  }

  /** Receipts as the caller sees them: in item order, each with the result of a committed effect. */
  ghost predicate ReceiptsGood(effects: seq<Effect>, b: BatchId, items: seq<Item>, receipts: seq<Receipt>) {
    && |receipts| <= |items|
    && forall k :: 0 <= k < |receipts| ==>
         receipts[k].itemId == items[k].id && Effect(b, items[k], receipts[k].result) in effects
  }

  // ---------------------------------------------------------------- counting

  lemma CountAppend(effects: seq<Effect>, mark: nat, b: BatchId, itemId: string, e: Effect)
    requires mark <= |effects|
    ensures CountFrom(effects + [e], mark, b, itemId) ==
            CountFrom(effects, mark, b, itemId) + if e.batch == b && e.item.id == itemId then 1 else 0
  {
    assert (effects + [e])[..|effects|] == effects;
  }

  lemma {:induction false} CountedAtLeastOnce(effects: seq<Effect>, mark: nat, i: nat)
    requires mark <= i < |effects|
    ensures CountFrom(effects, mark, effects[i].batch, effects[i].item.id) >= 1
  {
    if i < |effects| - 1 {
      CountedAtLeastOnce(effects[..|effects| - 1], mark, i);
    }
  }

  lemma BackedAppendOther(effects: seq<Effect>, mark: nat, b: BatchId, item: Item, result: Result, e: Effect)
    requires mark <= |effects| && Backed(effects, mark, b, item, result)
    requires e.batch != b || e.item.id != item.id
    ensures Backed(effects + [e], mark, b, item, result)
  {
    var i :| 0 <= i < |effects| && effects[i] == Effect(b, item, result)
             && CountFrom(effects, mark, b, item.id) == if mark <= i then 1 else 0;
    CountAppend(effects, mark, b, item.id, e);
    assert (effects + [e])[i] == Effect(b, item, result);
  }

  /** An entry is unaffected by effects of other batches. */
  lemma EntryGoodAppendOther(b: BatchId, s: B.Stored<Print, Result>, effects: seq<Effect>, birth: Birth, e: Effect)
    requires EntryGood(b, s, effects, birth) && e.batch != b
    ensures EntryGood(b, s, effects + [e], birth)
  {
    var items := s.fingerprint.items;
    forall k | 0 <= k < s.nextIndex
      ensures Backed(effects + [e], birth.mark, b, items[k], s.receipts[k].result)
    {
      BackedAppendOther(effects, birth.mark, b, items[k], s.receipts[k].result, e);
    }
    forall k | s.nextIndex <= k < |items|
      ensures CountFrom(effects + [e], birth.mark, b, items[k].id) == 0
    {
      CountAppend(effects, birth.mark, b, items[k].id, e);
    }
  }

  /** The entry after one more receipt. */
  function Advanced(s: B.Stored<Print, Result>, receipt: Receipt, expiresAt: int): B.Stored<Print, Result> {
    s.(receipts := s.receipts + [receipt], nextIndex := s.nextIndex + 1, state := B.PartiallyCommitted,
       leaseExpiresAt := expiresAt)
  }

  /** Committing the next item's effect together with its receipt keeps the entry good. */
  lemma EntryGoodExecute(b: BatchId, s: B.Stored<Print, Result>, effects: seq<Effect>, birth: Birth,
                         result: Result, expiresAt: int)
    requires EntryGood(b, s, effects, birth) && s.nextIndex < s.totalItems
    ensures var item := s.fingerprint.items[s.nextIndex];
            EntryGood(b, Advanced(s, B.Receipt(item.id, result, false), expiresAt),
                      effects + [Effect(b, item, result)], birth)
  {
    var items := s.fingerprint.items;
    var item := items[s.nextIndex];
    var e := Effect(b, item, result);
    var s' := Advanced(s, B.Receipt(item.id, result, false), expiresAt);
    forall k | 0 <= k < s'.nextIndex
      ensures && s'.receipts[k].itemId == items[k].id && !s'.receipts[k].replayed
              && Backed(effects + [e], birth.mark, b, items[k], s'.receipts[k].result)
    {
      if k < s.nextIndex {
        assert s'.receipts[k] == s.receipts[k];
        BackedAppendOther(effects, birth.mark, b, items[k], s.receipts[k].result, e);
      } else {
        CountAppend(effects, birth.mark, b, item.id, e);
        assert (effects + [e])[|effects|] == e;
      }
    }
    forall k | s'.nextIndex <= k < |items|
      ensures CountFrom(effects + [e], birth.mark, b, items[k].id) == 0
    {
      CountAppend(effects, birth.mark, b, items[k].id, e);
    }
  }

  /** Adopting a retained receipt of an earlier effect keeps the entry good. */
  lemma EntryGoodReplay(b: BatchId, s: B.Stored<Print, Result>, effects: seq<Effect>, birth: Birth,
                        result: Result, expiresAt: int)
    requires EntryGood(b, s, effects, birth) && s.nextIndex < s.totalItems
    requires Effect(b, s.fingerprint.items[s.nextIndex], result) in effects
    ensures var item := s.fingerprint.items[s.nextIndex];
            EntryGood(b, Advanced(s, B.Receipt(item.id, result, false), expiresAt), effects, birth)
  {
    var items := s.fingerprint.items;
    var item := items[s.nextIndex];
    var s' := Advanced(s, B.Receipt(item.id, result, false), expiresAt);
    var i :| 0 <= i < |effects| && effects[i] == Effect(b, item, result);
    if birth.mark <= i {
      CountedAtLeastOnce(effects, birth.mark, i);
    }
    assert Backed(effects, birth.mark, b, item, result);
    forall k | 0 <= k < s'.nextIndex
      ensures && s'.receipts[k].itemId == items[k].id && !s'.receipts[k].replayed
              && Backed(effects, birth.mark, b, items[k], s'.receipts[k].result)
    {
      if k < s.nextIndex { assert s'.receipts[k] == s.receipts[k]; }
    }
  }
}
