/** The in-memory mutation-batch store as it is written: two dictionaries updated in place. */
module Batches {
  import opened Prelude
  import opened BatchTable
  import Ops = BatchTable

  class InMemoryMutationBatchStore<F(==), R(==)> {
    var entries: map<BatchId, Stored<F, R>>
    var tokens: map<nat, BatchId>
    var issued: nat
    const capacity: nat

    ghost predicate Valid()
      reads this
    {
      Linked(State())
    }

    function State(): Table<F, R>
      reads this
    {
      Table(entries, tokens, issued)
    }

    constructor (capacity: nat)
      requires capacity > 0
      ensures Valid() && State() == Table(map[], map[], 0) && this.capacity == capacity
    {
      this.capacity := capacity;
      entries, tokens, issued := map[], map[], 0;
    }

    /** Drops completed entries whose retention has ended, one at a time. */
    method PurgeTerminal(now: int)
      requires Valid()
      modifies this`entries
      ensures Valid() && State() == Ops.PurgeTerminal(old(State()), now)
    {
      var expired := set b | b in entries && entries[b].state.Completed?
                             && Reached(entries[b].retentionExpiresAt, now);
      ghost var all, before := expired, entries;
      while expired != {}
        invariant expired <= all
        invariant entries == before - (all - expired)
        decreases expired
      {
        var b :| b in expired;
        entries := entries - {b};
        expired := expired - {b};
      }
      assert entries == Ops.PurgeTerminal(old(State()), now).entries;
    }

    method Begin(b: BatchId, fp: F, totalItems: nat, now: int, ttl: int) returns (r: Begun<R>)
      requires Valid() && ttl > 0
      modifies this
      ensures Valid()
      ensures (State(), r) == Ops.Begin(old(State()), b, fp, totalItems, now, ttl, capacity)
    {
      BeginKeepsLinks(State(), b, fp, totalItems, now, ttl, capacity);
      PurgeTerminal(now);
      if b in entries {
        var current := entries[b];
        if current.fingerprint != fp || current.totalItems != totalItems {
          return BatchConflict;
        }
        if current.state.Completed? {
          return BatchReplay(current.receipts);
        }
        if current.state.Uncertain? {
          return BatchUncertain(
              match current.uncertaintyReason
              case Some(reason) => if reason != "" then reason else UNKNOWN_REASON
              case None => UNKNOWN_REASON);
        }
        if current.leaseExpiresAt > now {
          return BatchInProgress(current.leaseExpiresAt);
        }
        tokens := tokens - {current.token};
        current := current.(token := issued, leaseExpiresAt := now + ttl);
        issued := issued + 1;
        entries := entries[b := current];
        tokens := tokens[current.token := b];
        return Leased(LeaseOf(b, current, true));
      }
      if |entries| >= capacity {
        return BatchUncertain(CAPACITY_REASON);
      }
      var stored := Stored(fp, totalItems, issued, Processing, 0, [], now + ttl, None, None);
      issued := issued + 1;
      entries := entries[b := stored];
      tokens := tokens[stored.token := b];
      return Leased(LeaseOf(b, stored, false));
    }

    method Renew(l: Lease<R>, now: int, ttl: int) returns (r: Option<Lease<R>>)
      requires Valid() && ttl > 0
      modifies this
      ensures Valid() && (State(), r) == Ops.Renew(old(State()), l, now, ttl)
    {
      if !Active(State(), l, now) {
        return None;
      }
      var current := entries[l.batch].(leaseExpiresAt := now + ttl);
      entries := entries[l.batch := current];
      return Some(LeaseOf(l.batch, current, l.resumed));
    }

    method Advance(l: Lease<R>, receipt: Receipt<R>, now: int, ttl: int) returns (r: Option<Lease<R>>)
      requires Valid() && ttl > 0
      modifies this
      ensures Valid() && (State(), r) == Ops.Advance(old(State()), l, receipt, now, ttl)
    {
      if !Active(State(), l, now) || entries[l.batch].nextIndex >= entries[l.batch].totalItems {
        return None;
      }
      var current := entries[l.batch];
      current := current.(receipts := current.receipts + [receipt], nextIndex := current.nextIndex + 1);
      current := current.(state := PartiallyCommitted, leaseExpiresAt := now + ttl);
      entries := entries[l.batch := current];
      return Some(LeaseOf(l.batch, current, l.resumed));
    }

    method Complete(l: Lease<R>, now: int, ttl: int) returns (r: Option<int>)
      requires Valid() && ttl > 0
      modifies this
      ensures Valid() && (State(), r) == Ops.Complete(old(State()), l, now, ttl)
    {
      if !Active(State(), l, now) || entries[l.batch].nextIndex != entries[l.batch].totalItems {
        return None;
      }
      entries := entries[l.batch := entries[l.batch].(state := Completed, retentionExpiresAt := Some(now + ttl))];
      tokens := tokens - {l.token};
      return Some(now + ttl);
    }

    method MarkUncertain(l: Lease<R>, reason: string, now: int, ttl: int) returns (r: Option<int>)
      requires Valid() && ttl > 0
      modifies this
      ensures Valid() && (State(), r) == Ops.MarkUncertain(old(State()), l, reason, now, ttl)
    {
      if !Active(State(), l, now) {
        return None;
      }
      entries := entries[l.batch := entries[l.batch].(state := Uncertain, uncertaintyReason := Some(reason),
                                                      retentionExpiresAt := Some(now + ttl))];
      tokens := tokens - {l.token};
      return Some(now + ttl);
    }

    /** Maintenance: removes up to batchSize purgeable entries, those first whose time ended first; the order of
      * entries whose time ended at once is left open. */
    method Purge(cutoff: int, includeUncertain: bool, batchSize: nat) returns (removed: set<BatchId>)
      requires Valid()
      modifies this`entries
      ensures Valid() && State() == Without(old(State()), removed)
      ensures removed <= old(entries).Keys
      ensures forall b :: b in removed ==> Purgeable(old(entries)[b], cutoff, includeUncertain)
      ensures |removed| <= batchSize
      ensures |removed| == batchSize || forall b :: b in entries ==> !Purgeable(entries[b], cutoff, includeUncertain)
      ensures forall b, c :: b in removed && Purgeable(old(entries)[b], cutoff, includeUncertain)
                             && c in entries && Purgeable(entries[c], cutoff, includeUncertain) ==>
                old(entries)[b].retentionExpiresAt.value <= entries[c].retentionExpiresAt.value
    {
      hide Linked;
      ghost var before := State();
      var eligible := map b | b in entries && Purgeable(entries[b], cutoff, includeUncertain)
                        :: entries[b].retentionExpiresAt.value;
      removed := Earliest(eligible, batchSize);
      entries := entries - removed;
      DroppingKeepsLinks(before, removed);
      forall b, c | b in removed && c in entries && Purgeable(entries[c], cutoff, includeUncertain)
        ensures eligible[b] <= entries[c].retentionExpiresAt.value
      {
        assert c in eligible.Keys - removed;
      }
    }
  }
}
