/** The in-memory idempotency store as it is written: two dictionaries updated in place. */
module Idempotency {
  import opened Prelude
  import opened IdempotencyTable
  import Ops = IdempotencyTable

  class InMemoryIdempotencyStore<F(==), V> {
    var entries: map<Identity, Entry<F, V>>
    var tokens: map<nat, Identity>
    var issued: nat
    const capacity: nat

    ghost predicate Valid()
      reads this
    {
      Linked(State())
    }

    ghost function State(): Table<F, V>
      reads this
    {
      Table(entries, tokens, issued)
    }

    constructor (capacity: nat)
      requires capacity > 0
      ensures Valid() && State() == Table(map[], map[], 0) && this.capacity == capacity
    {
      this.capacity := capacity;
      entries, tokens, issued := map[], map[], 0;
    }

    /** Removes entries and their tokens, one at a time. */
    method Pop(gone: set<Identity>)
      requires Valid() && gone <= entries.Keys
      modifies this`entries, this`tokens
      ensures Valid() && State() == Without(old(State()), gone)
    {
      hide Linked, Without;
      ghost var before := State();
      WithoutNothing(before);
      WithoutKeepsLinks(before, gone);
      var rest := gone;
      assert gone - rest == {};
      while rest != {}
        invariant rest <= gone && State() == Without(before, gone - rest)
        decreases rest
      {
        var id :| id in rest;
        WithoutOneMore(before, gone - rest, id);
        var token := entries[id].token;
        entries := entries - {id};
        tokens := tokens - {token};
        assert gone - rest + {id} == gone - (rest - {id});
        rest := rest - {id};
      }
      assert gone - rest == gone;
    }

    /** Removes every expired entry that is not marked uncertain. */
    method PurgeExpired(now: int)
      requires Valid()
      modifies this`entries, this`tokens
      ensures Valid() && State() == Purged(old(State()), now)
    {
      hide Linked, Without;
      Pop(set id | id in entries && Expired(entries[id], now));
    }

    method Reserve(id: Identity, fp: F, now: int, ttl: int) returns (d: Decision<V>)
      requires Valid() && ttl > 0
      modifies this
      ensures Valid()
      ensures (State(), d) == Ops.Reserve(old(State()), id, fp, now, ttl, capacity)
    {
      hide Linked, Ops.Purged;
      ReserveKeepsLinks(State(), id, fp, now, ttl, capacity);
      PurgeExpired(now);
      if id in entries {
        var current := entries[id];
        if current.fingerprint != fp {
          return Conflict;
        }
        match current.phase {
          case Completed(v) => return Replay(v);
          case MarkedUncertain(reason) => return Uncertain(reason);
          case Reserved => return InProgress(current.expiresAt);
        }
      }
      if |entries| >= capacity {
        return Uncertain(CAPACITY_REASON);
      }
      var token := issued;
      issued := issued + 1;
      entries := entries[id := Entry(token, fp, now + ttl, Reserved)];
      tokens := tokens[token := id];
      return Execute(token);
    }

    method Renew(token: nat, now: int, ttl: int) returns (r: Settled)
      requires Valid() && ttl > 0
      modifies this
      ensures Valid() && (State(), r) == Ops.Renew(old(State()), token, now, ttl)
    {
      if !Executing(Table(entries, tokens, issued), token, now) {
        return Stale;
      }
      var id := tokens[token];
      entries := entries[id := entries[id].(expiresAt := now + ttl)];
      return Until(now + ttl);
    }

    method Complete(token: nat, value: V, now: int, ttl: int) returns (r: Settled)
      requires Valid() && ttl > 0
      modifies this
      ensures Valid() && (State(), r) == Ops.Complete(old(State()), token, value, now, ttl)
    {
      if !Executing(Table(entries, tokens, issued), token, now) {
        return Stale;
      }
      var id := tokens[token];
      entries := entries[id := entries[id].(phase := Completed(value), expiresAt := now + ttl)];
      return Until(now + ttl);
    }

    method MarkUncertain(token: nat, reason: string, now: int, ttl: int) returns (r: Settled)
      requires Valid() && ttl > 0
      modifies this
      ensures Valid() && (State(), r) == Ops.MarkUncertain(old(State()), token, reason, now, ttl)
    {
      if !Executing(Table(entries, tokens, issued), token, now) {
        return Stale;
      }
      var id := tokens[token];
      entries := entries[id := entries[id].(phase := MarkedUncertain(reason), expiresAt := now + ttl)];
      return Until(now + ttl);
    }

    method Abandon(token: nat, now: int) returns (r: Settled)
      requires Valid()
      modifies this
      ensures Valid() && (State(), r) == Ops.Abandon(old(State()), token, now)
    {
      if !Executing(Table(entries, tokens, issued), token, now) {
        return Stale;
      }
      entries := entries - {tokens[token]};
      tokens := tokens - {token};
      return Abandoned;
    }

    /** Maintenance: removes up to batchSize purgeable entries, those first whose time ended first; the order of
      * entries whose time ended at once is left open. */
    method Purge(cutoff: int, includeUncertain: bool, batchSize: nat) returns (removed: set<Identity>)
      requires Valid()
      modifies this
      ensures Valid() && State() == Without(old(State()), removed)
      ensures removed <= old(entries).Keys
      ensures forall id :: id in removed ==> Purgeable(old(entries)[id], cutoff, includeUncertain)
      ensures |removed| <= batchSize
      ensures |removed| == batchSize ||
              forall id :: id in entries ==> !Purgeable(entries[id], cutoff, includeUncertain)
      ensures forall i, j :: i in removed && j in entries && Purgeable(entries[j], cutoff, includeUncertain) ==>
                old(entries)[i].expiresAt <= entries[j].expiresAt
    {
      hide Linked, Purgeable;
      var eligible := map id | id in entries && Purgeable(entries[id], cutoff, includeUncertain)
                        :: entries[id].expiresAt;
      removed := Earliest(eligible, batchSize);
      Pop(removed);
      forall i, j | i in removed && j in entries && Purgeable(entries[j], cutoff, includeUncertain)
        ensures eligible[i] <= entries[j].expiresAt
      {
        assert j in eligible.Keys - removed;
      }
    }
  }
}
