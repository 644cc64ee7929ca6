/** The in-memory lease store, updated in place, and fenced commits against it. */
module Leases {
  import opened Prelude
  import opened LeaseTable
  import T = LeaseTable

  class InMemoryLeaseStore {
    const capacity: nat
    var leases: map<Resource, Lease>
    var tokens: map<Resource, nat>

    constructor (capacity: nat)
      requires capacity > 0
      ensures State() == EMPTY && this.capacity == capacity
    {
      this.capacity, leases, tokens := capacity, map[], map[];
    }

    function State(): Table
      reads this
    {
      Table(leases, tokens)
    }

    method Acquire(r: Resource, owner: Owner, now: int, ttl: nat) returns (result: AcquireResult)
      modifies this
      ensures (result, State()) == T.Acquire(old(State()), r, owner, now, ttl, capacity)
    {
      var current := Get(leases, r);
      if current.Some? && current.value.expires > now {
        return Busy(current.value.owner, current.value.expires);
      }
      if r !in tokens && |tokens| >= capacity {
        return CapacityExceeded;
      }
      var token := (if r in tokens then tokens[r] else 0) + 1;
      var lease := Lease(r, owner, token, now + ttl);
      tokens := tokens[r := token];
      leases := leases[r := lease];
      return Acquired(lease);
    }

    method Renew(lease: Lease, now: int, ttl: nat) returns (result: Option<Lease>)
      modifies this`leases
      ensures (result, State()) == T.Renew(old(State()), lease, now, ttl)
    {
      if Get(leases, lease.resource) != Some(lease) || lease.expires <= now {
        return None;
      }
      var renewed := Lease(lease.resource, lease.owner, lease.token, now + ttl);
      leases := leases[lease.resource := renewed];
      return Some(renewed);
    }

    method Release(lease: Lease, now: int) returns (released: bool)
      modifies this`leases
      ensures (released, State()) == T.Release(old(State()), lease, now)
    {
      if Get(leases, lease.resource) != Some(lease) || lease.expires <= now {
        return false;
      }
      leases := leases - {lease.resource};
      return true;
    }
  }

  /** A consumer's mutations, each committed only under the authority of its lease. */
  class FencedCommit {
    const store: InMemoryLeaseStore
    var committed: seq<Commit>

    constructor (store: InMemoryLeaseStore)
      ensures this.store == store && committed == []
    {
      this.store, committed := store, [];
    }

    method CommitUnder(lease: Lease, now: int) returns (ok: bool)
      modifies this
      ensures ok == Admits(store.State(), lease, now)
      ensures committed == if ok then old(committed) + [TokenOf(lease)] else old(committed)
    {
      var authority := Get(store.leases, lease.resource);
      if authority.None? || authority.value.token != lease.token || authority.value.owner != lease.owner
         || authority.value.expires <= now {
        return false;
      }
      committed := committed + [TokenOf(lease)];
      return true;
    }
  }
}
