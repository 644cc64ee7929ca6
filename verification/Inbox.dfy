/** The in-memory inbox store, updated in place. */
module Inbox {
  import opened Prelude
  import opened InboxTable
  import T = InboxTable

  class InMemoryInboxStore {
    const capacity: nat
    var entries: T.Inbox

    constructor (capacity: nat)
      requires capacity > 0
      ensures entries == map[] && this.capacity == capacity
    {
      this.capacity, entries := capacity, map[];
    }

    method Begin(id: Identity, token: Token, now: int, ttl: nat) returns (r: InboxDecision)
      modifies this`entries
      ensures (r, entries) == T.Begin(old(entries), id, token, now, ttl, capacity)
    {
      var entry := Get(entries, id);
      if entry.Some? {
        if entry.value.completed.Some? {
          return Duplicate(entry.value.completed.value);
        }
        if entry.value.expires > now {
          return InProgress(entry.value.expires);
        }
      }
      entries := entries - {id};
      if |entries| >= capacity {
        return CapacityExceeded(capacity);
      }
      entries := entries[id := Entry(token, now + ttl, None)];
      return Accepted(token);
    }

    method Complete(id: Identity, token: Token, now: int) returns (ok: bool)
      modifies this`entries
      ensures (ok, entries) == T.Complete(old(entries), id, token, now)
    {
      if id !in entries || entries[id].token != token || entries[id].expires <= now {
        return false;
      }
      entries := entries[id := entries[id].(completed := Some(now))];
      return true;
    }

    method Abandon(id: Identity, token: Token) returns (ok: bool)
      modifies this`entries
      ensures (ok, entries) == T.Abandon(old(entries), id, token)
    {
      if id !in entries || entries[id].token != token || entries[id].completed.Some? {
        return false;
      }
      entries := entries - {id};
      return true;
    }
  }
}
