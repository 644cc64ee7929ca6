/** The in-memory outbox with its asynchronous settlements, updated in place. */
module Outbox {
  import opened Prelude
  import opened Text
  import opened OutboxTable
  import O = OutboxTable

  class InMemoryAsyncOutboxStore {
    const capacity: nat
    const payloadSize: Sizing
    var items: map<MessageId, Item>
    var held: map<MessageId, int>  // the uncertain messages
    var issued: nat

    constructor (capacity: nat, payloadSize: Sizing)
      requires capacity > 0
      ensures State() == Table(map[], map[], 0) && this.capacity == capacity && this.payloadSize == payloadSize
    {
      this.capacity, this.payloadSize := capacity, payloadSize;
      items, held, issued := map[], map[], 0;
    }

    function State(): Table
      reads this
    {
      Table(items, held, issued)
    }

    method Add(e: Envelope) returns (r: AddResult)
      modifies this`items
      ensures (r, State()) == O.Add(old(State()), e, capacity)
    {
      if e.id in items {
        return AlreadyAdded;
      }
      if |items| >= capacity {
        return AddOverflow;
      }
      items := items[e.id := Item(e, None, None, None)];
      return Added;
    }

    /** Offers every message that is not uncertain and claims the first ready ones; then trims to the bytes. */
    method Claim(now: int, limit: nat, ttl: nat, maxBytes: Option<nat>) returns (claims: seq<O.Claim>)
      modifies this`items, this`issued
      ensures (State(), claims) == ClaimAll(old(State()), now, limit, ttl, maxBytes, payloadSize)
    {
      hide Offered, Ready;
      var eligible := Offered(State());
      claims := [];
      Whole(eligible, Take(State(), eligible, now, now + ttl, limit).1);
      var i := 0;
      while i < |eligible|
        invariant 0 <= i <= |eligible| && |claims| <= limit
        invariant held == old(held)
        invariant var (t, more) := Take(State(), eligible[i..], now, now + ttl, limit - |claims|);
                  (t, claims + more) == Take(old(State()), eligible, now, now + ttl, limit)
      {
        if |claims| >= limit {
          break;
        }
        assert eligible[i..][0] == eligible[i] && eligible[i..][1..] == eligible[i + 1..];
        ghost var before, claimed := State(), claims;
        if eligible[i] in items && Ready(items[eligible[i]], now) {
          var claim := O.Claim(issued, items[eligible[i]].envelope, now + ttl);
          items := items[eligible[i] := items[eligible[i]].(claim := Some(Held(issued, now + ttl)))];
          issued := issued + 1;
          claims := claims + [claim];
          assert State() == Grant(before, eligible[i], now + ttl);
          Appended(claimed, claim, Take(State(), eligible[i + 1..], now, now + ttl, limit - |claims|).1);
        }
        i := i + 1;
      }
      assert claims + [] == claims;
      if maxBytes.Some? {
        claims := KeepWithin(claims, maxBytes.value);
      }
    }

    /** Keeps what fits the bytes and releases the rest. */
    method KeepWithin(claims: seq<O.Claim>, maxBytes: nat) returns (selected: seq<O.Claim>)
      modifies this`items
      ensures (State(), selected) == Trim(old(State()), claims, maxBytes, payloadSize)
    {
      selected := [];
      Whole(claims, Trim(State(), claims, maxBytes, payloadSize).1);
      var retained := 0;
      var i := 0;
      while i < |claims|
        invariant 0 <= i <= |claims| && retained <= maxBytes
        invariant held == old(held) && issued == old(issued)
        invariant var (t, more) := Trim(State(), claims[i..], maxBytes - retained, payloadSize);
                  (t, selected + more) == Trim(old(State()), claims, maxBytes, payloadSize)
      {
        assert claims[i..][0] == claims[i] && claims[i..][1..] == claims[i + 1..];
        var size := payloadSize(claims[i].envelope.payload);
        ghost var chosen := selected;
        if retained + size <= maxBytes {
          retained := retained + size;
          selected := selected + [claims[i]];
          Appended(chosen, claims[i], Trim(State(), claims[i + 1..], maxBytes - retained, payloadSize).1);
        } else if claims[i].envelope.id in items {
          items := items[claims[i].envelope.id := items[claims[i].envelope.id].(claim := None)];
        }
        i := i + 1;
      }
      assert selected + [] == selected;
    }

    method Delivered(c: O.Claim, at: int) returns (r: Settlement)
      modifies this`items
      ensures (r, State()) == O.Delivered(old(State()), c, at)
    {
      if !Current(State(), c, at) {
        return Stale;
      }
      items := items[c.envelope.id := items[c.envelope.id].(delivered := Some(at), claim := None)];
      return Applied;
    }

    method Retry(c: O.Claim, availableAt: int, at: int) returns (r: Settlement)
      modifies this`items
      ensures (r, State()) == O.Retry(old(State()), c, availableAt, at)
    {
      if !Current(State(), c, at) {
        return Stale;
      }
      var item := items[c.envelope.id];
      var envelope := item.envelope.(attempt := item.envelope.attempt + 1, availableAt := availableAt);
      items := items[c.envelope.id := item.(envelope := envelope, claim := None)];
      return Applied;
    }

    method Defer(c: O.Claim, availableAt: int, at: int) returns (r: Settlement)
      modifies this`items
      ensures (r, State()) == O.Defer(old(State()), c, availableAt, at)
    {
      if !Current(State(), c, at) {
        return Stale;
      }
      var item := items[c.envelope.id];
      items := items[c.envelope.id := item.(envelope := item.envelope.(availableAt := availableAt), claim := None)];
      return Settlement.Deferred;
    }

    method Uncertain(c: O.Claim, at: int) returns (r: Settlement)
      modifies this`items, this`held
      ensures (r, State()) == O.MarkUncertain(old(State()), c, at)
    {
      if !Current(State(), c, at) {
        return Stale;
      }
      items := items[c.envelope.id := items[c.envelope.id].(claim := None)];
      held := held[c.envelope.id := at];
      return Applied;
    }

    method Failed(c: O.Claim, at: int) returns (r: Settlement)
      modifies this`items
      ensures (r, State()) == O.Failed(old(State()), c, at)
    {
      if !Current(State(), c, at) {
        return Stale;
      }
      items := items[c.envelope.id := items[c.envelope.id].(failed := Some(at), claim := None)];
      return Applied;
    }

    method ResolveUncertain(id: MessageId, expectedAt: int, delivered: bool, availableAt: int, at: int)
      returns (r: Settlement)
      requires held.Keys <= items.Keys
      modifies this`items, this`held
      ensures (r, State()) == O.ResolveUncertain(old(State()), id, expectedAt, delivered, availableAt, at)
    {
      if Get(held, id) != Some(expectedAt) {
        return Stale;
      }
      var item := items[id];
      items := items[id := item.(delivered := if delivered then Some(at) else None,
                                 envelope := item.envelope.(availableAt := availableAt))];
      held := held - {id};
      return Applied;
    }
  }
}
