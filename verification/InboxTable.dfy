/** The inbox as a table: which messages are being processed, and which have been. */
module InboxTable {
  import opened Prelude

  type Identity(==,!new)  // a scope and a message identifier
  type Token(==,!new)

  datatype Entry = Entry(token: Token, expires: int, completed: Option<int>)

  type Inbox = map<Identity, Entry>

  datatype InboxDecision =
    | Accepted(token: Token)
    | Duplicate(completedAt: int)
    | InProgress(retryAfter: int)
    | CapacityExceeded(capacity: nat)

  function Begin(t: Inbox, id: Identity, token: Token, now: int, ttl: nat, capacity: nat): (InboxDecision, Inbox) {
    if id in t && t[id].completed.Some? then (Duplicate(t[id].completed.value), t)
    else if id in t && t[id].expires > now then (InProgress(t[id].expires), t)
    else
      var rest := t - {id};
      if |rest| >= capacity then (CapacityExceeded(capacity), rest)
      else (Accepted(token), rest[id := Entry(token, now + ttl, None)])
  }

  /** Completing again with the same token is allowed until the entry expires. */
  function Complete(t: Inbox, id: Identity, token: Token, now: int): (bool, Inbox) {
    if id !in t || t[id].token != token || t[id].expires <= now then (false, t)
    else (true, t[id := t[id].(completed := Some(now))])
  }

  function Abandon(t: Inbox, id: Identity, token: Token): (bool, Inbox) {
    if id !in t || t[id].token != token || t[id].completed.Some? then (false, t)
    else (true, t - {id})
  }

  // ---------------------------------------------------------------- runs

  datatype Call =
    | BeginCall(id: Identity, token: Token, now: int, ttl: nat)
    | CompleteCall(id: Identity, token: Token, now: int)
    | AbandonCall(id: Identity, token: Token)

  function Apply(t: Inbox, c: Call, capacity: nat): Inbox {
    match c
    case BeginCall(id, token, now, ttl) => Begin(t, id, token, now, ttl, capacity).1
    case CompleteCall(id, token, now) => Complete(t, id, token, now).1
    case AbandonCall(id, token) => Abandon(t, id, token).1
  }

  function Run(t: Inbox, cs: seq<Call>, capacity: nat): Inbox
    decreases |cs|
  {
    if cs == [] then t else Run(Apply(t, cs[0], capacity), cs[1..], capacity)
  }

  /** A completed message stays completed under the token that completed it: from then on every begin finds
    * a duplicate, and neither another token's completion nor any abandonment succeeds. */
  lemma {:induction false} CompletedForever(t: Inbox, cs: seq<Call>, capacity: nat, id: Identity, call: Call)
    requires id in t && t[id].completed.Some?
    ensures var after := Run(t, cs, capacity);
            && id in after && after[id].completed.Some? && after[id].token == t[id].token
            && (call.BeginCall? && call.id == id ==>
                  Begin(after, id, call.token, call.now, call.ttl, capacity) == (Duplicate(after[id].completed.value), after))
            && (call.CompleteCall? && call.id == id && call.token != t[id].token ==>
                  !Complete(after, id, call.token, call.now).0)
            && (call.AbandonCall? && call.id == id ==> !Abandon(after, id, call.token).0)
    decreases |cs|
  {
    if cs != [] {
      var next := Apply(t, cs[0], capacity);
      assert id in next && next[id].completed.Some? && next[id].token == t[id].token;
      CompletedForever(next, cs[1..], capacity, id, call);
    }
  }

  /** Nobody begins the message at a reading past an instant, and nobody completes or abandons it with its token. */
  predicate Leaves(c: Call, id: Identity, token: Token, until: int) {
    c.id == id ==>
      match c
      case BeginCall(_, _, now, _) => now < until
      case CompleteCall(_, tk, _) => tk != token
      case AbandonCall(_, tk) => tk != token
  }

  lemma {:induction false} HeldThroughout(t: Inbox, cs: seq<Call>, capacity: nat, id: Identity, token: Token,
                                          until: int)
    requires id in t && t[id] == Entry(token, until, None)
    requires forall i :: 0 <= i < |cs| ==> Leaves(cs[i], id, token, until)
    ensures var after := Run(t, cs, capacity); id in after && after[id] == Entry(token, until, None)
    decreases |cs|
  {
    if cs != [] {
      assert Leaves(cs[0], id, token, until);
      HeldThroughout(Apply(t, cs[0], capacity), cs[1..], capacity, id, token, until);
    }
  }

  /** A message that was accepted at a reading for a period is held for exactly that long, whatever others do: until
    * then every begin is told that it is in progress until that very instant, and its token completes it, so that
    * it is a duplicate ever after; from then on its token completes nothing and the message may begin again, as it
    * may whenever its token abandons it. */
  lemma AcceptedIsHeld(t: Inbox, id: Identity, token: Token, now: int, ttl: nat, cs: seq<Call>, capacity: nat,
                       other: Token, at: int, ttl': nat)
    requires Begin(t, id, token, now, ttl, capacity).0 == Accepted(token)
    requires forall i :: 0 <= i < |cs| ==> Leaves(cs[i], id, token, now + ttl)
    ensures var u := Run(Begin(t, id, token, now, ttl, capacity).1, cs, capacity);
            var (answer, v) := Begin(u, id, other, at, ttl', capacity);
            var (done, w) := Complete(u, id, token, at);
            && (at < now + ttl ==> (answer, v) == (InProgress(now + ttl), u))
            && (at >= now + ttl ==> answer == if |u| <= capacity then Accepted(other) else CapacityExceeded(capacity))
            && (done <==> at < now + ttl)
            && (done ==> Begin(w, id, other, at, ttl', capacity).0 == Duplicate(at))
            && (other != token ==> !Complete(u, id, other, at).0 && !Abandon(u, id, other).0)
            && Abandon(u, id, token).0
            && (|u| <= capacity ==> Begin(Abandon(u, id, token).1, id, other, at, ttl', capacity).0 == Accepted(other))
  {
    hide Run, Begin, Complete, Abandon;
    BeginsHeld(t, id, token, now, ttl, capacity);
    HeldThroughout(Begin(t, id, token, now, ttl, capacity).1, cs, capacity, id, token, now + ttl);
    var u := Run(Begin(t, id, token, now, ttl, capacity).1, cs, capacity);
    HeldBegins(u, id, token, now + ttl, other, at, ttl', capacity);
    HeldEnds(u, id, token, now + ttl, other, at, ttl', capacity);
  }

  lemma BeginsHeld(t: Inbox, id: Identity, token: Token, now: int, ttl: nat, capacity: nat)
    requires Begin(t, id, token, now, ttl, capacity).0 == Accepted(token)
    ensures var u := Begin(t, id, token, now, ttl, capacity).1; id in u && u[id] == Entry(token, now + ttl, None)
  {
  }

  lemma Without(u: Inbox, id: Identity)
    requires id in u
    ensures |u - {id}| == |u| - 1 && id !in u - {id} && (u - {id}) - {id} == u - {id}
  {
    assert (u - {id}).Keys == u.Keys - {id};
  }

  /** What another begin finds while the message is held, and after. */
  lemma HeldBegins(u: Inbox, id: Identity, token: Token, until: int, other: Token, at: int, ttl: nat, capacity: nat)
    requires id in u && u[id] == Entry(token, until, None)
    ensures at < until ==> Begin(u, id, other, at, ttl, capacity) == (InProgress(until), u)
    ensures at >= until ==>
              Begin(u, id, other, at, ttl, capacity).0 ==
              if |u| <= capacity then Accepted(other) else CapacityExceeded(capacity)
  {
    Without(u, id);
  }

  /** How the holder of the token may end it, and that nobody else may. */
  lemma HeldEnds(u: Inbox, id: Identity, token: Token, until: int, other: Token, at: int, ttl: nat, capacity: nat)
    requires id in u && u[id] == Entry(token, until, None)
    ensures Complete(u, id, token, at).0 <==> at < until
    ensures at < until ==> Begin(Complete(u, id, token, at).1, id, other, at, ttl, capacity).0 == Duplicate(at)
    ensures other != token ==> !Complete(u, id, other, at).0 && !Abandon(u, id, other).0
    ensures Abandon(u, id, token).0
    ensures |u| <= capacity ==> Begin(Abandon(u, id, token).1, id, other, at, ttl, capacity).0 == Accepted(other)
  {
    Without(u, id);
  }
}
