/** The in-memory idempotency store: retained reservations addressed by identity and by token.
  * A table is the value of the store's two linked dictionaries; the store class updates those
  * dictionaries in place and is proved against the table operations.
  * Instants are integers, and a random UUID is the next value of a counter that is never reused. */
module IdempotencyTable {
  import opened Prelude

  /** An operation name; the batch coordinator's names, built from an item identifier, are kept apart. */
  datatype Operation = Named(name: string) | MutationItem(itemId: string)

  datatype Scope = Scope(namespace: string, subject: string, operation: Operation)

  datatype Identity = Identity(scope: Scope, key: string)

  datatype Phase<+V> = Reserved | Completed(value: V) | MarkedUncertain(reason: string)

  datatype Entry<+F, +V> = Entry(token: nat, fingerprint: F, expiresAt: int, phase: Phase<V>)

  datatype Decision<+V> =
    | Execute(token: nat)
    | Replay(value: V)
    | Conflict
    | InProgress(retryAfter: int)
    | Uncertain(reason: string)

  /** The answer of a transition that a token authorises: an instant, or stale. */
  datatype Settled = Until(at: int) | Abandoned | Stale

  datatype Table<F, V> = Table(
    entries: map<Identity, Entry<F, V>>,
    tokens: map<nat, Identity>,
    issued: nat)

  const CAPACITY_REASON := "idempotency capacity exceeded; no reservation was made"

  // ---------------------------------------------------------------- operations on tables

  predicate Expired<F, V>(e: Entry<F, V>, now: int) {
    e.expiresAt <= now && !e.phase.MarkedUncertain?
  }

  /** Drops a set of identities from both dictionaries. */
  function Without<F, V>(t: Table<F, V>, gone: set<Identity>): (r: Table<F, V>) {
    t.(entries := map id | id in t.entries && id !in gone :: t.entries[id],
       tokens := map tk | tk in t.tokens && t.tokens[tk] !in gone :: t.tokens[tk])
  }

  function ExpiredAt<F, V>(t: Table<F, V>, now: int): set<Identity> {
    set id | id in t.entries && Expired(t.entries[id], now)
  }

  function Purged<F, V>(t: Table<F, V>, now: int): Table<F, V> {
    Without(t, ExpiredAt(t, now))
  }

  function Reserve<F(==), V>(t: Table<F, V>, id: Identity, fp: F, now: int, ttl: int, capacity: nat)
    : (Table<F, V>, Decision<V>)
  {
    var p := Purged(t, now);
    if id in p.entries then
      var e := p.entries[id];
      (p,
       if e.fingerprint != fp then Conflict
       else match e.phase {
              case Completed(v) => Replay(v)
              case MarkedUncertain(reason) => Uncertain(reason)
              case Reserved => InProgress(e.expiresAt)
            })
    else if |p.entries| >= capacity then
      (p, Uncertain(CAPACITY_REASON))
    else
      (Table(p.entries[id := Entry(p.issued, fp, now + ttl, Reserved)],
             p.tokens[p.issued := id],
             p.issued + 1),
       Execute(p.issued))
  }

  /** The token is the live execution authority of an unexpired reservation. */
  predicate Executing<F, V>(t: Table<F, V>, token: nat, now: int) {
    && token in t.tokens
    && var id := t.tokens[token];
    && id in t.entries
    && t.entries[id].token == token
    && t.entries[id].phase.Reserved?
    && t.entries[id].expiresAt > now
  }

  function SetEntry<F, V>(t: Table<F, V>, token: nat, expiresAt: int, phase: Phase<V>): Table<F, V>
    requires token in t.tokens && t.tokens[token] in t.entries
  {
    var id := t.tokens[token];
    t.(entries := t.entries[id := t.entries[id].(expiresAt := expiresAt, phase := phase)])
  }

  function Renew<F, V>(t: Table<F, V>, token: nat, now: int, ttl: int): (Table<F, V>, Settled) {
    if Executing(t, token, now) then (SetEntry(t, token, now + ttl, Reserved), Until(now + ttl))
    else (t, Stale)
  }

  function Complete<F, V>(t: Table<F, V>, token: nat, v: V, now: int, ttl: int): (Table<F, V>, Settled) {
    if Executing(t, token, now) then (SetEntry(t, token, now + ttl, Completed(v)), Until(now + ttl))
    else (t, Stale)
  }

  function MarkUncertain<F, V>(t: Table<F, V>, token: nat, reason: string, now: int, ttl: int)
    : (Table<F, V>, Settled)
  {
    if Executing(t, token, now) then (SetEntry(t, token, now + ttl, MarkedUncertain(reason)), Until(now + ttl))
    else (t, Stale)
  }

  function Abandon<F, V>(t: Table<F, V>, token: nat, now: int): (Table<F, V>, Settled) {
    if Executing(t, token, now) then
      (t.(entries := t.entries - {t.tokens[token]}, tokens := t.tokens - {token}), Abandoned)
    else (t, Stale)
  }

  /** Entries that a maintenance plan may remove. */
  predicate Purgeable<F, V>(e: Entry<F, V>, cutoff: int, includeUncertain: bool) {
    e.expiresAt <= cutoff && (!e.phase.MarkedUncertain? || includeUncertain)
  }

  // ---------------------------------------------------------------- the linking invariant

  /** Entries and tokens are mutually inverse maps, and every issued token is below the counter. */
  ghost predicate Linked<F, V>(t: Table<F, V>) {
    && (forall id :: id in t.entries ==>
          t.entries[id].token in t.tokens && t.tokens[t.entries[id].token] == id)
    && (forall tk :: tk in t.tokens ==>
          tk < t.issued && t.tokens[tk] in t.entries && t.entries[t.tokens[tk]].token == tk)
  }

  lemma WithoutKeepsLinks<F, V>(t: Table<F, V>, gone: set<Identity>)
    requires Linked(t)
    ensures Linked(Without(t, gone))
  {
  }

  lemma WithoutNothing<F, V>(t: Table<F, V>)
    ensures Without(t, {}) == t
  {
    assert Without(t, {}).entries == t.entries && Without(t, {}).tokens == t.tokens;
  }

  /** Popping one more identity and its token extends the removed set by that identity. */
  lemma WithoutOneMore<F, V>(t: Table<F, V>, gone: set<Identity>, id: Identity)
    requires Linked(t) && id in t.entries && id !in gone
    ensures var w := Without(t, gone);
            id in w.entries && w.entries[id] == t.entries[id] &&
            Without(t, gone + {id}) ==
            w.(entries := w.entries - {id}, tokens := w.tokens - {t.entries[id].token})
  {
    var w := Without(t, gone);
    assert Without(t, gone + {id}).entries == w.entries - {id};
    assert Without(t, gone + {id}).tokens == w.tokens - {t.entries[id].token};
  }

  lemma ReserveKeepsLinks<F, V>(t: Table<F, V>, id: Identity, fp: F, now: int, ttl: int, capacity: nat)
    requires Linked(t)
    ensures Linked(Reserve(t, id, fp, now, ttl, capacity).0)
    ensures t.issued <= Reserve(t, id, fp, now, ttl, capacity).0.issued
  {
    hide Without;
    WithoutKeepsLinks(t, ExpiredAt(t, now));
    WithoutIssuesNothing(t, ExpiredAt(t, now));
  }

  lemma WithoutIssuesNothing<F, V>(t: Table<F, V>, gone: set<Identity>)
    ensures Without(t, gone).issued == t.issued
  {
  }

  lemma SettleKeepsLinks<F, V>(t: Table<F, V>, token: nat, expiresAt: int, phase: Phase<V>, now: int)
    requires Linked(t) && Executing(t, token, now)
    ensures Linked(SetEntry(t, token, expiresAt, phase)) && SetEntry(t, token, expiresAt, phase).issued == t.issued
    ensures Linked(Abandon(t, token, now).0) && Abandon(t, token, now).0.issued == t.issued
  {
  }
}
