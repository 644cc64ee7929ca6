/** The in-memory mutation-batch store as a value: retained, resumable batch entries and the tokens
  * of the leases that may advance them. Same conventions as the idempotency table. */
module BatchTable {
  import opened Prelude

  datatype BatchId = BatchId(namespace: string, batch: string)

  datatype Receipt<+R> = Receipt(itemId: string, result: R, replayed: bool)

  datatype BatchState = Processing | PartiallyCommitted | Completed | Uncertain

  datatype Stored<+F, +R> = Stored(
    fingerprint: F,
    totalItems: nat,
    token: nat,
    state: BatchState,
    nextIndex: nat,
    receipts: seq<Receipt<R>>,
    leaseExpiresAt: int,
    retentionExpiresAt: Option<int>,
    uncertaintyReason: Option<string>)

  datatype Lease<+R> = Lease(
    batch: BatchId,
    token: nat,
    state: BatchState,
    nextIndex: nat,
    totalItems: nat,
    receipts: seq<Receipt<R>>,
    expiresAt: int,
    resumed: bool)

  datatype Begun<+R> =
    | Leased(lease: Lease<R>)
    | BatchReplay(receipts: seq<Receipt<R>>)
    | BatchConflict
    | BatchInProgress(retryAfter: int)
    | BatchUncertain(reason: string)

  datatype Table<F, R> = Table(entries: map<BatchId, Stored<F, R>>, tokens: map<nat, BatchId>, issued: nat)

  const CAPACITY_REASON := "mutation batch capacity exceeded; no lease was issued"
  const UNKNOWN_REASON := "the prior batch outcome is unknown"

  // ---------------------------------------------------------------- operations on tables

  predicate ExecutingState(s: BatchState) {
    s.Processing? || s.PartiallyCommitted?
  }

  predicate Reached(limit: Option<int>, now: int) {
    limit.Some? && limit.value <= now
  }

  function PurgeTerminal<F, R>(t: Table<F, R>, now: int): Table<F, R> {
    t.(entries := map b | b in t.entries &&
                          !(t.entries[b].state.Completed? && Reached(t.entries[b].retentionExpiresAt, now))
                    :: t.entries[b])
  }

  function LeaseOf<F, R>(b: BatchId, e: Stored<F, R>, resumed: bool): Lease<R> {
    Lease(b, e.token, e.state, e.nextIndex, e.totalItems, e.receipts, e.leaseExpiresAt, resumed)
  }

  function Begin<F(==), R>(
    t: Table<F, R>, b: BatchId, fp: F, totalItems: nat, now: int, ttl: int, capacity: nat)
    : (Table<F, R>, Begun<R>)
  {
    var p := PurgeTerminal(t, now);
    if b in p.entries then
      var e := p.entries[b];
      if e.fingerprint != fp || e.totalItems != totalItems then (p, BatchConflict)
      else if e.state.Completed? then (p, BatchReplay(e.receipts))
      else if e.state.Uncertain? then
        (p, BatchUncertain(if e.uncertaintyReason.Some? && e.uncertaintyReason.value != ""
                           then e.uncertaintyReason.value else UNKNOWN_REASON))
      else if e.leaseExpiresAt > now then (p, BatchInProgress(e.leaseExpiresAt))
      else
        var taken := e.(token := p.issued, leaseExpiresAt := now + ttl);
        (Table(p.entries[b := taken], (p.tokens - {e.token})[p.issued := b], p.issued + 1),
         Leased(LeaseOf(b, taken, true)))
    else if |p.entries| >= capacity then (p, BatchUncertain(CAPACITY_REASON))
    else
      var born := Stored(fp, totalItems, p.issued, Processing, 0, [], now + ttl, None, None);
      (Table(p.entries[b := born], p.tokens[p.issued := b], p.issued + 1), Leased(LeaseOf(b, born, false)))
  }

  /** The lease is the authoritative, unexpired and current snapshot of its batch. */
  predicate Active<F, R(==)>(t: Table<F, R>, l: Lease<R>, now: int) {
    && l.token in t.tokens
    && t.tokens[l.token] == l.batch
    && l.batch in t.entries
    && var e := t.entries[l.batch];
    && e.token == l.token
    && ExecutingState(e.state)
    && e.leaseExpiresAt > now
    && e.leaseExpiresAt == l.expiresAt
    && e.nextIndex == l.nextIndex
    && e.receipts == l.receipts
  }

  function Renew<F, R(==)>(t: Table<F, R>, l: Lease<R>, now: int, ttl: int): (Table<F, R>, Option<Lease<R>>) {
    if !Active(t, l, now) then (t, None) else
    var e := t.entries[l.batch].(leaseExpiresAt := now + ttl);
    (t.(entries := t.entries[l.batch := e]), Some(LeaseOf(l.batch, e, l.resumed)))
  }

  function Advance<F, R(==)>(t: Table<F, R>, l: Lease<R>, receipt: Receipt<R>, now: int, ttl: int)
    : (Table<F, R>, Option<Lease<R>>)
  {
    if !Active(t, l, now) || t.entries[l.batch].nextIndex >= t.entries[l.batch].totalItems then (t, None) else
    var e := t.entries[l.batch];
    var e' := e.(receipts := e.receipts + [receipt], nextIndex := e.nextIndex + 1,
                 state := PartiallyCommitted, leaseExpiresAt := now + ttl);
    (t.(entries := t.entries[l.batch := e']), Some(LeaseOf(l.batch, e', l.resumed)))
  }

  function Complete<F, R(==)>(t: Table<F, R>, l: Lease<R>, now: int, ttl: int): (Table<F, R>, Option<int>) {
    if !Active(t, l, now) || t.entries[l.batch].nextIndex != t.entries[l.batch].totalItems then (t, None) else
    var e := t.entries[l.batch].(state := Completed, retentionExpiresAt := Some(now + ttl));
    (t.(entries := t.entries[l.batch := e], tokens := t.tokens - {l.token}), Some(now + ttl))
  }

  function MarkUncertain<F, R(==)>(t: Table<F, R>, l: Lease<R>, reason: string, now: int, ttl: int)
    : (Table<F, R>, Option<int>)
  {
    if !Active(t, l, now) then (t, None) else
    var e := t.entries[l.batch].(state := Uncertain, uncertaintyReason := Some(reason),
                                 retentionExpiresAt := Some(now + ttl));
    (t.(entries := t.entries[l.batch := e], tokens := t.tokens - {l.token}), Some(now + ttl))
  }

  /** Drops a set of batches; their tokens, if any, are left alone. */
  function Without<F, R>(t: Table<F, R>, gone: set<BatchId>): Table<F, R> {
    t.(entries := t.entries - gone)
  }

  /** Entries that a maintenance plan may remove. */
  predicate Purgeable<F, R>(e: Stored<F, R>, cutoff: int, includeUncertain: bool) {
    && (e.state.Completed? || (includeUncertain && e.state.Uncertain?))
    && Reached(e.retentionExpiresAt, cutoff)
  }

  // ---------------------------------------------------------------- the linking invariant

  ghost predicate EntryLinked<F, R>(t: Table<F, R>, b: BatchId)
    requires b in t.entries
  {
    var e := t.entries[b];
    && e.nextIndex == |e.receipts| <= e.totalItems
    && e.token < t.issued
    && (ExecutingState(e.state) ==> e.token in t.tokens && t.tokens[e.token] == b)
  }

  ghost predicate TokenLinked<F, R>(t: Table<F, R>, token: nat)
    requires token in t.tokens
  {
    var b := t.tokens[token];
    && token < t.issued
    && b in t.entries && t.entries[b].token == token && ExecutingState(t.entries[b].state)
  }

  /** Tokens are exactly the tokens of the executing entries; progress and receipts agree. */
  ghost predicate Linked<F, R>(t: Table<F, R>) {
    && (forall b :: b in t.entries ==> EntryLinked(t, b))
    && (forall tk :: tk in t.tokens ==> TokenLinked(t, tk))
  }

  lemma DroppingKeepsLinks<F, R>(t: Table<F, R>, gone: set<BatchId>)
    requires Linked(t)
    requires forall b :: b in gone && b in t.entries ==> !ExecutingState(t.entries[b].state)
    ensures Linked(Without(t, gone))
  {
    var u := Without(t, gone);
    forall b | b in u.entries ensures EntryLinked(u, b) { assert EntryLinked(t, b); }
    forall tk | tk in u.tokens ensures TokenLinked(u, tk) { assert TokenLinked(t, tk); }
  }

  /** Replacing one entry, and the token that names it, keeps the links. */
  lemma ReplacingKeepsLinks<F, R>(t: Table<F, R>, b: BatchId, e: Stored<F, R>, issued: nat)
    requires Linked(t) && ExecutingState(e.state) && e.nextIndex == |e.receipts| <= e.totalItems
    requires t.issued <= issued && e.token < issued
    requires e.token in t.tokens ==> t.tokens[e.token] == b
    requires b in t.entries ==> ExecutingState(t.entries[b].state)
    ensures var tokens := if b in t.entries then t.tokens - {t.entries[b].token} else t.tokens;
            Linked(Table(t.entries[b := e], tokens[e.token := b], issued))
  {
    var tokens := if b in t.entries then t.tokens - {t.entries[b].token} else t.tokens;
    var u := Table(t.entries[b := e], tokens[e.token := b], issued);
    forall c | c in u.entries ensures EntryLinked(u, c) {
      if c != b {
        assert EntryLinked(t, c);
        if b in t.entries { assert EntryLinked(t, b); }
      }
    }
    forall tk | tk in u.tokens ensures TokenLinked(u, tk) {
      if tk != e.token { assert TokenLinked(t, tk); }
    }
  }

  lemma PurgeKeepsLinks<F, R>(t: Table<F, R>, now: int)
    requires Linked(t)
    ensures Linked(PurgeTerminal(t, now))
  {
    var u := PurgeTerminal(t, now);
    forall b | b in u.entries ensures EntryLinked(u, b) { assert EntryLinked(t, b); }
    forall tk | tk in u.tokens ensures TokenLinked(u, tk) { assert TokenLinked(t, tk); }
  }

  lemma BeginKeepsLinks<F, R>(
    t: Table<F, R>, b: BatchId, fp: F, totalItems: nat, now: int, ttl: int, capacity: nat)
    requires Linked(t)
    ensures Linked(Begin(t, b, fp, totalItems, now, ttl, capacity).0)
  {
    PurgeKeepsLinks(t, now);
    IssueKeepsLinks(PurgeTerminal(t, now), b, fp, totalItems, now, ttl);
  }

  lemma BeginIssues<F, R>(t: Table<F, R>, b: BatchId, fp: F, totalItems: nat, now: int, ttl: int, capacity: nat)
    ensures t.issued <= Begin(t, b, fp, totalItems, now, ttl, capacity).0.issued
  {
  }

  lemma IssueKeepsLinks<F, R>(p: Table<F, R>, b: BatchId, fp: F, totalItems: nat, now: int, ttl: int)
    requires Linked(p)
    ensures b in p.entries && ExecutingState(p.entries[b].state) ==>
              var e := p.entries[b].(token := p.issued, leaseExpiresAt := now + ttl);
              Linked(Table(p.entries[b := e], (p.tokens - {p.entries[b].token})[p.issued := b], p.issued + 1))
    ensures b !in p.entries ==>
              var e := Stored(fp, totalItems, p.issued, Processing, 0, [], now + ttl, None, None);
              Linked(Table(p.entries[b := e], p.tokens[p.issued := b], p.issued + 1))
  {
    assert p.issued !in p.tokens;
    if b in p.entries {
      if ExecutingState(p.entries[b].state) {
        assert EntryLinked(p, b);
        ReplacingKeepsLinks(p, b, p.entries[b].(token := p.issued, leaseExpiresAt := now + ttl), p.issued + 1);
      }
    } else {
      ReplacingKeepsLinks(p, b, Stored(fp, totalItems, p.issued, Processing, 0, [], now + ttl, None, None), p.issued + 1);
    }
  }

  lemma CompleteKeepsLinks<F, R>(t: Table<F, R>, l: Lease<R>, now: int, ttl: int)
    requires Linked(t)
    ensures Linked(Complete(t, l, now, ttl).0)
  {
    var u := Complete(t, l, now, ttl).0;
    if Complete(t, l, now, ttl).1.Some? {
      assert EntryLinked(t, l.batch);
      forall b | b in u.entries ensures EntryLinked(u, b) { assert EntryLinked(t, b); }
      forall tk | tk in u.tokens ensures TokenLinked(u, tk) { assert TokenLinked(t, tk); }
    }
  }
}
