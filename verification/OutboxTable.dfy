/** The outbox as a table: which messages wait, are claimed, are uncertain, were delivered, or failed. */
module OutboxTable {
  import opened Prelude
  import opened Text

  type MessageId = Str
  type Payload(==,!new)

  datatype Envelope = Envelope(id: MessageId, payload: Payload, attempt: nat, availableAt: int)

  /** A claim on an item: the identifier and the end of the claim are set and cleared together. */
  datatype Held = Held(claimId: nat, until: int)

  datatype Item = Item(envelope: Envelope, claim: Option<Held>, delivered: Option<int>, failed: Option<int>)

  datatype Claim = Claim(id: nat, envelope: Envelope, until: int)

  /** The items, the uncertain messages with the time they became so, and the number of claims issued. */
  datatype Table = Table(items: map<MessageId, Item>, uncertain: map<MessageId, int>, issued: nat)

  /** The retained bytes of a payload, a parameter of the store. */
  type Sizing = Payload -> nat

  // ---------------------------------------------------------------- claiming

  /** May be claimed as far as its own fields say. */
  predicate Ready(item: Item, now: int) {
    && item.envelope.availableAt <= now
    && item.delivered.None? && item.failed.None?
    && (item.claim.Some? ==> item.claim.value.until <= now)
  }

  /** Sorting key: earliest availability first, then by identifier. */
  function SortKey(e: Envelope): Str {
    [e.availableAt] + e.id
  }

  /** The keys of the messages that may be offered. */
  function OfferKeys(t: Table): set<Str> {
    set id | id in t.items && id !in t.uncertain :: SortKey(t.items[id].envelope)
  }

  /** The messages that are not uncertain, in the order in which they are offered. */
  function Offered(t: Table): seq<MessageId> {
    Tails(Sorted(OfferKeys(t)))
  }

  function Grant(t: Table, id: MessageId, until: int): Table
    requires id in t.items
  {
    t.(items := t.items[id := t.items[id].(claim := Some(Held(t.issued, until)))], issued := t.issued + 1)
  }

  /** Claims the first ready messages of a list. */
  function Take(t: Table, ids: seq<MessageId>, now: int, until: int, limit: nat): (Table, seq<Claim>)
    decreases |ids|
  {
    if ids == [] || limit == 0 then (t, [])
    else if ids[0] !in t.items || !Ready(t.items[ids[0]], now) then Take(t, ids[1..], now, until, limit)
    else
      var c := Claim(t.issued, t.items[ids[0]].envelope, until);
      var (after, more) := Take(Grant(t, ids[0], until), ids[1..], now, until, limit - 1);
      (after, [c] + more)
  }

  function Release(t: Table, id: MessageId): Table
    requires id in t.items
  {
    t.(items := t.items[id := t.items[id].(claim := None)])
  }

  /** Keeps, in order, every claim that still fits the byte budget, and releases the others. */
  function Trim(t: Table, cs: seq<Claim>, budget: nat, size: Sizing): (Table, seq<Claim>)
    decreases |cs|
  {
    if cs == [] then (t, [])
    else
      var bytes := size(cs[0].envelope.payload);
      if bytes <= budget then
        var (after, more) := Trim(t, cs[1..], budget - bytes, size);
        (after, [cs[0]] + more)
      else Trim(if cs[0].envelope.id in t.items then Release(t, cs[0].envelope.id) else t, cs[1..], budget, size)
  }

  function ClaimAll(t: Table, now: int, limit: nat, ttl: nat, maxBytes: Option<nat>, size: Sizing): (Table,
                    seq<Claim>) {
    var (taken, cs) := Take(t, Offered(t), now, now + ttl, limit);
    if maxBytes.None? then (taken, cs) else Trim(taken, cs, maxBytes.value, size)
  }

  // ---------------------------------------------------------------- settling

  datatype Settlement = Applied | Stale | Deferred

  /** The claim is the item's, and has not ended. */
  predicate Current(t: Table, c: Claim, at: int) {
    && c.envelope.id in t.items
    && var item := t.items[c.envelope.id];
       item.claim == Some(Held(c.id, c.until)) && item.delivered.None? && item.failed.None? && c.until > at
  }

  function Delivered(t: Table, c: Claim, at: int): (Settlement, Table) {
    if !Current(t, c, at) then (Stale, t)
    else (Applied, t.(items := t.items[c.envelope.id := t.items[c.envelope.id].(delivered := Some(at), claim := None)]))
  }

  function Retry(t: Table, c: Claim, availableAt: int, at: int): (Settlement, Table) {
    if !Current(t, c, at) then (Stale, t)
    else
      var item := t.items[c.envelope.id];
      (Applied, t.(items := t.items[c.envelope.id := item.(envelope :=
         item.envelope.(attempt := item.envelope.attempt + 1, availableAt := availableAt), claim := None)]))
  }

  function Defer(t: Table, c: Claim, availableAt: int, at: int): (Settlement, Table) {
    if !Current(t, c, at) then (Stale, t)
    else
      var item := t.items[c.envelope.id];
      (Deferred, t.(items := t.items[c.envelope.id := item.(envelope :=
         item.envelope.(availableAt := availableAt), claim := None)]))
  }

  function MarkUncertain(t: Table, c: Claim, at: int): (Settlement, Table) {
    if !Current(t, c, at) then (Stale, t)
    else (Applied, Release(t, c.envelope.id).(uncertain := t.uncertain[c.envelope.id := at]))
  }

  function Failed(t: Table, c: Claim, at: int): (Settlement, Table) {
    if !Current(t, c, at) then (Stale, t)
    else (Applied, t.(items := t.items[c.envelope.id := t.items[c.envelope.id].(failed := Some(at), claim := None)]))
  }

  function ResolveUncertain(t: Table, id: MessageId, expectedAt: int, delivered: bool, availableAt: int, at: int)
    : (Settlement, Table)
    requires t.uncertain.Keys <= t.items.Keys
  {
    if id !in t.uncertain || t.uncertain[id] != expectedAt then (Stale, t)
    else
      var item := t.items[id];
      (Applied, t.(items := t.items[id := item.(delivered := if delivered then Some(at) else None,
                                                envelope := item.envelope.(availableAt := availableAt))],
                   uncertain := t.uncertain - {id}))
  }

  datatype AddResult = Added | AlreadyAdded | AddOverflow

  function Add(t: Table, e: Envelope, capacity: nat): (AddResult, Table) {
    if e.id in t.items then (AlreadyAdded, t)
    else if |t.items| >= capacity then (AddOverflow, t)
    else (Added, t.(items := t.items[e.id := Item(e, None, None, None)]))
  }

  // ---------------------------------------------------------------- phases

  datatype Phase = PENDING | CLAIMED | UNCERTAIN | DELIVERED | FAILED

  function PhaseOf(t: Table, id: MessageId): Phase
    requires id in t.items
  {
    var item := t.items[id];
    if item.delivered.Some? then DELIVERED
    else if item.failed.Some? then FAILED
    else if id in t.uncertain then UNCERTAIN
    else if item.claim.Some? then CLAIMED
    else PENDING
  }

  /** At most one of delivered, failed, uncertain and claimed. */
  ghost predicate ItemGood(t: Table, id: MessageId)
    requires id in t.items
  {
    var item := t.items[id];
    && item.envelope.id == id
    && (item.claim.Some? ==> item.claim.value.claimId < t.issued && id !in t.uncertain)
    && (item.delivered.Some? ==> item.failed.None? && item.claim.None? && id !in t.uncertain)
    && (item.failed.Some? ==> item.claim.None? && id !in t.uncertain)
  }

  ghost predicate ClaimsDistinct(t: Table) {
    forall i, j | i in t.items && j in t.items && i != j && t.items[i].claim.Some? && t.items[j].claim.Some? ::
      t.items[i].claim.value.claimId != t.items[j].claim.value.claimId
  }

  ghost predicate TableGood(t: Table) {
    && t.uncertain.Keys <= t.items.Keys
    && (forall id | id in t.items :: ItemGood(t, id))
    && ClaimsDistinct(t)
  }

  // ---------------------------------------------------------------- what claiming does

  /** A claim was granted: a new identifier on a message that was ready, and nothing else of it changed. */
  ghost predicate Granted(t: Table, after: Table, c: Claim, now: int, until: int) {
    && t.issued <= c.id < after.issued && c.until == until
    && c.envelope.id in t.items && c.envelope.id in after.items && c.envelope.id !in t.uncertain
    && Ready(t.items[c.envelope.id], now) && c.envelope == t.items[c.envelope.id].envelope
    && after.items[c.envelope.id] == t.items[c.envelope.id].(claim := Some(Held(c.id, until)))
  }

  /** An item is as it was, or was ready and was claimed, or was ready and lost an expired claim. */
  ghost predicate Touched(t: Table, after: Table, cs: seq<Claim>, now: int, id: MessageId)
    requires id in t.items && id in after.items
  {
    || after.items[id] == t.items[id]
    || (&& id !in t.uncertain && Ready(t.items[id], now)
        && after.items[id] == t.items[id].(claim := after.items[id].claim)
        && (after.items[id].claim.Some? ==>
              exists c :: c in cs && c.envelope.id == id && after.items[id].claim.value.claimId == c.id))
  }

  ghost predicate Numbered(cs: seq<Claim>) {
    forall i, j | 0 <= i < j < |cs| :: cs[i].id < cs[j].id
  }

  /** What a batch of claims does to the table. */
  ghost predicate Batch(t: Table, after: Table, cs: seq<Claim>, now: int, until: int) {
    && after.uncertain == t.uncertain && after.items.Keys == t.items.Keys && t.issued <= after.issued
    && (forall c | c in cs :: Granted(t, after, c, now, until))
    && (forall id | id in t.items :: Touched(t, after, cs, now, id))
    && Numbered(cs)
  }

  lemma BatchNothing(t: Table, now: int, until: int)
    ensures Batch(t, t, [], now, until)
  {
  }

  /** One more claim in front of a batch. */
  lemma BatchCons(t: Table, id: MessageId, after: Table, cs: seq<Claim>, now: int, until: int)
    requires id in t.items && id !in t.uncertain && Ready(t.items[id], now) && until > now
    requires t.items[id].envelope.id == id
    requires Batch(Grant(t, id, until), after, cs, now, until)
    ensures Batch(t, after, [Claim(t.issued, t.items[id].envelope, until)] + cs, now, until)
  {
    var c := Claim(t.issued, t.items[id].envelope, until);
    var mid := Grant(t, id, until);
    assert !Ready(mid.items[id], now);
    assert Touched(mid, after, cs, now, id);
    var all := [c] + cs;
    forall d | d in all ensures Granted(t, after, d, now, until) {
      if d != c { assert d in cs && Granted(mid, after, d, now, until); }
    }
    forall i | i in t.items ensures Touched(t, after, all, now, i) {
      assert Touched(mid, after, cs, now, i);
      if i == id {
        assert c in all;
      } else if after.items[i] != t.items[i] && after.items[i].claim.Some? {
        var d :| d in cs && d.envelope.id == i && after.items[i].claim.value.claimId == d.id;
        assert d in all;
      }
    }
    forall i, j | 0 <= i < j < |all| ensures all[i].id < all[j].id {
      assert all[j] == cs[j - 1] && Granted(mid, after, cs[j - 1], now, until);
      if i > 0 { assert all[i] == cs[i - 1]; }
    }
  }

  ghost predicate Offerable(t: Table, ids: seq<MessageId>) {
    forall id | id in ids :: id in t.items && id !in t.uncertain && t.items[id].envelope.id == id
  }

  lemma {:induction false} TakeIsBatch(t: Table, ids: seq<MessageId>, now: int, until: int, limit: nat)
    requires Offerable(t, ids) && until > now
    ensures var (after, cs) := Take(t, ids, now, until, limit);
            Batch(t, after, cs, now, until) && |cs| <= limit
    decreases |ids|
  {
    hide Batch;
    if ids == [] || limit == 0 {
      BatchNothing(t, now, until);
    } else {
      assert ids[0] in ids;
      assert Offerable(t, ids[1..]);
      if Ready(t.items[ids[0]], now) {
        var mid := Grant(t, ids[0], until);
        assert Offerable(mid, ids[1..]);
        TakeIsBatch(mid, ids[1..], now, until, limit - 1);
        var (after, cs) := Take(mid, ids[1..], now, until, limit - 1);
        BatchCons(t, ids[0], after, cs, now, until);
      } else {
        TakeIsBatch(t, ids[1..], now, until, limit);
      }
    }
  }

  lemma NumberedDrop(a: seq<Claim>, c: Claim, b: seq<Claim>)
    requires Numbered(a + [c] + b)
    ensures Numbered(a + b) && forall d | d in a + b :: d in a + [c] + b && d.id != c.id
  {
    var all, rest := a + [c] + b, a + b;
    assert all[|a|] == c;
    forall i, j | 0 <= i < j < |rest| ensures rest[i].id < rest[j].id {
      assert rest[i] == all[if i < |a| then i else i + 1] && rest[j] == all[if j < |a| then j else j + 1];
    }
    forall d | d in rest ensures d in all && d.id != c.id {
      var i :| 0 <= i < |rest| && rest[i] == d;
      assert d == all[if i < |a| then i else i + 1];
    }
  }

  /** A claim that is released drops out of its batch. */
  lemma BatchDrop(t: Table, after: Table, a: seq<Claim>, c: Claim, b: seq<Claim>, now: int, until: int)
    requires Batch(t, after, a + [c] + b, now, until)
    ensures c.envelope.id in after.items && Batch(t, Release(after, c.envelope.id), a + b, now, until)
  {
    hide Numbered;
    var all, rest := a + [c] + b, a + b;
    NumberedDrop(a, c, b);
    assert c in all && Granted(t, after, c, now, until);
    var last := Release(after, c.envelope.id);
    forall d | d in rest ensures Granted(t, last, d, now, until) {
      assert Granted(t, after, d, now, until);
    }
    forall id | id in t.items ensures Touched(t, last, rest, now, id) {
      assert Touched(t, after, all, now, id);
      if id != c.envelope.id && after.items[id] != t.items[id] && after.items[id].claim.Some? {
        var d :| d in all && d.envelope.id == id && after.items[id].claim.value.claimId == d.id;
        assert d in rest;
      }
    }
  }

  /** The bytes of a list of claims. */
  function Bytes(cs: seq<Claim>, size: Sizing): nat {
    if cs == [] then 0 else size(cs[0].envelope.payload) + Bytes(cs[1..], size)
  }

  lemma {:induction false} TrimIsBatch(t: Table, taken: Table, kept: seq<Claim>, cs: seq<Claim>, budget: nat,
                                       size: Sizing, now: int, until: int)
    requires Batch(t, taken, kept + cs, now, until)
    ensures var (after, more) := Trim(taken, cs, budget, size);
            Batch(t, after, kept + more, now, until) && Bytes(more, size) <= budget && |more| <= |cs|
    decreases |cs|
  {
    hide Batch;
    if cs != [] {
      var bytes := size(cs[0].envelope.payload);
      assert kept + cs == kept + [cs[0]] + cs[1..];
      if bytes <= budget {
        TrimIsBatch(t, taken, kept + [cs[0]], cs[1..], budget - bytes, size, now, until);
        var more := Trim(taken, cs[1..], budget - bytes, size).1;
        assert kept + [cs[0]] + more == kept + ([cs[0]] + more);
        assert ([cs[0]] + more)[1..] == more;
      } else {
        BatchDrop(t, taken, kept, cs[0], cs[1..], now, until);
        TrimIsBatch(t, Release(taken, cs[0].envelope.id), kept, cs[1..], budget, size, now, until);
      }
    }
  }

  lemma {:induction false} IdentifierOfKey(keys: seq<Str>, id: MessageId)
    requires id in Tails(keys)
    ensures exists k :: k in keys && id == if k == [] then [] else k[1..]
  {
    if id == Tails(keys)[0] {
      assert keys[0] in keys;
    } else {
      IdentifierOfKey(keys[1..], id);
    }
  }

  lemma OfferedIsOfferable(t: Table)
    requires TableGood(t)
    ensures Offerable(t, Offered(t))
  {
    var keys := OfferKeys(t);
    forall id | id in Offered(t) ensures id in t.items && id !in t.uncertain && t.items[id].envelope.id == id {
      IdentifierOfKey(Sorted(keys), id);
      var k :| k in Sorted(keys) && id == if k == [] then [] else k[1..];
      assert k in Members(Sorted(keys));
      var j :| j in t.items && j !in t.uncertain && k == SortKey(t.items[j].envelope);
      assert ItemGood(t, j);
      assert k[1..] == j;
    }
  }

  /** Claiming grants new claims on ready messages only, at most so many, within the byte budget. */
  lemma ClaimsAreBatch(t: Table, now: int, limit: nat, ttl: nat, maxBytes: Option<nat>, size: Sizing)
    requires TableGood(t) && ttl > 0
    ensures var (after, cs) := ClaimAll(t, now, limit, ttl, maxBytes, size);
            && Batch(t, after, cs, now, now + ttl) && |cs| <= limit
            && (maxBytes.Some? ==> Bytes(cs, size) <= maxBytes.value)
  {
    hide Batch, TableGood, Offered;
    OfferedIsOfferable(t);
    TakeIsBatch(t, Offered(t), now, now + ttl, limit);
    var (taken, cs) := Take(t, Offered(t), now, now + ttl, limit);
    if maxBytes.Some? {
      assert [] + cs == cs;
      TrimIsBatch(t, taken, [], cs, maxBytes.value, size, now, now + ttl);
      var more := Trim(taken, cs, maxBytes.value, size).1;
      assert [] + more == more;
    }
  }

  // ---------------------------------------------------------------- claiming keeps the table good

  lemma BatchGood(t: Table, after: Table, cs: seq<Claim>, now: int, until: int)
    requires TableGood(t) && Batch(t, after, cs, now, until)
    ensures TableGood(after)
  {
    forall id | id in after.items ensures ItemGood(after, id) {
      assert ItemGood(t, id) && Touched(t, after, cs, now, id);
      if after.items[id] != t.items[id] && after.items[id].claim.Some? {
        var c :| c in cs && c.envelope.id == id && after.items[id].claim.value.claimId == c.id;
        assert Granted(t, after, c, now, until);
      }
    }
    forall i, j | i in after.items && j in after.items && i != j && after.items[i].claim.Some? && after.items[j].claim.Some?
      ensures after.items[i].claim.value.claimId != after.items[j].claim.value.claimId
    {
      BatchDistinct(t, after, cs, now, until, i, j);
    }
  }

  lemma BatchDistinct(t: Table, after: Table, cs: seq<Claim>, now: int, until: int, i: MessageId, j: MessageId)
    requires TableGood(t) && Batch(t, after, cs, now, until)
    requires i in after.items && j in after.items && i != j && after.items[i].claim.Some? && after.items[j].claim.Some?
    ensures after.items[i].claim.value.claimId != after.items[j].claim.value.claimId
  {
    ClaimOrigin(t, after, cs, now, until, i);
    ClaimOrigin(t, after, cs, now, until, j);
    if after.items[i] != t.items[i] && after.items[j] != t.items[j] {
      var c :| c in cs && c.envelope.id == i && after.items[i].claim.value.claimId == c.id;
      var d :| d in cs && d.envelope.id == j && after.items[j].claim.value.claimId == d.id;
      var k :| 0 <= k < |cs| && cs[k] == c;
      var l :| 0 <= l < |cs| && cs[l] == d;
      assert k != l;
    }
  }

  /** The claim of an item is an old one that it had before, or a new one of the batch. */
  lemma ClaimOrigin(t: Table, after: Table, cs: seq<Claim>, now: int, until: int, id: MessageId)
    requires TableGood(t) && Batch(t, after, cs, now, until) && id in after.items && after.items[id].claim.Some?
    ensures if after.items[id] == t.items[id] then after.items[id].claim.value.claimId < t.issued
            else after.items[id].claim.value.claimId >= t.issued
                 && exists c :: c in cs && c.envelope.id == id && after.items[id].claim.value.claimId == c.id
  {
    assert ItemGood(t, id) && Touched(t, after, cs, now, id);
    if after.items[id] != t.items[id] {
      var c :| c in cs && c.envelope.id == id && after.items[id].claim.value.claimId == c.id;
      assert Granted(t, after, c, now, until);
    }
  }

  // ---------------------------------------------------------------- order

  /** The ready messages of a list. */
  function ReadyOf(t: Table, ids: seq<MessageId>, now: int): seq<MessageId> {
    if ids == [] then []
    else (if ids[0] in t.items && Ready(t.items[ids[0]], now) then [ids[0]] else []) + ReadyOf(t, ids[1..], now)
  }

  function MessagesOf(cs: seq<Claim>): seq<MessageId> {
    if cs == [] then [] else [cs[0].envelope.id] + MessagesOf(cs[1..])
  }

  /** Without a byte budget the claimed messages are the first ready ones, earliest availability first. */
  lemma {:induction false} TakesFirstReady(t: Table, ids: seq<MessageId>, now: int, until: int, limit: nat)
    requires Offerable(t, ids) && (forall i, j | 0 <= i < j < |ids| :: ids[i] != ids[j])
    ensures var ready := ReadyOf(t, ids, now);
            MessagesOf(Take(t, ids, now, until, limit).1) == ready[..if limit < |ready| then limit else |ready|]
    decreases |ids|
  {
    hide Grant;
    if ids != [] && limit > 0 {
      assert ids[0] in ids;
      var rest := ReadyOf(t, ids[1..], now);
      if Ready(t.items[ids[0]], now) {
        var mid := Grant(t, ids[0], until);
        GrantElsewhere(t, ids[0], until);
        ReadyElsewhere(t, mid, ids[0], ids[1..], now);
        TakesFirstReady(mid, ids[1..], now, until, limit - 1);
        MessagesCons(Claim(t.issued, t.items[ids[0]].envelope, until), Take(mid, ids[1..], now, until, limit - 1).1);
        PrefixCons(ids[0], rest, limit);
      } else {
        TakesFirstReady(t, ids[1..], now, until, limit);
        assert [] + rest == rest;
      }
    }
  }

  lemma GrantElsewhere(t: Table, id: MessageId, until: int)
    requires id in t.items
    ensures var mid := Grant(t, id, until);
            && mid.items.Keys == t.items.Keys && mid.uncertain == t.uncertain
            && (forall i | i in t.items :: mid.items[i].envelope == t.items[i].envelope)
            && (forall i | i in t.items && i != id :: mid.items[i] == t.items[i])
  {
  }

  lemma MessagesCons(c: Claim, cs: seq<Claim>)
    ensures MessagesOf([c] + cs) == [c.envelope.id] + MessagesOf(cs)
  {
    assert ([c] + cs)[1..] == cs;
  }

  lemma PrefixCons(id: MessageId, ids: seq<MessageId>, limit: nat)
    requires limit > 0
    ensures [id] + ids[..if limit - 1 < |ids| then limit - 1 else |ids|]
            == ([id] + ids)[..if limit < |ids| + 1 then limit else |ids| + 1]
  {
  }

  lemma {:induction false} ReadyElsewhere(t: Table, mid: Table, id: MessageId, ids: seq<MessageId>, now: int)
    requires id !in ids && id in t.items && mid.items.Keys == t.items.Keys
    requires forall i | i in t.items && i != id :: mid.items[i] == t.items[i]
    ensures ReadyOf(mid, ids, now) == ReadyOf(t, ids, now)
  {
    if ids != [] { ReadyElsewhere(t, mid, id, ids[1..], now); }
  }

  lemma {:induction false} IdentifierAt(keys: seq<Str>, i: nat)
    requires i < |keys|
    ensures Tails(keys)[i] == if keys[i] == [] then [] else keys[i][1..]
  {
    if i > 0 { IdentifierAt(keys[1..], i - 1); }
  }

  lemma OfferedAt(t: Table, i: nat)
    requires TableGood(t) && i < |Offered(t)|
    ensures var ks := Sorted(OfferKeys(t));
            var id := Offered(t)[i];
            |ks| == |Offered(t)| && id in t.items && id !in t.uncertain && SortKey(t.items[id].envelope) == ks[i]
  {
    hide ClaimsDistinct, Tails, LexLess;
    var ks := Sorted(OfferKeys(t));
    IdentifierAt(ks, i);
    assert ks[i] in Members(ks);
    var id :| id in t.items && id !in t.uncertain && SortKey(t.items[id].envelope) == ks[i];
    assert ItemGood(t, id);
    assert ks[i][1..] == id;
  }

  lemma OfferedHas(t: Table, id: MessageId)
    requires TableGood(t) && id in t.items && id !in t.uncertain
    ensures id in Offered(t)
  {
    hide ClaimsDistinct, Tails, LexLess;
    var ks := Sorted(OfferKeys(t));
    assert SortKey(t.items[id].envelope) in Members(ks);
    var i :| 0 <= i < |ks| && ks[i] == SortKey(t.items[id].envelope);
    IdentifierAt(ks, i);
    assert ItemGood(t, id);
    assert Offered(t)[i] == id;
  }

  /** Messages are offered once each, earliest availability first and then by identifier, and all are
    * offered that are not uncertain. */
  lemma OfferedInOrder(t: Table)
    requires TableGood(t)
    ensures var ids := Offered(t);
            && (forall id :: id in ids <==> id in t.items && id !in t.uncertain)
            && (forall i, j | 0 <= i < j < |ids| :: ids[i] in t.items && ids[j] in t.items && ids[i] != ids[j]
                  && LexLess(SortKey(t.items[ids[i]].envelope), SortKey(t.items[ids[j]].envelope)))
  {
    hide TableGood, Offered, Sorted, SortKey, OfferKeys, LexLe;
    var ids, ks := Offered(t), Sorted(OfferKeys(t));
    forall i | 0 <= i < |ids|
      ensures |ks| == |ids| && ids[i] in t.items && ids[i] !in t.uncertain
              && SortKey(t.items[ids[i]].envelope) == ks[i]
    {
      OfferedAt(t, i);
    }
    forall id | id in t.items && id !in t.uncertain ensures id in ids { OfferedHas(t, id); }
    forall i, j | 0 <= i < j < |ids| ensures ids[i] != ids[j] && LexLess(ks[i], ks[j]) {
      assert LexLess(ks[i], ks[j]);
    }
  }

  /** Without a byte budget a claim takes exactly the first ready messages. */
  lemma OldestFirst(t: Table, now: int, limit: nat, ttl: nat, size: Sizing)
    requires TableGood(t)
    ensures var ready := ReadyOf(t, Offered(t), now);
            MessagesOf(ClaimAll(t, now, limit, ttl, None, size).1) == ready[..if limit < |ready| then limit else |ready|]
  {
    hide Offered, TableGood;
    OfferedInOrder(t);
    OfferedIsOfferable(t);
    TakesFirstReady(t, Offered(t), now, now + ttl, limit);
  }

  lemma OneOffered(t: Table, id: MessageId)
    requires t.items.Keys == {id} && t.uncertain == map[] && t.items[id].envelope.id == id
    ensures Offered(t) == [id]
  {
    var k := SortKey(t.items[id].envelope);
    var keys := OfferKeys(t);
    assert keys == {k};
    var sorted := Sorted(keys);
    assert |sorted| == 1 && sorted[0] in Members(sorted);
    assert sorted == [k] && sorted[1..] == [] && Tails([]) == [] && k[1..] == id;
    assert Tails([k]) == [id];
  }

  lemma OneTaken(t: Table, id: MessageId, now: int, until: int)
    requires id in t.items && Ready(t.items[id], now)
    ensures Take(t, [id], now, until, 1) == (Grant(t, id, until), [Claim(t.issued, t.items[id].envelope, until)])
  {
    var c := Claim(t.issued, t.items[id].envelope, until);
    assert |[id][1..]| == 0 && Take(Grant(t, id, until), [], now, until, 0) == (Grant(t, id, until), []);
    assert [c] + [] == [c];
  }

  /** An outbox with one message, ready and not in doubt, yields one claim on it. */
  lemma OneClaimed(t: Table, id: MessageId, now: int, ttl: nat, size: Sizing)
    requires t.items.Keys == {id} && t.uncertain == map[] && Ready(t.items[id], now)
    requires t.items[id].envelope.id == id
    ensures var e := t.items[id].envelope;
            ClaimAll(t, now, 1, ttl, Some(size(e.payload)), size)
            == (Grant(t, id, now + ttl), [Claim(t.issued, e, now + ttl)])
  {
    hide Offered, Take, Grant, Ready;
    OneOffered(t, id);
    OneTaken(t, id, now, now + ttl);
    var c := Claim(t.issued, t.items[id].envelope, now + ttl);
    assert [c][1..] == [] && Trim(Grant(t, id, now + ttl), [], 0, size) == (Grant(t, id, now + ttl), []);
    assert [c] + [] == [c];
  }
}
