/** Which messages a claim takes, said by the stored messages alone: when they became available, whether they are
  * still open, and how many bytes they have. */
module OutboxClaims {
  import opened Prelude
  import opened Text
  import opened OutboxTable

  // ---------------------------------------------------------------- what may be claimed

  /** Stored and open, available by now, and under no claim that has not ended. */
  ghost predicate Due(t: Table, id: MessageId, now: int) {
    && id in t.items && id !in t.uncertain
    && var item := t.items[id];
       && item.delivered.None? && item.failed.None? && item.envelope.availableAt <= now
       && (item.claim.Some? ==> item.claim.value.until <= now)
  }

  /** Available earlier, or at once and first by identifier. */
  ghost predicate Earlier(e: Envelope, f: Envelope) {
    e.availableAt < f.availableAt || (e.availableAt == f.availableAt && LexLess(e.id, f.id))
  }

  ghost predicate Claimed(cs: seq<Claim>, id: MessageId) {
    exists i :: 0 <= i < |cs| && cs[i].envelope.id == id
  }

  /** Claims on due messages, in order, until the given instant. */
  ghost predicate InOrder(t: Table, cs: seq<Claim>, now: int, until: int) {
    && (forall i :: 0 <= i < |cs| ==>
          && Due(t, cs[i].envelope.id, now) && cs[i].envelope == t.items[cs[i].envelope.id].envelope
          && cs[i].until == until)
    && (forall i, j :: 0 <= i < j < |cs| ==> Earlier(cs[i].envelope, cs[j].envelope))
  }

  /** A due message that was passed over comes after as many claims as were allowed. */
  ghost predicate First(t: Table, ids: seq<MessageId>, cs: seq<Claim>, now: int, limit: nat) {
    forall id :: id in ids && Due(t, id, now) && !Claimed(cs, id) ==>
      |cs| == limit && forall i :: 0 <= i < |cs| ==> Earlier(cs[i].envelope, t.items[id].envelope)
  }

  // ---------------------------------------------------------------- without a byte budget

  ghost predicate Sequenced(t: Table, ids: seq<MessageId>) {
    && Offerable(t, ids)
    && forall i, j :: 0 <= i < j < |ids| ==> Earlier(t.items[ids[i]].envelope, t.items[ids[j]].envelope)
  }

  lemma OthersStayDue(t: Table, id: MessageId, other: MessageId, now: int, until: int)
    requires id in t.items && other != id
    ensures var mid := Grant(t, id, until);
            (Due(mid, other, now) <==> Due(t, other, now))
            && (other in t.items ==> other in mid.items && mid.items[other] == t.items[other])
  {
  }

  lemma {:induction false} TakesFirst(t: Table, ids: seq<MessageId>, now: int, until: int, limit: nat)
    requires Sequenced(t, ids)
    ensures var cs := Take(t, ids, now, until, limit).1;
            && InOrder(t, cs, now, until) && |cs| <= limit && First(t, ids, cs, now, limit)
            && forall i :: 0 <= i < |cs| ==> cs[i].envelope.id in ids
    decreases |ids|
  {
    hide LexLess, Grant, Earlier;
    if ids != [] && limit > 0 {
      assert ids[0] in ids;
      assert Sequenced(t, ids[1..]);
      if Ready(t.items[ids[0]], now) {
        TakesOneMore(t, ids, now, until, limit);
      } else {
        TakesFirst(t, ids[1..], now, until, limit);
      }
    }
  }

  lemma TakesOneMore(t: Table, ids: seq<MessageId>, now: int, until: int, limit: nat)
    requires Sequenced(t, ids) && ids != [] && limit > 0 && ids[0] in t.items && Ready(t.items[ids[0]], now)
    ensures var cs := Take(t, ids, now, until, limit).1;
            && InOrder(t, cs, now, until) && |cs| <= limit && First(t, ids, cs, now, limit)
            && forall i :: 0 <= i < |cs| ==> cs[i].envelope.id in ids
    decreases |ids|, 0
  {
    hide LexLess, Earlier, InOrder, First, Sequenced, Due;
    var mid := Grant(t, ids[0], until);
    GrantSequenced(t, ids, until);
    TakesFirst(mid, ids[1..], now, until, limit - 1);
    var more := Take(mid, ids[1..], now, until, limit - 1).1;
    var c := Claim(t.issued, t.items[ids[0]].envelope, until);
    assert Take(t, ids, now, until, limit).1 == [c] + more;
    OneMoreInOrder(t, ids, now, until, c, more);
    OneMoreFirst(t, ids, now, until, limit, c, more);
    forall i | 0 <= i < |[c] + more| ensures ([c] + more)[i].envelope.id in ids {
      if i > 0 { assert ([c] + more)[i] == more[i - 1] && more[i - 1].envelope.id in ids[1..]; }
    }
  }

  lemma GrantSequenced(t: Table, ids: seq<MessageId>, until: int)
    requires Sequenced(t, ids) && ids != []
    ensures ids[0] in t.items && t.items[ids[0]].envelope.id == ids[0]
    ensures Sequenced(Grant(t, ids[0], until), ids[1..])
    ensures forall i :: 1 <= i < |ids| ==> ids[i] != ids[0]
  {
    hide LexLess, Earlier;
    assert ids[0] in ids;
    GrantElsewhere(t, ids[0], until);
    forall i | 1 <= i < |ids| ensures ids[i] != ids[0] { NotEarlier(t.items[ids[0]].envelope); }
    forall id | id in ids[1..] ensures id in ids {}
  }

  lemma OneMoreInOrder(t: Table, ids: seq<MessageId>, now: int, until: int, c: Claim, more: seq<Claim>)
    requires Sequenced(t, ids) && ids != [] && ids[0] in t.items && Ready(t.items[ids[0]], now)
    requires c == Claim(t.issued, t.items[ids[0]].envelope, until) && c.envelope.id == ids[0]
    requires forall i :: 1 <= i < |ids| ==> ids[i] != ids[0]
    requires InOrder(Grant(t, ids[0], until), more, now, until)
    requires forall i :: 0 <= i < |more| ==> more[i].envelope.id in ids[1..]
    ensures InOrder(t, [c] + more, now, until)
  {
    hide LexLess, Earlier;
    var cs := [c] + more;
    assert ids[0] in ids;
    forall i | 0 <= i < |more|
      ensures Due(t, more[i].envelope.id, now) && more[i].envelope == t.items[more[i].envelope.id].envelope
              && Earlier(c.envelope, more[i].envelope)
    {
      var j :| 0 <= j < |ids[1..]| && ids[1..][j] == more[i].envelope.id;
      assert ids[j + 1] == more[i].envelope.id;
      OthersStayDue(t, ids[0], more[i].envelope.id, now, until);
    }
    forall i, j | 0 <= i < j < |cs| ensures Earlier(cs[i].envelope, cs[j].envelope) {
      assert cs[j] == more[j - 1];
      if i > 0 { assert cs[i] == more[i - 1]; }
    }
  }

  lemma OneMoreFirst(t: Table, ids: seq<MessageId>, now: int, until: int, limit: nat, c: Claim, more: seq<Claim>)
    requires Sequenced(t, ids) && ids != [] && limit > 0 && ids[0] in t.items
    requires forall i :: 1 <= i < |ids| ==> ids[i] != ids[0]
    requires c == Claim(t.issued, t.items[ids[0]].envelope, until) && c.envelope.id == ids[0]
    requires First(Grant(t, ids[0], until), ids[1..], more, now, limit - 1)
    ensures First(t, ids, [c] + more, now, limit)
  {
    hide LexLess, Earlier, Sequenced;
    forall id | id in ids && Due(t, id, now) && !Claimed([c] + more, id)
      ensures |[c] + more| == limit
              && forall i :: 0 <= i < |[c] + more| ==> Earlier(([c] + more)[i].envelope, t.items[id].envelope)
    {
      PassedOver(t, ids, now, until, limit, c, more, id);
    }
  }

  lemma PassedOver(t: Table, ids: seq<MessageId>, now: int, until: int, limit: nat, c: Claim, more: seq<Claim>,
                   id: MessageId)
    requires Sequenced(t, ids) && ids != [] && limit > 0 && ids[0] in t.items
    requires forall i :: 1 <= i < |ids| ==> ids[i] != ids[0]
    requires c == Claim(t.issued, t.items[ids[0]].envelope, until) && c.envelope.id == ids[0]
    requires First(Grant(t, ids[0], until), ids[1..], more, now, limit - 1)
    requires id in ids && Due(t, id, now) && !Claimed([c] + more, id)
    ensures var cs := [c] + more;
            |cs| == limit && forall i :: 0 <= i < |cs| ==> Earlier(cs[i].envelope, t.items[id].envelope)
  {
    hide LexLess, Earlier;
    var cs := [c] + more;
    assert cs[0] == c;
    var k :| 0 <= k < |ids| && ids[k] == id;
    assert k > 0;
    assert ids[1..][k - 1] == id;
    OthersStayDue(t, ids[0], id, now, until);
    forall i | 0 <= i < |more| ensures more[i].envelope.id != id { assert cs[i + 1] == more[i]; }
    forall i | 0 <= i < |cs| ensures Earlier(cs[i].envelope, t.items[id].envelope) {
      if i > 0 { assert cs[i] == more[i - 1]; }
    }
  }

  lemma NotEarlier(e: Envelope)
    ensures !Earlier(e, e)
  {
  }

  lemma OfferedSequenced(t: Table)
    requires TableGood(t)
    ensures Sequenced(t, Offered(t))
    ensures forall id :: id in Offered(t) <==> id in t.items && id !in t.uncertain
  {
    hide TableGood, Offered;
    OfferedIsOfferable(t);
    OfferedInOrder(t);
    var ids := Offered(t);
    forall i, j | 0 <= i < j < |ids| ensures Earlier(t.items[ids[i]].envelope, t.items[ids[j]].envelope) {
      KeyOrder(t.items[ids[i]].envelope, t.items[ids[j]].envelope);
    }
  }

  lemma KeyOrder(e: Envelope, f: Envelope)
    requires LexLess(SortKey(e), SortKey(f))
    ensures Earlier(e, f)
  {
    assert SortKey(e)[1..] == e.id && SortKey(f)[1..] == f.id;
  }

  /** Without a byte budget a claim takes exactly the first due messages, at most limit, in order of availability
    * and then of their identifiers, each until the end of its duration. */
  lemma ClaimsFirstDue(t: Table, now: int, limit: nat, ttl: nat, size: Sizing)
    requires TableGood(t)
    ensures var cs := ClaimAll(t, now, limit, ttl, None, size).1;
            && InOrder(t, cs, now, now + ttl) && |cs| <= limit
            && (forall id :: Due(t, id, now) && !Claimed(cs, id) ==>
                  |cs| == limit && forall i :: 0 <= i < |cs| ==> Earlier(cs[i].envelope, t.items[id].envelope))
  {
    hide TableGood, Offered, Take, LexLess, Earlier;
    OfferedSequenced(t);
    TakesFirst(t, Offered(t), now, now + ttl, limit);
  }

  // ---------------------------------------------------------------- within a byte budget

  /** The claims of a list that are among others, in the order of the list. */
  function Among(ts: seq<Claim>, cs: seq<Claim>): seq<Claim> {
    if ts == [] then [] else Among(ts[..|ts| - 1], cs) + if ts[|ts| - 1] in cs then [ts[|ts| - 1]] else []
  }

  lemma {:induction false} AmongCons(c: Claim, ts: seq<Claim>, cs: seq<Claim>)
    ensures Among([c] + ts, cs) == (if c in cs then [c] else []) + Among(ts, cs)
    decreases |ts|
  {
    if ts == [] {
      assert ([c] + ts)[..0] == [] && Among([], cs) == [];
    } else {
      AmongCons(c, ts[..|ts| - 1], cs);
      assert ([c] + ts)[..|ts|] == [c] + ts[..|ts| - 1];
    }
  }

  lemma {:induction false} AmongSame(ts: seq<Claim>, cs: seq<Claim>, ds: seq<Claim>)
    requires forall c :: c in ts ==> (c in cs <==> c in ds)
    ensures Among(ts, cs) == Among(ts, ds)
  {
    if ts != [] {
      assert ts[|ts| - 1] in ts;
      AmongSame(ts[..|ts| - 1], cs, ds);
    }
  }

  lemma {:induction false} BytesConcat(a: seq<Claim>, b: seq<Claim>, size: Sizing)
    ensures Bytes(a + b, size) == Bytes(a, size) + Bytes(b, size)
  {
    if a == [] {
      assert a + b == b;
    } else {
      assert (a + b)[1..] == a[1..] + b;
      BytesConcat(a[1..], b, size);
    }
  }

  /** Kept are, in order, exactly the claims that fit beside those kept before them. */
  ghost predicate Fitting(ts: seq<Claim>, cs: seq<Claim>, budget: nat, size: Sizing) {
    && cs == Among(ts, cs)
    && forall i :: 0 <= i < |ts| ==>
         (ts[i] in cs <==> Bytes(Among(ts[..i], cs), size) + size(ts[i].envelope.payload) <= budget)
  }

  lemma {:induction false} TrimFits(t: Table, ts: seq<Claim>, budget: nat, size: Sizing)
    requires Numbered(ts)
    ensures Fitting(ts, Trim(t, ts, budget, size).1, budget, size)
    ensures forall c :: c in Trim(t, ts, budget, size).1 ==> c in ts
    decreases |ts|
  {
    hide Numbered, Release, Fitting;
    if ts == [] {
      NothingFits(budget, size);
    } else {
      var c, rest := ts[0], ts[1..];
      var fits := size(c.envelope.payload) <= budget;
      var left := if fits then budget - size(c.envelope.payload) else budget;
      var u := if !fits && c.envelope.id in t.items then Release(t, c.envelope.id) else t;
      NumberedTail(ts);
      TrimFits(u, rest, left, size);
      FittingCons(c, rest, Trim(u, rest, left, size).1, budget, size);
      var more := Trim(u, rest, left, size).1;
      assert ts == [c] + rest && [] + more == more;
      assert Trim(t, ts, budget, size).1 == (if fits then [c] else []) + more;
    }
  }

  lemma NothingFits(budget: nat, size: Sizing)
    ensures Fitting([], [], budget, size)
  {
  }

  lemma NumberedTail(ts: seq<Claim>)
    requires Numbered(ts) && ts != []
    ensures Numbered(ts[1..]) && ts[0] !in ts[1..]
  {
    forall i | 0 <= i < |ts[1..]| ensures ts[1..][i] != ts[0] { assert ts[1..][i] == ts[i + 1]; }
  }

  lemma FittingCons(c: Claim, ts: seq<Claim>, cs: seq<Claim>, budget: nat, size: Sizing)
    requires c !in ts && (forall d :: d in cs ==> d in ts)
    requires var bytes := size(c.envelope.payload);
             Fitting(ts, cs, if bytes <= budget then budget - bytes else budget, size)
    ensures Fitting([c] + ts, (if size(c.envelope.payload) <= budget then [c] else []) + cs, budget, size)
  {
    hide Among, Bytes;
    var bytes := size(c.envelope.payload);
    var head := if bytes <= budget then [c] else [];
    var all, ks := head + cs, [c] + ts;
    AmongCons(c, ts, all);
    AmongSame(ts, all, cs);
    forall i | 0 <= i < |ks|
      ensures ks[i] in all <==> Bytes(Among(ks[..i], all), size) + size(ks[i].envelope.payload) <= budget
    {
      if i == 0 {
        assert ks[..0] == [];
        NoBytes(all, size);
      } else {
        assert ts[..i - 1] <= ts;
        BytesBefore(c, ts, cs, budget, size, i - 1);
      }
    }
  }

  lemma NoBytes(cs: seq<Claim>, size: Sizing)
    ensures Among([], cs) == [] && Bytes([], size) == 0
  {
  }

  /** What is kept before a claim, when one more claim is put in front of all. */
  lemma BytesBefore(c: Claim, ts: seq<Claim>, cs: seq<Claim>, budget: nat, size: Sizing, i: nat)
    requires c !in ts && c !in cs && i < |ts|
    ensures var head := if size(c.envelope.payload) <= budget then [c] else [];
            && ([c] + ts)[i + 1] == ts[i]
            && Bytes(Among(([c] + ts)[..i + 1], head + cs), size)
               == Bytes(Among(ts[..i], cs), size)
                  + (if size(c.envelope.payload) <= budget then size(c.envelope.payload) else 0)
            && (c in head + cs <==> head == [c])
  {
    hide Among, Bytes;
    var head := if size(c.envelope.payload) <= budget then [c] else [];
    assert ([c] + ts)[..i + 1] == [c] + ts[..i];
    AmongCons(c, ts[..i], head + cs);
    AmongSame(ts[..i], head + cs, cs);
    BytesConcat(if c in head + cs then [c] else [], Among(ts[..i], cs), size);
    BytesOfOne(c, size);
  }

  lemma BytesOfOne(c: Claim, size: Sizing)
    ensures Bytes([c], size) == size(c.envelope.payload) && Bytes([], size) == 0
  {
    assert [c][1..] == [];
  }

  /** Within a byte budget it keeps, in order, exactly those of them that fit beside the ones kept before; and a
    * message is then under a claim that had none exactly if its claim was kept. */
  lemma ClaimsWhatFits(t: Table, now: int, limit: nat, ttl: nat, maxBytes: nat, size: Sizing)
    requires TableGood(t) && ttl > 0
    ensures var ts := ClaimAll(t, now, limit, ttl, None, size).1;
            var (after, cs) := ClaimAll(t, now, limit, ttl, Some(maxBytes), size);
            && Fitting(ts, cs, maxBytes, size)
            && (forall i :: 0 <= i < |cs| ==>
                  && cs[i].envelope.id in after.items
                  && after.items[cs[i].envelope.id].claim == Some(Held(cs[i].id, cs[i].until)))
            && (forall id :: id in t.items && !Due(t, id, now) ==> id in after.items && after.items[id] == t.items[id])
            && (forall id :: id in t.items && Due(t, id, now) && !Claimed(cs, id) ==>
                  id in after.items && (after.items[id] == t.items[id]
                                        || after.items[id] == t.items[id].(claim := None)))
  {
    hide TableGood, Offered, Take, Trim, Bytes, Fitting, Numbered;
    var ts := ClaimAll(t, now, limit, ttl, None, size).1;
    var (after, cs) := ClaimAll(t, now, limit, ttl, Some(maxBytes), size);
    ClaimsAreBatch(t, now, limit, ttl, None, size);
    ClaimsAreBatch(t, now, limit, ttl, Some(maxBytes), size);
    TrimFits(Take(t, Offered(t), now, now + ttl, limit).0, ts, maxBytes, size);
    forall i | 0 <= i < |cs|
      ensures cs[i].envelope.id in after.items
              && after.items[cs[i].envelope.id].claim == Some(Held(cs[i].id, cs[i].until))
    {
      assert cs[i] in cs;
      assert Granted(t, after, cs[i], now, now + ttl);
    }
    forall id | id in t.items
      ensures id in after.items && (!Due(t, id, now) ==> after.items[id] == t.items[id])
              && (!Claimed(cs, id) ==> after.items[id] == t.items[id] || after.items[id] == t.items[id].(claim := None))
    {
      assert Touched(t, after, cs, now, id);
      if after.items[id].claim.Some? && after.items[id] != t.items[id] {
        var c :| c in cs && c.envelope.id == id && after.items[id].claim.value.claimId == c.id;
        var i :| 0 <= i < |cs| && cs[i] == c;
        assert Claimed(cs, id);
      }
    }
  }
}
