/** What holds over whole runs of the idempotency store: any sequence of calls, with any clock readings. */
module IdempotencyRuns {
  import opened Prelude
  import opened IdempotencyTable

  datatype Op<F, V> =
    | DoReserve(id: Identity, fingerprint: F, now: int, ttl: int)
    | DoRenew(token: nat, now: int, ttl: int)
    | DoComplete(token: nat, value: V, now: int, ttl: int)
    | DoMarkUncertain(token: nat, reason: string, now: int, ttl: int)
    | DoAbandon(token: nat, now: int)
    | DoPurge(selected: set<Identity>, cutoff: int, includeUncertain: bool)

  datatype Outcome<+V> = Decided(decision: Decision<V>) | Answered(settled: Settled) | Removed

  /** A purge removes purgeable entries of its plan; every other call is always possible. */
  ghost predicate Possible<F, V>(t: Table<F, V>, op: Op<F, V>) {
    op.DoPurge? ==>
      && op.selected <= t.entries.Keys
      && forall id :: id in op.selected ==> Purgeable(t.entries[id], op.cutoff, op.includeUncertain)
  }

  function Apply<F(==), V>(t: Table<F, V>, op: Op<F, V>, capacity: nat): (Table<F, V>, Outcome<V>) {
    match op {
      case DoReserve(id, fp, now, ttl) =>
        var (u, d) := Reserve(t, id, fp, now, ttl, capacity); (u, Decided(d))
      case DoRenew(token, now, ttl) => var (u, r) := Renew(t, token, now, ttl); (u, Answered(r))
      case DoComplete(token, v, now, ttl) => var (u, r) := Complete(t, token, v, now, ttl); (u, Answered(r))
      case DoMarkUncertain(token, reason, now, ttl) =>
        var (u, r) := MarkUncertain(t, token, reason, now, ttl); (u, Answered(r))
      case DoAbandon(token, now) => var (u, r) := Abandon(t, token, now); (u, Answered(r))
      case DoPurge(selected, _, _) => (Without(t, selected), Removed)
    }
  }

  function After<F(==), V>(t: Table<F, V>, ops: seq<Op<F, V>>, capacity: nat): Table<F, V>
    decreases |ops|
  {
    if ops == [] then t else After(Apply(t, ops[0], capacity).0, ops[1..], capacity)
  }

  ghost predicate AllPossible<F, V>(t: Table<F, V>, ops: seq<Op<F, V>>, capacity: nat)
    decreases |ops|
  {
    ops == [] || (Possible(t, ops[0]) && AllPossible(Apply(t, ops[0], capacity).0, ops[1..], capacity))
  }

  lemma {:induction false} StepKeepsLinks<F, V>(t: Table<F, V>, op: Op<F, V>, capacity: nat)
    requires Linked(t)
    ensures Linked(Apply(t, op, capacity).0)
    ensures t.issued <= Apply(t, op, capacity).0.issued
  {
    hide Linked, Without, Executing, SetEntry, Reserve;
    match op {
      case DoReserve(id, fp, now, ttl) => ReserveKeepsLinks(t, id, fp, now, ttl, capacity);
      case DoRenew(token, now, ttl) =>
        if Executing(t, token, now) { SettleKeepsLinks(t, token, now + ttl, Reserved, now); }
      case DoComplete(token, v, now, ttl) =>
        if Executing(t, token, now) { SettleKeepsLinks(t, token, now + ttl, Completed(v), now); }
      case DoMarkUncertain(token, reason, now, ttl) =>
        if Executing(t, token, now) { SettleKeepsLinks(t, token, now + ttl, MarkedUncertain(reason), now); }
      case DoAbandon(token, now) =>
        if Executing(t, token, now) {
          var e: Phase<V> := Reserved;
          SettleKeepsLinks(t, token, now, e, now);
        }
      case DoPurge(selected, _, _) =>
        WithoutKeepsLinks(t, selected);
        WithoutIssuesNothing(t, selected);
    }
  }

  /** The two dictionaries stay mutually inverse over every run. */
  lemma {:induction false} RunKeepsLinks<F, V>(t: Table<F, V>, ops: seq<Op<F, V>>, capacity: nat)
    requires Linked(t)
    ensures Linked(After(t, ops, capacity))
    ensures t.issued <= After(t, ops, capacity).issued
    decreases |ops|
  {
    if ops != [] {
      StepKeepsLinks(t, ops[0], capacity);
      RunKeepsLinks(Apply(t, ops[0], capacity).0, ops[1..], capacity);
    }
  }

  /** A token that was issued once and is no longer authoritative. */
  ghost predicate Spent<F, V>(t: Table<F, V>, token: nat) {
    token < t.issued && token !in t.tokens
  }

  /** A spent token stays spent, and every use of it, at any later moment, is stale. */
  lemma {:induction false} SpentForever<F, V>(
    t: Table<F, V>, ops: seq<Op<F, V>>, capacity: nat, token: nat, v: V, reason: string, now: int, ttl: int)
    requires Linked(t) && Spent(t, token)
    ensures var u := After(t, ops, capacity);
            && Spent(u, token)
            && Renew(u, token, now, ttl) == (u, Stale)
            && Complete(u, token, v, now, ttl) == (u, Stale)
            && MarkUncertain(u, token, reason, now, ttl) == (u, Stale)
            && Abandon(u, token, now) == (u, Stale)
    decreases |ops|
  {
    if ops != [] {
      StepKeepsLinks(t, ops[0], capacity);
      SpentForever(Apply(t, ops[0], capacity).0, ops[1..], capacity, token, v, reason, now, ttl);
    }
  }

  /** The one way each operation can end a token's authority over its identity. */
  ghost predicate Releases<F, V>(t: Table<F, V>, op: Op<F, V>, token: nat)
    requires Linked(t) && token in t.tokens
  {
    var e := t.entries[t.tokens[token]];
    match op {
      case DoAbandon(tk, now) => tk == token && Executing(t, token, now)
      case DoPurge(selected, cutoff, all) =>
        t.tokens[token] in selected && Purgeable(e, cutoff, all)
      case DoReserve(_, _, now, _) => Expired(e, now)
      case _ => false
    }
  }

  lemma TokenLeavesOnlyByRelease<F, V>(t: Table<F, V>, op: Op<F, V>, capacity: nat, token: nat)
    requires Linked(t) && Possible(t, op) && token in t.tokens
    ensures var u := Apply(t, op, capacity).0;
            if Releases(t, op, token) then Spent(u, token)
            else token in u.tokens && u.tokens[token] == t.tokens[token]
  {
    if op.DoReserve? {
      WithoutKeepsLinks(t, ExpiredAt(t, op.now));
    }
  }

  /** Position of the first call in a run that releases the token, if any. */
  lemma {:induction false} FindRelease<F, V>(t: Table<F, V>, ops: seq<Op<F, V>>, capacity: nat, token: nat)
    returns (k: nat)
    requires Linked(t) && AllPossible(t, ops, capacity) && token in t.tokens
    requires token !in After(t, ops, capacity).tokens
    ensures k < |ops|
    ensures Linked(After(t, ops[..k], capacity)) && token in After(t, ops[..k], capacity).tokens
    ensures Releases(After(t, ops[..k], capacity), ops[k], token)
    ensures After(t, ops[..k], capacity).tokens[token] == t.tokens[token]
    decreases |ops|
  {
    TokenLeavesOnlyByRelease(t, ops[0], capacity, token);
    StepKeepsLinks(t, ops[0], capacity);
    if Releases(t, ops[0], token) {
      k := 0;
      assert ops[..0] == [];
    } else {
      var j := FindRelease(Apply(t, ops[0], capacity).0, ops[1..], capacity, token);
      k := j + 1;
      assert ops[..k][1..] == ops[1..][..j];
    }
  }

  /** An Execute decision issues the next token, for an identity that had none. */
  lemma ReserveIssues<F, V>(t: Table<F, V>, id: Identity, fp: F, now: int, ttl: int, capacity: nat)
    requires Linked(t) && Reserve(t, id, fp, now, ttl, capacity).1.Execute?
    ensures var (u, d) := Reserve(t, id, fp, now, ttl, capacity);
            && d.token == t.issued && u.issued == t.issued + 1
            && d.token in u.tokens && u.tokens[d.token] == id
            && (forall token :: token in u.tokens && token != d.token ==> token in t.tokens && u.tokens[token] != id)
  {
    WithoutKeepsLinks(t, ExpiredAt(t, now));
  }

  /** Between two Execute decisions for one identity the first token was abandoned, purged by
    * maintenance or outlived its instant of expiry; the tokens differ; and the first one is spent. */
  lemma {:induction false} ExecuteAgainOnlyAfterRelease<F, V>(
    t: Table<F, V>, id: Identity, fp: F, now: int, ttl: int,
    ops: seq<Op<F, V>>, fp': F, now': int, ttl': int, capacity: nat)
    returns (k: nat)
    requires Linked(t)
    requires Reserve(t, id, fp, now, ttl, capacity).1.Execute?
    requires var t1 := Reserve(t, id, fp, now, ttl, capacity).0;
             && AllPossible(t1, ops, capacity)
             && Reserve(After(t1, ops, capacity), id, fp', now', ttl', capacity).1.Execute?
    ensures var (t1, d1) := Reserve(t, id, fp, now, ttl, capacity);
            var t2 := After(t1, ops, capacity);
            var (t3, d3) := Reserve(t2, id, fp', now', ttl', capacity);
            && d1.token < d3.token
            && Spent(t3, d1.token)
            && k <= |ops|
            && var tk := After(t1, ops[..k], capacity);
            && Linked(tk) && d1.token in tk.tokens && tk.tokens[d1.token] == id
            && Releases(tk, if k < |ops| then ops[k] else DoReserve(id, fp', now', ttl'), d1.token)
  {
    hide Linked, Without, Reserve, Executing, SetEntry, AllPossible, Releases;
    ReserveIssues(t, id, fp, now, ttl, capacity);
    var first: Op<F, V> := DoReserve(id, fp, now, ttl);
    var last: Op<F, V> := DoReserve(id, fp', now', ttl');
    StepKeepsLinks(t, first, capacity);
    var (t1, d1) := Reserve(t, id, fp, now, ttl, capacity);
    assert t1 == Apply(t, first, capacity).0;
    RunKeepsLinks(t1, ops, capacity);
    var t2 := After(t1, ops, capacity);
    StepKeepsLinks(t2, last, capacity);
    ReserveIssues(t2, id, fp', now', ttl', capacity);
    if d1.token in t2.tokens {
      k := |ops|;
      assert ops[..k] == ops;
      StaysOwner(t1, ops, capacity, d1.token);
      TokenLeavesOnlyByRelease(t2, last, capacity, d1.token);
    } else {
      k := FindRelease(t1, ops, capacity, d1.token);
    }
  }

  /** While a token is held it keeps naming the same identity. */
  lemma {:induction false} StaysOwner<F, V>(t: Table<F, V>, ops: seq<Op<F, V>>, capacity: nat, token: nat)
    requires Linked(t) && AllPossible(t, ops, capacity) && token in t.tokens
    requires token in After(t, ops, capacity).tokens
    ensures After(t, ops, capacity).tokens[token] == t.tokens[token]
    decreases |ops|
  {
    if ops != [] {
      StepKeepsLinks(t, ops[0], capacity);
      TokenLeavesOnlyByRelease(t, ops[0], capacity, token);
      var u := Apply(t, ops[0], capacity).0;
      if token !in u.tokens {
        NeverReturns(u, ops[1..], capacity, token);
      }
      StaysOwner(u, ops[1..], capacity, token);
    }
  }

  lemma {:induction false} NeverReturns<F, V>(t: Table<F, V>, ops: seq<Op<F, V>>, capacity: nat, token: nat)
    requires Linked(t) && Spent(t, token)
    ensures Spent(After(t, ops, capacity), token)
    decreases |ops|
  {
    if ops != [] {
      StepKeepsLinks(t, ops[0], capacity);
      NeverReturns(Apply(t, ops[0], capacity).0, ops[1..], capacity, token);
    }
  }

  /** Only a purge that includes uncertain entries removes one. */
  lemma UncertainStays<F, V>(t: Table<F, V>, op: Op<F, V>, capacity: nat, id: Identity)
    requires Linked(t) && Possible(t, op) && id in t.entries && t.entries[id].phase.MarkedUncertain?
    requires op.DoPurge? ==> !op.includeUncertain
    ensures var u := Apply(t, op, capacity).0;
            id in u.entries && u.entries[id] == t.entries[id]
  {
  }

  /** An identity whose outcome is unknown never executes again, under any calls and clock readings,
    * unless maintenance asks for uncertain entries by name. */
  lemma {:induction false} UncertainNeverExecutes<F, V>(
    t: Table<F, V>, ops: seq<Op<F, V>>, capacity: nat, id: Identity, fp: F, now: int, ttl: int)
    requires Linked(t) && AllPossible(t, ops, capacity)
    requires id in t.entries && t.entries[id].phase.MarkedUncertain?
    requires forall i :: 0 <= i < |ops| ==> ops[i].DoPurge? ==> !ops[i].includeUncertain
    ensures var u := After(t, ops, capacity);
            && id in u.entries && u.entries[id] == t.entries[id]
            && Reserve(u, id, fp, now, ttl, capacity).1 ==
               if fp == t.entries[id].fingerprint then Uncertain(t.entries[id].phase.reason) else Conflict
    decreases |ops|
  {
    hide Apply, Linked, Possible;
    if ops != [] {
      var u := Apply(t, ops[0], capacity).0;
      StepKeepsLinks(t, ops[0], capacity);
      UncertainStays(t, ops[0], capacity, id);
      UncertainNeverExecutes(u, ops[1..], capacity, id, fp, now, ttl);
    }
  }
}
