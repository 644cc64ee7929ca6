/** What the answers of the idempotency store promise to the holder of a token, and that every run keeps it. */
module IdempotencyPromises {
  import opened Prelude
  import opened IdempotencyTable
  import opened IdempotencyRuns

  /** What a holder was last told: until when, and with which outcome. */
  datatype Promise<+V> = Promise(until: int, outcome: Phase<V>)

  /** A renewal, a completion or an uncertain mark that was answered with an instant replaces the promise. */
  function Told<F, V>(p: Promise<V>, op: Op<F, V>, answer: Outcome<V>, token: nat): Promise<V> {
    if !(answer.Answered? && answer.settled.Until?) then p
    else match op {
      case DoRenew(tk, _, _) => if tk == token then Promise(answer.settled.at, Reserved) else p
      case DoComplete(tk, v, _, _) => if tk == token then Promise(answer.settled.at, Completed(v)) else p
      case DoMarkUncertain(tk, reason, _, _) =>
        if tk == token then Promise(answer.settled.at, MarkedUncertain(reason)) else p
      case _ => p
    }
  }

  /** A call that does not end the promise: no reservation reads a clock past its end, unless the outcome is
    * uncertain, the token is not given up, and maintenance does not remove the identity. */
  predicate Respects<F, V>(op: Op<F, V>, p: Promise<V>, id: Identity, token: nat) {
    match op {
      case DoReserve(_, _, now, _) => now < p.until || p.outcome.MarkedUncertain?
      case DoAbandon(tk, _) => tk != token
      case DoPurge(selected, _, _) => id !in selected
      case _ => true
    }
  }

  /** The promise after some calls, from their answers alone. */
  function Last<F(==), V>(t: Table<F, V>, ops: seq<Op<F, V>>, capacity: nat, token: nat, p: Promise<V>): Promise<V>
    decreases |ops|
  {
    if ops == [] then p
    else
      var (u, answer) := Apply(t, ops[0], capacity);
      Last(u, ops[1..], capacity, token, Told(p, ops[0], answer, token))
  }

  ghost predicate Respected<F, V>(t: Table<F, V>, ops: seq<Op<F, V>>, capacity: nat, id: Identity, token: nat,
                                  p: Promise<V>)
    decreases |ops|
  {
    ops == [] || (Respects(ops[0], p, id, token) && Possible(t, ops[0])
                  && var (u, answer) := Apply(t, ops[0], capacity);
                     Respected(u, ops[1..], capacity, id, token, Told(p, ops[0], answer, token)))
  }

  // ---------------------------------------------------------------- each call keeps it

  ghost predicate Kept<F, V>(t: Table<F, V>, id: Identity, fp: F, token: nat, p: Promise<V>) {
    && token in t.tokens && t.tokens[token] == id
    && id in t.entries && t.entries[id] == Entry(token, fp, p.until, p.outcome)
  }

  lemma ReserveKeeps<F, V>(t: Table<F, V>, id: Identity, fp: F, token: nat, p: Promise<V>, other: Identity, fp': F,
                           now: int, ttl: int, capacity: nat)
    requires Linked(t) && Kept(t, id, fp, token, p) && (now < p.until || p.outcome.MarkedUncertain?)
    ensures Kept(Reserve(t, other, fp', now, ttl, capacity).0, id, fp, token, p)
  {
  }

  lemma SettleKeeps<F, V>(t: Table<F, V>, id: Identity, fp: F, token: nat, p: Promise<V>, tk: nat, now: int, at: int,
                          phase: Phase<V>)
    requires Linked(t) && Kept(t, id, fp, token, p) && Executing(t, tk, now)
    ensures Kept(SetEntry(t, tk, at, phase), id, fp, token, if tk == token then Promise(at, phase) else p)
    ensures tk != token ==> Kept(Abandon(t, tk, now).0, id, fp, token, p)
  {
  }

  lemma CallKeeps<F, V>(t: Table<F, V>, op: Op<F, V>, capacity: nat, id: Identity, fp: F, token: nat, p: Promise<V>)
    requires Linked(t) && Possible(t, op) && Kept(t, id, fp, token, p) && Respects(op, p, id, token)
    ensures var (u, answer) := Apply(t, op, capacity);
            Kept(u, id, fp, token, Told(p, op, answer, token))
  {
    hide Linked, Kept, Reserve, SetEntry, Executing;
    match op {
      case DoReserve(other, fp', now, ttl) => ReserveKeeps(t, id, fp, token, p, other, fp', now, ttl, capacity);
      case DoRenew(tk, now, ttl) =>
        if Executing(t, tk, now) { SettleKeeps(t, id, fp, token, p, tk, now, now + ttl, Reserved); }
      case DoComplete(tk, v, now, ttl) =>
        if Executing(t, tk, now) { SettleKeeps(t, id, fp, token, p, tk, now, now + ttl, Completed(v)); }
      case DoMarkUncertain(tk, reason, now, ttl) =>
        if Executing(t, tk, now) { SettleKeeps(t, id, fp, token, p, tk, now, now + ttl, MarkedUncertain(reason)); }
      case DoAbandon(tk, now) =>
        if Executing(t, tk, now) { SettleKeeps(t, id, fp, token, p, tk, now, now, p.outcome); }
      case DoPurge(selected, _, _) => PurgeKeeps(t, selected, id, fp, token, p);
    }
  }

  lemma PurgeKeeps<F, V>(t: Table<F, V>, selected: set<Identity>, id: Identity, fp: F, token: nat, p: Promise<V>)
    requires Kept(t, id, fp, token, p) && id !in selected
    ensures Kept(Without(t, selected), id, fp, token, p)
  {
  }

  lemma {:induction false} CallsKeep<F, V>(t: Table<F, V>, ops: seq<Op<F, V>>, capacity: nat, id: Identity, fp: F,
                                           token: nat, p: Promise<V>)
    requires Linked(t) && Kept(t, id, fp, token, p) && Respected(t, ops, capacity, id, token, p)
    ensures Linked(After(t, ops, capacity))
    ensures Kept(After(t, ops, capacity), id, fp, token, Last(t, ops, capacity, token, p))
    decreases |ops|
  {
    hide Linked, Kept, Apply, Possible, Respects, Told;
    if ops != [] {
      var (u, answer) := Apply(t, ops[0], capacity);
      CallKeeps(t, ops[0], capacity, id, fp, token, p);
      StepKeepsLinks(t, ops[0], capacity);
      CallsKeep(u, ops[1..], capacity, id, fp, token, Told(p, ops[0], answer, token));
    }
  }

  // ---------------------------------------------------------------- theorems

  /** What another reservation of the identity is answered under a promise. */
  function Answer<F(==), V>(p: Promise<V>, fp: F, asked: F): Decision<V> {
    if asked != fp then Conflict
    else match p.outcome {
           case Reserved => InProgress(p.until)
           case Completed(v) => Replay(v)
           case MarkedUncertain(reason) => Uncertain(reason)
         }
  }

  /** From a reservation on that may execute, whose end is its clock reading plus its duration, and whatever
    * renewal, completion or uncertain mark answered a later end: until that end, and without an abandonment or
    * a purge of the identity, every run keeps the promise. Another reservation is answered by it and never
    * executes; while the identity is only reserved its token can be used, and to give it up frees the identity at
    * once; and from the end on, unless the
    * outcome is uncertain, the next reservation executes, within the capacity. */
  lemma PromisesAreKept<F, V>(t: Table<F, V>, id: Identity, fp: F, now: int, ttl: int, ops: seq<Op<F, V>>,
                              capacity: nat, asked: F, later: int, ttl': int, v: V, again: int)
    requires Linked(t) && Reserve(t, id, fp, now, ttl, capacity).1.Execute?
    requires var (u, d) := Reserve(t, id, fp, now, ttl, capacity);
             Respected(u, ops, capacity, id, d.token, Promise(now + ttl, Reserved))
    ensures var (u, d) := Reserve(t, id, fp, now, ttl, capacity);
            var p: Promise<V> := Promise(now + ttl, Reserved);
            var q, w := Last(u, ops, capacity, d.token, p), After(u, ops, capacity);
            && (later < q.until || q.outcome.MarkedUncertain? ==>
                  Reserve(w, id, asked, later, ttl', capacity).1 == Answer(q, fp, asked))
            && (later < q.until && q.outcome.Reserved? ==>
                  && Renew(w, d.token, later, ttl').1 == Until(later + ttl')
                  && Complete(w, d.token, v, later, ttl').1 == Until(later + ttl')
                  && Abandon(w, d.token, later).1 == Abandoned
                  && (|w.entries| <= capacity ==>
                        Reserve(Abandon(w, d.token, later).0, id, asked, again, ttl', capacity).1.Execute?))
            && (later >= q.until && !q.outcome.MarkedUncertain? && |w.entries| <= capacity ==>
                  Reserve(w, id, asked, later, ttl', capacity).1.Execute?)
  {
    hide Linked, Kept, Reserve, Renew, Complete, Abandon, Respected, Last, After;
    ReservedIsKept(t, id, fp, now, ttl, capacity);
    var (u, d) := Reserve(t, id, fp, now, ttl, capacity);
    var p: Promise<V> := Promise(now + ttl, Reserved);
    ReserveKeepsLinks(t, id, fp, now, ttl, capacity);
    CallsKeep(u, ops, capacity, id, fp, d.token, p);
    var (q, w) := (Last(u, ops, capacity, d.token, p), After(u, ops, capacity));
    KeptAnswers(w, id, fp, d.token, q, asked, later, ttl', v, capacity);
    if later < q.until && q.outcome.Reserved? && |w.entries| <= capacity {
      AbandonedIsFree(w, id, fp, d.token, q, asked, later, again, ttl', capacity);
    }
  }

  /** What is given up may be reserved again at once. */
  lemma AbandonedIsFree<F, V>(t: Table<F, V>, id: Identity, fp: F, token: nat, p: Promise<V>, asked: F, later: int,
                              again: int, ttl: int, capacity: nat)
    requires Kept(t, id, fp, token, p) && later < p.until && p.outcome.Reserved? && |t.entries| <= capacity
    ensures Reserve(Abandon(t, token, later).0, id, asked, again, ttl, capacity).1.Execute?
  {
    var u := Abandon(t, token, later).0;
    Fewer(t.entries, Purged(u, again).entries, id);
  }

  lemma ReservedIsKept<F, V>(t: Table<F, V>, id: Identity, fp: F, now: int, ttl: int, capacity: nat)
    requires Linked(t)
    ensures var (u, d) := Reserve(t, id, fp, now, ttl, capacity);
            d.Execute? ==> Kept(u, id, fp, d.token, Promise(now + ttl, Reserved))
  {
  }

  lemma KeptAnswers<F, V>(t: Table<F, V>, id: Identity, fp: F, token: nat, p: Promise<V>, asked: F, later: int,
                          ttl: int, v: V, capacity: nat)
    requires Kept(t, id, fp, token, p)
    ensures later < p.until || p.outcome.MarkedUncertain? ==>
              Reserve(t, id, asked, later, ttl, capacity).1 == Answer(p, fp, asked)
    ensures later < p.until && p.outcome.Reserved? ==>
              && Renew(t, token, later, ttl).1 == Until(later + ttl)
              && Complete(t, token, v, later, ttl).1 == Until(later + ttl)
              && Abandon(t, token, later).1 == Abandoned
    ensures later >= p.until && !p.outcome.MarkedUncertain? && |t.entries| <= capacity ==>
              Reserve(t, id, asked, later, ttl, capacity).1.Execute?
  {
    if later >= p.until && !p.outcome.MarkedUncertain? {
      Fewer(t.entries, Purged(t, later).entries, id);
    }
  }

  lemma Fewer<K, E>(m: map<K, E>, n: map<K, E>, k: K)
    requires n.Keys <= m.Keys && k in m && k !in n
    ensures |n| < |m|
  {
    assert n.Keys <= m.Keys - {k};
    Cardinality(n.Keys, m.Keys - {k});
  }
}
