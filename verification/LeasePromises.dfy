/** How long a lease lasts, by the arguments of the calls that granted and renewed it. */
module LeasePromises {
  import opened Prelude
  import opened LeaseTable

  /** The lease after an event, as its holder knows it: a renewal before its end moves its end. */
  function Prolonged(held: Lease, e: Event): Lease {
    match e
    case RenewAt(l, now, ttl) => if l == held && now < held.expires then held.(expires := now + ttl) else held
    case _ => held
  }

  function Last(held: Lease, es: seq<Event>): Lease
    decreases |es|
  {
    if es == [] then held else Last(Prolonged(held, es[0]), es[1..])
  }

  /** Nobody asks for the resource at a reading past the end of the lease, and the holder does not release it. */
  ghost predicate Respected(held: Lease, es: seq<Event>)
    decreases |es|
  {
    es == [] ||
    (&& (es[0].AcquireAt? && es[0].resource == held.resource ==> es[0].now < held.expires)
     && (es[0].ReleaseAt? ==> es[0].lease != held)
     && Respected(Prolonged(held, es[0]), es[1..]))
  }

  ghost predicate Current(t: Table, held: Lease) {
    && held.resource in t.leases && t.leases[held.resource] == held
    && held.resource in t.tokens && t.tokens[held.resource] == held.token
  }

  lemma StepKeeps(s: System, held: Lease, e: Event, capacity: nat)
    requires Current(s.table, held)
    requires e.AcquireAt? && e.resource == held.resource ==> e.now < held.expires
    requires e.ReleaseAt? ==> e.lease != held
    ensures Current(Step(s, e, capacity).table, Prolonged(held, e))
  {
  }

  lemma {:induction false} RunKeeps(s: System, held: Lease, es: seq<Event>, capacity: nat)
    requires Current(s.table, held) && Respected(held, es)
    ensures Current(Run(s, es, capacity).table, Last(held, es))
    ensures Last(held, es).resource == held.resource && Last(held, es).token == held.token
            && Last(held, es).owner == held.owner
    decreases |es|
  {
    hide Current, Step;
    if es != [] {
      StepKeeps(s, held, es[0], capacity);
      RunKeeps(Step(s, es[0], capacity), Prolonged(held, es[0]), es[1..], capacity);
    }
  }

  /** A lease granted at a reading for a period, and renewed by its holder before it ended, keeps its resource up
    * to the last instant that was promised, and no longer: until then every other owner is told that the
    * resource is busy until that very instant, and the holder's mutations are admitted; from then on the
    * resource is free, as it is once the holder releases it, and what the holder still sends is refused. */
  lemma LeaseIsKept(s: System, r: Resource, owner: Owner, now: int, ttl: nat, es: seq<Event>, capacity: nat,
                    other: Owner, at: int, ttl': nat)
    requires Acquire(s.table, r, owner, now, ttl, capacity).0.Acquired?
    requires var granted := Lease(r, owner, LastToken(s.table, r) + 1, now + ttl);
             Respected(granted, es)
    ensures var granted := Lease(r, owner, LastToken(s.table, r) + 1, now + ttl);
            var held := Last(granted, es);
            var u := Run(Step(s, AcquireAt(r, owner, now, ttl), capacity), es, capacity).table;
            && Acquire(s.table, r, owner, now, ttl, capacity).0 == Acquired(granted)
            && Acquire(u, r, other, at, ttl', capacity).0 ==
               (if at < held.expires then Busy(owner, held.expires)
                else Acquired(Lease(r, other, held.token + 1, at + ttl')))
            && (Admits(u, granted, at) <==> at < held.expires) && (Admits(u, held, at) <==> at < held.expires)
            && Renew(u, held, at, ttl').0 ==
               (if at < held.expires then Some(held.(expires := at + ttl')) else None)
            && (Release(u, held, at).0 <==> at < held.expires)
            && (at < held.expires ==>
                  var free := Release(u, held, at).1;
                  && !Admits(free, held, at)
                  && Acquire(free, r, other, at, ttl', capacity).0 == Acquired(Lease(r, other, held.token + 1, at + ttl')))
  {
    hide Run, Last, Respected;
    var granted := Lease(r, owner, LastToken(s.table, r) + 1, now + ttl);
    RunKeeps(Step(s, AcquireAt(r, owner, now, ttl), capacity), granted, es, capacity);
  }
}
