/** Fenced leases as a table, and over whole runs: tokens, commits and mutual exclusion. */
module LeaseTable {
  import opened Prelude

  type Resource(==,!new)
  type Owner(==,!new)

  datatype Lease = Lease(resource: Resource, owner: Owner, token: nat, expires: int)

  datatype Table = Table(leases: map<Resource, Lease>, tokens: map<Resource, nat>)

  function LastToken(t: Table, r: Resource): nat {
    if r in t.tokens then t.tokens[r] else 0
  }

  datatype AcquireResult = Acquired(lease: Lease) | Busy(owner: Owner, retryAfter: int) | CapacityExceeded

  function Acquire(t: Table, r: Resource, owner: Owner, now: int, ttl: nat, capacity: nat): (AcquireResult, Table) {
    if r in t.leases && t.leases[r].expires > now then (Busy(t.leases[r].owner, t.leases[r].expires), t)
    else if r !in t.tokens && |t.tokens| >= capacity then (CapacityExceeded, t)
    else
      var token := LastToken(t, r) + 1;
      var lease := Lease(r, owner, token, now + ttl);
      (Acquired(lease), Table(t.leases[r := lease], t.tokens[r := token]))
  }

  /** Only the very lease that is current, and unexpired, may be renewed or released. */
  predicate Authoritative(t: Table, l: Lease, now: int) {
    l.resource in t.leases && t.leases[l.resource] == l && l.expires > now
  }

  function Renew(t: Table, l: Lease, now: int, ttl: nat): (Option<Lease>, Table) {
    if !Authoritative(t, l, now) then (None, t)
    else
      var renewed := l.(expires := now + ttl);
      (Some(renewed), t.(leases := t.leases[l.resource := renewed]))
  }

  function Release(t: Table, l: Lease, now: int): (bool, Table) {
    if !Authoritative(t, l, now) then (false, t) else (true, t.(leases := t.leases - {l.resource}))
  }

  /** Whether a fenced mutation under a lease is committed: the current lease has its token and owner, and
    * has not ended; an earlier snapshot of a renewed lease will do. */
  predicate Admits(t: Table, l: Lease, now: int) {
    && l.resource in t.leases
    && var current := t.leases[l.resource];
       current.token == l.token && current.owner == l.owner && current.expires > now
  }

  // ---------------------------------------------------------------- runs

  /** A committed mutation and the token it was committed under. */
  datatype Commit = Commit(resource: Resource, token: nat)

  /** The table, the latest clock reading, the committed mutations, every token issued with the last lease
    * handed out for it, and the tokens released. */
  datatype System = System(table: Table, clock: int, commits: seq<Commit>, handed: map<Commit, Lease>,
                           released: set<Commit>)

  datatype Event =
    | AcquireAt(resource: Resource, owner: Owner, now: int, ttl: nat)
    | RenewAt(lease: Lease, now: int, ttl: nat)
    | ReleaseAt(lease: Lease, now: int)
    | CommitAt(lease: Lease, now: int)

  function TokenOf(l: Lease): Commit {
    Commit(l.resource, l.token)
  }

  function Step(s: System, e: Event, capacity: nat): System {
    match e
    case AcquireAt(r, owner, now, ttl) =>
      var (a, t) := Acquire(s.table, r, owner, now, ttl, capacity);
      s.(table := t, clock := now, handed := if a.Acquired? then s.handed[TokenOf(a.lease) := a.lease] else s.handed)
    case RenewAt(l, now, ttl) =>
      var (renewed, t) := Renew(s.table, l, now, ttl);
      s.(table := t, clock := now,
         handed := if renewed.Some? then s.handed[TokenOf(l) := renewed.value] else s.handed)
    case ReleaseAt(l, now) =>
      var (ok, t) := Release(s.table, l, now);
      s.(table := t, clock := now, released := if ok then s.released + {TokenOf(l)} else s.released)
    case CommitAt(l, now) =>
      s.(clock := now, commits := if Admits(s.table, l, now) then s.commits + [TokenOf(l)] else s.commits)
  }

  function Run(s: System, es: seq<Event>, capacity: nat): System
    decreases |es|
  {
    if es == [] then s else Run(Step(s, es[0], capacity), es[1..], capacity)
  }

  const EMPTY: Table := Table(map[], map[])

  function Start(clock: int): System {
    System(EMPTY, clock, [], map[], {})
  }

  /** The current lease of a resource carries its last token; the tokens handed out are exactly 1 up to the
    * last one; commits never went back. Holds whatever the clocks say. */
  ghost predicate Fenced(s: System) {
    && (forall r :: r in s.table.leases ==>
          s.table.leases[r].resource == r && s.table.leases[r].token == LastToken(s.table, r) > 0)
    && (forall c :: c in s.handed <==> 1 <= c.token <= LastToken(s.table, c.resource))
    && (forall i :: 0 <= i < |s.commits| ==> s.commits[i].token <= LastToken(s.table, s.commits[i].resource))
    && (forall i, j :: 0 <= i < j < |s.commits| && s.commits[i].resource == s.commits[j].resource ==>
          s.commits[i].token <= s.commits[j].token)
  }

  lemma AcquireFenced(s: System, r: Resource, owner: Owner, now: int, ttl: nat, capacity: nat)
    requires Fenced(s)
    ensures Fenced(Step(s, AcquireAt(r, owner, now, ttl), capacity))
  {
    var token := LastToken(s.table, r) + 1;
    var after := Step(s, AcquireAt(r, owner, now, ttl), capacity);
    if Acquire(s.table, r, owner, now, ttl, capacity).0.Acquired? {
      assert after.handed == s.handed[Commit(r, token) := Lease(r, owner, token, now + ttl)];
      forall q ensures LastToken(after.table, q) == if q == r then token else LastToken(s.table, q) {}
    }
  }

  lemma HolderFenced(s: System, l: Lease, now: int, ttl: nat, capacity: nat)
    requires Fenced(s)
    ensures Fenced(Step(s, RenewAt(l, now, ttl), capacity)) && Fenced(Step(s, ReleaseAt(l, now), capacity))
  {
    assert Authoritative(s.table, l, now) ==> TokenOf(l) in s.handed;
  }

  lemma CommitFenced(s: System, l: Lease, now: int, capacity: nat)
    requires Fenced(s)
    ensures Fenced(Step(s, CommitAt(l, now), capacity))
  {
  }

  lemma StepFenced(s: System, e: Event, capacity: nat)
    requires Fenced(s)
    ensures Fenced(Step(s, e, capacity))
  {
    hide Fenced, Step;
    match e
    case AcquireAt(r, owner, now, ttl) => AcquireFenced(s, r, owner, now, ttl, capacity);
    case RenewAt(l, now, ttl) => HolderFenced(s, l, now, ttl, capacity);
    case ReleaseAt(l, now) => HolderFenced(s, l, now, 0, capacity);
    case CommitAt(l, now) => CommitFenced(s, l, now, capacity);
  }

  lemma {:induction false} RunFenced(s: System, es: seq<Event>, capacity: nat)
    requires Fenced(s)
    ensures Fenced(Run(s, es, capacity))
    decreases |es|
  {
    hide Fenced, Step;
    if es != [] {
      StepFenced(s, es[0], capacity);
      RunFenced(Step(s, es[0], capacity), es[1..], capacity);
    }
  }

  /** Over any run, with clocks going back and forth, each acquisition gets the next token of its resource,
    * and the tokens of a resource's committed mutations never decrease. */
  lemma FencingHolds(clock: int, es: seq<Event>, capacity: nat, r: Resource, owner: Owner, now: int, ttl: nat)
    ensures var s := Run(Start(clock), es, capacity);
            var a := Acquire(s.table, r, owner, now, ttl, capacity).0;
            && (forall n: nat :: Commit(r, n) in s.handed <==> 1 <= n <= LastToken(s.table, r))
            && (a.Acquired? ==> a.lease.token == LastToken(s.table, r) + 1 && Commit(r, a.lease.token) !in s.handed)
            && (forall i, j :: 0 <= i < j < |s.commits| && s.commits[i].resource == s.commits[j].resource ==>
                  s.commits[i].token <= s.commits[j].token)
  {
    hide Run;
    assert Fenced(Start(clock));
    RunFenced(Start(clock), es, capacity);
  }

  // ---------------------------------------------------------------- mutual exclusion

  /** Clock readings never go back. */
  predicate Monotone(clock: int, es: seq<Event>)
    decreases |es|
  {
    es == [] || (clock <= es[0].now && Monotone(es[0].now, es[1..]))
  }

  /** The lease last handed out under a token, unless it was released or has ended, is the current one. */
  ghost predicate Exclusive(s: System) {
    forall c :: c in s.handed && c !in s.released && s.handed[c].expires > s.clock ==>
      c.resource in s.table.leases && s.table.leases[c.resource] == s.handed[c] && TokenOf(s.handed[c]) == c
  }

  lemma StepExclusive(s: System, e: Event, capacity: nat)
    requires Fenced(s) && Exclusive(s) && s.clock <= e.now
    ensures Exclusive(Step(s, e, capacity))
  {
    hide Fenced;
    match e
    case AcquireAt(r, owner, now, ttl) => AcquireExclusive(s, r, owner, now, ttl, capacity);
    case RenewAt(l, now, ttl) => RenewExclusive(s, l, now, ttl, capacity);
    case ReleaseAt(l, now) => ReleaseExclusive(s, l, now, capacity);
    case CommitAt(l, now) =>
  }

  lemma AcquireExclusive(s: System, r: Resource, owner: Owner, now: int, ttl: nat, capacity: nat)
    requires Fenced(s) && Exclusive(s) && s.clock <= now
    ensures Exclusive(Step(s, AcquireAt(r, owner, now, ttl), capacity))
  {
  }

  lemma RenewExclusive(s: System, l: Lease, now: int, ttl: nat, capacity: nat)
    requires Fenced(s) && Exclusive(s) && s.clock <= now
    ensures Exclusive(Step(s, RenewAt(l, now, ttl), capacity))
  {
  }

  lemma ReleaseExclusive(s: System, l: Lease, now: int, capacity: nat)
    requires Fenced(s) && Exclusive(s) && s.clock <= now
    ensures Exclusive(Step(s, ReleaseAt(l, now), capacity))
  {
  }

  lemma {:induction false} RunExclusive(s: System, es: seq<Event>, capacity: nat)
    requires Fenced(s) && Exclusive(s) && Monotone(s.clock, es)
    ensures Exclusive(Run(s, es, capacity))
    decreases |es|
  {
    hide Fenced, Exclusive;
    if es != [] {
      StepFenced(s, es[0], capacity);
      StepExclusive(s, es[0], capacity);
      RunExclusive(Step(s, es[0], capacity), es[1..], capacity);
    }
  }

  /** When clocks do not go back, no two holders have a resource at once: of all leases of a resource that
    * were last handed out under their token, were not released and have not ended, there is one at most,
    * and it is the one whose mutations are admitted. */
  lemma MutualExclusion(clock: int, es: seq<Event>, capacity: nat, a: Commit, b: Commit)
    requires Monotone(clock, es) && a.resource == b.resource
    requires var s := Run(Start(clock), es, capacity);
             && a in s.handed && a !in s.released && s.handed[a].expires > s.clock
             && b in s.handed && b !in s.released && s.handed[b].expires > s.clock
    ensures var s := Run(Start(clock), es, capacity);
            a == b && Admits(s.table, s.handed[a], s.clock)
  {
    hide Run;
    assert Fenced(Start(clock)) && Exclusive(Start(clock));
    RunExclusive(Start(clock), es, capacity);
  }
}
