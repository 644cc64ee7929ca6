/** A unit of work as values: a private copy of the inbox, what is staged, and what a commit publishes. */
module WorkTable {
  import opened Prelude
  import opened InboxTable
  import T = InboxTable

  type Decision(==,!new)

  /** What all units of work share. */
  datatype Shared = Shared(inbox: Inbox, decisions: seq<Decision>)

  datatype Reservation = Reservation(id: Identity, token: Token)

  datatype Completion = Completion(id: Identity, token: Token, now: int)

  datatype Work = Work(inbox: Inbox, reservations: seq<Reservation>, completions: seq<Completion>,
                       staged: seq<Decision>)

  function Enter(s: Shared): Work {
    Work(s.inbox, [], [], [])
  }

  function Reserve(u: Work, id: Identity, token: Token, now: int, ttl: nat, capacity: nat): (InboxDecision, Work) {
    var (d, t) := Begin(u.inbox, id, token, now, ttl, capacity);
    (d, u.(inbox := t, reservations := if d.Accepted? then u.reservations + [Reservation(id, token)] else u.reservations))
  }

  function CompleteMessage(u: Work, id: Identity, token: Token, now: int): (bool, Work) {
    if Reservation(id, token) !in u.reservations then (false, u)
    else
      var (ok, t) := T.Complete(u.inbox, id, token, now);
      if !ok then (false, u)
      else (true, u.(inbox := t, completions := u.completions + [Completion(id, token, now)]))
  }

  function SaveDecision(u: Work, committed: nat, d: Decision, capacity: nat): (bool, Work) {
    if committed + |u.staged| >= capacity then (false, u) else (true, u.(staged := u.staged + [d]))
  }

  /** Completes again everything that was completed; nothing when a completion fails. */
  function Replay(t: Inbox, cs: seq<Completion>): Option<Inbox> {
    if cs == [] then Some(t)
    else
      var before := Replay(t, cs[..|cs| - 1]);
      var c := cs[|cs| - 1];
      if before.None? then None
      else
        var (ok, after) := T.Complete(before.value, c.id, c.token, c.now);
        if ok then Some(after) else None
  }

  function Commit(u: Work, s: Shared): (bool, Shared) {
    match Replay(u.inbox, u.completions)
    case None => (false, s)
    case Some(t) => (true, Shared(t, s.decisions + u.staged))
  }

  // ---------------------------------------------------------------- any use of a unit of work

  datatype Operation =
    | ReserveOp(id: Identity, token: Token, now: int, ttl: nat)
    | CompleteOp(id: Identity, token: Token, now: int)
    | SaveOp(decision: Decision)

  function Operate(u: Work, o: Operation, committed: nat, capacity: nat): Work {
    match o
    case ReserveOp(id, token, now, ttl) => Reserve(u, id, token, now, ttl, capacity).1
    case CompleteOp(id, token, now) => CompleteMessage(u, id, token, now).1
    case SaveOp(d) => SaveDecision(u, committed, d, capacity).1
  }

  function OperateAll(u: Work, os: seq<Operation>, committed: nat, capacity: nat): Work
    decreases |os|
  {
    if os == [] then u else OperateAll(Operate(u, os[0], committed, capacity), os[1..], committed, capacity)
  }

  /** The time of the last completion of a message. */
  function LastCompletion(cs: seq<Completion>, id: Identity): Option<int> {
    if cs == [] then None
    else if cs[|cs| - 1].id == id then Some(cs[|cs| - 1].now)
    else LastCompletion(cs[..|cs| - 1], id)
  }

  ghost predicate Completable(t: Inbox, c: Completion) {
    c.id in t && t[c.id].token == c.token && t[c.id].expires > c.now
  }

  /** Every completion could be repeated, and the entries hold the last completion of each message. */
  ghost predicate WorkGood(u: Work) {
    && (forall c | c in u.completions :: Completable(u.inbox, c))
    && (forall id | LastCompletion(u.completions, id).Some? ::
          id in u.inbox && u.inbox[id].completed == LastCompletion(u.completions, id))
  }

  lemma {:induction false} LastIsThere(cs: seq<Completion>, c: Completion)
    requires c in cs
    ensures LastCompletion(cs, c.id).Some?
  {
    if cs[|cs| - 1].id != c.id {
      assert c in cs[..|cs| - 1];
      LastIsThere(cs[..|cs| - 1], c);
    }
  }

  /** A new completion is the last of its message, and the others still could be repeated. */
  lemma CompleteGood(u: Work, id: Identity, token: Token, now: int)
    requires WorkGood(u)
    ensures WorkGood(CompleteMessage(u, id, token, now).1)
  {
    var (ok, v) := CompleteMessage(u, id, token, now);
    if ok {
      assert v.completions[..|v.completions| - 1] == u.completions;
      forall c | c in v.completions ensures Completable(v.inbox, c) {
        assert c in u.completions ==> Completable(u.inbox, c);
      }
    }
  }

  /** Reserving never touches a completed entry. */
  lemma ReserveGood(u: Work, id: Identity, token: Token, now: int, ttl: nat, capacity: nat)
    requires WorkGood(u)
    ensures WorkGood(Reserve(u, id, token, now, ttl, capacity).1)
  {
    hide LastCompletion;
    var v := Reserve(u, id, token, now, ttl, capacity).1;
    assert forall i | i in u.inbox && u.inbox[i].completed.Some? :: i in v.inbox && v.inbox[i] == u.inbox[i];
    forall c | c in v.completions ensures Completable(v.inbox, c) {
      LastIsThere(u.completions, c);
      assert Completable(u.inbox, c);
    }
  }

  lemma OperateGood(u: Work, o: Operation, committed: nat, capacity: nat)
    requires WorkGood(u)
    ensures WorkGood(Operate(u, o, committed, capacity))
  {
    hide LastCompletion, Reserve, CompleteMessage, Completable;
    match o
    case ReserveOp(id, token, now, ttl) => ReserveGood(u, id, token, now, ttl, capacity);
    case CompleteOp(id, token, now) => CompleteGood(u, id, token, now);
    case SaveOp(d) =>
  }

  lemma {:induction false} OperateAllGood(u: Work, os: seq<Operation>, committed: nat, capacity: nat)
    requires WorkGood(u)
    ensures WorkGood(OperateAll(u, os, committed, capacity))
    decreases |os|
  {
    hide WorkGood, Operate;
    if os != [] {
      OperateGood(u, os[0], committed, capacity);
      OperateAllGood(Operate(u, os[0], committed, capacity), os[1..], committed, capacity);
    }
  }

  /** The entries with the last completions written into them. */
  function Overwritten(t: Inbox, cs: seq<Completion>): Inbox {
    map id | id in t :: if LastCompletion(cs, id).Some? then t[id].(completed := LastCompletion(cs, id)) else t[id]
  }

  lemma {:induction false} ReplayOverwrites(t: Inbox, cs: seq<Completion>)
    requires forall c | c in cs :: Completable(t, c)
    ensures Replay(t, cs) == Some(Overwritten(t, cs))
  {
    if cs == [] {
      assert Overwritten(t, cs) == t;
    } else {
      var init, c := cs[..|cs| - 1], cs[|cs| - 1];
      assert Completable(t, c);
      ReplayOverwrites(t, init);
      var before := Overwritten(t, init);
      assert before[c.id].token == t[c.id].token && before[c.id].expires == t[c.id].expires;
      assert before[c.id := before[c.id].(completed := Some(c.now))] == Overwritten(t, cs);
    }
  }

  /** However a unit of work was used, its commit never fails: completing again what was completed succeeds
    * and changes nothing, so the commit publishes exactly the private inbox and the staged decisions. */
  lemma CommitNeverFails(s: Shared, os: seq<Operation>, committed: nat, capacity: nat, now: Shared)
    ensures var u := OperateAll(Enter(s), os, committed, capacity);
            Commit(u, now) == (true, Shared(u.inbox, now.decisions + u.staged))
  {
    hide OperateAll, Operate;
    var u := OperateAll(Enter(s), os, committed, capacity);
    OperateAllGood(Enter(s), os, committed, capacity);
    ReplayOverwrites(u.inbox, u.completions);
    assert Overwritten(u.inbox, u.completions) == u.inbox;
  }
}
