/** The consumer: one transaction per delivery, and only then an answer to the broker. Deliveries may be
  * repeated, interleaved, time out, fail and be lost to a crash between commit and answer. */
module ConsumerRuns {
  import opened Prelude
  import opened InboxTable
  import opened WorkTable

  type Reason(==,!new)

  /** How the handler of a delivery ends. */
  datatype Handling =
    | Decided(decision: Decision)
    | RetryableFailure
    | PermanentFailure(reason: Reason)
    | OtherFailure
    | TimedOut

  /** What one processing meets: whether it times out while waiting for the unit of work, the clock, the
    * handler, whether authority is left after the handler, and whether quarantine accepts the delivery. */
  datatype Env = Env(lockTimesOut: bool, token: Token, reserveAt: int, ttl: nat, handling: Handling, authority: bool,
                     completeAt: int, quarantined: bool)

  /** What the broker is to be told; nothing when an exception leaves the consumer. */
  datatype Answer = Acknowledge | Redeliver | Terminate | NoAnswer

  /** The body of the transaction after an accepted reservation: what to answer, and what to commit. */
  function Handle(u: Work, id: Identity, env: Env, committed: nat, capacity: nat): (Answer, Option<Work>) {
    match env.handling
    case RetryableFailure => (Redeliver, None)
    case TimedOut => (Redeliver, None)
    case PermanentFailure(_) => (if env.quarantined then Terminate else Redeliver, None)
    case OtherFailure => (NoAnswer, None)
    case Decided(d) =>
      var (saved, u1) := SaveDecision(u, committed, d, capacity);
      if !saved then (NoAnswer, None)
      else if !env.authority then (Redeliver, None)
      else
        var (ok, u2) := CompleteMessage(u1, id, env.token, env.completeAt);
        if ok then (Acknowledge, Some(u2)) else (Redeliver, None)
  }

  /** One delivery up to, but not including, the answer. */
  function Process(s: Shared, id: Identity, env: Env, capacity: nat): (Answer, Shared) {
    if env.lockTimesOut then (Redeliver, s)
    else
      var (reservation, u) := Reserve(Enter(s), id, env.token, env.reserveAt, env.ttl, capacity);
      match reservation
      case Duplicate(_) => var (ok, after) := Commit(u, s); if ok then (Acknowledge, after) else (NoAnswer, s)
      case InProgress(_) => (Redeliver, s)
      case CapacityExceeded(_) => (Redeliver, s)
      case Accepted(_) =>
        var (answer, work) := Handle(u, id, env, |s.decisions|, capacity);
        if work.None? then (answer, s)
        else
          var (ok, after) := Commit(work.value, s);
          if ok then (answer, after) else (NoAnswer, s)
  }

  // ---------------------------------------------------------------- one delivery

  /** The handler is reached and everything after it succeeds. */
  predicate Succeeds(s: Shared, env: Env, capacity: nat) {
    && !env.lockTimesOut && |s.inbox| < capacity
    && env.handling.Decided? && |s.decisions| < capacity && env.authority
    && env.completeAt < env.reserveAt + env.ttl
  }

  /** In the shared inbox every entry is complete: reservations are only ever published with a completion. */
  ghost predicate AllComplete(t: Inbox) {
    forall id :: id in t ==> t[id].completed.Some?
  }

  lemma CommitOne(t: Inbox, id: Identity, token: Token, now: int)
    requires id in t && t[id] == Entry(token, t[id].expires, Some(now)) && now < t[id].expires
    ensures Replay(t, [Completion(id, token, now)]) == Some(t)
  {
    var cs := [Completion(id, token, now)];
    assert cs[..0] == [] && Replay(t, []) == Some(t);
    assert t[id := t[id].(completed := Some(now))] == t;
  }

  /** What one processing does, whatever happens: a message that was committed before is acknowledged and
    * nothing changes; another is committed once, with its decision, exactly when everything succeeds; in
    * every other case nothing changes and it is not acknowledged. */
  lemma ProcessOutcome(s: Shared, id: Identity, env: Env, capacity: nat)
    requires AllComplete(s.inbox)
    ensures var (answer, after) := Process(s, id, env, capacity);
            if id in s.inbox then
              after == s && answer == if env.lockTimesOut then Redeliver else Acknowledge
            else if Succeeds(s, env, capacity) then
              && answer == Acknowledge
              && after == Shared(s.inbox[id := Entry(env.token, env.reserveAt + env.ttl, Some(env.completeAt))],
                                 s.decisions + [env.handling.decision])
            else after == s && answer != Acknowledge
  {
    hide Handle;
    if id in s.inbox {
      DuplicateOutcome(s, id, env, capacity);
    } else if !env.lockTimesOut {
      assert s.inbox - {id} == s.inbox;
      if |s.inbox| < capacity { AcceptedOutcome(s, id, env, capacity); }
    }
  }

  lemma DuplicateOutcome(s: Shared, id: Identity, env: Env, capacity: nat)
    requires id in s.inbox && s.inbox[id].completed.Some?
    ensures Process(s, id, env, capacity) == (if env.lockTimesOut then Redeliver else Acknowledge, s)
  {
    hide Handle;
    assert Replay(s.inbox, []) == Some(s.inbox);
    assert s.decisions + [] == s.decisions;
  }

  lemma AcceptedOutcome(s: Shared, id: Identity, env: Env, capacity: nat)
    requires id !in s.inbox && |s.inbox| < capacity && !env.lockTimesOut && s.inbox - {id} == s.inbox
    ensures var (answer, after) := Process(s, id, env, capacity);
            if Succeeds(s, env, capacity) then
              && answer == Acknowledge
              && after == Shared(s.inbox[id := Entry(env.token, env.reserveAt + env.ttl, Some(env.completeAt))],
                                 s.decisions + [env.handling.decision])
            else after == s && answer != Acknowledge
  {
    hide Handle, Commit;
    var (reservation, u) := Reserve(Enter(s), id, env.token, env.reserveAt, env.ttl, capacity);
    assert reservation.Accepted?;
    assert u.reservations == [Reservation(id, env.token)];
    HandleOutcome(s, id, env, capacity);
  }

  lemma HandleOutcome(s: Shared, id: Identity, env: Env, capacity: nat)
    requires id !in s.inbox
    ensures var reserved := s.inbox[id := Entry(env.token, env.reserveAt + env.ttl, None)];
            var closed := s.inbox[id := Entry(env.token, env.reserveAt + env.ttl, Some(env.completeAt))];
            var (answer, work) := Handle(Work(reserved, [Reservation(id, env.token)], [], []), id, env, |s.decisions|, capacity);
            if env.handling.Decided? && |s.decisions| < capacity && env.authority && env.completeAt < env.reserveAt + env.ttl
            then answer == Acknowledge && work.Some?
                 && Commit(work.value, s) == (true, Shared(closed, s.decisions + [env.handling.decision]))
            else work.None? && answer != Acknowledge
  {
    hide Replay;
    var reserved := s.inbox[id := Entry(env.token, env.reserveAt + env.ttl, None)];
    var closed := s.inbox[id := Entry(env.token, env.reserveAt + env.ttl, Some(env.completeAt))];
    assert reserved[id := reserved[id].(completed := Some(env.completeAt))] == closed;
    var held := [Reservation(id, env.token)];
    assert Reservation(id, env.token) in held;
    if env.handling.Decided? && |s.decisions| < capacity && env.authority && env.completeAt < env.reserveAt + env.ttl {
      var done := [Completion(id, env.token, env.completeAt)];
      assert [] + done == done && [] + [env.handling.decision] == [env.handling.decision];
      CommitOne(closed, id, env.token, env.completeAt);
    }
  }

  // ---------------------------------------------------------------- the system

  datatype Pending = Pending(id: Identity, answer: Answer)

  /** The shared stores, the message that each committed decision answers (none for a command), the answers
    * not yet given, and how often each message was acknowledged. */
  datatype System = System(shared: Shared, origins: seq<Option<Identity>>, pending: map<nat, Pending>,
                           acknowledged: multiset<Identity>)

  datatype Event =
    | Deliver(worker: nat, id: Identity, env: Env)
    | Answer(worker: nat)
    | CrashWorker(worker: nat)
    | Execute(decision: Decision)

  function Step(s: System, e: Event, capacity: nat): System {
    match e
    case Deliver(w, id, env) =>
      var (answer, after) := Process(s.shared, id, env, capacity);
      s.(shared := after,
         origins := if |after.decisions| > |s.shared.decisions| then s.origins + [Some(id)] else s.origins,
         pending := s.pending[w := Pending(id, answer)])
    case Answer(w) =>
      if w !in s.pending then s
      else s.(pending := s.pending - {w},
              acknowledged := if s.pending[w].answer == Acknowledge then s.acknowledged + multiset{s.pending[w].id}
                              else s.acknowledged)
    case CrashWorker(w) => s.(pending := s.pending - {w})
    case Execute(d) =>
      var (saved, u) := SaveDecision(Enter(s.shared), |s.shared.decisions|, d, capacity);
      if !saved then s
      else s.(shared := Commit(u, s.shared).1, origins := s.origins + [None])
  }

  function Run(s: System, es: seq<Event>, capacity: nat): System
    decreases |es|
  {
    if es == [] then s else Run(Step(s, es[0], capacity), es[1..], capacity)
  }

  ghost predicate Good(s: System) {
    && AllComplete(s.shared.inbox)
    && |s.origins| == |s.shared.decisions|
    && (forall id :: multiset(s.origins)[Some(id)] == if id in s.shared.inbox then 1 else 0)
    && (forall w :: w in s.pending && s.pending[w].answer == Acknowledge ==> s.pending[w].id in s.shared.inbox)
    && (forall id :: id in s.acknowledged ==> id in s.shared.inbox)
  }

  lemma OneMore(origins: seq<Option<Identity>>, o: Option<Identity>)
    ensures multiset(origins + [o]) == multiset(origins) + multiset{o}
  {
  }

  lemma ExecuteOutcome(s: Shared, d: Decision, capacity: nat)
    ensures var (saved, u) := SaveDecision(Enter(s), |s.decisions|, d, capacity);
            saved ==> Commit(u, s) == (true, Shared(s.inbox, s.decisions + [d]))
  {
    assert [] + [d] == [d];
    assert Replay(s.inbox, []) == Some(s.inbox);
  }

  lemma NothingCommitted(s: System, w: nat, id: Identity, answer: Answer)
    requires Good(s) && (answer == Acknowledge ==> id in s.shared.inbox)
    ensures Good(s.(pending := s.pending[w := Pending(id, answer)]))
  {
  }

  lemma OneCommitted(s: System, w: nat, id: Identity, entry: Entry, d: Decision)
    requires Good(s) && id !in s.shared.inbox && entry.completed.Some?
    ensures Good(s.(shared := Shared(s.shared.inbox[id := entry], s.shared.decisions + [d]),
                    origins := s.origins + [Some(id)],
                    pending := s.pending[w := Pending(id, Acknowledge)]))
  {
    OneMore(s.origins, Some(id));
  }

  lemma DeliverGood(s: System, w: nat, id: Identity, env: Env, capacity: nat)
    requires Good(s)
    ensures Good(Step(s, Deliver(w, id, env), capacity))
  {
    hide Process, Succeeds, Good;
    GoodIsComplete(s);
    ProcessOutcome(s.shared, id, env, capacity);
    var (answer, after) := Process(s.shared, id, env, capacity);
    if id !in s.shared.inbox && Succeeds(s.shared, env, capacity) {
      SuccessDecides(s.shared, env, capacity);
      OneCommitted(s, w, id, Entry(env.token, env.reserveAt + env.ttl, Some(env.completeAt)), env.handling.decision);
    } else {
      NothingCommitted(s, w, id, answer);
    }
  }

  lemma GoodIsComplete(s: System)
    requires Good(s)
    ensures AllComplete(s.shared.inbox)
  {
  }

  lemma SuccessDecides(s: Shared, env: Env, capacity: nat)
    requires Succeeds(s, env, capacity)
    ensures env.handling.Decided?
  {
  }

  lemma AnswerGood(s: System, w: nat, capacity: nat)
    requires Good(s)
    ensures Good(Step(s, Answer(w), capacity)) && Good(Step(s, CrashWorker(w), capacity))
  {
  }

  lemma CommandCommitted(s: System, d: Decision)
    requires Good(s)
    ensures Good(s.(shared := Shared(s.shared.inbox, s.shared.decisions + [d]), origins := s.origins + [None]))
  {
    OneMore(s.origins, None);
  }

  lemma StepKeepsGood(s: System, e: Event, capacity: nat)
    requires Good(s)
    ensures Good(Step(s, e, capacity))
  {
    hide Process, Commit, SaveDecision, Good;
    match e
    case Deliver(w, id, env) => DeliverGood(s, w, id, env, capacity);
    case Answer(w) => AnswerGood(s, w, capacity);
    case CrashWorker(w) => AnswerGood(s, w, capacity);
    case Execute(d) =>
      ExecuteOutcome(s.shared, d, capacity);
      CommandCommitted(s, d);
  }

  lemma {:induction false} RunKeepsGood(s: System, es: seq<Event>, capacity: nat)
    requires Good(s)
    ensures Good(Run(s, es, capacity))
    decreases |es|
  {
    hide Good, Step;
    if es != [] {
      StepKeepsGood(s, es[0], capacity);
      RunKeepsGood(Step(s, es[0], capacity), es[1..], capacity);
    }
  }

  const EMPTY := System(Shared(map[], []), [], map[], multiset{})

  // ---------------------------------------------------------------- theorems

  /** Over every sequence of deliveries, redeliveries, failures, timeouts and crashes, at most one decision is
    * committed for a message, and exactly one when the message was ever acknowledged. */
  lemma EffectivelyOnce(es: seq<Event>, capacity: nat, id: Identity)
    ensures var s := Run(EMPTY, es, capacity);
            && |s.origins| == |s.shared.decisions|
            && multiset(s.origins)[Some(id)] <= 1
            && (id in s.acknowledged ==> multiset(s.origins)[Some(id)] == 1)
            && (id in s.shared.inbox <==> multiset(s.origins)[Some(id)] == 1)
  {
    hide Run, AllComplete;
    EmptyGood();
    RunKeepsGood(EMPTY, es, capacity);
  }

  lemma EmptyGood()
    ensures Good(EMPTY)
  {
  }

  /** Nothing committed is ever undone or changed by a later event. */
  lemma StepExtends(s: System, e: Event, capacity: nat)
    requires Good(s)
    ensures var after := Step(s, e, capacity);
            && s.shared.decisions <= after.shared.decisions && s.origins <= after.origins
            && (forall id :: id in s.shared.inbox ==> id in after.shared.inbox
                                                      && after.shared.inbox[id] == s.shared.inbox[id])
            && s.acknowledged <= after.acknowledged
  {
    hide Process, Commit, SaveDecision;
    match e
    case Deliver(w, id, env) => ProcessOutcome(s.shared, id, env, capacity);
    case Answer(w) =>
    case CrashWorker(w) =>
    case Execute(d) => ExecuteOutcome(s.shared, d, capacity);
  }

  lemma {:induction false} RunExtends(s: System, es: seq<Event>, capacity: nat)
    requires Good(s)
    ensures var after := Run(s, es, capacity);
            && s.shared.decisions <= after.shared.decisions && s.origins <= after.origins
            && (forall id :: id in s.shared.inbox ==> id in after.shared.inbox
                                                      && after.shared.inbox[id] == s.shared.inbox[id])
            && s.acknowledged <= after.acknowledged
    decreases |es|
  {
    hide Good, Step;
    if es != [] {
      StepKeepsGood(s, es[0], capacity);
      StepExtends(s, es[0], capacity);
      RunExtends(Step(s, es[0], capacity), es[1..], capacity);
    }
  }

  /** A message whose answer was lost to a crash after the commit is acknowledged on redelivery without its
    * handler, whatever that would have done; and redelivered until everything succeeds once, a message is
    * committed. */
  lemma RedeliveryConverges(es: seq<Event>, capacity: nat, w: nat, id: Identity, env: Env)
    requires !env.lockTimesOut
    ensures var s := Run(EMPTY, es, capacity);
            var after := Step(Step(s, Deliver(w, id, env), capacity), Answer(w), capacity);
            && (id in s.shared.inbox ==> after.shared == s.shared && id in after.acknowledged)
            && (id !in s.shared.inbox ==>
                  (id in after.acknowledged <==> Succeeds(s.shared, env, capacity))
                  && (id in after.shared.inbox <==> Succeeds(s.shared, env, capacity)))
  {
    hide Run, Process, AllComplete, Succeeds;
    EmptyGood();
    RunKeepsGood(EMPTY, es, capacity);
    ProcessOutcome(Run(EMPTY, es, capacity).shared, id, env, capacity);
  }
}
