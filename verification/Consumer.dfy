/** The in-memory unit of work and the consumer that runs one per delivery, as they are written. */
module Consumer {
  import opened Prelude
  import opened InboxTable
  import opened Inbox
  import opened WorkTable
  import opened ConsumerRuns
  import W = WorkTable
  import C = ConsumerRuns

  class UnitOfWorkFactory {
    const capacity: nat
    const inbox: InMemoryInboxStore
    var decisions: seq<Decision>

    constructor (capacity: nat)
      requires capacity > 0
      ensures State() == Shared(map[], []) && this.capacity == capacity && fresh(inbox)
    {
      this.capacity := capacity;
      decisions := [];
      inbox := new InMemoryInboxStore(capacity);
    }

    function State(): Shared
      reads this, inbox
    {
      Shared(inbox.entries, decisions)
    }
  }

  class UnitOfWork {
    const factory: UnitOfWorkFactory
    const inbox: InMemoryInboxStore  // a private copy
    var reservations: seq<Reservation>
    var completions: seq<Completion>
    var staged: seq<Decision>
    var finished: bool

    /** Entering copies the shared inbox. */
    constructor (factory: UnitOfWorkFactory)
      requires factory.capacity > 0
      ensures this.factory == factory && fresh(inbox) && inbox.capacity == factory.capacity
      ensures !finished && State() == Enter(factory.State())
    {
      this.factory := factory;
      var copy := new InMemoryInboxStore(factory.capacity);
      copy.entries := factory.inbox.entries;
      inbox := copy;
      reservations, completions, staged, finished := [], [], [], false;
    }

    function State(): Work
      reads this, inbox
    {
      Work(inbox.entries, reservations, completions, staged)
    }

    method ReserveMessage(id: Identity, token: Token, now: int, ttl: nat) returns (r: InboxDecision)
      requires !finished && inbox != factory.inbox
      modifies this`reservations, inbox
      ensures (r, State()) == Reserve(old(State()), id, token, now, ttl, inbox.capacity)
    {
      r := inbox.Begin(id, token, now, ttl);
      if r.Accepted? {
        reservations := reservations + [Reservation(id, token)];
      }
    }

    method Complete(id: Identity, token: Token, now: int) returns (ok: bool)
      requires !finished && inbox != factory.inbox
      modifies this`completions, inbox
      ensures (ok, State()) == W.CompleteMessage(old(State()), id, token, now)
    {
      if Reservation(id, token) !in reservations {
        return false;
      }
      var completed := inbox.Complete(id, token, now);
      if !completed {
        return false;
      }
      completions := completions + [Completion(id, token, now)];
      return true;
    }

    method Save(d: Decision) returns (ok: bool)
      requires !finished
      modifies this`staged
      ensures (ok, State()) == W.SaveDecision(old(State()), |factory.decisions|, d, factory.capacity)
    {
      if |factory.decisions| + |staged| >= factory.capacity {
        return false;
      }
      staged := staged + [d];
      return true;
    }

    /** Completes everything again on the private copy and then publishes it; rolls back otherwise. */
    method Commit() returns (ok: bool)
      requires !finished && inbox != factory.inbox
      modifies this, inbox, factory`decisions, factory.inbox`entries
      ensures (ok, factory.State()) == W.Commit(old(State()), old(factory.State())) && finished
    {
      var i := 0;
      ghost var before := inbox.entries;
      while i < |completions|
        invariant 0 <= i <= |completions| && completions == old(completions) && staged == old(staged)
        invariant Replay(before, completions[..i]) == Some(inbox.entries)
        invariant factory.State() == old(factory.State()) && before == old(inbox.entries)
      {
        var c := completions[i];
        assert completions[..i + 1][..i] == completions[..i];
        var completed := inbox.Complete(c.id, c.token, c.now);
        if !completed {
          ReplayStops(before, completions, i + 1);
          Rollback();
          return false;
        }
        i := i + 1;
      }
      assert completions[..i] == completions;
      factory.inbox.entries := inbox.entries;
      factory.decisions := factory.decisions + staged;
      finished := true;
      return true;
    }

    /** Abandons what was reserved and drops what was staged; the shared state is untouched. */
    method Rollback()
      requires inbox != factory.inbox
      modifies this, inbox
      ensures finished && factory.State() == old(factory.State())
    {
      if finished {
        return;
      }
      var i := 0;
      while i < |reservations|
        invariant 0 <= i <= |reservations| && reservations == old(reservations)
        invariant factory.State() == old(factory.State())
      {
        var _ := inbox.Abandon(reservations[i].id, reservations[i].token);
        i := i + 1;
      }
      staged, completions, finished := [], [], true;
    }
  }

  /** Once a completion fails the replay fails as a whole. */
  lemma {:induction false} ReplayStops(t: T, cs: seq<Completion>, n: nat)
    requires n <= |cs| && Replay(t, cs[..n]).None?
    ensures Replay(t, cs).None?
    decreases |cs| - n
  {
    if n < |cs| {
      assert cs[..n + 1][..n] == cs[..n];
      ReplayStops(t, cs, n + 1);
    } else {
      assert cs[..n] == cs;
    }
  }

  type T = InboxTable.Inbox

  class AsyncConsumer {
    const units: UnitOfWorkFactory

    constructor (units: UnitOfWorkFactory)
      requires units.capacity > 0
      ensures this.units == units
    {
      this.units := units;
    }

    /** One delivery: the transaction, and what to answer the broker. */
    method Process(id: Identity, env: Env) returns (answer: Answer)
      requires units.capacity > 0
      modifies units`decisions, units.inbox`entries
      ensures (answer, units.State()) == C.Process(old(units.State()), id, env, units.capacity)
    {
      hide Replay, Begin, InboxTable.Complete;
      if env.lockTimesOut {
        return Redeliver;
      }
      var transaction := new UnitOfWork(units);
      var reservation := transaction.ReserveMessage(id, env.token, env.reserveAt, env.ttl);
      if reservation.Duplicate? {
        var ok := transaction.Commit();
        return if ok then Acknowledge else NoAnswer;
      }
      if !reservation.Accepted? {
        transaction.Rollback();
        return Redeliver;
      }
      match env.handling {
        case RetryableFailure => transaction.Rollback(); return Redeliver;
        case TimedOut => transaction.Rollback(); return Redeliver;
        case PermanentFailure(_) => transaction.Rollback(); return if env.quarantined then Terminate else Redeliver;
        case OtherFailure => transaction.Rollback(); return NoAnswer;
        case Decided(decision) =>
          var saved := transaction.Save(decision);
          if !saved {
            transaction.Rollback();
            return NoAnswer;
          }
          var completed := false;
          if env.authority {
            completed := transaction.Complete(id, env.token, env.completeAt);
          }
          if !completed {
            transaction.Rollback();
            return Redeliver;
          }
          var committed := transaction.Commit();
          return if committed then Acknowledge else NoAnswer;
      }
    }
  }
}
