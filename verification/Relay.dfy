/** The relay as it is written: claims, then a loop that publishes and settles, with counters and a shared
  * retry budget. One worker; several workers and relays are the subject of the runs. */
module Relay {
  import opened Prelude
  import opened OutboxTable
  import opened Outbox
  import opened RelayRuns

  class RetryBudget {
    var remaining: nat

    constructor (allowance: nat)
      ensures remaining == allowance
    {
      remaining := allowance;
    }

    method Take() returns (ok: bool)
      modifies this
      ensures ok == (old(remaining) > 0) && remaining == if ok then old(remaining) - 1 else 0
    {
      if remaining == 0 {
        return false;
      }
      remaining := remaining - 1;
      return true;
    }

    /** A retry is scheduled before the deadline and within the budget; past the deadline none is spent. */
    method ScheduleRetry(delay: nat, deadline: nat) returns (scheduled: bool)
      modifies this
      ensures (scheduled, remaining) == Schedule(old(remaining), delay, deadline)
    {
      if delay >= deadline {
        return false;
      }
      scheduled := Take();
    }
  }

  /** What one publication meets: the clock, whether authority and time are left, the publisher's report, and
    * the delay and deadline of a retry. */
  datatype Env = Env(clock: int, authority: bool, inTime: bool, publication: Publication, stillAuthority: bool, at: int,
                     delay: nat, deadline: nat)

  function PublishOne(t: Table, budget: nat, c: Claim, env: Env, maxAttempts: nat): Settled {
    var before := BeforePublish(t, env.clock, budget, c, env.authority, env.inTime);
    if before.Some? then before.value
    else AfterPublish(t, budget, c, env.publication, env.stillAuthority, env.at, env.delay, env.deadline, maxAttempts)
  }

  function PublishAll(t: Table, budget: nat, cs: seq<Claim>, envs: nat -> Env, maxAttempts: nat): (Table, nat, Tally) {
    if cs == [] then (t, budget, NOTHING)
    else
      var n := |cs| - 1;
      var (t1, b1, tally) := PublishAll(t, budget, cs[..n], envs, maxAttempts);
      var r := PublishOne(t1, b1, cs[n], envs(n), maxAttempts);
      (r.table, r.budget, tally.Plus(r.outcome))
  }

  lemma PublishNone(t: Table, budget: nat, cs: seq<Claim>, envs: nat -> Env, maxAttempts: nat)
    ensures PublishAll(t, budget, cs[..0], envs, maxAttempts) == (t, budget, NOTHING)
  {
  }

  lemma PublishOneMore(t: Table, budget: nat, cs: seq<Claim>, n: nat, envs: nat -> Env, maxAttempts: nat)
    requires n < |cs|
    ensures var (t1, b1, tally) := PublishAll(t, budget, cs[..n], envs, maxAttempts);
            var r := PublishOne(t1, b1, cs[n], envs(n), maxAttempts);
            PublishAll(t, budget, cs[..n + 1], envs, maxAttempts) == (r.table, r.budget, tally.Plus(r.outcome))
  {
    hide PublishOne;
    assert cs[..n + 1][..n] == cs[..n];
  }

  lemma PlusSum(t: Tally, o: Outcome)
    ensures t.Plus(o).Sum() == t.Sum() + 1
  {
  }

  lemma NothingSum()
    ensures NOTHING.Sum() == 0
  {
  }

  class AsyncRelay {
    const store: InMemoryAsyncOutboxStore
    const budget: RetryBudget
    const maxAttempts: nat
    var running: bool

    constructor (store: InMemoryAsyncOutboxStore, budget: RetryBudget, maxAttempts: nat)
      ensures this.store == store && this.budget == budget && this.maxAttempts == maxAttempts && !running
    {
      this.store, this.budget, this.maxAttempts, running := store, budget, maxAttempts, false;
    }

    method Publish(c: Claim, env: Env) returns (outcome: Outcome)
      modifies store`items, store`held, budget
      ensures Settled(outcome, store.State(), budget.remaining)
              == PublishOne(old(store.State()), old(budget.remaining), c, env, maxAttempts)
    {
      hide Current;
      if c.until <= env.clock || !env.authority {
        return WasStale;
      }
      var settlement;
      if !env.inTime {
        settlement := store.Defer(c, env.clock, env.clock);
        return Unless(settlement == Stale, WasDeferred);
      }
      if !env.stillAuthority {
        return WasStale;
      }
      if env.publication.Unknown? {
        settlement := store.Uncertain(c, env.at);
        return Unless(settlement == Stale, WasUncertain);
      }
      if env.publication.Confirmed? {
        settlement := store.Delivered(c, env.at);
        outcome := WasDelivered;
      } else if env.publication.Retryable? && c.envelope.attempt + 1 < maxAttempts {
        var scheduled := budget.ScheduleRetry(env.delay, env.deadline);
        if scheduled {
          settlement := store.Retry(c, env.at + env.delay, env.at);
          outcome := WasRetried;
        } else {
          settlement := store.Defer(c, env.at + env.delay, env.at);
          outcome := WasDeferred;
        }
      } else {
        settlement := store.Failed(c, env.at);
        outcome := WasFailed;
      }
      if settlement == Stale {
        outcome := WasStale;
      }
    }

    /** Publishes the claims of a round one after the other and counts the outcomes. */
    method PublishClaims(claims: seq<Claim>, envs: nat -> Env) returns (tally: Tally)
      modifies store`items, store`held, budget
      ensures tally.Sum() == |claims|
      ensures (store.State(), budget.remaining, tally)
              == PublishAll(old(store.State()), old(budget.remaining), claims, envs, maxAttempts)
    {
      hide PublishOne, PublishAll, Tally.Plus, Tally.Sum;
      NothingSum();
      tally := NOTHING;
      PublishNone(store.State(), budget.remaining, claims, envs, maxAttempts);
      var i := 0;
      while i < |claims|
        invariant 0 <= i <= |claims| && tally.Sum() == i
        invariant (store.State(), budget.remaining, tally)
                  == PublishAll(old(store.State()), old(budget.remaining), claims[..i], envs, maxAttempts)
      {
        PublishOneMore(old(store.State()), old(budget.remaining), claims, i, envs, maxAttempts);
        var outcome := Publish(claims[i], envs(i));
        PlusSum(tally, outcome);
        tally := tally.Plus(outcome);
        i := i + 1;
      }
      assert claims[..i] == claims;
    }

    /** One round, unless one is running: the summary counts every claim in exactly one outcome. */
    method RunOnce(now: int, limit: nat, ttl: nat, maxBytes: nat, envs: nat -> Env)
      returns (claimed: nat, tally: Tally)
      modifies this, store`items, store`held, store`issued, budget
      ensures claimed == tally.Sum() && running == old(running)
      ensures if old(running) then claimed == 0 && store.State() == old(store.State())
              else var (t, cs) := ClaimAll(old(store.State()), now, limit, ttl, Some(maxBytes), store.payloadSize);
                   && claimed == |cs|
                   && (store.State(), budget.remaining, tally)
                      == PublishAll(t, old(budget.remaining), cs, envs, maxAttempts)
    {
      hide PublishOne, PublishAll, ClaimAll;
      if running {
        return 0, NOTHING;
      }
      running := true;
      var claims := store.Claim(now, limit, ttl, Some(maxBytes));
      tally := PublishClaims(claims, envs);
      claimed, running := |claims|, false;
    }
  }
}
