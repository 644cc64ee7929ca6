/** The in-memory job store, updated in place. */
module Jobs {
  import opened Prelude
  import opened Text
  import opened JobTable
  import T = JobTable

  class InMemoryJobStore {
    const capacity: nat
    var jobs: map<JobId, Stored>
    var schedules: map<Str, Schedule>
    var decisions: seq<Recorded>
    var issued: nat

    constructor (capacity: nat)
      requires capacity > 0
      ensures State() == Table(map[], map[], [], 0) && this.capacity == capacity
    {
      this.capacity, jobs, schedules, decisions, issued := capacity, map[], map[], [], 0;
    }

    function State(): Table
      reads this
    {
      Table(jobs, schedules, decisions, issued)
    }

    method Schedule(job: Job) returns (r: Scheduling)
      modifies this`jobs
      ensures (r, State()) == T.ScheduleJob(old(State()), job, capacity)
    {
      if job.id in jobs {
        return Duplicate;
      }
      if Full(State(), capacity) {
        return Overflow;
      }
      jobs := jobs[job.id := Stored(job, None, 0)];
      return Scheduled;
    }

    method Claim(now: int, limit: nat, ttl: nat) returns (claims: seq<T.Claim>)
      modifies this`jobs, this`issued
      ensures (State(), claims) == Take(old(State()), JobOrder(old(State())), now, now + ttl, limit)
    {
      hide JobOrder, Eligible;
      var order := JobOrder(State());
      claims := [];
      Whole(order, Take(State(), order, now, now + ttl, limit).1);
      var i := 0;
      while i < |order|
        invariant 0 <= i <= |order| && |claims| <= limit
        invariant schedules == old(schedules) && decisions == old(decisions)
        invariant var (t, more) := Take(State(), order[i..], now, now + ttl, limit - |claims|);
                  (t, claims + more) == Take(old(State()), order, now, now + ttl, limit)
      {
        if |claims| >= limit {
          break;
        }
        assert order[i..][0] == order[i] && order[i..][1..] == order[i + 1..];
        ghost var claimed := claims;
        if order[i] in jobs && Eligible(jobs[order[i]], now) {
          var item := jobs[order[i]];
          var claim := T.Claim(item.job, issued, now + ttl, item.token + 1);
          jobs := jobs[order[i] := Stored(item.job, Some(Held(issued, now + ttl)), item.token + 1)];
          issued := issued + 1;
          claims := claims + [claim];
          Appended(claimed, claim, Take(State(), order[i + 1..], now, now + ttl, limit - |claims|).1);
        }
        i := i + 1;
      }
      assert claims + [] == claims;
    }

    method Succeed(c: T.Claim, d: Decision) returns (r: Transition)
      modifies this`jobs, this`decisions
      ensures (r, State()) == T.Succeed(old(State()), c, d, capacity)
    {
      if !Valid(State(), c) {
        return StaleClaim;
      }
      if |decisions| >= capacity {
        return DecisionOverflow;
      }
      var item := jobs[c.job.id];
      jobs := jobs[c.job.id := item.(job := item.job.(state := SUCCEEDED), claim := None)];
      decisions := decisions + [Recorded(item.job.id, d)];
      return Succeeded;
    }

    method Retry(c: T.Claim, runAt: int) returns (r: Transition)
      modifies this`jobs
      ensures (r, State()) == T.Retry(old(State()), c, runAt)
    {
      if !Valid(State(), c) {
        return StaleClaim;
      }
      var item := jobs[c.job.id];
      var attempt := item.job.attempt + 1;
      if attempt >= item.job.maxAttempts {
        jobs := jobs[c.job.id := item.(job := item.job.(attempt := attempt, state := TERMINAL), claim := None)];
        return Terminated;
      }
      jobs := jobs[c.job.id := item.(job := item.job.(attempt := attempt, runAt := runAt), claim := None)];
      return Retried;
    }

    method Terminate(c: T.Claim) returns (r: Transition)
      modifies this`jobs
      ensures (r, State()) == T.Terminate(old(State()), c)
    {
      if !Valid(State(), c) {
        return StaleClaim;
      }
      var item := jobs[c.job.id];
      jobs := jobs[c.job.id := item.(job := item.job.(state := TERMINAL), claim := None)];
      return Terminated;
    }

    method AddSchedule(s: T.Schedule) returns (r: Scheduling)
      modifies this`schedules
      ensures (r, State()) == T.AddSchedule(old(State()), s, capacity)
    {
      if s.id in schedules {
        return Duplicate;
      }
      if Full(State(), capacity) {
        return Overflow;
      }
      schedules := schedules[s.id := s];
      return Scheduled;
    }

    /** Creates due occurrences and advances their schedules, one after the other; a failure ends the call and
      * leaves what was done. */
    method Materialize(now: int, limit: nat, policy: Str -> Answer) returns (r: Materialized)
      modifies this`jobs, this`schedules
      ensures (r, State()) == T.Materialize(old(State()), ScheduleOrder(old(State())), now, limit, [], policy, capacity)
    {
      hide ScheduleOrder, Advance, Occurrence;
      var order := ScheduleOrder(State());
      var created: seq<JobId> := [];
      assert order[0..] == order;
      var i := 0;
      while i < |order|
        invariant 0 <= i <= |order| && decisions == old(decisions) && issued == old(issued)
        invariant T.Materialize(State(), order[i..], now, limit, created, policy, capacity)
                  == T.Materialize(old(State()), order, now, limit, [], policy, capacity)
      {
        assert order[i..][0] == order[i] && order[i..][1..] == order[i + 1..];
        if order[i] in schedules {
          var schedule := schedules[order[i]];
          if |created| < limit && schedule.active && schedule.nextRun <= now {
            var id := Occurrence(order[i], schedule.sequence);
            if id !in jobs {
              if Full(State(), capacity) {
                return Materialized(created, true);
              }
              jobs := jobs[id := Stored(Job(id, schedule.work, schedule.nextRun, schedule.maxAttempts, 0, SCHEDULED),
                                        None, 0)];
              created := created + [id];
            }
            var advanced := Advance(schedule, policy(order[i]));
            if advanced.None? {
              return Materialized(created, true);
            }
            schedules := schedules[order[i] := advanced.value];
          }
        }
        i := i + 1;
      }
      return Materialized(created, false);
    }
  }
}
