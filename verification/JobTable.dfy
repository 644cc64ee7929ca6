/** Jobs, their claims, and schedules that create them, as a table. Instants are integers, a random claim
  * identifier is the next value of a counter, and the answers of next-run policies are parameters. */
module JobTable {
  import opened Prelude
  import opened Text
  import opened WireInteger

  type JobId = Str
  type Work(==,!new)  // a task and its payload
  type Decision(==,!new)

  type Positive = n: nat | n > 0 witness 1

  datatype State = SCHEDULED | SUCCEEDED | TERMINAL | CANCELLED

  datatype Job = Job(id: JobId, work: Work, runAt: int, maxAttempts: Positive, attempt: nat, state: State)

  datatype Held = Held(claimId: nat, until: int)

  datatype Stored = Stored(job: Job, claim: Option<Held>, token: nat)

  datatype Claim = Claim(job: Job, claimId: nat, until: int, token: nat)

  datatype Kind = OneShot | FixedInterval(interval: Positive) | ConsumerPolicy

  datatype Schedule = Schedule(id: Str, work: Work, nextRun: int, kind: Kind, maxAttempts: Positive, sequence: nat,
                               active: bool)

  datatype Recorded = Recorded(job: JobId, decision: Decision)

  datatype Table = Table(jobs: map<JobId, Stored>, schedules: map<Str, Schedule>, decisions: seq<Recorded>, issued: nat)

  predicate Full(t: Table, capacity: nat) {
    |t.jobs| + |t.schedules| + |t.decisions| + 1 > capacity
  }

  // ---------------------------------------------------------------- jobs

  datatype Scheduling = Scheduled | Duplicate | Overflow

  function ScheduleJob(t: Table, j: Job, capacity: nat): (Scheduling, Table) {
    if j.id in t.jobs then (Duplicate, t)
    else if Full(t, capacity) then (Overflow, t)
    else (Scheduled, t.(jobs := t.jobs[j.id := Stored(j, None, 0)]))
  }

  predicate Eligible(s: Stored, now: int) {
    && s.job.state == SCHEDULED && s.job.runAt <= now
    && (s.claim.Some? ==> s.claim.value.until <= now)
  }

  /** Claims the first eligible jobs of a list, each with the next fencing token of the job. */
  function Take(t: Table, ids: seq<JobId>, now: int, until: int, limit: nat): (Table, seq<Claim>)
    decreases |ids|
  {
    if ids == [] || limit == 0 then (t, [])
    else if ids[0] !in t.jobs || !Eligible(t.jobs[ids[0]], now) then Take(t, ids[1..], now, until, limit)
    else
      var s := t.jobs[ids[0]];
      var held := Stored(s.job, Some(Held(t.issued, until)), s.token + 1);
      var (after, more) := Take(t.(jobs := t.jobs[ids[0] := held], issued := t.issued + 1), ids[1..], now, until, limit - 1);
      (after, [Claim(s.job, t.issued, until, s.token + 1)] + more)
  }

  /** The claim is the job's current one, of whatever age, and the job is still scheduled. */
  predicate Valid(t: Table, c: Claim) {
    && c.job.id in t.jobs
    && var s := t.jobs[c.job.id];
       s.claim.Some? && s.claim.value.claimId == c.claimId && s.token == c.token && s.job.state == SCHEDULED
  }

  datatype Transition = Succeeded | Retried | Terminated | StaleClaim | DecisionOverflow

  function Settle(t: Table, id: JobId, j: Job): Table
    requires id in t.jobs
  {
    t.(jobs := t.jobs[id := t.jobs[id].(job := j, claim := None)])
  }

  function Succeed(t: Table, c: Claim, d: Decision, capacity: nat): (Transition, Table) {
    if !Valid(t, c) then (StaleClaim, t)
    else if |t.decisions| >= capacity then (DecisionOverflow, t)
    else
      var j := t.jobs[c.job.id].job;
      (Succeeded, Settle(t, c.job.id, j.(state := SUCCEEDED)).(decisions := t.decisions + [Recorded(j.id, d)]))
  }

  function Retry(t: Table, c: Claim, runAt: int): (Transition, Table) {
    if !Valid(t, c) then (StaleClaim, t)
    else
      var j := t.jobs[c.job.id].job;
      if j.attempt + 1 >= j.maxAttempts
      then (Terminated, Settle(t, c.job.id, j.(attempt := j.attempt + 1, state := TERMINAL)))
      else (Retried, Settle(t, c.job.id, j.(attempt := j.attempt + 1, runAt := runAt)))
  }

  function Terminate(t: Table, c: Claim): (Transition, Table) {
    if !Valid(t, c) then (StaleClaim, t)
    else (Terminated, Settle(t, c.job.id, t.jobs[c.job.id].job.(state := TERMINAL)))
  }

  // ---------------------------------------------------------------- schedules

  function AddSchedule(t: Table, s: Schedule, capacity: nat): (Scheduling, Table) {
    if s.id in t.schedules then (Duplicate, t)
    else if Full(t, capacity) then (Overflow, t)
    else (Scheduled, t.(schedules := t.schedules[s.id := s]))
  }

  /** The identifier of an occurrence of a schedule. */
  function Occurrence(schedule: Str, sequence: nat): JobId {
    schedule + [':' as int] + Decimal(sequence)
  }

  datatype Answer = NextRun(at: int) | NoMore | NoPolicy

  /** The schedule after an occurrence; nothing when its policy is unknown or does not advance time. */
  function Advance(s: Schedule, answer: Answer): Option<Schedule> {
    match s.kind
    case OneShot => Some(s.(sequence := s.sequence + 1, active := false))
    case FixedInterval(interval) => Some(s.(sequence := s.sequence + 1, nextRun := s.nextRun + interval))
    case ConsumerPolicy =>
      match answer
      case NoPolicy => None
      case NoMore => Some(s.(sequence := s.sequence + 1, active := false))
      case NextRun(at) => if at <= s.nextRun then None else Some(s.(sequence := s.sequence + 1, nextRun := at))
  }

  /** The occurrences created, and whether the call then raised. */
  datatype Materialized = Materialized(created: seq<JobId>, raised: bool)

  /** Creates the due occurrence of each schedule of a list, up to a limit, and advances the schedule. What
    * was done before a failure stays done. */
  function Materialize(t: Table, ids: seq<Str>, now: int, limit: nat, created: seq<JobId>, policy: Str -> Answer,
                       capacity: nat): (Materialized, Table)
    decreases |ids|
  {
    if ids == [] then (Materialized(created, false), t)
    else if ids[0] !in t.schedules then Materialize(t, ids[1..], now, limit, created, policy, capacity)
    else
      var s := t.schedules[ids[0]];
      if |created| >= limit || !s.active || s.nextRun > now
      then Materialize(t, ids[1..], now, limit, created, policy, capacity)
      else
        var id := Occurrence(ids[0], s.sequence);
        if id !in t.jobs && Full(t, capacity) then (Materialized(created, true), t)
        else
          var u := WithOccurrence(t, id, s);
          var made := if id in t.jobs then created else created + [id];
          var advanced := Advance(s, policy(ids[0]));
          if advanced.None? then (Materialized(made, true), u)
          else Materialize(u.(schedules := u.schedules[ids[0] := advanced.value]), ids[1..], now, limit, made, policy,
                           capacity)
  }

  function WithOccurrence(t: Table, id: JobId, s: Schedule): Table {
    if id in t.jobs then t
    else t.(jobs := t.jobs[id := Stored(Job(id, s.work, s.nextRun, s.maxAttempts, 0, SCHEDULED), None, 0)])
  }

  /** Jobs in the order in which they are offered: earliest first, then by identifier. */
  function JobOrder(t: Table): seq<JobId> {
    Tails(Sorted(set id | id in t.jobs :: [t.jobs[id].job.runAt] + id))
  }

  function ScheduleOrder(t: Table): seq<Str> {
    Tails(Sorted(set id | id in t.schedules :: [t.schedules[id].nextRun] + id))
  }
}
