/** Whole runs of the job store: any workers, with claims of any age, and any schedules. */
module JobRuns {
  import opened Prelude
  import opened Text
  import opened WireInteger
  import opened JobTable

  datatype Event =
    | AddJob(job: Job)
    | ClaimJobs(now: int, limit: nat, ttl: nat)
    | SucceedWith(claim: Claim, decision: Decision)
    | RetryAt(claim: Claim, runAt: int)
    | Abort(claim: Claim)
    | StartSchedule(schedule: Schedule)
    | MaterializeAt(now: int, limit: nat, policy: Str -> Answer)

  /** The table, each schedule as it was added, and every occurrence that was ever created. */
  datatype System = System(table: Table, origins: map<Str, Schedule>, created: seq<JobId>)

  function Step(s: System, e: Event, capacity: nat): System {
    match e
    case AddJob(j) => s.(table := ScheduleJob(s.table, j, capacity).1)
    case ClaimJobs(now, limit, ttl) => s.(table := Take(s.table, JobOrder(s.table), now, now + ttl, limit).0)
    case SucceedWith(c, d) => s.(table := Succeed(s.table, c, d, capacity).1)
    case RetryAt(c, runAt) => s.(table := Retry(s.table, c, runAt).1)
    case Abort(c) => s.(table := Terminate(s.table, c).1)
    case StartSchedule(schedule) =>
      var (r, t) := AddSchedule(s.table, schedule, capacity);
      s.(table := t, origins := if r.Scheduled? then s.origins[schedule.id := schedule] else s.origins)
    case MaterializeAt(now, limit, policy) =>
      var (m, t) := Materialize(s.table, ScheduleOrder(s.table), now, limit, [], policy, capacity);
      s.(table := t, created := s.created + m.created)
  }

  function Run(s: System, es: seq<Event>, capacity: nat): System
    decreases |es|
  {
    if es == [] then s else Run(Step(s, es[0], capacity), es[1..], capacity)
  }

  const EMPTY := System(Table(map[], map[], [], 0), map[], [])

  // ---------------------------------------------------------------- what every change of the jobs keeps

  /** A stored job may change like this: a job that is not scheduled stays as it is, tokens never decrease, and
    * a claim is the old one, none, or a new one with the next token. */
  ghost predicate Moves(s: Stored, after: Stored, issued: nat) {
    && (s.job.state != SCHEDULED ==> after == s)
    && s.token <= after.token && after.job.id == s.job.id
    && (after.claim == s.claim || after.claim.None? || (after.claim.value.claimId >= issued && after.token > s.token))
    && (s.job.attempt < s.job.maxAttempts && after.job.state == SCHEDULED ==> after.job.attempt < after.job.maxAttempts)
  }

  ghost predicate Evolves(t: Table, after: Table) {
    && t.issued <= after.issued
    && (forall id :: id in t.jobs ==> id in after.jobs && Moves(t.jobs[id], after.jobs[id], t.issued))
  }

  lemma EvolvesTwice(t: Table, u: Table, v: Table)
    requires Evolves(t, u) && Evolves(u, v)
    ensures Evolves(t, v)
  {
    forall id | id in t.jobs ensures id in v.jobs && Moves(t.jobs[id], v.jobs[id], t.issued) {
      assert Moves(t.jobs[id], u.jobs[id], t.issued) && Moves(u.jobs[id], v.jobs[id], u.issued);
    }
  }

  lemma {:induction false} TakeEvolves(t: Table, ids: seq<JobId>, now: int, until: int, limit: nat)
    ensures Evolves(t, Take(t, ids, now, until, limit).0)
    ensures Take(t, ids, now, until, limit).0.schedules == t.schedules
    ensures Take(t, ids, now, until, limit).0.decisions == t.decisions
    decreases |ids|
  {
    hide Evolves, Eligible;
    EvolvesHere(t);
    if ids != [] && limit > 0 {
      if ids[0] in t.jobs && Eligible(t.jobs[ids[0]], now) {
        var s := t.jobs[ids[0]];
        var u := t.(jobs := t.jobs[ids[0] := Stored(s.job, Some(Held(t.issued, until)), s.token + 1)], issued := t.issued + 1);
        HoldEvolves(t, ids[0], now, until);
        TakeEvolves(u, ids[1..], now, until, limit - 1);
        EvolvesTwice(t, u, Take(u, ids[1..], now, until, limit - 1).0);
      } else {
        TakeEvolves(t, ids[1..], now, until, limit);
      }
    }
  }

  lemma EvolvesHere(t: Table)
    ensures Evolves(t, t)
  {
  }

  lemma HoldEvolves(t: Table, id: JobId, now: int, until: int)
    requires id in t.jobs && Eligible(t.jobs[id], now)
    ensures Evolves(t, t.(jobs := t.jobs[id := Stored(t.jobs[id].job, Some(Held(t.issued, until)), t.jobs[id].token + 1)],
                          issued := t.issued + 1))
  {
  }

  // ---------------------------------------------------------------- the invariants

  /** Jobs are stored under their identifiers, and only scheduled jobs are claimed. */
  ghost predicate JobsGood(t: Table) {
    forall id :: id in t.jobs ==>
      && t.jobs[id].job.id == id
      && (t.jobs[id].claim.Some? ==> t.jobs[id].job.state == SCHEDULED && t.jobs[id].claim.value.claimId < t.issued)
  }

  /** Decisions are recorded once per job, for jobs that succeeded. */
  ghost predicate DecisionsGood(t: Table) {
    && (forall i, j :: 0 <= i < j < |t.decisions| ==> t.decisions[i].job != t.decisions[j].job)
    && (forall i :: 0 <= i < |t.decisions| ==>
          t.decisions[i].job in t.jobs && t.jobs[t.decisions[i].job].job.state == SUCCEEDED)
  }

  /** How far a schedule has come since it was added: every earlier occurrence exists, and a fixed interval was
    * added once per occurrence. */
  ghost predicate ScheduleGood(t: Table, origin: Schedule, s: Schedule) {
    && origin.sequence <= s.sequence && s.kind == origin.kind && s.work == origin.work && s.id == origin.id
    && (forall k: nat :: origin.sequence <= k < s.sequence ==> Occurrence(s.id, k) in t.jobs)
    && (s.kind.FixedInterval? ==>
          s.nextRun == origin.nextRun + (s.sequence - origin.sequence) * s.kind.interval)
  }

  ghost predicate SchedulesGood(t: Table, origins: map<Str, Schedule>) {
    forall id :: id in t.schedules ==>
      t.schedules[id].id == id && id in origins && ScheduleGood(t, origins[id], t.schedules[id])
  }

  ghost predicate CreatedGood(t: Table, created: seq<JobId>) {
    && (forall i, j :: 0 <= i < j < |created| ==> created[i] != created[j])
    && (forall i :: 0 <= i < |created| ==> created[i] in t.jobs)
  }

  ghost predicate Good(s: System) {
    && JobsGood(s.table) && DecisionsGood(s.table) && SchedulesGood(s.table, s.origins)
    && CreatedGood(s.table, s.created)
  }

  // ---------------------------------------------------------------- each step

  /** Growing the jobs, with the decisions as they were, keeps everything. */
  lemma EvolvedGood(s: System, t: Table)
    requires Good(s) && Evolves(s.table, t) && JobsGood(t)
    requires t.decisions == s.table.decisions && t.schedules == s.table.schedules
    ensures Good(s.(table := t))
  {
    forall i | 0 <= i < |t.decisions| ensures t.jobs[t.decisions[i].job].job.state == SUCCEEDED {
      assert Moves(s.table.jobs[t.decisions[i].job], t.jobs[t.decisions[i].job], s.table.issued);
    }
  }

  lemma {:induction false} TakeJobsGood(t: Table, ids: seq<JobId>, now: int, until: int, limit: nat)
    requires JobsGood(t)
    ensures JobsGood(Take(t, ids, now, until, limit).0)
    decreases |ids|
  {
    hide JobsGood;
    if ids != [] && limit > 0 {
      if ids[0] in t.jobs && Eligible(t.jobs[ids[0]], now) {
        var s := t.jobs[ids[0]];
        HoldGood(t, ids[0], now, until);
        TakeJobsGood(t.(jobs := t.jobs[ids[0] := Stored(s.job, Some(Held(t.issued, until)), s.token + 1)],
                        issued := t.issued + 1), ids[1..], now, until, limit - 1);
      } else {
        TakeJobsGood(t, ids[1..], now, until, limit);
      }
    }
  }

  lemma HoldGood(t: Table, id: JobId, now: int, until: int)
    requires JobsGood(t) && id in t.jobs && Eligible(t.jobs[id], now)
    ensures JobsGood(t.(jobs := t.jobs[id := Stored(t.jobs[id].job, Some(Held(t.issued, until)), t.jobs[id].token + 1)],
                        issued := t.issued + 1))
  {
  }

  lemma SettleGood(s: System, c: Claim, j: Job)
    requires Good(s) && Valid(s.table, c) && j.id == c.job.id
    requires s.table.jobs[c.job.id].job.attempt < s.table.jobs[c.job.id].job.maxAttempts && j.state == SCHEDULED
             ==> j.attempt < j.maxAttempts
    ensures Good(s.(table := Settle(s.table, c.job.id, j)))
    ensures Evolves(s.table, Settle(s.table, c.job.id, j))
  {
    EvolvedGood(s, Settle(s.table, c.job.id, j));
  }

  lemma SucceedGood(s: System, c: Claim, d: Decision, capacity: nat)
    requires Good(s)
    ensures Good(s.(table := Succeed(s.table, c, d, capacity).1))
            && Evolves(s.table, Succeed(s.table, c, d, capacity).1)
  {
    if Valid(s.table, c) {
      var j := s.table.jobs[c.job.id].job;
      SettleGood(s, c, j.(state := SUCCEEDED));
      assert forall i :: 0 <= i < |s.table.decisions| ==> s.table.decisions[i].job != j.id;
    }
  }

  lemma RetryGood(s: System, c: Claim, runAt: int)
    requires Good(s)
    ensures Good(s.(table := Retry(s.table, c, runAt).1)) && Evolves(s.table, Retry(s.table, c, runAt).1)
    ensures Good(s.(table := Terminate(s.table, c).1)) && Evolves(s.table, Terminate(s.table, c).1)
  {
    hide SchedulesGood, DecisionsGood, CreatedGood, Evolves, Settle;
    EvolvesHere(s.table);
    if Valid(s.table, c) {
      var j := s.table.jobs[c.job.id].job;
      SettleGood(s, c, j.(attempt := j.attempt + 1, state := TERMINAL));
      SettleGood(s, c, j.(state := TERMINAL));
      if j.attempt + 1 < j.maxAttempts { SettleGood(s, c, j.(attempt := j.attempt + 1, runAt := runAt)); }
    }
  }

  lemma AddGood(s: System, j: Job, capacity: nat)
    requires Good(s)
    ensures Good(s.(table := ScheduleJob(s.table, j, capacity).1))
            && Evolves(s.table, ScheduleJob(s.table, j, capacity).1)
  {
    EvolvedGood(s, ScheduleJob(s.table, j, capacity).1);
  }

  lemma StartGood(s: System, schedule: Schedule, capacity: nat)
    requires Good(s)
    ensures Good(Step(s, StartSchedule(schedule), capacity))
    ensures Evolves(s.table, Step(s, StartSchedule(schedule), capacity).table)
  {
    hide JobsGood, ScheduleGood, Evolves, Moves;
    var t := Step(s, StartSchedule(schedule), capacity).table;
    EvolvesHere(s.table);
    SameJobs(s.table, t);
    assert t.jobs == s.table.jobs && t.issued == s.table.issued && t.decisions == s.table.decisions;
    NewSchedule(t, schedule);
    SameJobsGood(s.table, t, s.origins);
  }

  lemma NewSchedule(t: Table, s: Schedule)
    ensures ScheduleGood(t, s, s)
  {
  }

  lemma SameJobsGood(t: Table, u: Table, origins: map<Str, Schedule>)
    requires u.jobs == t.jobs && u.issued == t.issued && JobsGood(t)
    ensures JobsGood(u)
    ensures forall origin, s :: ScheduleGood(t, origin, s) ==> ScheduleGood(u, origin, s)
  {
  }

  // ---------------------------------------------------------------- materializing

  lemma OccurrenceGood(s: System, id: Str)
    requires Good(s) && id in s.table.schedules
    ensures var schedule := s.table.schedules[id];
            var job := Occurrence(id, schedule.sequence);
            var t := WithOccurrence(s.table, job, schedule);
            Good(s.(table := t, created := if job in s.table.jobs then s.created else s.created + [job]))
            && Evolves(s.table, t) && job in t.jobs
  {
    var schedule := s.table.schedules[id];
    var t := WithOccurrence(s.table, Occurrence(id, schedule.sequence), schedule);
    EvolvedGood(s, t);
  }

  /** One more occurrence exists, and one more interval was added. */
  lemma ScheduleAdvances(t: Table, origin: Schedule, s: Schedule, answer: Answer)
    requires ScheduleGood(t, origin, s) && Occurrence(s.id, s.sequence) in t.jobs
    ensures Advance(s, answer).Some? ==> ScheduleGood(t, origin, Advance(s, answer).value)
  {
    hide Occurrence;
    if s.kind.FixedInterval? { OneInterval(s.sequence - origin.sequence, s.kind.interval); }
  }

  lemma AdvanceGood(s: System, id: Str, answer: Answer)
    requires Good(s) && id in s.table.schedules
    requires Occurrence(id, s.table.schedules[id].sequence) in s.table.jobs
    ensures var advanced := Advance(s.table.schedules[id], answer);
            advanced.Some? ==> Good(s.(table := s.table.(schedules := s.table.schedules[id := advanced.value])))
  {
    hide JobsGood, DecisionsGood, CreatedGood, Occurrence, ScheduleGood;
    if Advance(s.table.schedules[id], answer).Some? {
      ScheduleAdvances(s.table, s.origins[id], s.table.schedules[id], answer);
      SchedulesAlone(s, id, answer);
      OtherSchedules(s, id, answer);
    }
  }

  lemma OtherSchedules(s: System, id: Str, answer: Answer)
    requires SchedulesGood(s.table, s.origins) && id in s.table.schedules
             && Advance(s.table.schedules[id], answer).Some?
    requires ScheduleGood(s.table, s.origins[id], Advance(s.table.schedules[id], answer).value)
    ensures SchedulesGood(s.table.(schedules := s.table.schedules[id := Advance(s.table.schedules[id], answer).value]),
                          s.origins)
  {
    hide Occurrence;
    var t := s.table.(schedules := s.table.schedules[id := Advance(s.table.schedules[id], answer).value]);
    forall i | i in t.schedules ensures ScheduleGood(t, s.origins[i], t.schedules[i]) {
      assert i != id ==> ScheduleGood(s.table, s.origins[i], s.table.schedules[i]);
    }
  }

  lemma SchedulesAlone(s: System, id: Str, answer: Answer)
    requires Good(s) && id in s.table.schedules && Advance(s.table.schedules[id], answer).Some?
    ensures var t := s.table.(schedules := s.table.schedules[id := Advance(s.table.schedules[id], answer).value]);
            JobsGood(t) && DecisionsGood(t) && CreatedGood(t, s.created)
  {
  }

  lemma OneInterval(n: nat, interval: nat)
    ensures (n + 1) * interval == n * interval + interval
  {
  }

  /** What is done before a failure is as good as what is done without one. */
  lemma {:induction false} MaterializeGood(s: System, ids: seq<Str>, now: int, limit: nat, created: seq<JobId>,
                                           policy: Str -> Answer, capacity: nat, earlier: seq<JobId>)
    requires Good(s) && s.created == earlier + created
    ensures var (m, t) := Materialize(s.table, ids, now, limit, created, policy, capacity);
            Good(System(t, s.origins, earlier + m.created)) && Evolves(s.table, t)
    decreases |ids|
  {
    hide Good, Evolves, Occurrence, WithOccurrence, Full;
    EvolvesHere(s.table);
    assert s == System(s.table, s.origins, s.created);
    if ids != [] {
      if ids[0] !in s.table.schedules {
        MaterializeGood(s, ids[1..], now, limit, created, policy, capacity, earlier);
      } else {
        var schedule := s.table.schedules[ids[0]];
        if |created| >= limit || !schedule.active || schedule.nextRun > now {
          MaterializeGood(s, ids[1..], now, limit, created, policy, capacity, earlier);
        } else {
          MaterializeOne(s, ids, now, limit, created, policy, capacity, earlier);
        }
      }
    }
  }

  lemma {:induction false} MaterializeOne(s: System, ids: seq<Str>, now: int, limit: nat, created: seq<JobId>,
                                          policy: Str -> Answer, capacity: nat, earlier: seq<JobId>)
    requires Good(s) && s.created == earlier + created && ids != [] && ids[0] in s.table.schedules
    requires var schedule := s.table.schedules[ids[0]];
             |created| < limit && schedule.active && schedule.nextRun <= now
    ensures var (m, t) := Materialize(s.table, ids, now, limit, created, policy, capacity);
            Good(System(t, s.origins, earlier + m.created)) && Evolves(s.table, t)
    decreases |ids|, 0
  {
    hide Good, Evolves, Occurrence, Full;
    EvolvesHere(s.table);
    assert s == System(s.table, s.origins, s.created);
    var schedule := s.table.schedules[ids[0]];
    var job := Occurrence(ids[0], schedule.sequence);
    if job in s.table.jobs || !Full(s.table, capacity) {
      OccurrenceGood(s, ids[0]);
      var t := WithOccurrence(s.table, job, schedule);
      var made := if job in s.table.jobs then created else created + [job];
      assert earlier + (created + [job]) == earlier + created + [job];
      var s1 := System(t, s.origins, earlier + made);
      var advanced := Advance(schedule, policy(ids[0]));
      if advanced.Some? {
        AdvanceGood(s1, ids[0], policy(ids[0]));
        var t2 := t.(schedules := t.schedules[ids[0] := advanced.value]);
        SameJobs(t, t2);
        MaterializeGood(s1.(table := t2), ids[1..], now, limit, made, policy, capacity, earlier);
        EvolvesTwice(s.table, t, t2);
        EvolvesTwice(s.table, t2, Materialize(t2, ids[1..], now, limit, made, policy, capacity).1);
      }
    }
  }

  lemma SameJobs(t: Table, u: Table)
    requires u.jobs == t.jobs && u.issued == t.issued
    ensures Evolves(t, u)
  {
  }

  // ---------------------------------------------------------------- every run

  lemma StepGood(s: System, e: Event, capacity: nat)
    requires Good(s)
    ensures Good(Step(s, e, capacity)) && Evolves(s.table, Step(s, e, capacity).table)
  {
    hide Good, Evolves, Take, Materialize, Succeed, Retry, Terminate, ScheduleJob, AddSchedule;
    match e
    case AddJob(j) => AddGood(s, j, capacity);
    case ClaimJobs(now, limit, ttl) => ClaimGood(s, now, limit, ttl);
    case SucceedWith(c, d) => SucceedGood(s, c, d, capacity);
    case RetryAt(c, runAt) => RetryGood(s, c, runAt);
    case Abort(c) => RetryGood(s, c, 0);
    case StartSchedule(schedule) => StartGood(s, schedule, capacity);
    case MaterializeAt(now, limit, policy) =>
      assert s.created + [] == s.created;
      MaterializeGood(s, ScheduleOrder(s.table), now, limit, [], policy, capacity, s.created);
  }

  lemma ClaimGood(s: System, now: int, limit: nat, ttl: nat)
    requires Good(s)
    ensures var t := Take(s.table, JobOrder(s.table), now, now + ttl, limit).0;
            Good(s.(table := t)) && Evolves(s.table, t)
  {
    hide Take, Evolves;
    TakeEvolves(s.table, JobOrder(s.table), now, now + ttl, limit);
    TakeJobsGood(s.table, JobOrder(s.table), now, now + ttl, limit);
    EvolvedGood(s, Take(s.table, JobOrder(s.table), now, now + ttl, limit).0);
  }

  lemma {:induction false} RunGood(s: System, es: seq<Event>, capacity: nat)
    requires Good(s)
    ensures Good(Run(s, es, capacity)) && Evolves(s.table, Run(s, es, capacity).table)
    decreases |es|
  {
    hide Good, Evolves, Step;
    EvolvesHere(s.table);
    if es != [] {
      StepGood(s, es[0], capacity);
      RunGood(Step(s, es[0], capacity), es[1..], capacity);
      EvolvesTwice(s.table, Step(s, es[0], capacity).table, Run(s, es, capacity).table);
    }
  }

  lemma EmptyGood()
    ensures Good(EMPTY)
  {
  }

  // ---------------------------------------------------------------- theorems

  /** Over any run at most one decision is recorded for a job, and only for jobs that succeeded. */
  lemma OneDecisionPerJob(es: seq<Event>, capacity: nat)
    ensures var t := Run(EMPTY, es, capacity).table;
            && (forall i, j :: 0 <= i < j < |t.decisions| ==> t.decisions[i].job != t.decisions[j].job)
            && (forall i :: 0 <= i < |t.decisions| ==>
                  t.decisions[i].job in t.jobs && t.jobs[t.decisions[i].job].job.state == SUCCEEDED)
  {
    hide Run, JobsGood, SchedulesGood, CreatedGood, Evolves;
    EmptyGood();
    RunGood(EMPTY, es, capacity);
  }

  /** No job is lost; one that succeeded, ended or was cancelled never changes again; fencing tokens never
    * decrease; and a scheduled job stays below its maximum of attempts. */
  lemma JobsOverRuns(s: System, es: seq<Event>, capacity: nat, id: JobId)
    requires Good(s) && id in s.table.jobs
    ensures var after := Run(s, es, capacity).table;
            && id in after.jobs
            && (s.table.jobs[id].job.state != SCHEDULED ==> after.jobs[id] == s.table.jobs[id])
            && s.table.jobs[id].token <= after.jobs[id].token
            && (s.table.jobs[id].job.attempt < s.table.jobs[id].job.maxAttempts && after.jobs[id].job.state == SCHEDULED
                ==> after.jobs[id].job.attempt < after.jobs[id].job.maxAttempts)
  {
    hide Run, Good;
    RunGood(s, es, capacity);
    assert Moves(s.table.jobs[id], Run(s, es, capacity).table.jobs[id], s.table.issued);
  }

  /** A claim settles its job at most once: after a settlement with it, every later use of it is stale. */
  lemma SettlesOnce(s: System, c: Claim, e: Event, es: seq<Event>, capacity: nat, d: Decision, runAt: int)
    requires Good(s) && Valid(s.table, c)
    requires e == SucceedWith(c, d) || e == RetryAt(c, runAt) || e == Abort(c)
    requires e.SucceedWith? ==> |s.table.decisions| < capacity
    ensures var t := Run(Step(s, e, capacity), es, capacity).table;
            && !Valid(t, c)
            && Succeed(t, c, d, capacity) == (StaleClaim, t) && Retry(t, c, runAt) == (StaleClaim, t)
            && Terminate(t, c) == (StaleClaim, t)
  {
    hide Run, Good;
    ValidIsIssued(s, c);
    StepGood(s, e, capacity);
    var mid := Step(s, e, capacity);
    RunGood(mid, es, capacity);
    assert mid.table.jobs[c.job.id].claim.None? && mid.table.issued == s.table.issued;
    assert Moves(mid.table.jobs[c.job.id], Run(mid, es, capacity).table.jobs[c.job.id], mid.table.issued);
  }

  lemma ValidIsIssued(s: System, c: Claim)
    requires Good(s) && Valid(s.table, c)
    ensures c.claimId < s.table.issued
  {
  }

  /** A claim that was just issued: for a stored job, with its next token, which is now the stored one. */
  ghost predicate Issued(t: Table, after: Table, c: Claim) {
    && c.job.id in t.jobs && c.job.id in after.jobs
    && c.token == t.jobs[c.job.id].token + 1 == after.jobs[c.job.id].token && Valid(after, c)
  }

  /** A job that cannot be claimed is passed over. */
  lemma {:induction false} NotTaken(t: Table, ids: seq<JobId>, now: int, until: int, limit: nat, id: JobId)
    requires JobsGood(t) && id in t.jobs && !Eligible(t.jobs[id], now)
    ensures var (after, cs) := Take(t, ids, now, until, limit);
            id in after.jobs && after.jobs[id] == t.jobs[id] && forall c :: c in cs ==> c.job.id != id
    decreases |ids|
  {
    hide JobsGood, Eligible;
    if ids != [] && limit > 0 {
      if ids[0] in t.jobs && Eligible(t.jobs[ids[0]], now) {
        var u := t.(jobs := t.jobs[ids[0] := Stored(t.jobs[ids[0]].job, Some(Held(t.issued, until)),
                                                    t.jobs[ids[0]].token + 1)], issued := t.issued + 1);
        HoldGood(t, ids[0], now, until);
        GoodId(t, ids[0]);
        NotTaken(u, ids[1..], now, until, limit - 1, id);
      } else {
        NotTaken(t, ids[1..], now, until, limit, id);
      }
    }
  }

  lemma GoodId(t: Table, id: JobId)
    requires JobsGood(t) && id in t.jobs
    ensures t.jobs[id].job.id == id
  {
  }

  lemma {:induction false} TakenAreIssued(t: Table, ids: seq<JobId>, now: int, until: int, limit: nat, c: Claim)
    requires JobsGood(t) && now < until && c in Take(t, ids, now, until, limit).1
    ensures Issued(t, Take(t, ids, now, until, limit).0, c)
    decreases |ids|
  {
    hide JobsGood;
    if ids[0] in t.jobs && Eligible(t.jobs[ids[0]], now) {
      var held := Stored(t.jobs[ids[0]].job, Some(Held(t.issued, until)), t.jobs[ids[0]].token + 1);
      var u := t.(jobs := t.jobs[ids[0] := held], issued := t.issued + 1);
      HoldGood(t, ids[0], now, until);
      GoodId(t, ids[0]);
      NotTaken(u, ids[1..], now, until, limit - 1, ids[0]);
      if c in Take(u, ids[1..], now, until, limit - 1).1 { TakenAreIssued(u, ids[1..], now, until, limit - 1, c); }
    } else {
      TakenAreIssued(t, ids[1..], now, until, limit, c);
    }
  }

  /** The claims that a call issues. */
  function Claims(t: Table, now: int, limit: nat, ttl: nat): seq<Claim> {
    Take(t, JobOrder(t), now, now + ttl, limit).1
  }

  /** A claim carries the token that is then stored with its job and is the job's valid claim; and each claim
    * of a job carries a larger token than every claim of it before, whatever happened in between. */
  lemma TokensIncrease(s: System, now: int, limit: nat, ttl: nat, c: Claim, es: seq<Event>, capacity: nat,
                       later: int, limit': nat, ttl': nat, c': Claim)
    requires Good(s) && ttl > 0 && ttl' > 0
    requires c in Claims(s.table, now, limit, ttl)
    requires c' in Claims(Run(Step(s, ClaimJobs(now, limit, ttl), capacity), es, capacity).table, later, limit', ttl')
    ensures var mid := Run(Step(s, ClaimJobs(now, limit, ttl), capacity), es, capacity).table;
            && Issued(s.table, Step(s, ClaimJobs(now, limit, ttl), capacity).table, c)
            && Issued(mid, Take(mid, JobOrder(mid), later, later + ttl', limit').0, c')
            && (c.job.id == c'.job.id ==> c.token < c'.token)
  {
    hide Run, Take, DecisionsGood, SchedulesGood, CreatedGood, JobOrder;
    var after := Step(s, ClaimJobs(now, limit, ttl), capacity);
    TakenAreIssued(s.table, JobOrder(s.table), now, now + ttl, limit, c);
    StepGood(s, ClaimJobs(now, limit, ttl), capacity);
    RunGood(after, es, capacity);
    var mid := Run(after, es, capacity);
    assert JobsGood(mid.table);
    TakenAreIssued(mid.table, JobOrder(mid.table), later, later + ttl', limit', c');
    assert Moves(after.table.jobs[c.job.id], mid.table.jobs[c.job.id], after.table.issued);
  }

  /** A schedule that has come to a sequence has created all its occurrences up to there, none of them twice,
    * and one with a fixed interval then runs next at its origin plus that many intervals, whatever failed in
    * between. */
  lemma OccurrencesExactlyOnce(es: seq<Event>, capacity: nat, id: Str, k: nat)
    requires id in Run(EMPTY, es, capacity).table.schedules
    ensures var s := Run(EMPTY, es, capacity);
            && id in s.origins
            && var origin, schedule := s.origins[id], s.table.schedules[id];
            && (origin.sequence <= k < schedule.sequence ==> Occurrence(id, k) in s.table.jobs)
            && (schedule.kind.FixedInterval? ==>
                  schedule.nextRun == origin.nextRun + (schedule.sequence - origin.sequence) * schedule.kind.interval)
            && (forall i, j :: 0 <= i < j < |s.created| ==> s.created[i] != s.created[j])
  {
    hide Run, JobsGood, DecisionsGood, Evolves, Occurrence;
    EmptyGood();
    RunGood(EMPTY, es, capacity);
    var s := Run(EMPTY, es, capacity);
    assert ScheduleGood(s.table, s.origins[id], s.table.schedules[id]);
  }

  // ---------------------------------------------------------------- occurrence identifiers

  /** Two occurrences have the same identifier only if they are the same occurrence. */
  lemma OccurrenceIsFaithful(a: Str, m: nat, b: Str, n: nat)
    requires Occurrence(a, m) == Occurrence(b, n)
    ensures a == b && m == n
  {
    var id := Occurrence(a, m);
    var x, y := Decimal(m), Decimal(n);
    assert id[|a| + 1..] == x && id[|b| + 1..] == y && id[|a|] == id[|b|] == ':' as int;
    if |x| == |y| {
      assert id[..|a|] == a && id[..|b|] == b;
      DecimalNatural(m);
      DecimalNatural(n);
    }
  }
}
