/** Which jobs a claim takes and which occurrences a schedule creates, said by the stored jobs and schedules
  * alone, and what a retry postpones. */
module JobClaims {
  import opened Prelude
  import opened Text
  import opened JobTable
  import opened JobRuns

  // ---------------------------------------------------------------- the order of offers

  /** Earlier, or at once and first by identifier. */
  predicate Before(due: map<Str, int>, a: Str, b: Str) {
    a in due && b in due && (due[a] < due[b] || (due[a] == due[b] && LexLess(a, b)))
  }

  ghost predicate Ranked(due: map<Str, int>, ids: seq<Str>) {
    && (forall i :: 0 <= i < |ids| ==> ids[i] in due)
    && (forall i, j :: 0 <= i < j < |ids| ==> Before(due, ids[i], ids[j]))
  }

  function Keyed(due: map<Str, int>): set<Str> {
    set id | id in due :: [due[id]] + id
  }

  lemma {:induction false} TailAt(ks: seq<Str>, i: nat)
    requires i < |ks| && ks[i] != []
    ensures Tails(ks)[i] == ks[i][1..]
  {
    if i > 0 { TailAt(ks[1..], i - 1); }
  }

  lemma KeyedAt(due: map<Str, int>, i: nat)
    requires i < |Sorted(Keyed(due))|
    ensures var (k, id) := (Sorted(Keyed(due))[i], Tails(Sorted(Keyed(due)))[i]);
            id in due && k == [due[id]] + id
  {
    hide Sorted, Tails;
    var ks := Sorted(Keyed(due));
    assert ks[i] in Members(ks);
    var id :| id in due && ks[i] == [due[id]] + id;
    TailAt(ks, i);
    assert ks[i][1..] == id;
  }

  lemma KeysInOrder(due: map<Str, int>, a: Str, b: Str)
    requires a in due && b in due && LexLess([due[a]] + a, [due[b]] + b)
    ensures Before(due, a, b)
  {
    assert ([due[a]] + a)[1..] == a && ([due[b]] + b)[1..] == b;
  }

  /** Sorting by instant and then identifier ranks every identifier. */
  lemma OrderIsRanked(due: map<Str, int>)
    ensures var ids := Tails(Sorted(Keyed(due)));
            Ranked(due, ids) && forall id :: id in due ==> id in ids
  {
    hide Sorted, Tails, LexLess, Before, Keyed;
    var ks := Sorted(Keyed(due));
    var ids := Tails(ks);
    forall i | 0 <= i < |ids| ensures ids[i] in due { KeyedAt(due, i); }
    forall i, j | 0 <= i < j < |ids| ensures Before(due, ids[i], ids[j]) {
      KeyedAt(due, i);
      KeyedAt(due, j);
      assert LexLess(ks[i], ks[j]);
      KeysInOrder(due, ids[i], ids[j]);
    }
    forall id | id in due ensures id in ids { Offers(due, id); }
  }

  lemma Offers(due: map<Str, int>, id: Str)
    requires id in due
    ensures id in Tails(Sorted(Keyed(due)))
  {
    hide Sorted, Tails;
    var ks := Sorted(Keyed(due));
    assert [due[id]] + id in Members(ks);
    var i :| 0 <= i < |ks| && ks[i] == [due[id]] + id;
    TailAt(ks, i);
    assert ks[i][1..] == id;
    assert Tails(ks)[i] == id;
  }

  function RunTimes(t: Table): map<JobId, int> {
    map id | id in t.jobs :: t.jobs[id].job.runAt
  }

  lemma JobOrderRanked(t: Table)
    ensures Ranked(RunTimes(t), JobOrder(t)) && forall id :: id in t.jobs ==> id in JobOrder(t)
  {
    hide Sorted, Tails, Ranked;
    RunTimeKeys(t);
    OrderIsRanked(RunTimes(t));
  }

  lemma RunTimeKeys(t: Table)
    ensures Keyed(RunTimes(t)) == set id | id in t.jobs :: [t.jobs[id].job.runAt] + id
  {
    var (a, b) := (Keyed(RunTimes(t)), set id | id in t.jobs :: [t.jobs[id].job.runAt] + id);
    forall x ensures x in a <==> x in b {
      if x in a {
        var id :| id in RunTimes(t) && x == [RunTimes(t)[id]] + id;
        assert x == [t.jobs[id].job.runAt] + id;
      }
      if x in b {
        var id :| id in t.jobs && x == [t.jobs[id].job.runAt] + id;
        assert id in RunTimes(t) && x == [RunTimes(t)[id]] + id;
      }
    }
  }

  // ---------------------------------------------------------------- claims

  /** Still scheduled, its time has come, and under no claim that has not ended. */
  predicate Due(t: Table, id: JobId, now: int) {
    && id in t.jobs && t.jobs[id].job.state == SCHEDULED && t.jobs[id].job.runAt <= now
    && (t.jobs[id].claim.Some? ==> t.jobs[id].claim.value.until <= now)
  }

  function DueOf(t: Table, ids: seq<JobId>, now: int): seq<JobId> {
    if ids == [] then [] else (if Due(t, ids[0], now) then [ids[0]] else []) + DueOf(t, ids[1..], now)
  }

  lemma {:induction false} DueElsewhere(t: Table, u: Table, ids: seq<JobId>, now: int)
    requires forall id :: id in ids ==> Get(u.jobs, id) == Get(t.jobs, id)
    ensures DueOf(u, ids, now) == DueOf(t, ids, now)
  {
    if ids != [] {
      assert ids[0] in ids && Get(u.jobs, ids[0]) == Get(t.jobs, ids[0]);
      DueElsewhere(t, u, ids[1..], now);
    }
  }

  lemma {:induction false} DueRanked(t: Table, due: map<JobId, int>, ids: seq<JobId>, now: int)
    requires Ranked(due, ids)
    ensures Ranked(due, DueOf(t, ids, now))
    ensures forall id :: id in DueOf(t, ids, now) <==> id in ids && Due(t, id, now)
  {
    hide Due, Before;
    if ids != [] {
      assert Ranked(due, ids[1..]);
      DueRanked(t, due, ids[1..], now);
      var later := DueOf(t, ids[1..], now);
      assert ids == [ids[0]] + ids[1..];
      forall i | 0 <= i < |later| ensures Before(due, ids[0], later[i]) {
        assert later[i] in ids[1..];
        var j :| 0 <= j < |ids[1..]| && ids[1..][j] == later[i];
        assert ids[j + 1] == later[i];
      }
    }
  }

  /** A claim that is taken for a job as it is stored, with its next token. */
  ghost predicate ClaimOf(t: Table, c: Claim, id: JobId, until: int) {
    id in t.jobs && c.job == t.jobs[id].job && c.until == until && c.token == t.jobs[id].token + 1
  }

  ghost predicate AreFirst(t: Table, cs: seq<Claim>, ids: seq<JobId>, until: int, limit: nat) {
    && |cs| == (if limit < |ids| then limit else |ids|)
    && forall i :: 0 <= i < |cs| ==> ClaimOf(t, cs[i], ids[i], until)
  }

  lemma {:induction false} TakesFirst(t: Table, due: map<JobId, int>, ids: seq<JobId>, now: int, until: int, limit: nat)
    requires Ranked(due, ids)
    ensures AreFirst(t, Take(t, ids, now, until, limit).1, DueOf(t, ids, now), until, limit)
    decreases |ids|
  {
    hide Ranked, AreFirst, Due, Eligible;
    if ids == [] || limit == 0 {
      NoneFirst(t, DueOf(t, ids, now), until, limit);
    } else {
      DueIsEligible(t, ids[0], now);
      OthersDiffer(due, ids);
      if !Due(t, ids[0], now) {
        TakesFirst(t, due, ids[1..], now, until, limit);
        assert [] + DueOf(t, ids[1..], now) == DueOf(t, ids[1..], now);
      } else {
        var s := t.jobs[ids[0]];
        var u := t.(jobs := t.jobs[ids[0] := Stored(s.job, Some(Held(t.issued, until)), s.token + 1)],
                    issued := t.issued + 1);
        DueElsewhere(t, u, ids[1..], now);
        TakesFirst(u, due, ids[1..], now, until, limit - 1);
        DueAmong(t, ids[1..], now);
        OneMoreFirst(t, u, Claim(s.job, t.issued, until, s.token + 1), ids[0], Take(u, ids[1..], now, until, limit - 1).1,
                     DueOf(t, ids[1..], now), until, limit);
      }
    }
  }

  lemma NoneFirst(t: Table, ids: seq<JobId>, until: int, limit: nat)
    requires ids == [] || limit == 0
    ensures AreFirst(t, [], ids, until, limit)
  {
  }

  lemma DueIsEligible(t: Table, id: JobId, now: int)
    ensures Due(t, id, now) <==> id in t.jobs && Eligible(t.jobs[id], now)
  {
  }

  lemma OthersDiffer(due: map<JobId, int>, ids: seq<JobId>)
    requires Ranked(due, ids) && ids != []
    ensures Ranked(due, ids[1..]) && ids[0] !in ids[1..]
  {
    forall j | 0 <= j < |ids[1..]| ensures ids[1..][j] != ids[0] { assert Before(due, ids[0], ids[j + 1]); }
  }

  lemma {:induction false} DueAmong(t: Table, ids: seq<JobId>, now: int)
    ensures forall id :: id in DueOf(t, ids, now) ==> id in ids
  {
    if ids != [] { DueAmong(t, ids[1..], now); }
  }

  lemma OneMoreFirst(t: Table, u: Table, c: Claim, id: JobId, more: seq<Claim>, ids: seq<JobId>, until: int, limit: nat)
    requires limit > 0 && ClaimOf(t, c, id, until) && AreFirst(u, more, ids, until, limit - 1)
    requires id !in ids && forall x :: x != id ==> Get(u.jobs, x) == Get(t.jobs, x)
    ensures AreFirst(t, [c] + more, [id] + ids, until, limit)
  {
    forall i | 0 <= i < |more| ensures ClaimOf(t, more[i], ids[i], until) {
      assert ids[i] in ids && Get(u.jobs, ids[i]) == Get(t.jobs, ids[i]);
    }
  }

  ghost predicate Claimed(cs: seq<Claim>, id: JobId) {
    exists i :: 0 <= i < |cs| && cs[i].job.id == id
  }

  /** The jobs of two claims are in the order of offers. */
  ghost predicate Earlier(j: Job, k: Job) {
    j.runAt < k.runAt || (j.runAt == k.runAt && LexLess(j.id, k.id))
  }

  /** A claim takes exactly the first due jobs, at most limit, in the order of their times and then of their
    * identifiers, each as it is stored, with the next token of the job, until the end of the duration. */
  lemma ClaimsFirstDue(t: Table, now: int, limit: nat, ttl: nat)
    requires JobsGood(t)
    ensures var cs := Claims(t, now, limit, ttl);
            && |cs| <= limit
            && (forall i :: 0 <= i < |cs| ==>
                  Due(t, cs[i].job.id, now) && ClaimOf(t, cs[i], cs[i].job.id, now + ttl))
            && (forall i, j :: 0 <= i < j < |cs| ==> Earlier(cs[i].job, cs[j].job))
            && (forall id :: Due(t, id, now) && !Claimed(cs, id) ==>
                  |cs| == limit && forall i :: 0 <= i < |cs| ==> Earlier(cs[i].job, t.jobs[id].job))
  {
    hide JobOrder, Take, JobsGood, Due, LexLess, Ranked;
    var (due, ids) := (RunTimes(t), DueOf(t, JobOrder(t), now));
    var cs := Claims(t, now, limit, ttl);
    JobOrderRanked(t);
    DueRanked(t, due, JobOrder(t), now);
    TakesFirst(t, due, JobOrder(t), now, now + ttl, limit);
    forall i | 0 <= i < |cs| ensures cs[i].job.id == ids[i] && Due(t, ids[i], now) {
      assert ClaimOf(t, cs[i], ids[i], now + ttl) && ids[i] in ids;
      GoodId(t, ids[i]);
    }
    forall i, j | 0 <= i < j < |ids| ensures ids[i] in t.jobs && ids[j] in t.jobs && Earlier(t.jobs[ids[i]].job, t.jobs[ids[j]].job) {
      RankedJobs(t, ids, i, j);
    }
    forall id | Due(t, id, now) ensures id in t.jobs { DueIsStored(t, id, now); }
    forall id | Due(t, id, now) && !Claimed(cs, id)
      ensures |cs| == limit && forall i :: 0 <= i < |cs| ==> Earlier(cs[i].job, t.jobs[id].job)
    {
      var k :| 0 <= k < |ids| && ids[k] == id;
      forall i | 0 <= i < |cs| ensures ids[i] != id {}
    }
  }

  lemma DueIsStored(t: Table, id: JobId, now: int)
    requires Due(t, id, now)
    ensures id in t.jobs
  {
  }

  lemma RankedJobs(t: Table, ids: seq<JobId>, i: nat, j: nat)
    requires JobsGood(t) && Ranked(RunTimes(t), ids) && i < j < |ids|
    ensures ids[i] in t.jobs && ids[j] in t.jobs && Earlier(t.jobs[ids[i]].job, t.jobs[ids[j]].job)
  {
    assert Before(RunTimes(t), ids[i], ids[j]);
  }

  // ---------------------------------------------------------------- retries

  /** When a job is due next, from the retries that were carried out on it. */
  function LastRun(s: System, es: seq<Event>, capacity: nat, id: JobId, runAt: int): int
    decreases |es|
  {
    if es == [] then runAt
    else LastRun(Step(s, es[0], capacity), es[1..], capacity, id, if Retries(s, es[0], id) then es[0].runAt else runAt)
  }

  /** How many retries, the one that ended the job included, were carried out on it. */
  function Attempts(s: System, es: seq<Event>, capacity: nat, id: JobId): nat
    decreases |es|
  {
    if es == [] then 0
    else (if Retries(s, es[0], id) || Exhausts(s, es[0], id) then 1 else 0)
         + Attempts(Step(s, es[0], capacity), es[1..], capacity, id)
  }

  predicate Retries(s: System, e: Event, id: JobId) {
    e.RetryAt? && e.claim.job.id == id && Retry(s.table, e.claim, e.runAt).0 == Retried
  }

  predicate Exhausts(s: System, e: Event, id: JobId) {
    e.RetryAt? && e.claim.job.id == id && Retry(s.table, e.claim, e.runAt).0 == Terminated
  }

  lemma {:induction false} TakeKeepsJobs(t: Table, ids: seq<JobId>, now: int, until: int, limit: nat, id: JobId)
    requires id in t.jobs
    ensures var u := Take(t, ids, now, until, limit).0; id in u.jobs && u.jobs[id].job == t.jobs[id].job
    decreases |ids|
  {
    hide Eligible;
    if ids != [] && limit > 0 {
      if ids[0] !in t.jobs || !Eligible(t.jobs[ids[0]], now) {
        TakeKeepsJobs(t, ids[1..], now, until, limit, id);
      } else {
        var s := t.jobs[ids[0]];
        var u := t.(jobs := t.jobs[ids[0] := Stored(s.job, Some(Held(t.issued, until)), s.token + 1)],
                    issued := t.issued + 1);
        TakeKeepsJobs(u, ids[1..], now, until, limit - 1, id);
      }
    }
  }

  lemma {:induction false} MaterializeKeepsJobs(t: Table, ids: seq<Str>, now: int, limit: nat, created: seq<JobId>,
                                                policy: Str -> Answer, capacity: nat, id: JobId)
    requires id in t.jobs
    ensures var u := Materialize(t, ids, now, limit, created, policy, capacity).1;
            id in u.jobs && u.jobs[id] == t.jobs[id]
    decreases |ids|
  {
    hide Occurrence;
    if ids != [] {
      if ids[0] !in t.schedules || |created| >= limit || !t.schedules[ids[0]].active || t.schedules[ids[0]].nextRun > now {
        MaterializeKeepsJobs(t, ids[1..], now, limit, created, policy, capacity, id);
      } else {
        var (s, k) := (t.schedules[ids[0]], Occurrence(ids[0], t.schedules[ids[0]].sequence));
        var u := WithOccurrence(t, k, s);
        var advanced := Advance(s, policy(ids[0]));
        if advanced.Some? {
          MaterializeKeepsJobs(u.(schedules := u.schedules[ids[0] := advanced.value]), ids[1..], now, limit,
                               if k in t.jobs then created else created + [k], policy, capacity, id);
        }
      }
    }
  }

  /** What an event does to a job's time and attempts. */
  ghost predicate RetriedBy(s: System, e: Event, u: Table, id: JobId)
    requires id in s.table.jobs
  {
    var j := s.table.jobs[id].job;
    && id in u.jobs && u.jobs[id].job.maxAttempts == j.maxAttempts && u.jobs[id].job.work == j.work
    && u.jobs[id].job.runAt == (if Retries(s, e, id) then e.runAt else j.runAt)
    && u.jobs[id].job.attempt == j.attempt + (if Retries(s, e, id) || Exhausts(s, e, id) then 1 else 0)
  }

  lemma OneRetry(s: System, c: Claim, runAt: int, id: JobId)
    requires id in s.table.jobs
    ensures RetriedBy(s, RetryAt(c, runAt), Retry(s.table, c, runAt).1, id)
  {
  }

  lemma NoRetry(s: System, e: Event, capacity: nat, id: JobId)
    requires id in s.table.jobs && !e.RetryAt? && id in Step(s, e, capacity).table.jobs
    requires var (j, k) := (s.table.jobs[id].job, Step(s, e, capacity).table.jobs[id].job);
             k.(state := j.state) == j
    ensures RetriedBy(s, e, Step(s, e, capacity).table, id)
  {
    hide Step;
  }

  lemma StepRetries(s: System, e: Event, capacity: nat, id: JobId)
    requires JobsGood(s.table) && id in s.table.jobs
    ensures RetriedBy(s, e, Step(s, e, capacity).table, id)
  {
    hide Take, Materialize, JobOrder, ScheduleOrder, RetriedBy, Retry, Full;
    match e
    case ClaimJobs(now, limit, ttl) =>
      TakeKeepsJobs(s.table, JobOrder(s.table), now, now + ttl, limit, id);
      NoRetry(s, e, capacity, id);
    case MaterializeAt(now, limit, policy) =>
      MaterializeKeepsJobs(s.table, ScheduleOrder(s.table), now, limit, [], policy, capacity, id);
      NoRetry(s, e, capacity, id);
    case RetryAt(c, runAt) => OneRetry(s, c, runAt, id);
    case _ => NoRetry(s, e, capacity, id);
  }

  lemma {:induction false} RunRetries(s: System, es: seq<Event>, capacity: nat, id: JobId)
    requires Good(s) && id in s.table.jobs
    ensures var (j, u) := (s.table.jobs[id].job, Run(s, es, capacity).table);
            && id in u.jobs && u.jobs[id].job.runAt == LastRun(s, es, capacity, id, j.runAt)
            && u.jobs[id].job.attempt == j.attempt + Attempts(s, es, capacity, id)
            && u.jobs[id].job.maxAttempts == j.maxAttempts && u.jobs[id].job.work == j.work
    decreases |es|
  {
    hide Good, Step, Retries, Exhausts, Evolves;
    if es != [] {
      GoodJobs(s);
      StepRetries(s, es[0], capacity, id);
      StepGood(s, es[0], capacity);
      RunRetries(Step(s, es[0], capacity), es[1..], capacity, id);
    }
  }

  lemma GoodJobs(s: System)
    requires Good(s)
    ensures JobsGood(s.table)
  {
  }

  /** Over any run a job keeps its work, its time and its attempts are those of the retries that were carried out on
    * it, no claim at a reading before that time takes it, and a retry with a valid claim ends the job exactly if no
    * attempt is left. */
  lemma RetryIsKept(s: System, es: seq<Event>, capacity: nat, id: JobId, now: int, limit: nat, ttl: nat, c: Claim,
                    at: int)
    requires Good(s) && id in s.table.jobs && c.job.id == id
    ensures var (j, u) := (s.table.jobs[id].job, Run(s, es, capacity).table);
            var runAt := LastRun(s, es, capacity, id, j.runAt);
            && id in u.jobs && u.jobs[id].job.runAt == runAt
            && u.jobs[id].job.attempt == j.attempt + Attempts(s, es, capacity, id)
            && u.jobs[id].job.maxAttempts == j.maxAttempts && u.jobs[id].job.work == j.work
            && (now < runAt ==> !Claimed(Claims(u, now, limit, ttl), id))
            && (Valid(u, c) ==>
                  Retry(u, c, at).0 ==
                  if j.attempt + Attempts(s, es, capacity, id) + 1 < j.maxAttempts then Retried else Terminated)
  {
    hide Good, Run, LastRun, Attempts, Claims, Evolves;
    RunRetries(s, es, capacity, id);
    RunGood(s, es, capacity);
    var u := Run(s, es, capacity).table;
    GoodJobs(Run(s, es, capacity));
    ClaimsFirstDue(u, now, limit, ttl);
  }

  // ---------------------------------------------------------------- settlements

  lemma {:induction false} MaterializeKeepsDecisions(t: Table, ids: seq<Str>, now: int, limit: nat, created: seq<JobId>,
                                                     policy: Str -> Answer, capacity: nat)
    ensures Materialize(t, ids, now, limit, created, policy, capacity).1.decisions == t.decisions
    decreases |ids|
  {
    hide Occurrence;
    if ids != [] {
      if ids[0] !in t.schedules || |created| >= limit || !t.schedules[ids[0]].active || t.schedules[ids[0]].nextRun > now {
        MaterializeKeepsDecisions(t, ids[1..], now, limit, created, policy, capacity);
      } else {
        var (s, k) := (t.schedules[ids[0]], Occurrence(ids[0], t.schedules[ids[0]].sequence));
        var u := WithOccurrence(t, k, s);
        var advanced := Advance(s, policy(ids[0]));
        if advanced.Some? {
          MaterializeKeepsDecisions(u.(schedules := u.schedules[ids[0] := advanced.value]), ids[1..], now, limit,
                                    if k in t.jobs then created else created + [k], policy, capacity);
        }
      }
    }
  }

  lemma StepAppends(s: System, e: Event, capacity: nat)
    ensures s.table.decisions <= Step(s, e, capacity).table.decisions
  {
    hide Take, Materialize, JobOrder, ScheduleOrder;
    match e
    case ClaimJobs(now, limit, ttl) => TakeEvolves(s.table, JobOrder(s.table), now, now + ttl, limit);
    case MaterializeAt(now, limit, policy) =>
      MaterializeKeepsDecisions(s.table, ScheduleOrder(s.table), now, limit, [], policy, capacity);
    case _ =>
  }

  lemma {:induction false} RunAppends(s: System, es: seq<Event>, capacity: nat)
    ensures s.table.decisions <= Run(s, es, capacity).table.decisions
    decreases |es|
  {
    hide Step;
    if es != [] {
      StepAppends(s, es[0], capacity);
      RunAppends(Step(s, es[0], capacity), es[1..], capacity);
    }
  }

  /** A job or a schedule that was added is stored as it was given; a success with a valid claim, while there is
    * room, leaves its job succeeded and its decision recorded for ever; and an abortion with a valid claim leaves
    * its job ended for ever, without a decision. */
  lemma SettlementIsKept(s: System, e: Event, es: seq<Event>, capacity: nat)
    requires Good(s)
    ensures var (before, mid, u) := (s.table, Step(s, e, capacity).table, Run(Step(s, e, capacity), es, capacity).table);
            match e
            case AddJob(j) =>
              if j.id in before.jobs || Full(before, capacity) then mid == before
              else Get(mid.jobs, j.id) == Some(Stored(j, None, 0)) && j.id in u.jobs
            case SucceedWith(c, d) =>
              if !Valid(before, c) || |before.decisions| >= capacity then mid == before
              else
                && c.job.id in u.jobs && u.jobs[c.job.id].job.state == SUCCEEDED
                && before.decisions + [Recorded(c.job.id, d)] <= u.decisions
            case Abort(c) =>
              if !Valid(before, c) then mid == before
              else c.job.id in u.jobs && u.jobs[c.job.id].job.state == TERMINAL && mid.decisions == before.decisions
            case StartSchedule(x) =>
              if x.id in before.schedules || Full(before, capacity) then mid == before
              else mid == before.(schedules := before.schedules[x.id := x])
            case _ => true
  {
    hide Run, Good, Take, Materialize, JobOrder, ScheduleOrder, Full;
    var mid := Step(s, e, capacity);
    GoodJobs(s);
    StepGood(s, e, capacity);
    RunAppends(mid, es, capacity);
    RunGood(mid, es, capacity);
    match e
    case AddJob(j) =>
      if j.id in mid.table.jobs { JobsOverRuns(mid, es, capacity, j.id); }
    case SucceedWith(c, _) =>
      if Valid(s.table, c) { JobsOverRuns(mid, es, capacity, c.job.id); }
    case Abort(c) =>
      if Valid(s.table, c) { JobsOverRuns(mid, es, capacity, c.job.id); }
    case _ =>
  }

  // ---------------------------------------------------------------- schedules

  function NextRuns(t: Table): map<Str, int> {
    map id | id in t.schedules :: t.schedules[id].nextRun
  }

  lemma ScheduleOrderRanked(t: Table)
    ensures Ranked(NextRuns(t), ScheduleOrder(t)) && forall id :: id in t.schedules ==> id in ScheduleOrder(t)
  {
    hide Sorted, Tails, Ranked;
    var (a, b) := (Keyed(NextRuns(t)), set id | id in t.schedules :: [t.schedules[id].nextRun] + id);
    forall x ensures x in a <==> x in b {
      if x in a {
        var id :| id in NextRuns(t) && x == [NextRuns(t)[id]] + id;
        assert x == [t.schedules[id].nextRun] + id;
      }
      if x in b {
        var id :| id in t.schedules && x == [t.schedules[id].nextRun] + id;
        assert id in NextRuns(t) && x == [NextRuns(t)[id]] + id;
      }
    }
    assert a == b;
    OrderIsRanked(NextRuns(t));
  }

  /** Active, and its time has come. */
  predicate Occurs(t: Table, id: Str, now: int) {
    id in t.schedules && t.schedules[id].active && t.schedules[id].nextRun <= now
  }

  /** The occurrence of a due schedule, as a new job of its work, due when the schedule was. */
  ghost predicate Made(t: Table, u: Table, id: Str, k: JobId, now: int) {
    && Occurs(t, id, now)
    && var s := t.schedules[id];
       && k == Occurrence(id, s.sequence) && k !in t.jobs
       && Get(u.jobs, k) == Some(Stored(Job(k, s.work, s.nextRun, s.maxAttempts, 0, SCHEDULED), None, 0))
  }

  /** The schedule one occurrence later: a single one is over, an interval is added, or the policy has answered
    * with a later instant or with none. */
  predicate Later(s: Schedule, after: Schedule, answer: Answer) {
    && after.sequence == s.sequence + 1
    && after == s.(sequence := after.sequence, nextRun := after.nextRun, active := after.active)
    && match s.kind
       case OneShot => !after.active && after.nextRun == s.nextRun
       case FixedInterval(interval) => after.active == s.active && after.nextRun == s.nextRun + interval
       case ConsumerPolicy =>
         if answer.NextRun? then after.active == s.active && after.nextRun == answer.at > s.nextRun
         else answer.NoMore? && !after.active && after.nextRun == s.nextRun
  }

  ghost predicate NewOnes(t: Table, u: Table, created: seq<JobId>, all: seq<JobId>, ids: seq<Str>, now: int) {
    && created <= all
    && forall i :: |created| <= i < |all| ==> MadeFor(t, u, ids, all[i], now)
  }

  ghost predicate MadeFor(t: Table, u: Table, ids: seq<Str>, k: JobId, now: int) {
    exists id :: id in ids && Made(t, u, id, k, now)
  }

  ghost predicate Advanced(t: Table, u: Table, ids: seq<Str>, now: int, policy: Str -> Answer) {
    forall id :: id in t.schedules ==>
      && id in u.schedules
      && (u.schedules[id] == t.schedules[id]
          || (id in ids && Occurs(t, id, now) && Later(t.schedules[id], u.schedules[id], policy(id))))
  }

  /** A due schedule that did not advance comes after all that did, when as many jobs were created as allowed. */
  ghost predicate Passed(t: Table, u: Table, due: map<Str, int>, ids: seq<Str>, now: int, full: bool) {
    forall id :: id in ids && Occurs(t, id, now) && Get(u.schedules, id) == Get(t.schedules, id) ==>
      full && forall x :: x in t.schedules && Get(u.schedules, x) != Get(t.schedules, x) ==> Before(due, x, id)
  }

  lemma {:induction false} MaterializeStops(t: Table, ids: seq<Str>, now: int, limit: nat, created: seq<JobId>,
                                            policy: Str -> Answer, capacity: nat)
    requires |created| >= limit
    ensures Materialize(t, ids, now, limit, created, policy, capacity) == (Materialized(created, false), t)
    decreases |ids|
  {
    if ids != [] { MaterializeStops(t, ids[1..], now, limit, created, policy, capacity); }
  }

  ghost predicate Outcome(t: Table, due: map<Str, int>, ids: seq<Str>, now: int, limit: nat, created: seq<JobId>,
                          policy: Str -> Answer, m: Materialized, u: Table)
  {
    && |m.created| <= limit && NewOnes(t, u, created, m.created, ids, now) && Advanced(t, u, ids, now, policy)
    && (!m.raised ==> Passed(t, u, due, ids, now, |m.created| == limit))
  }

  lemma {:induction false} MaterializeOutcome(t: Table, due: map<Str, int>, ids: seq<Str>, now: int, limit: nat,
                                              created: seq<JobId>, policy: Str -> Answer, capacity: nat)
    requires Ranked(due, ids) && |created| <= limit
    ensures var (m, u) := Materialize(t, ids, now, limit, created, policy, capacity);
            Outcome(t, due, ids, now, limit, created, policy, m, u)
    decreases |ids|
  {
    hide Outcome, Ranked, Occurrence, Advance, Full;
    if |created| == limit {
      MaterializeStops(t, ids, now, limit, created, policy, capacity);
      NothingMade(t, due, ids, now, limit, created, policy, true);
    } else if ids == [] {
      NothingMade(t, due, ids, now, limit, created, policy, false);
    } else {
      OthersDiffer(due, ids);
      var (m, u) := Materialize(t, ids, now, limit, created, policy, capacity);
      if !Occurs(t, ids[0], now) {
        MaterializeOutcome(t, due, ids[1..], now, limit, created, policy, capacity);
        NotMade(t, due, ids, now, limit, created, policy, m, u);
      } else {
        var s := t.schedules[ids[0]];
        var k := Occurrence(ids[0], s.sequence);
        var u0 := WithOccurrence(t, k, s);
        var made := if k in t.jobs then created else created + [k];
        var advanced := Advance(s, policy(ids[0]));
        if k !in t.jobs && Full(t, capacity) {
          RaisedOutcome(t, t, due, ids, now, limit, created, policy, created);
        } else if advanced.None? {
          RaisedOutcome(t, u0, due, ids, now, limit, created, policy, made);
        } else {
          var u1 := u0.(schedules := u0.schedules[ids[0] := advanced.value]);
          MaterializeOutcome(u1, due, ids[1..], now, limit, made, policy, capacity);
          KeepsMade(t, u1, ids, now, limit, made, policy, capacity);
          OneMade(t, u1, due, ids, now, limit, created, policy, m, u);
        }
      }
    }
  }

  lemma NothingMade(t: Table, due: map<Str, int>, ids: seq<Str>, now: int, limit: nat, created: seq<JobId>,
                    policy: Str -> Answer, full: bool)
    requires |created| <= limit && (full ==> |created| == limit) && (full || ids == [])
    ensures Outcome(t, due, ids, now, limit, created, policy, Materialized(created, false), t)
  {
  }

  lemma NotMade(t: Table, due: map<Str, int>, ids: seq<Str>, now: int, limit: nat, created: seq<JobId>,
                policy: Str -> Answer, m: Materialized, u: Table)
    requires ids != [] && !Occurs(t, ids[0], now)
    requires Outcome(t, due, ids[1..], now, limit, created, policy, m, u)
    ensures Outcome(t, due, ids, now, limit, created, policy, m, u)
  {
    hide Made, Later, Before, Occurs;
    assert ids == [ids[0]] + ids[1..];
    forall i | |created| <= i < |m.created| ensures MadeFor(t, u, ids, m.created[i], now) {
      assert MadeFor(t, u, ids[1..], m.created[i], now);
    }
  }

  /** What a failure leaves: perhaps a new job, and no schedule changed. */
  lemma RaisedOutcome(t: Table, u: Table, due: map<Str, int>, ids: seq<Str>, now: int, limit: nat, created: seq<JobId>,
                      policy: Str -> Answer, made: seq<JobId>)
    requires ids != [] && Occurs(t, ids[0], now) && |created| < limit
    requires var k := Occurrence(ids[0], t.schedules[ids[0]].sequence);
             && u.schedules == t.schedules
             && (made == created || (made == created + [k] && k !in t.jobs && u == WithOccurrence(t, k, t.schedules[ids[0]])))
    ensures Outcome(t, due, ids, now, limit, created, policy, Materialized(made, true), u)
  {
    hide Occurrence;
    if made != created {
      assert Made(t, u, ids[0], made[|created|], now);
    }
  }

  /** What was created stays as it was created. */
  lemma KeepsMade(t: Table, u1: Table, ids: seq<Str>, now: int, limit: nat, made: seq<JobId>, policy: Str -> Answer,
                  capacity: nat)
    requires ids != [] && Occurs(t, ids[0], now)
    requires var k := Occurrence(ids[0], t.schedules[ids[0]].sequence);
             u1.jobs == WithOccurrence(t, k, t.schedules[ids[0]]).jobs
    ensures var k := Occurrence(ids[0], t.schedules[ids[0]].sequence);
            var u := Materialize(u1, ids[1..], now, limit, made, policy, capacity).1;
            k !in t.jobs ==> Made(t, u, ids[0], k, now)
    ensures forall k :: k in t.jobs ==> k in u1.jobs
  {
    hide Materialize, Occurrence;
    var k := Occurrence(ids[0], t.schedules[ids[0]].sequence);
    MaterializeKeepsJobs(u1, ids[1..], now, limit, made, policy, capacity, k);
  }

  lemma OneMade(t: Table, u1: Table, due: map<Str, int>, ids: seq<Str>, now: int, limit: nat, created: seq<JobId>,
                policy: Str -> Answer, m: Materialized, u: Table)
    requires Ranked(due, ids) && ids != [] && ids[0] !in ids[1..] && Occurs(t, ids[0], now)
    requires forall k :: k in t.jobs ==> k in u1.jobs
    requires var s := t.schedules[ids[0]];
             var k := Occurrence(ids[0], s.sequence);
             && Advance(s, policy(ids[0])).Some?
             && u1.schedules == t.schedules[ids[0] := Advance(s, policy(ids[0])).value]
             && Outcome(u1, due, ids[1..], now, limit, if k in t.jobs then created else created + [k], policy, m, u)
             && (k !in t.jobs ==> Made(t, u, ids[0], k, now))
    ensures Outcome(t, due, ids, now, limit, created, policy, m, u)
  {
    hide Occurrence, Before;
    var s := t.schedules[ids[0]];
    assert Later(s, u1.schedules[ids[0]], policy(ids[0]));
    assert ids == [ids[0]] + ids[1..];
    NewOnesToo(t, u1, u, created, m.created, ids, now);
    forall id | id in t.schedules
      ensures id in u.schedules
              && (u.schedules[id] == t.schedules[id]
                  || (id in ids && Occurs(t, id, now) && Later(t.schedules[id], u.schedules[id], policy(id))))
    {
      assert id in u1.schedules;
    }
    if !m.raised { PassedToo(t, u1, u, due, ids, now, |m.created| == limit); }
  }

  lemma NewOnesToo(t: Table, u1: Table, u: Table, created: seq<JobId>, all: seq<JobId>, ids: seq<Str>, now: int)
    requires ids != [] && ids[0] !in ids[1..] && Occurs(t, ids[0], now)
    requires forall k :: k in t.jobs ==> k in u1.jobs
    requires forall id :: id != ids[0] ==> Get(u1.schedules, id) == Get(t.schedules, id)
    requires var k := Occurrence(ids[0], t.schedules[ids[0]].sequence);
             && NewOnes(u1, u, if k in t.jobs then created else created + [k], all, ids[1..], now)
             && (k !in t.jobs ==> Made(t, u, ids[0], k, now))
    ensures NewOnes(t, u, created, all, ids, now)
  {
    hide Occurrence;
    var k := Occurrence(ids[0], t.schedules[ids[0]].sequence);
    forall i | |created| <= i < |all| ensures MadeFor(t, u, ids, all[i], now) {
      if k !in t.jobs && i == |created| {
        assert ids[0] in ids && all[i] == k;
      } else {
        assert MadeFor(u1, u, ids[1..], all[i], now);
        var id :| id in ids[1..] && Made(u1, u, id, all[i], now);
        assert Get(u1.schedules, id) == Get(t.schedules, id);
        assert id in ids && Made(t, u, id, all[i], now);
      }
    }
  }

  lemma PassedToo(t: Table, u1: Table, u: Table, due: map<Str, int>, ids: seq<Str>, now: int, full: bool)
    requires Ranked(due, ids) && ids != [] && ids[0] !in ids[1..] && ids[0] in t.schedules
    requires forall id :: id != ids[0] ==> Get(u1.schedules, id) == Get(t.schedules, id)
    requires Get(u.schedules, ids[0]) != Get(t.schedules, ids[0])
    requires Passed(u1, u, due, ids[1..], now, full)
    ensures Passed(t, u, due, ids, now, full)
  {
    hide Before;
    forall id | id in ids && Occurs(t, id, now) && Get(u.schedules, id) == Get(t.schedules, id)
      ensures full && forall x :: x in t.schedules && Get(u.schedules, x) != Get(t.schedules, x) ==> Before(due, x, id)
    {
      var j :| 0 <= j < |ids| && ids[j] == id;
      assert j > 0 && ids[1..][j - 1] == id;
      assert Get(u1.schedules, id) == Get(t.schedules, id) && Occurs(u1, id, now);
      forall x | x in t.schedules && Get(u.schedules, x) != Get(t.schedules, x) ensures Before(due, x, id) {
        if x != ids[0] { assert Get(u1.schedules, x) == Get(t.schedules, x); }
      }
    }
  }

  /** A call creates occurrences of due schedules only, at most limit, each as a new job of the schedule's work;
    * every schedule stays or comes one occurrence further, and unless the call raised, a due schedule that
    * stayed comes after all that went on, when as many jobs were created as allowed. */
  lemma MaterializesDue(t: Table, now: int, limit: nat, policy: Str -> Answer, capacity: nat)
    ensures var (m, u) := Materialize(t, ScheduleOrder(t), now, limit, [], policy, capacity);
            && |m.created| <= limit
            && (forall i :: 0 <= i < |m.created| ==> MadeFor(t, u, ScheduleOrder(t), m.created[i], now))
            && (forall id :: id in t.schedules ==>
                  && id in u.schedules
                  && (u.schedules[id] == t.schedules[id]
                      || (Occurs(t, id, now) && Later(t.schedules[id], u.schedules[id], policy(id)))))
            && (!m.raised ==>
                  forall id :: Occurs(t, id, now) && Get(u.schedules, id) == Get(t.schedules, id) ==>
                    && |m.created| == limit
                    && forall x :: x in t.schedules && Get(u.schedules, x) != Get(t.schedules, x) ==>
                         Before(NextRuns(t), x, id))
  {
    hide Materialize, ScheduleOrder, Ranked, MadeFor, Later, Before;
    var ids := ScheduleOrder(t);
    ScheduleOrderRanked(t);
    MaterializeOutcome(t, NextRuns(t), ids, now, limit, [], policy, capacity);
  }
}
