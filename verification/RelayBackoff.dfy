/** What the report of a publisher leads to, and that a message that was put back waits for its availability. */
module RelayBackoff {
  import opened Prelude
  import opened OutboxTable
  import opened OutboxClaims
  import opened RelayRuns

  // ---------------------------------------------------------------- the report decides

  /** What a settled publication leaves in the outbox, while its claim is current and authority lasts: a confirmed
    * message is delivered, one whose outcome is unknown is in doubt, and a rejected one has failed; a retryable one
    * waits for its delay while attempts remain, and has failed otherwise. It costs an attempt, and a unit of the
    * budget, exactly if the delay ends before the deadline of the round and the budget is not empty. */
  lemma ReportDecides(s: System, k: nat, p: Publication, at: int, delay: nat, deadline: nat, cfg: Config)
    requires Good(s) && k in s.live && s.live[k].publishing && Current(s.table, s.live[k].claim, at)
    ensures var c := s.live[k].claim;
            var after := FinishStep(s, k, p, true, at, delay, deadline, cfg);
            var id, again := c.envelope.id, p.Retryable? && c.envelope.attempt + 1 < cfg.maxAttempts;
            var counted := delay < deadline && s.budget > 0;
            && k !in after.live && id in after.table.items
            && var item := after.table.items[id];
               var phase := PhaseOf(after.table, id);
            && (p.Confirmed? ==> phase == DELIVERED && item.delivered == Some(at))
            && (p.Unknown? ==> phase == UNCERTAIN && after.table.uncertain[id] == at)
            && (p.Rejected? || (p.Retryable? && !again) ==> phase == FAILED && item.failed == Some(at))
            && (again ==>
                  && phase == PENDING && item.envelope.availableAt == at + delay
                  && item.envelope.attempt == c.envelope.attempt + (if counted then 1 else 0))
            && after.budget == s.budget - (if again && counted then 1 else 0)
            && after.retries == s.retries + (if again && counted then 1 else 0)
  {
    hide ClaimsDistinct, Balanced;
    assert LiveGood(s.table, s.latest, k, s.live[k]);
    assert ItemGood(s.table, s.live[k].claim.envelope.id);
  }

  /** Before publishing: a claim that has ended by the clock, or without authority, leaves the outbox alone; in a
    * round that is out of time the message is put back, available at once and without an attempt; and otherwise,
    * and only then, it is published. */
  lemma StartDecides(s: System, k: nat, authority: bool, inTime: bool)
    requires Good(s) && k in s.live && !s.live[k].publishing && Current(s.table, s.live[k].claim, s.clock)
    ensures var c := s.live[k].claim;
            var after := StartStep(s, k, authority, inTime);
            var id := c.envelope.id;
            if c.until <= s.clock || !authority then after.table == s.table && k !in after.live
            else if !inTime then
              && k !in after.live && id in after.table.items && PhaseOf(after.table, id) == PENDING
              && after.table.items[id].envelope == s.table.items[id].envelope.(availableAt := s.clock)
              && after.budget == s.budget
            else after == s.(live := s.live[k := s.live[k].(publishing := true)])
  {
    hide ClaimsDistinct, Balanced;
    assert LiveGood(s.table, s.latest, k, s.live[k]);
    assert ItemGood(s.table, s.live[k].claim.envelope.id);
  }

  // ---------------------------------------------------------------- waiting

  /** The message is in the outbox as it was put back: open, under no claim, and not available before an instant. */
  ghost predicate Waiting(t: Table, id: MessageId, e: Envelope, from: int) {
    id in t.items && t.items[id].claim.None? && t.items[id].envelope == e && e.availableAt >= from
  }

  /** No unsettled claim on the message is newer than the given number. */
  ghost predicate NoNewClaim(s: System, id: MessageId, issued: nat) {
    forall k :: k in s.live && s.live[k].claim.envelope.id == id ==> k < issued
  }

  predicate Before(e: Event, from: int, id: MessageId) {
    (e.Tick? ==> e.reading < from) && (e.Resolve? ==> e.message != id)
  }

  lemma SettledWaits(t: Table, after: Table, c: Claim, id: MessageId, e: Envelope, from: int)
    requires Waiting(t, id, e, from) && Settles(t, after, c)
    ensures Waiting(after, id, e, from)
  {
  }

  lemma ClaimWaits(s: System, relay: nat, limit: nat, ttl: nat, maxBytes: nat, cfg: Config, id: MessageId, e: Envelope,
                   from: int, issued: nat)
    requires Good(s) && Waiting(s.table, id, e, from) && NoNewClaim(s, id, issued) && s.clock < from
    ensures var after := ClaimStep(s, relay, limit, ttl, maxBytes, cfg);
            Waiting(after.table, id, e, from) && NoNewClaim(after, id, issued)
  {
    hide TableGood, LivesGood, Balanced, ClaimAll, Fitting, Numbered, WithLive, Claimed, Batch;
    if relay !in s.rounds && limit > 0 && ttl > 0 {
      var (t, cs) := ClaimAll(s.table, s.clock, limit, ttl, Some(maxBytes), cfg.size);
      ClaimsWhatFits(s.table, s.clock, limit, ttl, maxBytes, cfg.size);
      ClaimsAreBatch(s.table, s.clock, limit, ttl, Some(maxBytes), cfg.size);
      BatchIsNew(s, t, cs, s.clock + ttl);
      WithLiveIs(s.live, relay, cs);
      NoneClaimed(s.table, t, cs, s.clock, s.clock + ttl, id);
      var after := WithLive(s.live, relay, cs);
      forall k | k in after && after[k].claim.envelope.id == id ensures k < issued {
        assert k in s.live;
      }
    }
  }

  lemma NoneClaimed(t: Table, after: Table, cs: seq<Claim>, now: int, until: int, id: MessageId)
    requires Batch(t, after, cs, now, until) && !Due(t, id, now)
    ensures forall c :: c in cs ==> c.envelope.id != id
  {
    forall c | c in cs ensures c.envelope.id != id { assert Granted(t, after, c, now, until); }
  }

  lemma StepWaits(s: System, ev: Event, cfg: Config, id: MessageId, e: Envelope, from: int, issued: nat)
    requires Good(s) && Waiting(s.table, id, e, from) && NoNewClaim(s, id, issued) && s.clock < from
    requires Before(ev, from, id)
    ensures var after := Step(s, ev, cfg);
            Waiting(after.table, id, e, from) && NoNewClaim(after, id, issued) && after.clock < from
  {
    hide TableGood, LivesGood, Balanced, ClaimStep, Settles, BeforePublish, AfterPublish, WithLive, LiveOf, Waiting;
    match ev
    case Tick(_) =>
    case AddMessage(envelope) => AddWaits(s.table, envelope, cfg.capacity, id, e, from);
    case ClaimRound(relay, limit, ttl, maxBytes) =>
      ClaimWaits(s, relay, limit, ttl, maxBytes, cfg, id, e, from, issued);
      ClaimKeepsClock(s, relay, limit, ttl, maxBytes, cfg);
    case Start(k, authority, inTime) =>
      if k in s.live && !s.live[k].publishing {
        var r := BeforePublish(s.table, s.clock, s.budget, s.live[k].claim, authority, inTime);
        BeforeSettles(s.table, s.clock, s.budget, s.live[k].claim, authority, inTime);
        if r.Some? { SettledWaits(s.table, r.value.table, s.live[k].claim, id, e, from); }
      }
    case Finish(k, p, authority, at, delay, deadline) =>
      if k in s.live && s.live[k].publishing {
        AfterSettles(s.table, s.budget, s.live[k].claim, p, authority, at, delay, deadline, cfg.maxAttempts);
        SettledWaits(s.table, AfterPublish(s.table, s.budget, s.live[k].claim, p, authority, at, delay, deadline,
                                           cfg.maxAttempts).table, s.live[k].claim, id, e, from);
      }
    case Return(_) =>
    case Abort(_) =>
    case Resolve(other, expectedAt, delivered, availableAt, at) =>
      if s.table.uncertain.Keys <= s.table.items.Keys {
        ResolveWaits(s.table, other, expectedAt, delivered, availableAt, at, id, e, from);
      }
  }

  lemma ClaimKeepsClock(s: System, relay: nat, limit: nat, ttl: nat, maxBytes: nat, cfg: Config)
    ensures ClaimStep(s, relay, limit, ttl, maxBytes, cfg).clock == s.clock
  {
    hide ClaimAll;
  }

  lemma AddWaits(t: Table, envelope: Envelope, capacity: nat, id: MessageId, e: Envelope, from: int)
    requires Waiting(t, id, e, from)
    ensures Waiting(Add(t, envelope, capacity).1, id, e, from)
  {
  }

  lemma ResolveWaits(t: Table, other: MessageId, expectedAt: int, delivered: bool, availableAt: int, at: int,
                     id: MessageId, e: Envelope, from: int)
    requires Waiting(t, id, e, from) && t.uncertain.Keys <= t.items.Keys && other != id
    ensures Waiting(ResolveUncertain(t, other, expectedAt, delivered, availableAt, at).1, id, e, from)
  {
  }

  lemma {:induction false} RunWaits(s: System, es: seq<Event>, cfg: Config, id: MessageId, e: Envelope, from: int,
                                    issued: nat)
    requires Good(s) && Waiting(s.table, id, e, from) && NoNewClaim(s, id, issued) && s.clock < from
    requires forall ev :: ev in es ==> Before(ev, from, id)
    ensures var after := Run(s, es, cfg);
            Waiting(after.table, id, e, from) && NoNewClaim(after, id, issued)
    decreases |es|
  {
    hide Good, Waiting, NoNewClaim, Step, Before;
    if es != [] {
      assert es[0] in es && forall ev :: ev in es[1..] ==> ev in es;
      StepKeepsGood(s, es[0], cfg);
      StepWaits(s, es[0], cfg, id, e, from, issued);
      RunWaits(Step(s, es[0], cfg), es[1..], cfg, id, e, from, issued);
    }
  }

  // ---------------------------------------------------------------- theorem

  /** After a publication that is to be tried again, whether it cost an attempt or not, no relay claims the message at
    * a clock before the instant of the settlement plus the delay, whatever else happens: every unsettled claim on
    * it is one from before, and the message waits as it was put back. */
  lemma BackoffIsKept(s: System, k: nat, p: Publication, at: int, delay: nat, deadline: nat, es: seq<Event>,
                      cfg: Config)
    requires Good(s) && k in s.live && s.live[k].publishing && Current(s.table, s.live[k].claim, at)
    requires p.Retryable? && s.live[k].claim.envelope.attempt + 1 < cfg.maxAttempts
    requires s.clock < at + delay
    requires forall e :: e in es ==> Before(e, at + delay, s.live[k].claim.envelope.id)
    ensures var id := s.live[k].claim.envelope.id;
            var settled := FinishStep(s, k, p, true, at, delay, deadline, cfg);
            var after := Run(settled, es, cfg);
            && id in after.table.items && PhaseOf(after.table, id) == PENDING
            && after.table.items[id].envelope.availableAt == at + delay
            && (forall j :: j in after.live && after.live[j].claim.envelope.id == id ==> j < s.table.issued)
  {
    hide Run, FinishStep, LivesGood, Balanced, TableGood, PhaseOf;
    ReportDecides(s, k, p, at, delay, deadline, cfg);
    FinishGood(s, k, p, true, at, delay, deadline, cfg);
    FinishIsSettle(s, k, p, at, delay, deadline, cfg);
    var id := s.live[k].claim.envelope.id;
    var settled := FinishStep(s, k, p, true, at, delay, deadline, cfg);
    PendingIsOpen(settled.table, id);
    RunWaits(settled, es, cfg, id, settled.table.items[id].envelope, at + delay, s.table.issued);
    RunKeepsGood(settled, es, cfg);
    PhasesWhileWaiting(settled, es, cfg, id, settled.table.items[id].envelope, at + delay);
  }

  lemma FinishIsSettle(s: System, k: nat, p: Publication, at: int, delay: nat, deadline: nat, cfg: Config)
    requires Good(s) && k in s.live && s.live[k].publishing
    ensures var settled := FinishStep(s, k, p, true, at, delay, deadline, cfg);
            && settled.clock == s.clock && settled.live == s.live - {k}
            && forall j :: j in s.live ==> j < s.table.issued
  {
    hide Balanced, TableGood, AfterPublish;
    forall j | j in s.live ensures j < s.table.issued { assert LiveGood(s.table, s.latest, j, s.live[j]); }
  }

  lemma PendingIsOpen(t: Table, id: MessageId)
    requires id in t.items && PhaseOf(t, id) == PENDING
    ensures t.items[id].claim.None? && t.items[id].delivered.None? && t.items[id].failed.None? && id !in t.uncertain
  {
  }

  /** A waiting message stays pending: only a claim moves it on. */
  lemma {:induction false} PhasesWhileWaiting(s: System, es: seq<Event>, cfg: Config, id: MessageId, e: Envelope,
                                              from: int)
    requires Good(s) && Waiting(s.table, id, e, from) && s.clock < from && PhaseOf(s.table, id) == PENDING
    requires forall ev :: ev in es ==> Before(ev, from, id)
    ensures var after := Run(s, es, cfg);
            id in after.table.items && PhaseOf(after.table, id) == PENDING
    decreases |es|
  {
    hide Good, Step, Before, PhaseOf, Resolves;
    if es != [] {
      assert es[0] in es && forall ev :: ev in es[1..] ==> ev in es;
      StepKeepsGood(s, es[0], cfg);
      StepMoves(s, es[0], cfg);
      AnyNewClaim(s);
      StepWaits(s, es[0], cfg, id, e, from, Newest(s));
      StillPending(Step(s, es[0], cfg).table, id);
      PhasesWhileWaiting(Step(s, es[0], cfg), es[1..], cfg, id, e, from);
    }
  }

  ghost function Newest(s: System): nat {
    s.table.issued
  }

  lemma AnyNewClaim(s: System)
    requires Good(s)
    ensures forall id :: NoNewClaim(s, id, Newest(s))
  {
    hide TableGood, Balanced;
    forall j | j in s.live ensures j < s.table.issued { assert LiveGood(s.table, s.latest, j, s.live[j]); }
  }

  lemma StillPending(t: Table, id: MessageId)
    requires id in t.items && t.items[id].claim.None?
    ensures PhaseOf(t, id) != CLAIMED
  {
  }
}
