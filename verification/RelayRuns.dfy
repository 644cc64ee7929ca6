/** The relay: rounds that claim messages, publish them concurrently and settle what the publisher reports.
  * Several relays share one outbox and one retry budget; clock readings may go back and forth. */
module RelayRuns {
  import opened Prelude
  import opened OutboxTable

  datatype Outcome = WasDelivered | WasRetried | WasFailed | WasDeferred | WasStale | WasUncertain

  datatype Tally = Tally(delivered: nat, retried: nat, failed: nat, deferred: nat, stale: nat, uncertain: nat) {
    function Plus(o: Outcome): Tally {
      match o
      case WasDelivered => this.(delivered := delivered + 1)
      case WasRetried => this.(retried := retried + 1)
      case WasFailed => this.(failed := failed + 1)
      case WasDeferred => this.(deferred := deferred + 1)
      case WasStale => this.(stale := stale + 1)
      case WasUncertain => this.(uncertain := uncertain + 1)
    }

    function Sum(): nat {
      delivered + retried + failed + deferred + stale + uncertain
    }
  }

  const NOTHING := Tally(0, 0, 0, 0, 0, 0)

  datatype Round = Round(claimed: nat, tally: Tally)

  /** A claim that its relay has not settled yet: still to be taken, or with the publisher. */
  datatype Live = Live(relay: nat, claim: Claim, publishing: bool)

  /** The shared outbox, the clock, the retry budget, the unsettled claims by identifier, the running rounds, and,
    * for the theorems alone, how many retries were ever recorded and the latest reading that the clock had. */
  datatype System = System(table: Table, clock: int, budget: nat, live: map<nat, Live>, rounds: map<nat, Round>,
                           retries: nat, latest: int)

  datatype Publication = Confirmed | Retryable | Rejected | Unknown

  datatype Config = Config(capacity: nat, size: Sizing, maxAttempts: nat)

  // ---------------------------------------------------------------- settling one claim

  function Unless(stale: bool, o: Outcome): Outcome {
    if stale then WasStale else o
  }

  datatype Settled = Settled(outcome: Outcome, table: Table, budget: nat)

  /** Before publishing: an ended claim or lost authority is stale, a round out of time defers; otherwise the
    * message is published. */
  function BeforePublish(t: Table, clock: int, budget: nat, c: Claim, authority: bool, inTime: bool): Option<Settled> {
    if c.until <= clock || !authority then Some(Settled(WasStale, t, budget))
    else if !inTime then
      var (r, after) := Defer(t, c, clock, clock);
      Some(Settled(Unless(r == Stale, WasDeferred), after, budget))
    else None
  }

  /** Whether a retry is scheduled: not past the round's deadline, and only out of the budget. */
  function Schedule(budget: nat, delay: nat, deadline: nat): (bool, nat) {
    if delay >= deadline || budget == 0 then (false, budget) else (true, budget - 1)
  }

  /** After publishing: what is recorded for each report of the publisher. */
  function AfterPublish(t: Table, budget: nat, c: Claim, p: Publication, authority: bool, at: int, delay: nat,
                        deadline: nat, maxAttempts: nat): Settled
  {
    if !authority then Settled(WasStale, t, budget)
    else if p.Unknown? then
      var (r, after) := MarkUncertain(t, c, at);
      Settled(Unless(r == Stale, WasUncertain), after, budget)
    else if p.Confirmed? then
      var (r, after) := Delivered(t, c, at);
      Settled(Unless(r == Stale, WasDelivered), after, budget)
    else if p.Retryable? && c.envelope.attempt + 1 < maxAttempts then
      var (scheduled, left) := Schedule(budget, delay, deadline);
      if scheduled then
        var (r, after) := Retry(t, c, at + delay, at);
        Settled(Unless(r == Stale, WasRetried), after, left)
      else
        var (r, after) := Defer(t, c, at + delay, at);
        Settled(Unless(r == Stale, WasDeferred), after, left)
    else
      var (r, after) := Failed(t, c, at);
      Settled(Unless(r == Stale, WasFailed), after, budget)
  }

  // ---------------------------------------------------------------- steps

  datatype Event =
    | Tick(reading: int)
    | AddMessage(envelope: Envelope)
    | ClaimRound(relay: nat, limit: nat, ttl: nat, maxBytes: nat)
    | Start(id: nat, authority: bool, inTime: bool)
    | Finish(id: nat, publication: Publication, authority: bool, at: int, delay: nat, deadline: nat)
    | Return(relay: nat)
    | Abort(relay: nat)
    | Resolve(message: MessageId, expectedAt: int, delivered: bool, availableAt: int, at: int)

  function WithLive(live: map<nat, Live>, relay: nat, cs: seq<Claim>): map<nat, Live>
    decreases |cs|
  {
    if cs == [] then live else WithLive(live[cs[0].id := Live(relay, cs[0], false)], relay, cs[1..])
  }

  function LiveOf(live: map<nat, Live>, relay: nat): set<nat> {
    set k | k in live && live[k].relay == relay
  }

  function Settle(s: System, k: nat, r: Settled): System
    requires k in s.live
  {
    var relay := s.live[k].relay;
    s.(table := r.table, budget := r.budget, live := s.live - {k},
       rounds := if relay in s.rounds
                 then s.rounds[relay := s.rounds[relay].(tally := s.rounds[relay].tally.Plus(r.outcome))] else s.rounds,
       retries := if r.outcome == WasRetried then s.retries + 1 else s.retries)
  }

  function ClaimStep(s: System, relay: nat, limit: nat, ttl: nat, maxBytes: nat, cfg: Config): System {
    if relay in s.rounds || limit == 0 || ttl == 0 then s
    else
      var (t, cs) := ClaimAll(s.table, s.clock, limit, ttl, Some(maxBytes), cfg.size);
      s.(table := t, live := WithLive(s.live, relay, cs), rounds := s.rounds[relay := Round(|cs|, NOTHING)])
  }

  function StartStep(s: System, k: nat, authority: bool, inTime: bool): System {
    if k !in s.live || s.live[k].publishing then s
    else
      var r := BeforePublish(s.table, s.clock, s.budget, s.live[k].claim, authority, inTime);
      if r.Some? then Settle(s, k, r.value) else s.(live := s.live[k := s.live[k].(publishing := true)])
  }

  function FinishStep(s: System, k: nat, p: Publication, authority: bool, at: int, delay: nat, deadline: nat,
                      cfg: Config)
    : System
  {
    if k !in s.live || !s.live[k].publishing then s
    else Settle(s, k, AfterPublish(s.table, s.budget, s.live[k].claim, p, authority, at, delay, deadline, cfg.maxAttempts))
  }

  function Without(live: map<nat, Live>, relay: nat): map<nat, Live> {
    map k | k in live && live[k].relay != relay :: live[k]
  }

  function Step(s: System, e: Event, cfg: Config): System {
    match e
    case Tick(reading) => s.(clock := reading, latest := if reading > s.latest then reading else s.latest)
    case AddMessage(envelope) => s.(table := Add(s.table, envelope, cfg.capacity).1)
    case ClaimRound(relay, limit, ttl, maxBytes) => ClaimStep(s, relay, limit, ttl, maxBytes, cfg)
    case Start(k, authority, inTime) => StartStep(s, k, authority, inTime)
    case Finish(k, p, authority, at, delay, deadline) => FinishStep(s, k, p, authority, at, delay, deadline, cfg)
    case Return(relay) => if LiveOf(s.live, relay) == {} then s.(rounds := s.rounds - {relay}) else s
    case Abort(relay) => s.(rounds := s.rounds - {relay}, live := Without(s.live, relay))
    case Resolve(id, expectedAt, delivered, availableAt, at) =>
      if s.table.uncertain.Keys <= s.table.items.Keys
      then s.(table := ResolveUncertain(s.table, id, expectedAt, delivered, availableAt, at).1) else s
  }

  function Run(s: System, es: seq<Event>, cfg: Config): System
    decreases |es|
  {
    if es == [] then s else Run(Step(s, es[0], cfg), es[1..], cfg)
  }

  // ---------------------------------------------------------------- the invariant

  ghost predicate HeldBy(t: Table, c: Claim) {
    && c.envelope.id in t.items
    && t.items[c.envelope.id].claim == Some(Held(c.id, c.until)) && t.items[c.envelope.id].envelope == c.envelope
  }

  /** An unsettled claim that had not ended by the latest reading is the claim of its item, which is as it was
    * claimed. */
  ghost predicate LiveGood(t: Table, latest: int, k: nat, l: Live) {
    && l.claim.id == k && k < t.issued
    && (l.claim.until > latest ==> HeldBy(t, l.claim))
    && (l.claim.envelope.id in t.items && t.items[l.claim.envelope.id].claim == Some(Held(k, l.claim.until))
        ==> t.items[l.claim.envelope.id].envelope == l.claim.envelope)
  }

  ghost predicate LivesGood(s: System) {
    forall k :: k in s.live ==> LiveGood(s.table, s.latest, k, s.live[k])
  }

  /** Every claim of a running round is counted in one outcome or still unsettled. */
  ghost predicate Balanced(s: System) {
    && (forall k :: k in s.live ==> s.live[k].relay in s.rounds)
    && (forall r :: r in s.rounds ==> s.rounds[r].claimed == s.rounds[r].tally.Sum() + |LiveOf(s.live, r)|)
  }

  ghost predicate Good(s: System) {
    s.clock <= s.latest && TableGood(s.table) && LivesGood(s) && Balanced(s)
  }

  // ---------------------------------------------------------------- settling keeps it

  /** What settling a claim does to the table: nothing, or it changes the item that the claim holds. */
  ghost predicate Settles(t: Table, after: Table, c: Claim) {
    || after == t
    || (&& c.envelope.id in t.items
        && var m := c.envelope.id;
           && t.items[m].claim == Some(Held(c.id, c.until)) && t.items[m].delivered.None? && t.items[m].failed.None?
           && after.issued == t.issued
           && m in after.items && after.items == t.items[m := after.items[m]]
           && after.items[m].claim.None? && after.items[m].envelope.id == t.items[m].envelope.id
           && (after.items[m].delivered.None? || after.items[m].failed.None?)
           && (after.uncertain == t.uncertain
               || (after.uncertain.Keys == t.uncertain.Keys + {m} && after.items[m].delivered.None?
                   && after.items[m].failed.None?)))
  }

  lemma BeforeSettles(t: Table, clock: int, budget: nat, c: Claim, authority: bool, inTime: bool)
    ensures var r := BeforePublish(t, clock, budget, c, authority, inTime);
            r.Some? ==> Settles(t, r.value.table, c) && r.value.budget == budget && r.value.outcome != WasRetried
  {
  }

  lemma AfterSettles(t: Table, budget: nat, c: Claim, p: Publication, authority: bool, at: int, delay: nat,
                     deadline: nat, maxAttempts: nat)
    ensures var r := AfterPublish(t, budget, c, p, authority, at, delay, deadline, maxAttempts);
            && Settles(t, r.table, c)
            && r.budget + (if r.outcome == WasRetried then 1 else 0) <= budget
  {
  }

  lemma SettlesTableGood(t: Table, after: Table, c: Claim)
    requires TableGood(t) && Settles(t, after, c)
    ensures TableGood(after)
  {
    forall id | id in after.items ensures ItemGood(after, id) { assert ItemGood(t, id); }
  }

  lemma SettlesLiveGood(t: Table, after: Table, c: Claim, latest: int, k: nat, l: Live)
    requires Settles(t, after, c) && LiveGood(t, latest, k, l) && k != c.id
    ensures LiveGood(after, latest, k, l)
  {
  }

  lemma LiveOfLess(live: map<nat, Live>, k: nat, relay: nat)
    requires k in live
    ensures |LiveOf(live - {k}, relay)| == |LiveOf(live, relay)| - if live[k].relay == relay then 1 else 0
  {
    if live[k].relay == relay {
      assert LiveOf(live, relay) == LiveOf(live - {k}, relay) + {k};
    } else {
      assert LiveOf(live, relay) == LiveOf(live - {k}, relay);
    }
  }

  lemma SettleBalanced(s: System, k: nat, r: Settled)
    requires Balanced(s) && k in s.live
    ensures Balanced(Settle(s, k, r))
  {
    var after := Settle(s, k, r);
    forall q | q in after.rounds
      ensures after.rounds[q].claimed == after.rounds[q].tally.Sum() + |LiveOf(after.live, q)|
    {
      LiveOfLess(s.live, k, q);
    }
  }

  lemma SettleGood(s: System, k: nat, r: Settled)
    requires Good(s) && k in s.live && Settles(s.table, r.table, s.live[k].claim)
    ensures Good(Settle(s, k, r))
  {
    hide TableGood, Settles, LiveGood, Balanced;
    var c := s.live[k].claim;
    SettlesTableGood(s.table, r.table, c);
    SettleBalanced(s, k, r);
    LiveId(s.table, s.latest, k, s.live[k]);
    forall j | j in s.live && j != k ensures LiveGood(r.table, s.latest, j, s.live[j]) {
      SettlesLiveGood(s.table, r.table, c, s.latest, j, s.live[j]);
    }
  }

  lemma LiveId(t: Table, latest: int, k: nat, l: Live)
    requires LiveGood(t, latest, k, l)
    ensures l.claim.id == k
  {
  }

  // ---------------------------------------------------------------- claiming keeps it

  lemma BatchLiveGood(t: Table, after: Table, cs: seq<Claim>, clock: int, until: int, latest: int, k: nat, l: Live)
    requires Batch(t, after, cs, clock, until) && LiveGood(t, latest, k, l) && clock <= latest
    ensures LiveGood(after, latest, k, l)
  {
    var m := l.claim.envelope.id;
    if m in t.items {
      assert Touched(t, after, cs, clock, m);
      if after.items[m] != t.items[m] && after.items[m].claim.Some? {
        var c :| c in cs && c.envelope.id == m && after.items[m].claim.value.claimId == c.id;
        assert Granted(t, after, c, clock, until);
      }
    }
  }

  lemma GrantedLiveGood(t: Table, after: Table, cs: seq<Claim>, clock: int, until: int, latest: int, relay: nat,
                        c: Claim)
    requires Batch(t, after, cs, clock, until) && c in cs
    ensures LiveGood(after, latest, c.id, Live(relay, c, false))
  {
    assert Granted(t, after, c, clock, until);
  }

  /** The unsettled claims after a round has claimed: the old ones, and the new ones of this relay. */
  lemma {:induction false} WithLiveIs(live: map<nat, Live>, relay: nat, cs: seq<Claim>)
    requires Numbered(cs) && forall c | c in cs :: c.id !in live
    ensures var after := WithLive(live, relay, cs);
            && (forall k :: k in live ==> k in after && after[k] == live[k])
            && (forall k :: k in after && k !in live ==> exists c :: c in cs && c.id == k && after[k] == Live(relay, c, false))
    decreases |cs|
  {
    hide Numbered;
    if cs != [] {
      var c := cs[0];
      var mid := live[c.id := Live(relay, c, false)];
      NewIds(live, cs, Live(relay, c, false));
      WithLiveIs(mid, relay, cs[1..]);
      assert c in cs;
      var after := WithLive(mid, relay, cs[1..]);
      assert after == WithLive(live, relay, cs);
      forall k | k in after && k !in live ensures exists d :: d in cs && d.id == k && after[k] == Live(relay, d, false) {
        if k != c.id {
          assert k !in mid;
          var d :| d in cs[1..] && d.id == k && after[k] == Live(relay, d, false);
          assert d in cs;
        }
      }
    }
  }

  lemma OneMoreLive(live: map<nat, Live>, k: nat, l: Live, r: nat)
    requires k !in live
    ensures |LiveOf(live[k := l], r)| == |LiveOf(live, r)| + if r == l.relay then 1 else 0
  {
    if r == l.relay {
      assert LiveOf(live[k := l], r) == LiveOf(live, r) + {k};
    } else {
      assert LiveOf(live[k := l], r) == LiveOf(live, r);
    }
  }

  lemma {:induction false} WithLiveCounts(live: map<nat, Live>, relay: nat, cs: seq<Claim>, r: nat)
    requires Numbered(cs) && forall c | c in cs :: c.id !in live
    ensures |LiveOf(WithLive(live, relay, cs), r)| == |LiveOf(live, r)| + if r == relay then |cs| else 0
    decreases |cs|
  {
    hide Numbered, LiveOf;
    if cs != [] {
      var l := Live(relay, cs[0], false);
      NewIds(live, cs, l);
      assert cs[0] in cs;
      OneMoreLive(live, cs[0].id, l, r);
      WithLiveCounts(live[cs[0].id := l], relay, cs[1..], r);
    }
  }

  lemma NewIds(live: map<nat, Live>, cs: seq<Claim>, l: Live)
    requires cs != [] && Numbered(cs) && forall c | c in cs :: c.id !in live
    ensures Numbered(cs[1..]) && forall c | c in cs[1..] :: c.id !in live[cs[0].id := l]
  {
    forall c | c in cs[1..] ensures c.id !in live[cs[0].id := l] {
      var i :| 0 <= i < |cs[1..]| && cs[1..][i] == c;
      assert cs[i + 1] == c && cs[0].id < cs[i + 1].id;
    }
  }

  lemma ClaimBalanced(s: System, relay: nat, t: Table, cs: seq<Claim>)
    requires Balanced(s) && relay !in s.rounds && Numbered(cs) && forall c | c in cs :: c.id !in s.live
    ensures Balanced(s.(table := t, live := WithLive(s.live, relay, cs), rounds := s.rounds[relay := Round(|cs|, NOTHING)]))
  {
    hide Numbered, WithLive, LiveOf;
    WithLiveIs(s.live, relay, cs);
    var after := WithLive(s.live, relay, cs);
    var rounds := s.rounds[relay := Round(|cs|, NOTHING)];
    NoneLive(s, relay);
    forall r | r in rounds ensures rounds[r].claimed == rounds[r].tally.Sum() + |LiveOf(after, r)| {
      WithLiveCounts(s.live, relay, cs, r);
    }
  }

  lemma NoneLive(s: System, relay: nat)
    requires Balanced(s) && relay !in s.rounds
    ensures LiveOf(s.live, relay) == {}
  {
  }

  lemma ClaimStepGood(s: System, relay: nat, limit: nat, ttl: nat, maxBytes: nat, cfg: Config)
    requires Good(s)
    ensures Good(ClaimStep(s, relay, limit, ttl, maxBytes, cfg))
  {
    hide TableGood, Batch, ClaimAll, LiveGood, Balanced, Numbered, WithLive;
    if relay !in s.rounds && limit > 0 && ttl > 0 {
      var (t, cs) := ClaimAll(s.table, s.clock, limit, ttl, Some(maxBytes), cfg.size);
      ClaimsAreBatch(s.table, s.clock, limit, ttl, Some(maxBytes), cfg.size);
      BatchGood(s.table, t, cs, s.clock, s.clock + ttl);
      BatchIsNew(s, t, cs, s.clock + ttl);
      ClaimBalanced(s, relay, t, cs);
      WithLiveIs(s.live, relay, cs);
      var after := WithLive(s.live, relay, cs);
      forall k | k in after ensures LiveGood(t, s.latest, k, after[k]) {
        if k in s.live {
          BatchLiveGood(s.table, t, cs, s.clock, s.clock + ttl, s.latest, k, s.live[k]);
        } else {
          var c :| c in cs && c.id == k && after[k] == Live(relay, c, false);
          GrantedLiveGood(s.table, t, cs, s.clock, s.clock + ttl, s.latest, relay, c);
        }
      }
    }
  }

  lemma BatchIsNew(s: System, t: Table, cs: seq<Claim>, until: int)
    requires LivesGood(s) && Batch(s.table, t, cs, s.clock, until)
    ensures Numbered(cs) && forall c | c in cs :: c.id !in s.live
  {
    forall k | k in s.live ensures k < s.table.issued { assert LiveGood(s.table, s.latest, k, s.live[k]); }
    forall c | c in cs ensures c.id !in s.live { assert Granted(s.table, t, c, s.clock, until); }
  }

  // ---------------------------------------------------------------- every step keeps it

  lemma AddGood(s: System, e: Envelope, cfg: Config)
    requires Good(s)
    ensures Good(s.(table := Add(s.table, e, cfg.capacity).1))
  {
    hide Balanced;
    var t := Add(s.table, e, cfg.capacity).1;
    forall id | id in t.items ensures ItemGood(t, id) { if id in s.table.items { assert ItemGood(s.table, id); } }
    BalancedTable(s, t);
    forall k | k in s.live ensures LiveGood(t, s.latest, k, s.live[k]) { assert LiveGood(s.table, s.latest, k, s.live[k]); }
  }

  lemma BalancedTable(s: System, t: Table)
    requires Balanced(s)
    ensures Balanced(s.(table := t))
  {
  }

  lemma ResolveGood(s: System, id: MessageId, expectedAt: int, delivered: bool, availableAt: int, at: int)
    requires Good(s) && s.table.uncertain.Keys <= s.table.items.Keys
    ensures Good(s.(table := ResolveUncertain(s.table, id, expectedAt, delivered, availableAt, at).1))
  {
    hide Balanced;
    var t := ResolveUncertain(s.table, id, expectedAt, delivered, availableAt, at).1;
    BalancedTable(s, t);
    if id in s.table.uncertain { assert ItemGood(s.table, id); }
    forall i | i in t.items ensures ItemGood(t, i) { assert ItemGood(s.table, i); }
    forall k | k in s.live ensures LiveGood(t, s.latest, k, s.live[k]) { assert LiveGood(s.table, s.latest, k, s.live[k]); }
  }

  lemma StartGood(s: System, k: nat, authority: bool, inTime: bool)
    requires Good(s)
    ensures Good(StartStep(s, k, authority, inTime))
  {
    hide TableGood, Settles, LiveGood, Balanced, Settle, BeforePublish;
    if k in s.live && !s.live[k].publishing {
      BeforeSettles(s.table, s.clock, s.budget, s.live[k].claim, authority, inTime);
      var r := BeforePublish(s.table, s.clock, s.budget, s.live[k].claim, authority, inTime);
      if r.Some? {
        SettleGood(s, k, r.value);
      } else {
        PublishingGood(s, k);
      }
    }
  }

  lemma PublishingGood(s: System, k: nat)
    requires Good(s) && k in s.live
    ensures Good(s.(live := s.live[k := s.live[k].(publishing := true)]))
  {
    hide TableGood;
    var after := s.live[k := s.live[k].(publishing := true)];
    forall j | j in after ensures LiveGood(s.table, s.latest, j, after[j]) {
      assert LiveGood(s.table, s.latest, j, s.live[j]);
    }
    forall r ensures LiveOf(after, r) == LiveOf(s.live, r) {}
  }

  lemma FinishGood(s: System, k: nat, p: Publication, authority: bool, at: int, delay: nat, deadline: nat, cfg: Config)
    requires Good(s)
    ensures Good(FinishStep(s, k, p, authority, at, delay, deadline, cfg))
  {
    hide TableGood, Settles, LiveGood, Balanced, Settle, AfterPublish;
    if k in s.live && s.live[k].publishing {
      AfterSettles(s.table, s.budget, s.live[k].claim, p, authority, at, delay, deadline, cfg.maxAttempts);
      SettleGood(s, k, AfterPublish(s.table, s.budget, s.live[k].claim, p, authority, at, delay, deadline, cfg.maxAttempts));
    }
  }

  lemma TickGood(s: System, reading: int)
    requires Good(s)
    ensures Good(s.(clock := reading, latest := if reading > s.latest then reading else s.latest))
  {
    hide TableGood;
    var latest := if reading > s.latest then reading else s.latest;
    forall k | k in s.live ensures LiveGood(s.table, latest, k, s.live[k]) {
      assert LiveGood(s.table, s.latest, k, s.live[k]);
    }
  }

  lemma ReturnGood(s: System, relay: nat)
    requires Good(s)
    ensures LiveOf(s.live, relay) == {} ==> Good(s.(rounds := s.rounds - {relay}))
    ensures Good(s.(rounds := s.rounds - {relay}, live := Without(s.live, relay)))
  {
    hide TableGood, LiveGood;
    if LiveOf(s.live, relay) == {} {
      forall k | k in s.live ensures s.live[k].relay != relay {
        assert s.live[k].relay == relay ==> k in LiveOf(s.live, relay);
      }
    }
    forall r | r != relay ensures LiveOf(Without(s.live, relay), r) == LiveOf(s.live, r) {}
  }

  lemma StepKeepsGood(s: System, e: Event, cfg: Config)
    requires Good(s)
    ensures Good(Step(s, e, cfg))
  {
    hide Good, ClaimStep, StartStep, FinishStep, Add, ResolveUncertain, Without, LiveOf;
    match e
    case Tick(reading) => TickGood(s, reading);
    case AddMessage(envelope) => AddGood(s, envelope, cfg);
    case ClaimRound(relay, limit, ttl, maxBytes) => ClaimStepGood(s, relay, limit, ttl, maxBytes, cfg);
    case Start(k, authority, inTime) => StartGood(s, k, authority, inTime);
    case Finish(k, p, authority, at, delay, deadline) => FinishGood(s, k, p, authority, at, delay, deadline, cfg);
    case Return(relay) => ReturnGood(s, relay);
    case Abort(relay) => ReturnGood(s, relay);
    case Resolve(id, expectedAt, delivered, availableAt, at) =>
      if s.table.uncertain.Keys <= s.table.items.Keys { ResolveGood(s, id, expectedAt, delivered, availableAt, at); }
  }

  lemma {:induction false} RunKeepsGood(s: System, es: seq<Event>, cfg: Config)
    requires Good(s)
    ensures Good(Run(s, es, cfg))
    decreases |es|
  {
    hide Good, Step;
    if es != [] {
      StepKeepsGood(s, es[0], cfg);
      RunKeepsGood(Step(s, es[0], cfg), es[1..], cfg);
    }
  }

  /** An empty outbox, at some time, with a retry allowance. */
  function Empty(clock: int, allowance: nat): System {
    System(Table(map[], map[], 0), clock, allowance, map[], map[], 0, clock)
  }

  lemma EmptyGood(clock: int, allowance: nat)
    ensures Good(Empty(clock, allowance))
  {
  }

  // ---------------------------------------------------------------- theorems

  /** Conservation: whatever a run does, each message is in exactly one phase, and each claim of a running
    * round is in exactly one counter or still unsettled; so a round that returns has counted every claim. */
  lemma Conservation(clock: int, allowance: nat, es: seq<Event>, cfg: Config, id: MessageId, relay: nat)
    ensures var s := Run(Empty(clock, allowance), es, cfg);
            && (id in s.table.items ==>
                  var item := s.table.items[id];
                  (PhaseOf(s.table, id) == DELIVERED <==> item.delivered.Some?)
                  && (PhaseOf(s.table, id) == FAILED <==> item.failed.Some?)
                  && (PhaseOf(s.table, id) == UNCERTAIN <==> id in s.table.uncertain)
                  && (PhaseOf(s.table, id) == CLAIMED <==> item.claim.Some?))
            && (relay in s.rounds ==>
                  s.rounds[relay].claimed == s.rounds[relay].tally.Sum() + |LiveOf(s.live, relay)|)
            && (relay in s.rounds && relay !in Step(s, Return(relay), cfg).rounds ==>
                  s.rounds[relay].claimed == s.rounds[relay].tally.Sum())
  {
    hide Run, LivesGood, ClaimsDistinct;
    EmptyGood(clock, allowance);
    RunKeepsGood(Empty(clock, allowance), es, cfg);
    var s := Run(Empty(clock, allowance), es, cfg);
    if id in s.table.items { assert ItemGood(s.table, id); }
  }

  /** A publication only ever starts under a claim that has not ended; and if it had not ended by the latest
    * reading of the clock either, for a message whose item holds that very claim: not for one that is
    * uncertain, delivered, failed, or claimed by another. */
  lemma PublishOnlyWhileHeld(s: System, k: nat, authority: bool, inTime: bool)
    requires Good(s) && k in s.live && !s.live[k].publishing
    ensures var after := StartStep(s, k, authority, inTime);
            k in after.live ==>
              && s.live[k].claim.until > s.clock && authority && inTime
              && (s.live[k].claim.until > s.latest ==>
                    && HeldBy(s.table, s.live[k].claim)
                    && PhaseOf(s.table, s.live[k].claim.envelope.id) == CLAIMED)
  {
    hide Good, StartStep, HeldBy, PhaseOf;
    StartsWhenItMay(s, k, authority, inTime);
    if s.live[k].claim.until > s.latest { HeldIsClaimed(s, k); }
  }

  /** Two unsettled claims on one message that had not ended by the latest reading are the same claim. */
  lemma ExclusiveClaims(s: System, j: nat, k: nat)
    requires Good(s) && j in s.live && k in s.live
    requires s.live[j].claim.envelope.id == s.live[k].claim.envelope.id
    requires s.live[j].claim.until > s.latest && s.live[k].claim.until > s.latest
    ensures j == k
  {
    assert LiveGood(s.table, s.latest, j, s.live[j]) && LiveGood(s.table, s.latest, k, s.live[k]);
  }

  /** What a settlement leaves behind: each outcome that a round counts is what the outbox then says of the
    * message, and a stale one changes nothing. */
  ghost predicate Recorded(t: Table, c: Claim, r: Settled, at: int, delay: nat) {
    var id := c.envelope.id;
    match r.outcome
    case WasStale => r.table == t
    case WasDelivered => id in r.table.items && PhaseOf(r.table, id) == DELIVERED && r.table.items[id].delivered == Some(at)
    case WasFailed => id in r.table.items && PhaseOf(r.table, id) == FAILED && r.table.items[id].failed == Some(at)
    case WasUncertain => id in r.table.items && PhaseOf(r.table, id) == UNCERTAIN && r.table.uncertain[id] == at
    case WasRetried =>
      && id in r.table.items && PhaseOf(r.table, id) == PENDING
      && r.table.items[id].envelope == c.envelope.(attempt := c.envelope.attempt + 1, availableAt := at + delay)
    case WasDeferred =>
      && id in r.table.items && PhaseOf(r.table, id) == PENDING
      && r.table.items[id].envelope == c.envelope.(availableAt := at + delay)
  }

  /** Whatever the publisher reports, what the round counts is what the outbox then says of the message; and it
    * counts a claim as stale exactly without authority, or when the claim is no longer the current one. */
  lemma OutcomeIsRecorded(s: System, k: nat, p: Publication, authority: bool, at: int, delay: nat, deadline: nat,
                          maxAttempts: nat)
    requires Good(s) && k in s.live
    ensures var c := s.live[k].claim;
            var r := AfterPublish(s.table, s.budget, c, p, authority, at, delay, deadline, maxAttempts);
            && Recorded(s.table, c, r, at, delay)
            && (r.outcome == WasStale <==> !authority || !Current(s.table, c, at))
  {
    hide ClaimsDistinct, Balanced;
    var c := s.live[k].claim;
    assert LiveGood(s.table, s.latest, k, s.live[k]);
    if c.envelope.id in s.table.items { assert ItemGood(s.table, c.envelope.id); }
  }

  /** Resolving an uncertain message with the time it became so decides between delivered and pending again;
    * with any other time, or when it is not uncertain, it changes nothing. */
  lemma ResolutionDecides(t: Table, id: MessageId, expectedAt: int, delivered: bool, availableAt: int, at: int)
    requires TableGood(t)
    ensures var (r, after) := ResolveUncertain(t, id, expectedAt, delivered, availableAt, at);
            if id in t.uncertain && t.uncertain[id] == expectedAt then
              && r == Applied && id in after.items
              && PhaseOf(after, id) == (if delivered then DELIVERED else PENDING)
              && after.items[id].envelope == t.items[id].envelope.(availableAt := availableAt)
              && (forall other :: other in t.items && other != id ==>
                    other in after.items && PhaseOf(after, other) == PhaseOf(t, other))
            else (r, after) == (Stale, t)
  {
    hide ClaimsDistinct;
    if id in t.uncertain { assert ItemGood(t, id); }
  }

  // ---------------------------------------------------------------- phases over runs

  /** The moves between phases: only a claimed message becomes delivered, failed or uncertain, only the
    * resolution of an uncertain message takes it out of doubt, and delivered and failed are final. */
  predicate Allowed(before: Phase, after: Phase, resolved: bool) {
    || after == before
    || (before == PENDING && after == CLAIMED)
    || before == CLAIMED
    || (before == UNCERTAIN && resolved && (after == PENDING || after == DELIVERED))
  }

  ghost predicate PhasesMove(t: Table, after: Table, resolved: set<MessageId>) {
    forall id :: id in t.items ==> id in after.items && Allowed(PhaseOf(t, id), PhaseOf(after, id), id in resolved)
  }

  lemma SettlesMoves(t: Table, after: Table, c: Claim)
    requires TableGood(t) && Settles(t, after, c)
    ensures PhasesMove(t, after, {})
  {
    forall id | id in t.items ensures id in after.items && Allowed(PhaseOf(t, id), PhaseOf(after, id), false) {
      assert ItemGood(t, id);
    }
  }

  lemma BatchMoves(t: Table, after: Table, cs: seq<Claim>, now: int, until: int)
    requires TableGood(t) && Batch(t, after, cs, now, until)
    ensures PhasesMove(t, after, {})
  {
    forall id | id in t.items ensures id in after.items && Allowed(PhaseOf(t, id), PhaseOf(after, id), false) {
      assert ItemGood(t, id) && Touched(t, after, cs, now, id);
    }
  }

  lemma ResolveMoves(t: Table, id: MessageId, expectedAt: int, delivered: bool, availableAt: int, at: int)
    requires TableGood(t)
    ensures PhasesMove(t, ResolveUncertain(t, id, expectedAt, delivered, availableAt, at).1, {id})
  {
    if id in t.uncertain { assert ItemGood(t, id); }
  }

  function Resolves(e: Event): set<MessageId> {
    if e.Resolve? then {e.message} else {}
  }

  lemma StepMoves(s: System, e: Event, cfg: Config)
    requires Good(s)
    ensures PhasesMove(s.table, Step(s, e, cfg).table, Resolves(e))
  {
    hide TableGood, LivesGood, Balanced, Batch, ClaimAll, Settles, BeforePublish, AfterPublish, ResolveUncertain,
         PhaseOf,
      WithLive, Without, LiveOf;
    match e
    case ClaimRound(relay, limit, ttl, maxBytes) =>
      if relay !in s.rounds && limit > 0 && ttl > 0 {
        ClaimsAreBatch(s.table, s.clock, limit, ttl, Some(maxBytes), cfg.size);
        var (t, cs) := ClaimAll(s.table, s.clock, limit, ttl, Some(maxBytes), cfg.size);
        BatchMoves(s.table, t, cs, s.clock, s.clock + ttl);
      }
    case Start(k, authority, inTime) =>
      if k in s.live {
        BeforeSettles(s.table, s.clock, s.budget, s.live[k].claim, authority, inTime);
        var r := BeforePublish(s.table, s.clock, s.budget, s.live[k].claim, authority, inTime);
        if r.Some? { SettlesMoves(s.table, r.value.table, s.live[k].claim); }
      }
    case Finish(k, p, authority, at, delay, deadline) =>
      if k in s.live {
        AfterSettles(s.table, s.budget, s.live[k].claim, p, authority, at, delay, deadline, cfg.maxAttempts);
        SettlesMoves(s.table, AfterPublish(s.table, s.budget, s.live[k].claim, p, authority, at, delay, deadline,
                                           cfg.maxAttempts).table, s.live[k].claim);
      }
    case Resolve(id, expectedAt, delivered, availableAt, at) =>
      ResolveMoves(s.table, id, expectedAt, delivered, availableAt, at);
    case AddMessage(envelope) => AddMoves(s.table, envelope, cfg.capacity);
    case _ =>
  }

  lemma AddMoves(t: Table, e: Envelope, capacity: nat)
    ensures PhasesMove(t, Add(t, e, capacity).1, {})
  {
  }

  /** No message is ever lost; delivered and failed messages stay so; an uncertain message stays uncertain, and
    * so is neither claimed nor published, in every run without its resolution. */
  lemma {:induction false} PhasesOverRuns(s: System, es: seq<Event>, cfg: Config, id: MessageId)
    requires Good(s) && id in s.table.items
    ensures var after := Run(s, es, cfg);
            && id in after.table.items
            && (PhaseOf(s.table, id) in {DELIVERED, FAILED} ==> PhaseOf(after.table, id) == PhaseOf(s.table, id))
            && ((PhaseOf(s.table, id) == UNCERTAIN && (forall e | e in es :: id !in Resolves(e)))
                ==> PhaseOf(after.table, id) == UNCERTAIN)
    decreases |es|
  {
    hide Good, Step, PhaseOf, Resolves;
    if es != [] {
      StepMoves(s, es[0], cfg);
      StepKeepsGood(s, es[0], cfg);
      PhasesOverRuns(Step(s, es[0], cfg), es[1..], cfg, id);
      assert es[0] in es && forall e | e in es[1..] :: e in es;
    }
  }

  /** A message that is in doubt, until someone resolves it, and one that was delivered or has failed, for ever:
    * a relay starts to publish it again exactly when it comes to an old claim in time and with authority, and its
    * clock lies before the end of that claim; but a reading had passed that end already. So none does whose clock
    * has not gone back. */
  lemma NeverSilentlyRepublished(s: System, es: seq<Event>, cfg: Config, id: MessageId, k: nat, authority: bool,
                                 inTime: bool)
    requires Good(s) && id in s.table.items && PhaseOf(s.table, id) in {UNCERTAIN, DELIVERED, FAILED}
    requires PhaseOf(s.table, id) == UNCERTAIN ==> forall e | e in es :: id !in Resolves(e)
    requires var after := Run(s, es, cfg);
             k in after.live && after.live[k].claim.envelope.id == id && !after.live[k].publishing
    ensures var after := Run(s, es, cfg);
            var until := after.live[k].claim.until;
            && until <= after.latest
            && (k in StartStep(after, k, authority, inTime).live <==> authority && inTime && after.clock < until)
            && (after.clock == after.latest ==> k !in StartStep(after, k, authority, inTime).live)
  {
    hide Run, Good, StartStep, PhaseOf, HeldBy, Resolves;
    RunKeepsGood(s, es, cfg);
    PhasesOverRuns(s, es, cfg, id);
    var after := Run(s, es, cfg);
    if after.live[k].claim.until > after.latest { HeldIsClaimed(after, k); }
    StartsWhenItMay(after, k, authority, inTime);
  }

  /** A claim that had not ended by the latest reading is the claim of its message. */
  lemma HeldIsClaimed(s: System, k: nat)
    requires Good(s) && k in s.live && s.live[k].claim.until > s.latest
    ensures HeldBy(s.table, s.live[k].claim) && PhaseOf(s.table, s.live[k].claim.envelope.id) == CLAIMED
  {
    hide ClaimsDistinct, Balanced;
    assert LiveGood(s.table, s.latest, k, s.live[k]);
    assert ItemGood(s.table, s.live[k].claim.envelope.id);
  }

  lemma StartsWhenItMay(s: System, k: nat, authority: bool, inTime: bool)
    requires k in s.live && !s.live[k].publishing
    ensures k in StartStep(s, k, authority, inTime).live <==> authority && inTime && s.clock < s.live[k].claim.until
  {
  }

  // ---------------------------------------------------------------- a clock that goes back

  lemma OneClaimStep(s: System, relay: nat, ttl: nat, id: MessageId, cfg: Config)
    requires s.table.items.Keys == {id} && s.table.uncertain == map[] && Ready(s.table.items[id], s.clock)
    requires s.table.items[id].envelope.id == id && relay !in s.rounds && ttl > 0
    ensures var e := s.table.items[id].envelope;
            var c := Claim(s.table.issued, e, s.clock + ttl);
            Step(s, ClaimRound(relay, 1, ttl, cfg.size(e.payload)), cfg)
            == s.(table := Grant(s.table, id, s.clock + ttl), live := s.live[c.id := Live(relay, c, false)],
                  rounds := s.rounds[relay := Round(1, NOTHING)])
  {
    hide ClaimAll, Grant;
    OneClaimed(s.table, id, s.clock, ttl, cfg.size);
    var c := Claim(s.table.issued, s.table.items[id].envelope, s.clock + ttl);
    var after := s.live[c.id := Live(relay, c, false)];
    assert [c][1..] == [] && WithLive(after, relay, []) == after;
  }

  /** Two relays have claimed one message, the second after the claim of the first had ended. */
  lemma ClaimedTwice(e: Envelope, allowance: nat, cfg: Config)
    requires e.availableAt <= 0 && cfg.capacity > 0
    ensures var bytes := cfg.size(e.payload);
            var s := Step(Step(Step(Step(Empty(0, allowance), AddMessage(e), cfg), ClaimRound(0, 1, 10, bytes), cfg),
                               Tick(20), cfg), ClaimRound(1, 1, 10, bytes), cfg);
            && s.table == Table(map[e.id := Item(e, Some(Held(1, 30)), None, None)], map[], 2)
            && s.live == map[0 := Live(0, Claim(0, e, 10), false), 1 := Live(1, Claim(1, e, 30), false)]
            && s.clock == s.latest == 20
  {
    hide ClaimAll, ClaimStep;
    var s1 := Step(Empty(0, allowance), AddMessage(e), cfg);
    assert s1.table == Table(map[e.id := Item(e, None, None, None)], map[], 0);
    OneClaimStep(s1, 0, 10, e.id, cfg);
    var s3 := Step(Step(s1, ClaimRound(0, 1, 10, cfg.size(e.payload)), cfg), Tick(20), cfg);
    assert s3.table == Table(map[e.id := Item(e, Some(Held(0, 10)), None, None)], map[], 1);
    OneClaimStep(s3, 1, 10, e.id, cfg);
  }

  /** The second relay is left in doubt, and then the clock goes back. */
  lemma InDoubt(s: System, e: Envelope, cfg: Config)
    requires s.table == Table(map[e.id := Item(e, Some(Held(1, 30)), None, None)], map[], 2)
    requires s.live == map[0 := Live(0, Claim(0, e, 10), false), 1 := Live(1, Claim(1, e, 30), false)]
    requires s.clock == s.latest == 20
    ensures var after := Step(Step(Step(s, Start(1, true, true), cfg), Finish(1, Unknown, true, 20, 0, 0), cfg),
                              Tick(5), cfg);
            && e.id in after.table.items && PhaseOf(after.table, e.id) == UNCERTAIN
            && after.clock == 5 && after.latest == 20
            && 0 in after.live && after.live[0] == Live(0, Claim(0, e, 10), false)
  {
  }

  /** The first relay claims a message and does not come to publish it before its claim ends; a second one claims
    * it and is left in doubt. If then the clock of the first goes back before the end of its claim, it publishes
    * the uncertain message, and nobody has resolved it. */
  lemma ClockBackRepublishes(e: Envelope, allowance: nat, cfg: Config)
    requires e.availableAt <= 0 && cfg.capacity > 0
    ensures var es := [AddMessage(e), ClaimRound(0, 1, 10, cfg.size(e.payload)), Tick(20),
                       ClaimRound(1, 1, 10, cfg.size(e.payload)), Start(1, true, true),
                       Finish(1, Unknown, true, 20, 0, 0), Tick(5)];
            var s := Run(Empty(0, allowance), es, cfg);
            && e.id in s.table.items && PhaseOf(s.table, e.id) == UNCERTAIN && s.clock < s.latest
            && 0 in s.live && s.live[0].claim.envelope.id == e.id && !s.live[0].publishing
            && var after := StartStep(s, 0, true, true);
               0 in after.live && after.live[0].publishing
  {
    hide Step, PhaseOf, Run;
    var s0 := Empty(0, allowance);
    ClaimedTwice(e, allowance, cfg);
    var round0, round1 := ClaimRound(0, 1, 10, cfg.size(e.payload)), ClaimRound(1, 1, 10, cfg.size(e.payload));
    var s4 := Step(Step(Step(Step(s0, AddMessage(e), cfg), round0, cfg), Tick(20), cfg), round1, cfg);
    InDoubt(s4, e, cfg);
    SevenSteps(s0, [AddMessage(e), round0, Tick(20), round1, Start(1, true, true),
                    Finish(1, Unknown, true, 20, 0, 0), Tick(5)], cfg);
  }

  lemma SevenSteps(s: System, es: seq<Event>, cfg: Config)
    requires |es| == 7
    ensures Run(s, es, cfg) == Step(Step(Step(Step(Step(Step(Step(
              s, es[0], cfg), es[1], cfg), es[2], cfg), es[3], cfg), es[4], cfg), es[5], cfg), es[6], cfg)
  {
    hide Step;
    var s2 := Step(Step(s, es[0], cfg), es[1], cfg);
    var s4 := Step(Step(s2, es[2], cfg), es[3], cfg);
    var s6 := Step(Step(s4, es[4], cfg), es[5], cfg);
    assert es[1..][1..] == es[2..] && es[2..][1..] == es[3..] && es[3..][1..] == es[4..];
    assert es[4..][1..] == es[5..] && es[5..][1..] == es[6..] && es[6..][1..] == [];
    assert Run(s, es, cfg) == Run(s2, es[2..], cfg);
    assert Run(s2, es[2..], cfg) == Run(s4, es[4..], cfg);
    assert Run(s4, es[4..], cfg) == Run(s6, es[6..], cfg);
    assert Run(s6, es[6..], cfg) == Run(Step(s6, es[6], cfg), [], cfg);
  }

  // ---------------------------------------------------------------- retries

  lemma StepSpends(s: System, e: Event, cfg: Config)
    ensures var after := Step(s, e, cfg);
            after.budget + after.retries <= s.budget + s.retries && s.retries <= after.retries
  {
    hide ClaimAll, BeforePublish, AfterPublish, ResolveUncertain, WithLive, Without, LiveOf, Settles, Add;
    match e
    case Start(k, authority, inTime) =>
      if k in s.live { BeforeSettles(s.table, s.clock, s.budget, s.live[k].claim, authority, inTime); }
    case Finish(k, p, authority, at, delay, deadline) =>
      if k in s.live { AfterSettles(s.table, s.budget, s.live[k].claim, p, authority, at, delay, deadline, cfg.maxAttempts); }
    case _ =>
  }

  /** All retries that all rounds of all relays ever record stay within the one allowance. */
  lemma {:induction false} RetriesWithinBudget(s: System, es: seq<Event>, cfg: Config)
    ensures Run(s, es, cfg).retries + Run(s, es, cfg).budget <= s.retries + s.budget
    decreases |es|
  {
    hide Step;
    if es != [] {
      StepSpends(s, es[0], cfg);
      RetriesWithinBudget(Step(s, es[0], cfg), es[1..], cfg);
    }
  }

  /** No message has been tried more often than the policy allows. */
  ghost predicate AttemptsBelow(t: Table, maximum: nat) {
    forall id :: id in t.items ==> t.items[id].envelope.attempt < maximum
  }

  lemma FinishAttempts(s: System, k: nat, p: Publication, authority: bool, at: int, delay: nat, deadline: nat,
                       cfg: Config)
    requires LivesGood(s) && k in s.live && AttemptsBelow(s.table, cfg.maxAttempts)
    ensures AttemptsBelow(AfterPublish(s.table, s.budget, s.live[k].claim, p, authority, at, delay, deadline,
                                       cfg.maxAttempts).table, cfg.maxAttempts)
  {
    assert LiveGood(s.table, s.latest, k, s.live[k]);
  }

  lemma ClaimAttempts(t: Table, after: Table, cs: seq<Claim>, now: int, until: int, maximum: nat)
    requires Batch(t, after, cs, now, until) && AttemptsBelow(t, maximum)
    ensures AttemptsBelow(after, maximum)
  {
    forall id | id in after.items ensures after.items[id].envelope.attempt < maximum {
      assert Touched(t, after, cs, now, id);
    }
  }

  lemma StartAttempts(s: System, k: nat, authority: bool, inTime: bool, maximum: nat)
    requires k in s.live && AttemptsBelow(s.table, maximum)
    ensures AttemptsBelow(StartStep(s, k, authority, inTime).table, maximum)
  {
  }

  lemma StepAttempts(s: System, e: Event, cfg: Config)
    requires Good(s) && AttemptsBelow(s.table, cfg.maxAttempts)
    requires e.AddMessage? ==> e.envelope.attempt < cfg.maxAttempts
    ensures AttemptsBelow(Step(s, e, cfg).table, cfg.maxAttempts)
  {
    hide TableGood, Batch, ClaimAll, LivesGood, Balanced, AfterPublish, WithLive, Without, LiveOf, StartStep;
    match e
    case ClaimRound(relay, limit, ttl, maxBytes) =>
      if relay !in s.rounds && limit > 0 && ttl > 0 {
        ClaimsAreBatch(s.table, s.clock, limit, ttl, Some(maxBytes), cfg.size);
        var (t, cs) := ClaimAll(s.table, s.clock, limit, ttl, Some(maxBytes), cfg.size);
        ClaimAttempts(s.table, t, cs, s.clock, s.clock + ttl, cfg.maxAttempts);
      }
    case Start(k, authority, inTime) => if k in s.live {
      StartAttempts(s, k, authority, inTime, cfg.maxAttempts);
    } else {
      StartNothing(s, k, authority, inTime);
    }
    case Finish(k, p, authority, at, delay, deadline) =>
      if k in s.live { FinishAttempts(s, k, p, authority, at, delay, deadline, cfg); }
    case _ =>
  }

  lemma StartNothing(s: System, k: nat, authority: bool, inTime: bool)
    requires k !in s.live
    ensures StartStep(s, k, authority, inTime) == s
  {
  }

  /** A message is never tried more often than the policy allows, however many relays and rounds there are. */
  lemma {:induction false} AttemptsStayBelow(s: System, es: seq<Event>, cfg: Config)
    requires Good(s) && AttemptsBelow(s.table, cfg.maxAttempts)
    requires forall e | e in es && e.AddMessage? :: e.envelope.attempt < cfg.maxAttempts
    ensures AttemptsBelow(Run(s, es, cfg).table, cfg.maxAttempts)
    decreases |es|
  {
    hide Good, Step, AttemptsBelow;
    if es != [] {
      assert es[0] in es && forall e | e in es[1..] :: e in es;
      StepAttempts(s, es[0], cfg);
      StepKeepsGood(s, es[0], cfg);
      AttemptsStayBelow(Step(s, es[0], cfg), es[1..], cfg);
    }
  }
}
