/** Consecutive failures of agents and the suspensions they cause in the pool. */
module FailureTracker {
  import opened AgentPools
  import opened Options

  const FAILURE_THRESHOLD: nat := 2
  const COOLDOWN_BASE_SECONDS: nat := 5 * 60
  const COOLDOWN_MAX_SECONDS: nat := 60 * 60
  const RATE_LIMIT_MIN_SECONDS: nat := 5

  /** The provider's `retry-after`: absent or not a finite number, or a number of seconds. */
  datatype RetryAfter = Unknown | Seconds(seconds: real)

  datatype Tracker = Tracker(failures: map<string, nat>, strikes: map<string, nat>, pool: Pool)

  function Count(counts: map<string, nat>, name: string): nat { if name in counts then counts[name] else 0 }

  function Power2(e: nat): nat { if e == 0 then 1 else 2 * Power2(e - 1) }

  function Min(a: int, b: int): int { if a <= b then a else b }

  function CooldownSeconds(strike: int): (c: nat)
    ensures 300 <= c <= 3600
    ensures strike <= 1 ==> c == 300
  {
    PowerPositive(if strike > 1 then strike - 1 else 0);
    Min(COOLDOWN_BASE_SECONDS * Power2(if strike > 1 then strike - 1 else 0), COOLDOWN_MAX_SECONDS)
  }

  lemma {:induction false} PowerPositive(e: nat)
    ensures Power2(e) >= 1
  {
    if e > 0 { PowerPositive(e - 1); }
  }

  function RateLimitSeconds(strike: nat, retryAfter: RetryAfter): (seconds: real)
    ensures retryAfter.Seconds? && 0.0 <= retryAfter.seconds < 5.0 ==> seconds == 5.0
    ensures retryAfter.Seconds? && 5.0 <= retryAfter.seconds <= 3600.0 ==> seconds == retryAfter.seconds
    ensures retryAfter.Seconds? && retryAfter.seconds > 3600.0 ==> seconds == 3600.0
    ensures retryAfter.Unknown? || retryAfter.seconds < 0.0 ==> seconds == CooldownSeconds(strike) as real
  {
    if retryAfter.Seconds? && retryAfter.seconds >= 0.0 then
      var floor := if retryAfter.seconds > RATE_LIMIT_MIN_SECONDS as real then retryAfter.seconds
                   else RATE_LIMIT_MIN_SECONDS as real;
      if floor < COOLDOWN_MAX_SECONDS as real then floor else COOLDOWN_MAX_SECONDS as real
    else CooldownSeconds(strike) as real
  }

  /** The cooldown doubles with every strike in a row until it reaches the ceiling. */
  lemma CooldownDoubles(strike: nat)
    requires strike >= 1
    ensures CooldownSeconds(1) == 300
    ensures CooldownSeconds(strike + 1) ==
      if 2 * CooldownSeconds(strike) < 3600 then 2 * CooldownSeconds(strike) else 3600
  {
    assert Power2(strike) == 2 * Power2(strike - 1);
  }

  // ---- Specification of the three records ----

  function RecordSuccess(t: Tracker, name: string): Tracker {
    if name == "" then t
    else Tracker(t.failures[name := 0], t.strikes[name := 0],
                 if name in t.pool.agents then Resume(t.pool, name) else t.pool)
  }

  function RecordFailure(t: Tracker, now: real, name: string): Tracker {
    if name == "" then t
    else
      var failures := Count(t.failures, name) + 1;
      var t' := t.(failures := t.failures[name := failures]);
      if failures >= FAILURE_THRESHOLD && name in t.pool.agents then
        var strikes := Count(t.strikes, name) + 1;
        t'.(strikes := t.strikes[name := strikes],
            pool := Suspend(t.pool, now, name, CooldownSeconds(strikes) as real, "failures"))
      else t'
  }

  function RecordRateLimited(t: Tracker, now: real, name: string, retryAfter: RetryAfter): Tracker {
    if name == "" || name !in t.pool.agents then t
    else
      var strikes := Count(t.strikes, name) + 1;
      t.(strikes := t.strikes[name := strikes],
         pool := Suspend(t.pool, now, name, RateLimitSeconds(strikes, retryAfter), "rate limit"))
  }

  // ---- The code ----

  /** Names arrive normalized; the empty name is ignored. Metrics, bug reports and task release
      are callbacks without effect on this state. */
  class AgentFailureTracker {
    var failures: map<string, nat>
    var strikes: map<string, nat>
    const pool: AgentPool

    function Model(): Tracker
      reads this, pool
    {
      Tracker(failures, strikes, pool.Model())
    }

    constructor (pool: AgentPool)
      ensures this.pool == pool && Model() == Tracker(map[], map[], pool.Model())
    {
      this.pool, failures, strikes := pool, map[], map[];
    }

    method Success(name: string)
      modifies this, pool
      ensures Model() == RecordSuccess(old(Model()), name)
      ensures failures == if name == "" then old(failures) else old(failures)[name := 0]
      ensures strikes == if name == "" then old(strikes) else old(strikes)[name := 0]
      ensures pool.suspended ==
        if name != "" && name in pool.agents then old(pool.suspended) - {name} else old(pool.suspended)
    {
      if name == "" {
        return;
      }
      failures := failures[name := 0];
      strikes := strikes[name := 0];
      if name in pool.agents {
        var _ := pool.ResumeAgent(name);
      }
    }

    method Failure(now: real, name: string) returns (cooldown: Option<nat>)
      modifies this, pool
      ensures Model() == RecordFailure(old(Model()), now, name)
      ensures failures == if name == "" then old(failures)
        else old(failures)[name := if name in old(failures) then old(failures)[name] + 1 else 1]
      ensures cooldown.Some? <==> name in failures && name != "" && failures[name] >= 2 && name in pool.agents
      ensures cooldown.None? ==> strikes == old(strikes) && pool.suspended == old(pool.suspended)
      ensures cooldown.Some? ==>
        && strikes == old(strikes)[name := if name in old(strikes) then old(strikes)[name] + 1 else 1]
        && cooldown.value == CooldownSeconds(strikes[name])
        && name in pool.suspended && pool.suspended[name].until >= now + cooldown.value as real
    {
      cooldown := None;
      if name == "" {
        return;
      }
      failures := failures[name := Count(failures, name) + 1];
      if failures[name] >= FAILURE_THRESHOLD && name in pool.agents {
        strikes := strikes[name := Count(strikes, name) + 1];
        cooldown := Some(CooldownSeconds(strikes[name]));
        var ok := pool.SuspendAgent(now, name, cooldown.value as real, "failures");
      }
    }

    method RateLimited(now: real, name: string, retryAfter: RetryAfter)
      modifies this, pool
      ensures Model() == RecordRateLimited(old(Model()), now, name, retryAfter)
      ensures failures == old(failures)
      ensures name == "" || name !in pool.agents ==> strikes == old(strikes) && pool.suspended == old(pool.suspended)
      ensures name != "" && name in pool.agents ==>
        && strikes == old(strikes)[name := if name in old(strikes) then old(strikes)[name] + 1 else 1]
        && name in pool.suspended
        && pool.suspended[name].until >= now + RateLimitSeconds(strikes[name], retryAfter)
    {
      if name == "" {
        return;
      }
      if name in pool.agents {
        strikes := strikes[name := Count(strikes, name) + 1];
        var ok := pool.SuspendAgent(now, name, RateLimitSeconds(strikes[name], retryAfter), "rate limit");
      }
    }
  }

  // ---- Runs in which the tracker is the only one that suspends ----

  datatype Event =
    | Succeeded(name: string)
    | Failed(name: string)
    | Limited(name: string, retryAfter: RetryAfter)
    | Asked                       // any call that looks at availability
    | Resumed(name: string)
    | Added(name: string)
    | Removed(name: string)

  datatype Timed = Timed(now: real, event: Event)

  function Record(t: Tracker, at: Timed): Tracker {
    match at.event
    case Succeeded(name) => RecordSuccess(t, name)
    case Failed(name) => RecordFailure(t, at.now, name)
    case Limited(name, retryAfter) => RecordRateLimited(t, at.now, name, retryAfter)
    case Asked => t.(pool := AfterTake(t.pool, at.now))
    case Resumed(name) => t.(pool := Resume(t.pool, name))
    case Added(name) => t.(pool := Add(t.pool, name))
    case Removed(name) => t.(pool := Remove(t.pool, name))
  }

  function Replay(t: Tracker, log: seq<Timed>): Tracker {
    if log == [] then t else Record(Replay(t, log[..|log| - 1]), log[|log| - 1])
  }

  predicate Monotone(start: real, log: seq<Timed>) {
    && (forall i :: 0 <= i < |log| ==> start <= log[i].now)
    && (forall i, j :: 0 <= i <= j < |log| ==> log[i].now <= log[j].now)
  }

  function Clock(start: real, log: seq<Timed>): real { if log == [] then start else log[|log| - 1].now }

  predicate Bounded(t: Tracker, now: real) { PoolBounded(t.pool, now) }

  predicate PoolBounded(p: Pool, now: real) {
    && (forall n :: n in p.suspended ==> p.suspended[n].until <= now + COOLDOWN_MAX_SECONDS as real)
    && (forall n :: n in p.suspended ==> n in p.agents)
  }

  lemma MoveKeepsNames(p: Pool, now: real)
    ensures forall a :: a in AfterTake(p, now).agents <==> a in p.agents
  {
    var q := DropExpired(p, now);
    var chosen := Pick(q).0;
    if chosen.Some? && chosen.value in p.agents {
      var i := IndexOf(p.agents, chosen.value);
      assert p.agents == p.agents[..i] + [p.agents[i]] + p.agents[i + 1..];
    }
  }

  lemma RemoveKeepsOthers(agents: seq<string>, name: string, a: string)
    requires a != name && a in agents
    ensures a in Without(agents, name)
  {
    if name in agents {
      var i := IndexOf(agents, name);
      assert agents == agents[..i] + [name] + agents[i + 1..];
    }
  }

  lemma SuspendKeepsBound(p: Pool, before: real, now: real, name: string, seconds: real, reason: string)
    requires PoolBounded(p, before) && before <= now && seconds <= COOLDOWN_MAX_SECONDS as real && name in p.agents
    ensures PoolBounded(Suspend(p, now, name, seconds, reason), now)
  {}

  lemma RecordKeepsBound(t: Tracker, before: real, at: Timed)
    requires PoolBounded(t.pool, before) && before <= at.now
    requires at.event.Succeeded? || at.event.Failed? || at.event.Limited?
    ensures PoolBounded(Record(t, at).pool, at.now)
  {
    var name, strikes := at.event.name, Count(t.strikes, at.event.name) + 1;
    if name in t.pool.agents {
      SuspendKeepsBound(t.pool, before, at.now, name, CooldownSeconds(strikes) as real, "failures");
      if at.event.Limited? {
        SuspendKeepsBound(t.pool, before, at.now, name, RateLimitSeconds(strikes, at.event.retryAfter), "rate limit");
      }
    }
  }

  lemma EventKeepsBound(t: Tracker, before: real, at: Timed)
    requires Bounded(t, before) && before <= at.now
    ensures Bounded(Record(t, at), at.now)
  {
    match at.event
    case Asked => MoveKeepsNames(t.pool, at.now);
    case Removed(name) =>
      forall n | n in t.pool.suspended && n != name ensures n in Without(t.pool.agents, name) {
        RemoveKeepsOthers(t.pool.agents, name, n);
      }
    case Resumed(_) =>
    case Added(_) =>
    case _ => RecordKeepsBound(t, before, at);
  }

  lemma {:induction false} RunKeepsBound(t: Tracker, start: real, log: seq<Timed>)
    requires Bounded(t, start) && Monotone(start, log)
    ensures Bounded(Replay(t, log), Clock(start, log))
  {
    if log != [] {
      var init := log[..|log| - 1];
      RunKeepsBound(t, start, init);
      EventKeepsBound(Replay(t, init), Clock(start, init), log[|log| - 1]);
    }
  }

  /** At every moment of every run each suspension ends within an hour and is of a member. */
  lemma DeadlinesAreBounded(t: Tracker, start: real, log: seq<Timed>, name: string)
    requires Bounded(t, start) && Monotone(start, log) && name in Replay(t, log).pool.suspended
    ensures name in Replay(t, log).pool.agents
    ensures Replay(t, log).pool.suspended[name].until <=
      (if log == [] then start else log[|log| - 1].now) + 3600.0
  {
    RunKeepsBound(t, start, log);
  }

  /** A deadline never moves earlier: after an event that is neither a success, a resumption nor a
      removal of `name`, its suspension stands with the same or a later deadline, or it had run out. */
  lemma DeadlinesNeverMoveEarlier(t: Tracker, at: Timed, name: string)
    requires name in t.pool.suspended
    requires at.event !in {Succeeded(name), Resumed(name), Removed(name)}
    ensures var after := Record(t, at).pool.suspended;
      if name in after then t.pool.suspended[name].until <= after[name].until
      else at.event == Asked && t.pool.suspended[name].until <= at.now
  {}

  predicate Lifts(e: Event, name: string) { e in {Succeeded(name), Resumed(name), Removed(name)} }

  /** Some call found the deadline passed. */
  predicate RanOut(log: seq<Timed>, until: real) {
    exists k :: 0 <= k < |log| && log[k].event == Asked && until <= log[k].now
  }

  /** ... so over every run without such an event the agent stays suspended, at least until the
      deadline it had, unless some call found that deadline passed. */
  lemma {:induction false} DeadlineStandsUntilLifted(t: Tracker, log: seq<Timed>, name: string)
    requires name in t.pool.suspended
    requires forall k :: 0 <= k < |log| ==> !Lifts(log[k].event, name)
    ensures var after := Replay(t, log).pool.suspended;
      || (name in after && t.pool.suspended[name].until <= after[name].until)
      || RanOut(log, t.pool.suspended[name].until)
  {
    if log != [] {
      var init, last, until := log[..|log| - 1], log[|log| - 1], t.pool.suspended[name].until;
      DeadlineStandsUntilLifted(t, init, name);
      if RanOut(init, until) {
        var k :| 0 <= k < |init| && init[k].event == Asked && until <= init[k].now;
        assert log[k].event == Asked && until <= log[k].now;
      } else {
        assert !Lifts(last.event, name);
        DeadlinesNeverMoveEarlier(Replay(t, init), last, name);
      }
    }
  }

  // ---- Counters against the history ----

  /** Failures of `name` after its last success. */
  function FailuresSince(log: seq<Timed>, name: string): nat {
    if log == [] then 0
    else
      var last := log[|log| - 1].event;
      if last == Succeeded(name) then 0
      else FailuresSince(log[..|log| - 1], name) + if last == Failed(name) then 1 else 0
  }

  predicate NoSuccessBetween(log: seq<Timed>, name: string, i: int, j: int) {
    forall k :: i < k < j && 0 <= k < |log| ==> log[k].event != Succeeded(name)
  }

  lemma {:induction false} CounterMatchesHistory(t: Tracker, log: seq<Timed>, name: string)
    requires name != "" && Count(t.failures, name) == 0
    ensures Count(Replay(t, log).failures, name) == FailuresSince(log, name)
  {
    if log != [] {
      CounterMatchesHistory(t, log[..|log| - 1], name);
    }
  }

  lemma {:induction false} LastFailure(log: seq<Timed>, name: string) returns (i: nat)
    requires FailuresSince(log, name) >= 1
    ensures i < |log| && log[i].event == Failed(name) && NoSuccessBetween(log, name, i, |log|)
  {
    var init := log[..|log| - 1];
    if log[|log| - 1].event == Failed(name) {
      i := |log| - 1;
    } else {
      i := LastFailure(init, name);
    }
  }

  /** An ordinary failure changes the suspension of its agent only as the second of two failures
      with no success between them. */
  lemma SuspensionNeedsTwoFailures(t: Tracker, log: seq<Timed>, now: real, name: string) returns (i: nat)
    requires name != "" && Count(t.failures, name) == 0
    requires var before := Replay(t, log); RecordFailure(before, now, name).pool != before.pool
    ensures i < |log| && log[i].event == Failed(name) && NoSuccessBetween(log, name, i, |log|)
  {
    CounterMatchesHistory(t, log, name);
    i := LastFailure(log, name);
  }

  /** ... and the second such failure of a member does suspend it, for the whole cooldown. */
  lemma SecondFailureSuspends(t: Tracker, log: seq<Timed>, now: real, name: string)
    requires name != "" && Count(t.failures, name) == 0 && FailuresSince(log, name) >= 1
    requires name in Replay(t, log).pool.agents
    ensures var after := RecordFailure(Replay(t, log), now, name);
      && name in after.pool.suspended
      && DueAt(Replay(t, log).pool, after.pool, name, now + CooldownSeconds(Count(after.strikes, name)) as real)
      && Count(after.strikes, name) == Count(Replay(t, log).strikes, name) + 1
  {
    CounterMatchesHistory(t, log, name);
  }

  /** The deadline is the one given, or the one there was, whichever is later. */
  predicate DueAt(before: Pool, after: Pool, name: string, until: real) {
    && name in after.suspended
    && (after.suspended[name].until == until
        || (name in before.suspended && after.suspended[name].until == before.suspended[name].until > until))
    && until <= after.suspended[name].until
  }

  /** A rate limit suspends a member at once, for as long as the provider asks for between five seconds
      and an hour, and without a usable time for the cooldown of its strike. */
  lemma RateLimitSuspends(t: Tracker, log: seq<Timed>, now: real, name: string, retryAfter: RetryAfter)
    requires name != "" && name in Replay(t, log).pool.agents
    ensures var before, after := Replay(t, log), Record(Replay(t, log), Timed(now, Limited(name, retryAfter)));
      && Count(after.strikes, name) == Count(before.strikes, name) + 1 && after.failures == before.failures
      && (retryAfter.Unknown? || retryAfter.seconds < 0.0 ==>
            DueAt(before.pool, after.pool, name, now + CooldownSeconds(Count(after.strikes, name)) as real))
      && (retryAfter.Seconds? && 0.0 <= retryAfter.seconds ==>
            var asked := if retryAfter.seconds < 5.0 then 5.0
              else if retryAfter.seconds > 3600.0 then 3600.0 else retryAfter.seconds;
            DueAt(before.pool, after.pool, name, now + asked))
  {}

  /** Suspensions of `name` since its last success: by a second failure in a row, or by a rate limit. */
  function StrikesSince(t: Tracker, log: seq<Timed>, name: string): nat {
    if log == [] then 0
    else
      var init, last := log[..|log| - 1], log[|log| - 1].event;
      if last == Succeeded(name) then 0
      else
        var strikes := name in Replay(t, init).pool.agents &&
          ((last == Failed(name) && FailuresSince(init, name) >= 1) || (last.Limited? && last.name == name));
        StrikesSince(t, init, name) + if strikes then 1 else 0
  }

  lemma {:induction false} StrikesMatchHistory(t: Tracker, log: seq<Timed>, name: string)
    requires name != "" && Count(t.failures, name) == 0 && Count(t.strikes, name) == 0
    ensures Count(Replay(t, log).strikes, name) == StrikesSince(t, log, name)
  {
    if log != [] {
      CounterMatchesHistory(t, log[..|log| - 1], name);
      StrikesMatchHistory(t, log[..|log| - 1], name);
    }
  }

  /** After a recorded success the agent is available and both counters are zero. */
  lemma SuccessClears(t: Tracker, start: real, log: seq<Timed>, name: string)
    requires name != "" && Bounded(t, start) && Monotone(start, log)
    ensures var after := RecordSuccess(Replay(t, log), name);
      && name !in after.pool.suspended
      && Count(after.failures, name) == 0 && Count(after.strikes, name) == 0
      && forall other :: other != name ==>
           && Count(after.failures, other) == Count(Replay(t, log).failures, other)
           && Count(after.strikes, other) == Count(Replay(t, log).strikes, other)
           && (other in after.pool.suspended <==> other in Replay(t, log).pool.suspended)
  {
    RunKeepsBound(t, start, log);
  }

  /** Resuming, adding and removing an agent are calls of the pool and leave its counters alone. */
  lemma PoolCallsInFields(t: Tracker, now: real, name: string)
    ensures Record(t, Timed(now, Resumed(name))) ==
      t.(pool := t.pool.(suspended := t.pool.suspended - {name}))
    ensures Record(t, Timed(now, Added(name))) ==
      t.(pool := t.pool.(agents := if name in t.pool.agents then t.pool.agents else t.pool.agents + [name]))
    ensures var after := Record(t, Timed(now, Removed(name)));
      && after.failures == t.failures && after.strikes == t.strikes
      && name !in after.pool.suspended && (name in t.pool.agents ==> after.pool.frozen != Some(name))
      && (forall n :: n != name ==> (n in after.pool.agents <==> n in t.pool.agents))
  {}
}
