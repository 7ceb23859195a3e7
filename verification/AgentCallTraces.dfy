/** What a tally says of the trace of a call, and how long its waits are. */
module AgentCallTraces {
  import opened AgentCall
  import opened Options

  function Number(t: seq<Event>, p: Event -> bool): nat { |set i: nat | i < |t| && p(t[i])| }

  lemma NumberSnoc(t: seq<Event>, p: Event -> bool)
    requires t != []
    ensures Number(t, p) == Number(t[..|t| - 1], p) + if p(t[|t| - 1]) then 1 else 0
  {
    var n := |t| - 1;
    var before := set i: nat | i < n && p(t[..n][i]);
    assert (set i: nat | i < |t| && p(t[i])) == before + if p(t[n]) then {n} else {};
  }

  lemma {:induction false} TallyCountsEvents(cfg: Config, t: seq<Event>)
    ensures Count(cfg, t).calls == Number(t, (e: Event) => e.Called?)
    ensures Count(cfg, t).records == Number(t, (e: Event) => e.Recorded?)
    ensures Count(cfg, t).backoffs == Number(t, (e: Event) => e.Backoff?)
    ensures Count(cfg, t).resolved == Number(t, (e: Event) => e.Resolved?)
    ensures Count(cfg, t).asked == Number(t, (e: Event) => e.Asked?)
  {
    if t != [] {
      TallyCountsEvents(cfg, t[..|t| - 1]);
      NumberSnoc(t, (e: Event) => e.Resolved?);
      NumberSnoc(t, (e: Event) => e.Asked?);
      NumberSnoc(t, (e: Event) => e.Called?);
      NumberSnoc(t, (e: Event) => e.Recorded?);
      NumberSnoc(t, (e: Event) => e.Backoff?);
    }
  }

  /** A cancellation the user was told of, with nothing after it, is the last event. */
  lemma {:induction false} TallySeesCancellation(cfg: Config, t: seq<Event>)
    ensures Count(cfg, t).cancelled <==> Asked(true) in t
    ensures !Count(cfg, t).afterCancel ==> forall i :: 0 <= i < |t| - 1 ==> t[i] != Asked(true)
  {
    if t != [] {
      TallySeesCancellation(cfg, t[..|t| - 1]);
      assert t == t[..|t| - 1] + [t[|t| - 1]];
      assert forall i :: 0 <= i < |t| - 1 ==> t[i] == t[..|t| - 1][i];
    }
  }

  /** Whatever happens comes right after the user was asked and did not cancel; every sleep is at most a
      tenth of a second; every wait for a rate limit, but for those after a failed resolution, is within
      the configured bound. */
  lemma {:induction false} TallySeesWaits(cfg: Config, t: seq<Event>)
    requires Count(cfg, t).responsive && Count(cfg, t).short
    ensures forall i :: 0 <= i < |t| && !t[i].Asked? ==> i > 0 && t[i - 1] == Asked(false)
    ensures forall i :: 0 <= i < |t| && t[i].Slept? ==> 0.0 < t[i].seconds <= 0.1
    ensures forall i :: 0 <= i < |t| && t[i].Backoff? && t[i].limit.limited && !t[i].reason.InvalidResponse? ==>
      ComputeBackoff(cfg, t[i].limit, t[i].attempt) <= cfg.maxRateLimitWait
  {
    if t != [] {
      var init := t[..|t| - 1];
      TallySeesWaits(cfg, init);
      assert forall i :: 0 <= i < |init| ==> t[i] == init[i];
    }
  }

  /** Each wait follows the answer that caused it, and carries what the provider said then. */
  lemma {:induction false} TallySeesQuotes(cfg: Config, t: seq<Event>)
    requires Count(cfg, t).quoted
    ensures forall i :: 0 <= i < |t| && t[i].Backoff? ==> Quotes(Count(cfg, t[..i]).answer, t[i])
  {
    if t != [] {
      var init := t[..|t| - 1];
      TallySeesQuotes(cfg, init);
      forall i | 0 <= i < |t| && t[i].Backoff? ensures Quotes(Count(cfg, t[..i]).answer, t[i]) {
        if i < |init| { assert t[i] == init[i] && t[..i] == init[..i]; }
      }
    }
  }

  // ---- The script is followed ----

  /** The event is what the script has for this place of the trace. */
  predicate Scripted(cfg: Config, sc: Script, t: seq<Event>, e: Event) {
    match e
    case Called(reply, said) => (reply, said) == sc.replies(Count(cfg, t).calls)
    case Resolved(resolution, said) => (resolution, said) == sc.resolutions(Count(cfg, t).resolved)
    case Asked(cancelled) => cancelled == sc.cancelled(Count(cfg, t).asked)
    case _ => true
  }

  /** What a trace keeps when an event of the script is added. */
  ghost predicate Closed(cfg: Config, sc: Script, goes: seq<Event> -> bool) {
    forall t, e {:trigger goes(Add(cfg, t, e))} :: goes(t) && Scripted(cfg, sc, t, e) ==> goes(Add(cfg, t, e))
  }

  lemma AskGoes(cfg: Config, sc: Script, goes: seq<Event> -> bool, t: seq<Event>)
    requires Closed(cfg, sc, goes) && goes(t)
    ensures goes(Ask(cfg, sc, t))
  {
    assert goes(Add(cfg, t, Asked(StopsNow(cfg, sc, t))));
  }

  lemma {:induction false} WaitedGoes(cfg: Config, sc: Script, goes: seq<Event> -> bool, remaining: real,
                                      t: seq<Event>)
    requires remaining >= 0.0 && Closed(cfg, sc, goes) && goes(t)
    ensures goes(Waited(cfg, sc, remaining, t))
    decreases Ticks(remaining)
  {
    AskGoes(cfg, sc, goes, t);
    if remaining > 0.0 && !StopsNow(cfg, sc, t) {
      var interval := if remaining < 0.1 then remaining else 0.1;
      TickDone(remaining);
      WaitedGoes(cfg, sc, goes, remaining - interval, Add(cfg, Ask(cfg, sc, t), Slept(interval)));
    }
  }

  lemma RetriedGoes(cfg: Config, sc: Script, goes: seq<Event> -> bool, reason: Reason, attempt: nat, said: Limit,
                    t: seq<Event>)
    requires Closed(cfg, sc, goes) && goes(t)
    ensures goes(Retried(cfg, sc, reason, attempt, said, t).trace)
  {
    WaitedGoes(cfg, sc, goes, MaxReal(0.0, ComputeBackoff(cfg, said, attempt)),
               Add(cfg, t, Backoff(reason, attempt, said)));
  }

  lemma NoResponseGoes(cfg: Config, sc: Script, goes: seq<Event> -> bool, said: Limit, attempt: nat, limit: nat,
                       t: seq<Event>)
    requires Closed(cfg, sc, goes) && goes(t)
    ensures goes(AfterNoResponse(cfg, sc, said, attempt, limit, t).trace)
  {
    AskGoes(cfg, sc, goes, t);
    if !StopsNow(cfg, sc, t) && !GivesUp(cfg, said) && attempt < limit {
      RetriedGoes(cfg, sc, goes, NoReply, attempt, said, Ask(cfg, sc, t));
    }
  }

  lemma ExceptionGoes(cfg: Config, sc: Script, goes: seq<Event> -> bool, fatal: bool, said: Limit, attempt: nat,
                      limit: nat, t: seq<Event>)
    requires Closed(cfg, sc, goes) && goes(t)
    ensures goes(AfterException(cfg, sc, fatal, said, attempt, limit, t).trace)
  {
    AskGoes(cfg, sc, goes, t);
    if !StopsNow(cfg, sc, t) && !fatal && !GivesUp(cfg, said) && attempt < limit {
      RetriedGoes(cfg, sc, goes, CommError, attempt, said, Ask(cfg, sc, t));
    }
  }

  lemma NoResultGoes(cfg: Config, sc: Script, goes: seq<Event> -> bool, said: Limit, attempt: nat, limit: nat,
                     t: seq<Event>)
    requires Closed(cfg, sc, goes) && goes(t)
    ensures goes(AfterNoResult(cfg, sc, said, attempt, limit, t).trace)
  {
    AskGoes(cfg, sc, goes, t);
    if !StopsNow(cfg, sc, t) && attempt < limit {
      RetriedGoes(cfg, sc, goes, InvalidResponse, attempt, said, Ask(cfg, sc, t));
    }
  }

  lemma ResponseGoes(cfg: Config, sc: Script, goes: seq<Event> -> bool, attempt: nat, limit: nat, t: seq<Event>)
    requires Closed(cfg, sc, goes) && goes(t)
    ensures goes(AfterResponse(cfg, sc, attempt, limit, t).trace)
  {
    var (resolution, said) := sc.resolutions(Count(cfg, t).resolved);
    var t1 := Add(cfg, t, Resolved(resolution, said));
    if resolution.ResolveRaised? {
      ExceptionGoes(cfg, sc, goes, resolution.fatal, said, attempt, limit, t1);
    } else {
      AskGoes(cfg, sc, goes, t1);
      if !StopsNow(cfg, sc, t1) && resolution.NoResult? {
        NoResultGoes(cfg, sc, goes, said, attempt, limit, Ask(cfg, sc, t1));
      }
    }
  }

  lemma AttemptGoes(cfg: Config, sc: Script, goes: seq<Event> -> bool, attempt: nat, limit: nat, t: seq<Event>)
    requires Closed(cfg, sc, goes) && goes(t)
    ensures goes(OneAttempt(cfg, sc, attempt, limit, t).trace)
  {
    AskGoes(cfg, sc, goes, t);
    if !StopsNow(cfg, sc, t) {
      var t1 := Ask(cfg, sc, t);
      var (reply, said) := sc.replies(Count(cfg, t1).calls);
      var t2 := Add(cfg, t1, Called(reply, said));
      if reply.CallRaised? {
        ExceptionGoes(cfg, sc, goes, reply.fatal, said, attempt, limit, t2);
      } else {
        AskGoes(cfg, sc, goes, t2);
        if StopsNow(cfg, sc, t2) {
        } else if reply.NoResponse? {
          NoResponseGoes(cfg, sc, goes, said, attempt, limit, Ask(cfg, sc, t2));
        } else {
          ResponseGoes(cfg, sc, goes, attempt, limit, Ask(cfg, sc, t2));
        }
      }
    }
  }

  lemma {:induction false} LoopGoes(cfg: Config, sc: Script, goes: seq<Event> -> bool, attempt: nat, limit: nat,
                                    bound: nat, t: seq<Event>)
    requires attempt <= limit && Closed(cfg, sc, goes) && goes(t)
    ensures goes(Loop(Pass(cfg, sc, bound), attempt, limit, t).1)
    decreases limit - attempt
  {
    AttemptGoes(cfg, sc, goes, attempt, bound, t);
    var e := Pass(cfg, sc, bound)(attempt, t);
    if e.GoesOn? && attempt < limit { LoopGoes(cfg, sc, goes, attempt + 1, limit, bound, e.trace); }
  }

  predicate Follows(cfg: Config, sc: Script, t: seq<Event>) {
    forall i :: 0 <= i < |t| ==> Scripted(cfg, sc, t[..i], t[i])
  }

  lemma FollowingIsClosed(cfg: Config, sc: Script)
    ensures Closed(cfg, sc, t => Follows(cfg, sc, t))
  {
    forall t, e | Follows(cfg, sc, t) && Scripted(cfg, sc, t, e) ensures Follows(cfg, sc, Add(cfg, t, e)) {
      assert forall i :: 0 <= i <= |t| ==> (t + [e])[..i] == t[..i];
      assert t[..|t|] == t;
    }
  }

  /** In the trace of a call the n-th call, resolution and question have the n-th answer of the script. */
  lemma TheScriptIsFollowed(cfg: Config, sc: Script, maxRetries: Option<int>, i: nat)
    requires i < |Played(cfg, sc, maxRetries).1|
    ensures var t := Played(cfg, sc, maxRetries).1;
      match t[i]
      case Called(reply, said) => (reply, said) == sc.replies(Number(t[..i], (e: Event) => e.Called?))
      case Resolved(resolution, said) => (resolution, said) == sc.resolutions(Number(t[..i], (e: Event) => e.Resolved?))
      case Asked(cancelled) => cancelled == sc.cancelled(Number(t[..i], (e: Event) => e.Asked?))
      case _ => true
  {
    var t := Played(cfg, sc, maxRetries).1;
    FollowingIsClosed(cfg, sc);
    LoopGoes(cfg, sc, u => Follows(cfg, sc, u), 1, Attempts(cfg, maxRetries), Attempts(cfg, maxRetries), []);
    TallyCountsEvents(cfg, t[..i]);
  }

  // ---- How a call ends ----

  predicate IsAnswer(e: Event) { e.Called? || e.Resolved? }

  /** What the backend or the tool loop said last. */
  predicate LastAnswer(t: seq<Event>, i: nat) {
    i < |t| && IsAnswer(t[i]) && forall j :: i < j < |t| ==> !IsAnswer(t[j])
  }

  lemma {:induction false} TallySeesTheAnswer(cfg: Config, t: seq<Event>) returns (i: nat)
    requires Count(cfg, t).answer.Some?
    ensures LastAnswer(t, i) && Count(cfg, t).answer == Some(t[i])
  {
    var n := |t| - 1;
    i := n;
    if !IsAnswer(t[n]) {
      i := TallySeesTheAnswer(cfg, t[..n]);
    }
  }

  /** A rate limit under which the configuration or the provider asks for more than may be waited. */
  predicate TooLong(cfg: Config, said: Limit) {
    && said.limited
    && (cfg.rateLimitBackoff > cfg.maxRateLimitWait
        || (said.retryAfter.Some? && said.retryAfter.value > 0.0 && said.retryAfter.value > cfg.maxRateLimitWait))
  }

  /** The ending an answer calls for: outcome and record; `out` says that no attempt is left. */
  predicate EndsOn(cfg: Config, answer: Event, out: bool, outcome: Outcome, verdict: Verdict) {
    match answer
    case Resolved(Result(text), _) => outcome == Returned(text) && verdict == Success
    case Resolved(NoResult, _) => out && outcome == Nothing && verdict == Failure
    case Called(NoResponse, said) =>
      && (out || TooLong(cfg, said)) && outcome == Nothing
      && verdict == if said.limited then RateLimited else Failure
    case Called(CallRaised(fatal), said) => RaiseEnds(cfg, fatal, said, out, outcome, verdict)
    case Resolved(ResolveRaised(fatal), said) => RaiseEnds(cfg, fatal, said, out, outcome, verdict)
    case _ => false
  }

  predicate RaiseEnds(cfg: Config, fatal: bool, said: Limit, out: bool, outcome: Outcome, verdict: Verdict) {
    if fatal then outcome == Nothing && verdict == Failure
    else
      && (out || TooLong(cfg, said))
      && outcome == (if TooLong(cfg, said) then Nothing else Raised)
      && verdict == if said.limited then RateLimited else Failure
  }

  /** Whatever the script, a call asks the backend at most `max(1, retries)` times, with the override
      in place of the configured number if one is given. A cancellation the user tells of ends it with
      nothing recorded; else its last event is its only record, and that and the outcome are those its
      last answer calls for. */
  lemma ACallEndsAsAnswered(cfg: Config, sc: Script, maxRetries: Option<int>) returns (i: nat)
    ensures var (outcome, t) := Played(cfg, sc, maxRetries);
      var asked := if maxRetries.Some? then maxRetries.value else cfg.maxRetries;
      var limit := if asked < 1 then 1 else asked;
      var calls := Number(t, (e: Event) => e.Called?);
      && calls <= limit
      && (Asked(true) in t ==>
            outcome == Nothing && t[|t| - 1] == Asked(true) && Number(t, (e: Event) => e.Recorded?) == 0)
      && (Asked(true) !in t ==>
            && LastAnswer(t, i) && t[|t| - 1].Recorded? && Number(t, (e: Event) => e.Recorded?) == 1
            && EndsOn(cfg, t[i], calls == limit, outcome, t[|t| - 1].verdict))
  {
    var (outcome, t) := Played(cfg, sc, maxRetries);
    CallEndsWell(cfg, sc, maxRetries);
    TallyCountsEvents(cfg, t);
    TallySeesCancellation(cfg, t);
    i := 0;
    if Asked(true) !in t {
      i := TallySeesTheAnswer(cfg, t);
    }
  }

  // ---- The waits nobody checks ----

  /** No wait for a rate limit is longer than configured. */
  predicate AllWaitsBounded(cfg: Config, t: seq<Event>) {
    forall i :: 0 <= i < |t| && t[i].Backoff? && t[i].limit.limited ==>
      ComputeBackoff(cfg, t[i].limit, t[i].attempt) <= cfg.maxRateLimitWait
  }

  /** The configured backoff, and the time the provider asks for if it asks, are within the bound. */
  predicate AsksLittle(cfg: Config, said: Limit) {
    && cfg.rateLimitBackoff <= cfg.maxRateLimitWait
    && (said.retryAfter.Some? && said.retryAfter.value > 0.0 ==> said.retryAfter.value <= cfg.maxRateLimitWait)
  }

  /** A wait for a rate limit whose cause is a failed resolution. */
  predicate UncheckedWait(cfg: Config, t: seq<Event>, i: nat)
    requires i < |t|
  {
    t[i].Backoff? && t[i].limit.limited && Count(cfg, t[..i]).answer == Some(Resolved(NoResult, t[i].limit))
  }

  /** After a failed resolution nobody asks how long the rate limit is. All rate-limited waits of a
      call keep the bound exactly when, at each failed resolution that is tried again under a rate
      limit, the configuration and the provider ask for little. */
  lemma WaitsAreBoundedExactlyWhen(cfg: Config, sc: Script, maxRetries: Option<int>)
    ensures var t := Played(cfg, sc, maxRetries).1;
      AllWaitsBounded(cfg, t) <==> forall i :: 0 <= i < |t| && UncheckedWait(cfg, t, i) ==> AsksLittle(cfg, t[i].limit)
  {
    var t := Played(cfg, sc, maxRetries).1;
    CallEndsWell(cfg, sc, maxRetries);
    TallySeesWaits(cfg, t);
    TallySeesQuotes(cfg, t);
    forall i | 0 <= i < |t| && t[i].Backoff? && t[i].limit.limited
      ensures ComputeBackoff(cfg, t[i].limit, t[i].attempt) <= cfg.maxRateLimitWait <==> AsksLittle(cfg, t[i].limit)
      ensures Quotes(Count(cfg, t[..i]).answer, t[i])
    {
    }
  }

  // ---- A call that waits too long ----

  /** Time slept only grows. */
  lemma {:induction false} SleptGrows(cfg: Config, t: seq<Event>, u: seq<Event>)
    requires t <= u && Count(cfg, u).responsive
    ensures Count(cfg, t).slept <= Count(cfg, u).slept
    decreases |u|
  {
    if |t| < |u| {
      SleptGrows(cfg, t, u[..|u| - 1]);
    } else {
      assert t == u;
    }
  }

  /** Nobody cancels; the first response cannot be resolved, under a rate limit of an hour. */
  const HourlyLimit := Limit(true, Some(3600.0))
  const Patient := Script(_ => false, _ => (Response(""), Limit(false, None)), _ => (NoResult, HourlyLimit))

  /** A user who never cancels is never told of a cancellation. */
  lemma PatientIsUncancelled(cfg: Config, remaining: real, t: seq<Event>)
    requires remaining >= 0.0 && Asked(true) !in t
    ensures Asked(true) !in Waited(cfg, Patient, remaining, t)
  {
    WaitedGoes(cfg, Patient, u => Asked(true) !in u, remaining, t);
  }

  /** Asked, called and asked. */
  function PatientCall(cfg: Config, t: seq<Event>): seq<Event> {
    Ask(cfg, Patient, Add(cfg, Ask(cfg, Patient, t), Called(Response(""), Limit(false, None))))
  }

  lemma PatientAttempt(cfg: Config, t: seq<Event>)
    ensures OneAttempt(cfg, Patient, 1, 2, t) == AfterResponse(cfg, Patient, 1, 2, PatientCall(cfg, t))
  {}

  /** The first attempt of a patient user's call ends in the hour's wait. */
  lemma HourlyAttempt(cfg: Config) returns (t: seq<Event>)
    ensures OneAttempt(cfg, Patient, 1, 2, []) == Retried(cfg, Patient, InvalidResponse, 1, HourlyLimit, t)
    ensures var c := Count(cfg, t); Sound(c) && !c.cancelled && c.slept == c.waited == 0.0
    ensures Count(cfg, t).answer == Some(Resolved(NoResult, HourlyLimit)) && Last(t) == Some(Asked(false))
  {
    PatientAttempt(cfg, []);
    var t4 := Add(cfg, PatientCall(cfg, []), Resolved(NoResult, HourlyLimit));
    t := Ask(cfg, Patient, Ask(cfg, Patient, t4));
  }

  /** ... all of which is slept. */
  lemma HourIsSlept(cfg: Config, t: seq<Event>)
    requires cfg.rateLimitBackoff <= 3600.0
    requires var c := Count(cfg, t); Sound(c) && !c.cancelled && c.slept == c.waited == 0.0
    requires Count(cfg, t).answer == Some(Resolved(NoResult, HourlyLimit)) && Last(t) == Some(Asked(false))
    ensures var e := Retried(cfg, Patient, InvalidResponse, 1, HourlyLimit, t);
      e.GoesOn? && Count(cfg, e.trace).slept == 3600.0
  {
    var u := Add(cfg, t, Backoff(InvalidResponse, 1, HourlyLimit));
    TallySeesCancellation(cfg, u);
    PatientIsUncancelled(cfg, 3600.0, u);
    TallySeesCancellation(cfg, Waited(cfg, Patient, 3600.0, u));
    WaitedSleeps(cfg, Patient, 3600.0, u);
  }

  /** A whole call, with two attempts and a bound of two minutes, that decides on an hour of waiting
      and sleeps it. */
  lemma ACallMayWaitForAnHour() returns (cfg: Config, i: nat)
    ensures cfg.maxRateLimitWait == 120.0
    ensures var t := Played(cfg, Patient, Some(2)).1;
      && i < |t| && t[i] == Backoff(InvalidResponse, 1, HourlyLimit)
      && !AllWaitsBounded(cfg, t)
      && Count(cfg, t).slept >= 3600.0
  {
    cfg := Config(2, 1.0, 30.0, 120.0);
    var t0 := HourlyAttempt(cfg);
    HourIsSlept(cfg, t0);
    var pass, waiting := Pass(cfg, Patient, 2), Add(cfg, t0, Backoff(InvalidResponse, 1, HourlyLimit));
    WaitedGoes(cfg, Patient, u => waiting <= u, 3600.0, waiting);
    var u := pass(1, []).trace;
    LoopGoes(cfg, Patient, v => u <= v, 2, 2, 2, u);
    CallEndsWell(cfg, Patient, Some(2));
    i := |t0|;
    WaitIsFound(cfg, t0, u, Played(cfg, Patient, Some(2)).1);
  }

  lemma WaitIsFound(cfg: Config, t: seq<Event>, u: seq<Event>, v: seq<Event>)
    requires t + [Backoff(InvalidResponse, 1, HourlyLimit)] <= u <= v
    requires cfg.maxRateLimitWait < 3600.0 && Count(cfg, v).responsive
    ensures v[|t|] == Backoff(InvalidResponse, 1, HourlyLimit) && !AllWaitsBounded(cfg, v)
    ensures Count(cfg, u).slept <= Count(cfg, v).slept
  {
    assert v[|t|] == (t + [Backoff(InvalidResponse, 1, HourlyLimit)])[|t|];
    SleptGrows(cfg, u, v);
  }
}
