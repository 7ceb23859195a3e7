/** One call of an agent with its retries: what is recorded, how long it waits, and how it ends.
    The backend, the tool loop and the user answer from a script, which may say anything. */
module AgentCall {
  import opened Options

  /** Waits are in seconds. */
  datatype Config = Config(maxRetries: int, retryBackoff: real, rateLimitBackoff: real, maxRateLimitWait: real)

  datatype Reply = Response(text: string) | NoResponse | CallRaised(fatal: bool)

  datatype Resolution = Result(text: string) | NoResult | ResolveRaised(fatal: bool)

  datatype Verdict = Success | Failure | RateLimited

  datatype Reason = NoReply | InvalidResponse | CommError

  /** What the provider last said: `retryAfter` is a usable number of seconds. */
  datatype Limit = Limit(limited: bool, retryAfter: Option<real>)

  /** What the user says to the n-th question, the backend to the n-th call and the tool loop to the
      n-th resolution, with what the provider has said about limits by then. */
  datatype Script = Script(
    cancelled: nat -> bool,
    replies: nat -> (Reply, Limit),
    resolutions: nat -> (Resolution, Limit))

  datatype Event =
    | Called(reply: Reply, said: Limit)
    | Resolved(resolution: Resolution, said: Limit)
    | Asked(cancelled: bool)
    | Recorded(verdict: Verdict)
    | Backoff(reason: Reason, attempt: nat, limit: Limit)
    | Slept(seconds: real)

  datatype Outcome = Returned(text: string) | Nothing | Raised

  function MaxReal(a: real, b: real): real { if a < b then b else a }

  function ComputeBackoff(cfg: Config, limit: Limit, attempt: nat): (r: real)
    ensures !limit.limited ==> r == cfg.retryBackoff * attempt as real
    ensures limit.limited ==> r >= cfg.rateLimitBackoff && Some(r) in {Some(cfg.rateLimitBackoff), limit.retryAfter}
    ensures limit.limited && limit.retryAfter.Some? && limit.retryAfter.value > 0.0 ==> r >= limit.retryAfter.value
  {
    if limit.limited then
      if limit.retryAfter.Some? && limit.retryAfter.value > 0.0
      then MaxReal(cfg.rateLimitBackoff, limit.retryAfter.value)
      else cfg.rateLimitBackoff
    else cfg.retryBackoff * attempt as real
  }

  /** The rate limit lasts too long to be waited for. */
  predicate GivesUp(cfg: Config, limit: Limit) {
    limit.limited && ComputeBackoff(cfg, limit, 1) > cfg.maxRateLimitWait
  }

  /** An answer that is not tried again, whatever attempts are left. */
  predicate Final(cfg: Config, e: Event) {
    match e
    case Called(NoResponse, said) => GivesUp(cfg, said)
    case Called(CallRaised(fatal), said) => fatal || GivesUp(cfg, said)
    case Resolved(ResolveRaised(fatal), said) => fatal || GivesUp(cfg, said)
    case Resolved(Result(_), _) => true
    case _ => false
  }

  /** What has to be recorded when the call ends with this answer. */
  function VerdictOn(e: Event): Verdict {
    match e
    case Called(NoResponse, said) => Exhausted(said)
    case Called(CallRaised(fatal), said) => if fatal then Failure else Exhausted(said)
    case Resolved(ResolveRaised(fatal), said) => if fatal then Failure else Exhausted(said)
    case Resolved(Result(_), _) => Success
    case _ => Failure
  }

  /** ... and what the caller gets: an exception that is not final is raised again. */
  function OutcomeOf(cfg: Config, e: Event): Outcome {
    if e.Resolved? && e.resolution.Result? then Returned(e.resolution.text)
    else if Raises(e) && !Final(cfg, e) then Raised
    else Nothing
  }

  predicate Raises(e: Event) { (e.Called? && e.reply.CallRaised?) || (e.Resolved? && e.resolution.ResolveRaised?) }

  function Exhausted(limit: Limit): Verdict { if limit.limited then RateLimited else Failure }

  function Attempts(cfg: Config, maxRetries: Option<int>): (n: nat)
    ensures n >= 1
  {
    var limit := if maxRetries.Some? then maxRetries.value else cfg.maxRetries;
    if limit < 1 then 1 else limit
  }

  // ---- What a trace amounts to ----

  /** Numbers of events; seconds slept, and seconds of all waits decided on; whether the user was
      told of a cancellation, whether anything followed it, whether all else came after a question
      and sleeps were short, and whether rate limits that are too long were never waited for, and whether each wait
      quotes the last answer of the backend or of the tool loop, `answer`. */
  datatype Tally = Tally(
    answer: Option<Event>,
    asked: nat, calls: nat, resolved: nat, records: nat, backoffs: nat,
    slept: real, waited: real,
    cancelled: bool, afterCancel: bool, responsive: bool, short: bool, quoted: bool)

  predicate Prompt(previous: Option<Event>, e: Event) {
    && (!e.Asked? ==> previous == Some(Asked(false)))
    && (e.Slept? ==> 0.0 < e.seconds <= 0.1)
  }

  predicate ShortWait(cfg: Config, e: Event) {
    e.Backoff? && e.limit.limited && !e.reason.InvalidResponse? ==>
      ComputeBackoff(cfg, e.limit, e.attempt) <= cfg.maxRateLimitWait
  }

  predicate CausedBy(answer: Option<Event>, reason: Reason, said: Limit) {
    match reason
    case NoReply => answer == Some(Called(NoResponse, said))
    case InvalidResponse => answer == Some(Resolved(NoResult, said))
    case CommError => RaisedBy(answer, false, said)
  }

  /** The last answer was an exception. */
  predicate RaisedBy(answer: Option<Event>, fatal: bool, said: Limit) {
    answer == Some(Called(CallRaised(fatal), said)) || answer == Some(Resolved(ResolveRaised(fatal), said))
  }

  /** A wait follows the answer it is the consequence of. */
  predicate Quotes(answer: Option<Event>, e: Event) {
    e.Backoff? ==> CausedBy(answer, e.reason, e.limit)
  }

  function Note(cfg: Config, c: Tally, previous: Option<Event>, e: Event): Tally {
    Tally(if e.Called? || e.Resolved? then Some(e) else c.answer,
          c.asked + if e.Asked? then 1 else 0,
          c.calls + if e.Called? then 1 else 0,
          c.resolved + if e.Resolved? then 1 else 0,
          c.records + if e.Recorded? then 1 else 0,
          c.backoffs + if e.Backoff? then 1 else 0,
          c.slept + if e.Slept? then e.seconds else 0.0,
          c.waited + if e.Backoff? then MaxReal(0.0, ComputeBackoff(cfg, e.limit, e.attempt)) else 0.0,
          c.cancelled || e == Asked(true),
          c.afterCancel || c.cancelled,
          c.responsive && Prompt(previous, e),
          c.short && ShortWait(cfg, e),
          c.quoted && Quotes(c.answer, e))
  }

  function Last(t: seq<Event>): Option<Event> { if t == [] then None else Some(t[|t| - 1]) }

  function Count(cfg: Config, t: seq<Event>): Tally {
    if t == [] then Tally(None, 0, 0, 0, 0, 0, 0.0, 0.0, false, false, true, true, true)
    else Note(cfg, Count(cfg, t[..|t| - 1]), Last(t[..|t| - 1]), t[|t| - 1])
  }

  /** The trace after one more event. */
  function Add(cfg: Config, t: seq<Event>, e: Event): (u: seq<Event>)
    ensures u == t + [e] && Count(cfg, u) == Note(cfg, Count(cfg, t), Last(t), e) && Last(u) == Some(e)
  {
    assert (t + [e])[..|t|] == t;
    t + [e]
  }

  // ---- What a call does with a script ----

  predicate StopsNow(cfg: Config, sc: Script, t: seq<Event>) { sc.cancelled(Count(cfg, t).asked) }

  function Ask(cfg: Config, sc: Script, t: seq<Event>): (u: seq<Event>)
    ensures u == t + [Asked(StopsNow(cfg, sc, t))]
    ensures Count(cfg, u) == Note(cfg, Count(cfg, t), Last(t), Asked(StopsNow(cfg, sc, t)))
    ensures Last(u) == Some(Asked(StopsNow(cfg, sc, t)))
  {
    Add(cfg, t, Asked(StopsNow(cfg, sc, t)))
  }

  /** Steps of a tenth of a second left. */
  function Ticks(remaining: real): nat
    requires remaining >= 0.0
  {
    if remaining == 0.0 then 0 else (remaining * 10.0).Floor + 1
  }

  lemma TickDone(remaining: real)
    requires remaining > 0.0
    ensures var rest := remaining - if remaining < 0.1 then remaining else 0.1;
      rest >= 0.0 && Ticks(rest) < Ticks(remaining)
  {
    if remaining > 0.1 {
      assert (remaining - 0.1) * 10.0 == remaining * 10.0 - 1.0;
    }
  }

  /** A wait of `remaining` seconds, up to its end or to a cancellation. */
  function Waited(cfg: Config, sc: Script, remaining: real, t: seq<Event>): seq<Event>
    requires remaining >= 0.0
    decreases Ticks(remaining)
  {
    var asked := Ask(cfg, sc, t);
    if remaining == 0.0 || StopsNow(cfg, sc, t) then asked
    else
      var interval := if remaining < 0.1 then remaining else 0.1;
      TickDone(remaining);
      Waited(cfg, sc, remaining - interval, Add(cfg, asked, Slept(interval)))
  }

  /** Where an attempt leaves the loop: it goes on with the next, or the call is over. */
  datatype Ending = GoesOn(trace: seq<Event>) | Over(outcome: Outcome, trace: seq<Event>)

  function Retried(cfg: Config, sc: Script, reason: Reason, attempt: nat, said: Limit, t: seq<Event>): Ending {
    var seconds := MaxReal(0.0, ComputeBackoff(cfg, said, attempt));
    var u := Waited(cfg, sc, seconds, Add(cfg, t, Backoff(reason, attempt, said)));
    if Count(cfg, u).cancelled then Over(Nothing, u) else GoesOn(u)
  }

  function AfterNoResponse(cfg: Config, sc: Script, said: Limit, attempt: nat, limit: nat, t: seq<Event>): Ending {
    var u := Ask(cfg, sc, t);
    if StopsNow(cfg, sc, t) then Over(Nothing, u)
    else if GivesUp(cfg, said) then Over(Nothing, Add(cfg, u, Recorded(RateLimited)))
    else if attempt < limit then Retried(cfg, sc, NoReply, attempt, said, u)
    else Over(Nothing, Add(cfg, u, Recorded(Exhausted(said))))
  }

  function AfterException(cfg: Config, sc: Script, fatal: bool, said: Limit, attempt: nat, limit: nat,
                          t: seq<Event>): Ending
  {
    var u := Ask(cfg, sc, t);
    if StopsNow(cfg, sc, t) then Over(Nothing, u)
    else if fatal then Over(Nothing, Add(cfg, u, Recorded(Failure)))
    else if GivesUp(cfg, said) then Over(Nothing, Add(cfg, u, Recorded(RateLimited)))
    else if attempt < limit then Retried(cfg, sc, CommError, attempt, said, u)
    else Over(Raised, Add(cfg, u, Recorded(Exhausted(said))))
  }

  function AfterNoResult(cfg: Config, sc: Script, said: Limit, attempt: nat, limit: nat, t: seq<Event>): Ending {
    var u := Ask(cfg, sc, t);
    if StopsNow(cfg, sc, t) then Over(Nothing, u)
    else if attempt < limit then Retried(cfg, sc, InvalidResponse, attempt, said, u)
    else Over(Nothing, Add(cfg, u, Recorded(Failure)))
  }

  function AfterResponse(cfg: Config, sc: Script, attempt: nat, limit: nat, t: seq<Event>): Ending {
    var (resolution, said) := sc.resolutions(Count(cfg, t).resolved);
    var t1 := Add(cfg, t, Resolved(resolution, said));
    if resolution.ResolveRaised? then AfterException(cfg, sc, resolution.fatal, said, attempt, limit, t1)
    else
      var t2 := Ask(cfg, sc, t1);
      if StopsNow(cfg, sc, t1) then Over(Nothing, t2)
      else if resolution.Result? then Over(Returned(resolution.text), Add(cfg, t2, Recorded(Success)))
      else AfterNoResult(cfg, sc, said, attempt, limit, t2)
  }

  function OneAttempt(cfg: Config, sc: Script, attempt: nat, limit: nat, t: seq<Event>): Ending {
    var t1 := Ask(cfg, sc, t);
    if StopsNow(cfg, sc, t) then Over(Nothing, t1)
    else
      var (reply, said) := sc.replies(Count(cfg, t1).calls);
      var t2 := Add(cfg, t1, Called(reply, said));
      if reply.CallRaised? then AfterException(cfg, sc, reply.fatal, said, attempt, limit, t2)
      else
        var t3 := Ask(cfg, sc, t2);
        if StopsNow(cfg, sc, t2) then Over(Nothing, t3)
        else if reply.NoResponse? then AfterNoResponse(cfg, sc, said, attempt, limit, t3)
        else AfterResponse(cfg, sc, attempt, limit, t3)
  }

  /** One attempt after the other, up to the limit. */
  function Loop(pass: (nat, seq<Event>) -> Ending, attempt: nat, limit: nat, t: seq<Event>): (Outcome, seq<Event>)
    requires attempt <= limit
    decreases limit - attempt
  {
    match pass(attempt, t)
    case Over(outcome, u) => (outcome, u)
    case GoesOn(u) => if attempt < limit then Loop(pass, attempt + 1, limit, u) else (Nothing, u)
  }

  function Pass(cfg: Config, sc: Script, limit: nat): (nat, seq<Event>) -> Ending {
    (attempt: nat, t: seq<Event>) => OneAttempt(cfg, sc, attempt, limit, t)
  }

  /** The whole call. */
  function Played(cfg: Config, sc: Script, maxRetries: Option<int>): (Outcome, seq<Event>) {
    Loop(Pass(cfg, sc, Attempts(cfg, maxRetries)), 1, Attempts(cfg, maxRetries), [])
  }

  // ---- What that amounts to ----

  /** The tally while nobody has cancelled and nothing is recorded. */
  predicate Open(c: Tally) { Sound(c) && !c.cancelled && c.records == 0 && c.slept == c.waited }

  predicate Sound(c: Tally) { !c.afterCancel && c.responsive && c.short && c.quoted }

  /** Cancelled: nothing recorded, nothing after it, and no longer slept than decided. */
  predicate Stopped(c: Tally) { Sound(c) && c.cancelled && c.records == 0 && c.slept <= c.waited }

  /** Ended with one record, after as many waits as there were repeated calls. */
  predicate Settled(c: Tally) {
    Sound(c) && !c.cancelled && c.records == 1 && c.slept == c.waited && c.calls == c.backoffs + 1
  }

  /** A response the tool loop has not resolved. */
  predicate Unresolved(e: Event) { e.Called? && e.reply.Response? }

  /** How a call may end: cancelled with nothing recorded, or with one record made last, the one
      the last answer calls for, which no other attempt could have changed. */
  predicate EndsWell(cfg: Config, limit: nat, outcome: Outcome, t: seq<Event>) {
    var c := Count(cfg, t);
    if c.cancelled then outcome.Nothing? && Stopped(c)
    else
      && Settled(c) && c.answer.Some? && !Unresolved(c.answer.value)
      && Last(t) == Some(Recorded(VerdictOn(c.answer.value)))
      && outcome == OutcomeOf(cfg, c.answer.value)
      && (c.calls == limit || Final(cfg, c.answer.value))
  }

  /** Between the call of the backend and the end of the attempt. */
  predicate CalledOnce(cfg: Config, attempt: nat, limit: nat, t: seq<Event>) {
    Open(Count(cfg, t)) && 1 <= attempt <= limit && Count(cfg, t).calls == attempt == Count(cfg, t).backoffs + 1
  }

  predicate AttemptReady(cfg: Config, attempt: nat, limit: nat, t: seq<Event>) {
    1 <= attempt <= limit && Open(Count(cfg, t)) && Count(cfg, t).calls == attempt - 1 == Count(cfg, t).backoffs
  }

  /** The attempt leaves the loop, or goes on to the next pass. */
  predicate AttemptDone(cfg: Config, attempt: nat, limit: nat, e: Ending) {
    var c := Count(cfg, e.trace);
    if e.Over? then c.calls <= attempt && EndsWell(cfg, limit, e.outcome, e.trace)
    else attempt < limit && Open(c) && c.calls == attempt == c.backoffs
  }

  /** All of the time is slept, unless the user cancels, and nothing else happens. */
  lemma {:induction false} WaitedSleeps(cfg: Config, sc: Script, remaining: real, t: seq<Event>)
    requires remaining >= 0.0
    requires var c := Count(cfg, t); Sound(c) && !c.cancelled && c.slept + remaining == c.waited
    ensures var c, d := Count(cfg, t), Count(cfg, Waited(cfg, sc, remaining, t));
      && d == c.(asked := d.asked, slept := d.slept, cancelled := d.cancelled)
      && d.slept <= d.waited && (!d.cancelled ==> d.slept == d.waited)
    decreases Ticks(remaining)
  {
    if remaining > 0.0 && !StopsNow(cfg, sc, t) {
      var interval := if remaining < 0.1 then remaining else 0.1;
      TickDone(remaining);
      WaitedSleeps(cfg, sc, remaining - interval, Add(cfg, Ask(cfg, sc, t), Slept(interval)));
    }
  }

  lemma RetriedIsDone(cfg: Config, sc: Script, reason: Reason, attempt: nat, limit: nat, said: Limit, t: seq<Event>)
    requires CalledOnce(cfg, attempt, limit, t) && attempt < limit
    requires reason.InvalidResponse? || !GivesUp(cfg, said)
    requires CausedBy(Count(cfg, t).answer, reason, said) && Last(t) == Some(Asked(false))
    ensures AttemptDone(cfg, attempt, limit, Retried(cfg, sc, reason, attempt, said, t))
  {
    var seconds := MaxReal(0.0, ComputeBackoff(cfg, said, attempt));
    WaitedSleeps(cfg, sc, seconds, Add(cfg, t, Backoff(reason, attempt, said)));
  }

  /** The user is asked, and the attempt is over or is as it was. */
  lemma AskedIsDone(cfg: Config, sc: Script, attempt: nat, limit: nat, t: seq<Event>)
    requires CalledOnce(cfg, attempt, limit, t)
    ensures var u := Ask(cfg, sc, t);
      if StopsNow(cfg, sc, t) then AttemptDone(cfg, attempt, limit, Over(Nothing, u))
      else CalledOnce(cfg, attempt, limit, u) && Count(cfg, u).answer == Count(cfg, t).answer
  {}

  /** The attempt is over with what its answer calls for. */
  lemma RecordedIsDone(cfg: Config, outcome: Outcome, verdict: Verdict, answer: Event, attempt: nat, limit: nat,
                       t: seq<Event>)
    requires CalledOnce(cfg, attempt, limit, t) && Count(cfg, t).answer == Some(answer) && !Unresolved(answer)
    requires Last(t) == Some(Asked(false))
    requires verdict == VerdictOn(answer) && outcome == OutcomeOf(cfg, answer)
    requires attempt == limit || Final(cfg, answer)
    ensures AttemptDone(cfg, attempt, limit, Over(outcome, Add(cfg, t, Recorded(verdict))))
  {}

  lemma NoResponseIsDone(cfg: Config, sc: Script, said: Limit, attempt: nat, limit: nat, t: seq<Event>)
    requires CalledOnce(cfg, attempt, limit, t) && Count(cfg, t).answer == Some(Called(NoResponse, said))
    ensures AttemptDone(cfg, attempt, limit, AfterNoResponse(cfg, sc, said, attempt, limit, t))
  {
    AskedIsDone(cfg, sc, attempt, limit, t);
    var u := Ask(cfg, sc, t);
    if !StopsNow(cfg, sc, t) {
      if !GivesUp(cfg, said) && attempt < limit {
        RetriedIsDone(cfg, sc, NoReply, attempt, limit, said, u);
      } else {
        RecordedIsDone(cfg, Nothing, Exhausted(said), Called(NoResponse, said), attempt, limit, u);
      }
    }
  }

  /** An exception is raised again only from the last attempt, with the failure recorded. */
  lemma ExceptionIsDone(cfg: Config, sc: Script, fatal: bool, said: Limit, attempt: nat, limit: nat, t: seq<Event>)
    requires CalledOnce(cfg, attempt, limit, t) && RaisedBy(Count(cfg, t).answer, fatal, said)
    ensures AttemptDone(cfg, attempt, limit, AfterException(cfg, sc, fatal, said, attempt, limit, t))
  {
    AskedIsDone(cfg, sc, attempt, limit, t);
    var u := Ask(cfg, sc, t);
    if !StopsNow(cfg, sc, t) {
      var answer := Count(cfg, t).answer.value;
      if fatal {
        RecordedIsDone(cfg, Nothing, Failure, answer, attempt, limit, u);
      } else if GivesUp(cfg, said) {
        RecordedIsDone(cfg, Nothing, RateLimited, answer, attempt, limit, u);
      } else if attempt < limit {
        RetriedIsDone(cfg, sc, CommError, attempt, limit, said, u);
      } else {
        RecordedIsDone(cfg, Raised, Exhausted(said), answer, attempt, limit, u);
      }
    }
  }

  lemma NoResultIsDone(cfg: Config, sc: Script, said: Limit, attempt: nat, limit: nat, t: seq<Event>)
    requires CalledOnce(cfg, attempt, limit, t) && Count(cfg, t).answer == Some(Resolved(NoResult, said))
    ensures AttemptDone(cfg, attempt, limit, AfterNoResult(cfg, sc, said, attempt, limit, t))
  {
    AskedIsDone(cfg, sc, attempt, limit, t);
    var u := Ask(cfg, sc, t);
    if !StopsNow(cfg, sc, t) {
      if attempt < limit {
        RetriedIsDone(cfg, sc, InvalidResponse, attempt, limit, said, u);
      } else {
        RecordedIsDone(cfg, Nothing, Failure, Resolved(NoResult, said), attempt, limit, u);
      }
    }
  }

  lemma ResponseIsDone(cfg: Config, sc: Script, attempt: nat, limit: nat, t: seq<Event>)
    requires CalledOnce(cfg, attempt, limit, t) && Last(t) == Some(Asked(false))
    ensures AttemptDone(cfg, attempt, limit, AfterResponse(cfg, sc, attempt, limit, t))
  {
    var (resolution, said) := sc.resolutions(Count(cfg, t).resolved);
    var t1 := Add(cfg, t, Resolved(resolution, said));
    assert CalledOnce(cfg, attempt, limit, t1);
    if resolution.ResolveRaised? {
      ExceptionIsDone(cfg, sc, resolution.fatal, said, attempt, limit, t1);
    } else {
      AskedIsDone(cfg, sc, attempt, limit, t1);
      if !StopsNow(cfg, sc, t1) {
        var t2 := Ask(cfg, sc, t1);
        if resolution.Result? {
          RecordedIsDone(cfg, Returned(resolution.text), Success, Resolved(resolution, said), attempt, limit, t2);
        } else {
          NoResultIsDone(cfg, sc, said, attempt, limit, t2);
        }
      }
    }
  }

  /** One pass of the loop ends well or goes on with attempts left. */
  lemma AttemptIsDone(cfg: Config, sc: Script, attempt: nat, limit: nat, t: seq<Event>)
    requires AttemptReady(cfg, attempt, limit, t)
    ensures AttemptDone(cfg, attempt, limit, OneAttempt(cfg, sc, attempt, limit, t))
  {
    var t1 := Ask(cfg, sc, t);
    if !StopsNow(cfg, sc, t) {
      var (reply, said) := sc.replies(Count(cfg, t1).calls);
      var t2 := Add(cfg, t1, Called(reply, said));
      if reply.CallRaised? {
        ExceptionIsDone(cfg, sc, reply.fatal, said, attempt, limit, t2);
      } else if !StopsNow(cfg, sc, t2) {
        if reply.NoResponse? {
          NoResponseIsDone(cfg, sc, said, attempt, limit, Ask(cfg, sc, t2));
        } else {
          ResponseIsDone(cfg, sc, attempt, limit, Ask(cfg, sc, t2));
        }
      }
    }
  }

  lemma NextIsReady(cfg: Config, attempt: nat, limit: nat, e: Ending)
    requires e.GoesOn? && AttemptDone(cfg, attempt, limit, e)
    ensures AttemptReady(cfg, attempt + 1, limit, e.trace)
  {}

  lemma {:induction false} LoopEndsWell(cfg: Config, pass: (nat, seq<Event>) -> Ending, attempt: nat, limit: nat,
                                        t: seq<Event>)
    requires forall a, u :: AttemptReady(cfg, a, limit, u) ==> AttemptDone(cfg, a, limit, pass(a, u))
    requires AttemptReady(cfg, attempt, limit, t)
    ensures var (outcome, u) := Loop(pass, attempt, limit, t);
      Count(cfg, u).calls <= limit && EndsWell(cfg, limit, outcome, u)
    decreases limit - attempt
  {
    var e := pass(attempt, t);
    if e.GoesOn? {
      NextIsReady(cfg, attempt, limit, e);
      LoopEndsWell(cfg, pass, attempt + 1, limit, e.trace);
    }
  }

  /** Whatever the script, a call makes at most `max(1, retries)` calls of the backend and ends well. */
  lemma CallEndsWell(cfg: Config, sc: Script, maxRetries: Option<int>)
    ensures var (outcome, t) := Played(cfg, sc, maxRetries);
      Count(cfg, t).calls <= Attempts(cfg, maxRetries) && EndsWell(cfg, Attempts(cfg, maxRetries), outcome, t)
  {
    var limit := Attempts(cfg, maxRetries);
    forall a, u | AttemptReady(cfg, a, limit, u) ensures AttemptDone(cfg, a, limit, Pass(cfg, sc, limit)(a, u)) {
      AttemptIsDone(cfg, sc, a, limit, u);
    }
    LoopEndsWell(cfg, Pass(cfg, sc, limit), 1, limit, []);
  }

  // ---- The code ----

  method AskUser(cfg: Config, sc: Script, before: seq<Event>) returns (cancelled: bool, trace: seq<Event>)
    ensures cancelled == StopsNow(cfg, sc, before) && trace == Ask(cfg, sc, before)
  {
    cancelled := sc.cancelled(Count(cfg, before).asked);
    trace := Add(cfg, before, Asked(cancelled));
  }

  /** `_wait_backoff`. */
  method WaitBackoff(cfg: Config, sc: Script, seconds: real, before: seq<Event>) returns (go: bool, trace: seq<Event>)
    requires !Count(cfg, before).cancelled
    ensures trace == Waited(cfg, sc, MaxReal(0.0, seconds), before) && go == !Count(cfg, trace).cancelled
  {
    trace := before;
    var remaining := MaxReal(0.0, seconds);
    var cancelled: bool;
    while remaining > 0.0
      invariant remaining >= 0.0 && !Count(cfg, trace).cancelled
      invariant Waited(cfg, sc, remaining, trace) == Waited(cfg, sc, MaxReal(0.0, seconds), before)
      decreases Ticks(remaining)
    {
      cancelled, trace := AskUser(cfg, sc, trace);
      if cancelled {
        return false, trace;
      }
      var interval := if remaining < 0.1 then remaining else 0.1;
      trace := Add(cfg, trace, Slept(interval));
      TickDone(remaining);
      remaining := remaining - interval;
    }
    cancelled, trace := AskUser(cfg, sc, trace);
    go := !cancelled;
  }

  /** `AgentCallService.call`. */
  method Call(cfg: Config, sc: Script, maxRetries: Option<int>) returns (outcome: Outcome, trace: seq<Event>)
    ensures (outcome, trace) == Played(cfg, sc, maxRetries)
    ensures Count(cfg, trace).calls <= Attempts(cfg, maxRetries)
    ensures EndsWell(cfg, Attempts(cfg, maxRetries), outcome, trace)
  {
    var limit := Attempts(cfg, maxRetries);
    CallEndsWell(cfg, sc, maxRetries);
    trace := [];
    var attempt := 1;
    while attempt <= limit
      invariant AttemptReady(cfg, attempt, limit, trace)
      invariant Loop(Pass(cfg, sc, limit), attempt, limit, trace) == Played(cfg, sc, maxRetries)
      decreases limit - attempt
    {
      AttemptIsDone(cfg, sc, attempt, limit, trace);
      var e := Attempt(cfg, sc, attempt, limit, trace);
      if e.Over? {
        return e.outcome, e.trace;
      }
      trace := e.trace;
      attempt := attempt + 1;
    }
    assert false;
  }

  /** One pass of the loop. */
  method Attempt(cfg: Config, sc: Script, attempt: nat, limit: nat, before: seq<Event>) returns (e: Ending)
    requires !Count(cfg, before).cancelled
    ensures e == OneAttempt(cfg, sc, attempt, limit, before)
  {
    var cancelled, trace := AskUser(cfg, sc, before);
    if cancelled {
      return Over(Nothing, trace);
    }
    var (reply, said) := sc.replies(Count(cfg, trace).calls);
    trace := Add(cfg, trace, Called(reply, said));
    if reply.CallRaised? {
      e := HandleException(cfg, sc, reply.fatal, said, attempt, limit, trace);
      return;
    }
    cancelled, trace := AskUser(cfg, sc, trace);
    if cancelled {
      return Over(Nothing, trace);
    }
    if reply.NoResponse? {
      e := HandleNoResponse(cfg, sc, said, attempt, limit, trace);
    } else {
      e := HandleResponse(cfg, sc, attempt, limit, trace);
    }
  }

  method Retry(cfg: Config, sc: Script, reason: Reason, attempt: nat, said: Limit, before: seq<Event>)
    returns (e: Ending)
    requires !Count(cfg, before).cancelled
    ensures e == Retried(cfg, sc, reason, attempt, said, before)
  {
    var trace := Add(cfg, before, Backoff(reason, attempt, said));
    var go: bool;
    go, trace := WaitBackoff(cfg, sc, ComputeBackoff(cfg, said, attempt), trace);
    e := if go then GoesOn(trace) else Over(Nothing, trace);
  }

  method HandleNoResponse(cfg: Config, sc: Script, said: Limit, attempt: nat, limit: nat, before: seq<Event>)
    returns (e: Ending)
    requires !Count(cfg, before).cancelled
    ensures e == AfterNoResponse(cfg, sc, said, attempt, limit, before)
  {
    var cancelled, trace := AskUser(cfg, sc, before);
    if cancelled {
      return Over(Nothing, trace);
    }
    if GivesUp(cfg, said) {
      return Over(Nothing, Add(cfg, trace, Recorded(RateLimited)));
    }
    if attempt < limit {
      e := Retry(cfg, sc, NoReply, attempt, said, trace);
      return;
    }
    e := Over(Nothing, Add(cfg, trace, Recorded(Exhausted(said))));
  }

  method HandleResponse(cfg: Config, sc: Script, attempt: nat, limit: nat, before: seq<Event>) returns (e: Ending)
    requires !Count(cfg, before).cancelled
    ensures e == AfterResponse(cfg, sc, attempt, limit, before)
  {
    var (resolution, said) := sc.resolutions(Count(cfg, before).resolved);
    var trace := Add(cfg, before, Resolved(resolution, said));
    if resolution.ResolveRaised? {
      e := HandleException(cfg, sc, resolution.fatal, said, attempt, limit, trace);
      return;
    }
    var cancelled: bool;
    cancelled, trace := AskUser(cfg, sc, trace);
    if cancelled {
      return Over(Nothing, trace);
    }
    if resolution.NoResult? {
      cancelled, trace := AskUser(cfg, sc, trace);
      if cancelled {
        return Over(Nothing, trace);
      }
      if attempt < limit {
        e := Retry(cfg, sc, InvalidResponse, attempt, said, trace);
        return;
      }
      return Over(Nothing, Add(cfg, trace, Recorded(Failure)));
    }
    e := Over(Returned(resolution.text), Add(cfg, trace, Recorded(Success)));
  }

  method HandleException(cfg: Config, sc: Script, fatal: bool, said: Limit, attempt: nat, limit: nat,
                         before: seq<Event>)
    returns (e: Ending)
    requires !Count(cfg, before).cancelled
    ensures e == AfterException(cfg, sc, fatal, said, attempt, limit, before)
  {
    var cancelled, trace := AskUser(cfg, sc, before);
    if cancelled {
      return Over(Nothing, trace);
    }
    if fatal {
      return Over(Nothing, Add(cfg, trace, Recorded(Failure)));
    }
    if GivesUp(cfg, said) {
      return Over(Nothing, Add(cfg, trace, Recorded(RateLimited)));
    }
    if attempt < limit {
      e := Retry(cfg, sc, CommError, attempt, said, trace);
      return;
    }
    e := Over(Raised, Add(cfg, trace, Recorded(Exhausted(said))));
  }
}
