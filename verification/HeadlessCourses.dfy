/** The courses a headless turn can take, from the start or from any moment, to its result. */
module HeadlessCourses {
  import opened Headless
  import opened HeadlessRuns
  import opened Options

  /** Why an attempt failed, when its call came back with `raw`. */
  function ErrorOf(raw: Raw): string {
    match raw
    case Raised(message) => message
    case NoResponse => "no response"
    case Said(_) => "empty response"
  }

  /** The failed attempts of the first `n` candidates. */
  function Tried(candidates: seq<string>, raws: seq<Raw>, n: nat): seq<Attempt>
    requires n <= |candidates| && n <= |raws|
  {
    seq(n, i requires 0 <= i < n => Attempt(candidates[i], false, Some(ErrorOf(raws[i]))))
  }

  lemma TriedOneMore(candidates: seq<string>, raws: seq<Raw>, n: nat)
    requires n < |candidates| && n < |raws|
    ensures Tried(candidates, raws, n + 1) ==
      Tried(candidates, raws, n) + [Attempt(candidates[n], false, Some(ErrorOf(raws[n])))]
  {}

  /** Nobody stops the turn, and the first `i` candidates have failed. */
  predicate TryingFrom(s: State, candidates: seq<string>, raws: seq<Raw>, i: nat) {
    && s.candidates == candidates && |raws| == |candidates| && i <= |candidates| && s.worker == Starting(i)
    && s.main.Joining? && s.cut.None? && !s.closeFailed
    && s.progress == Progress(Tried(candidates, raws, i), None, None, None, false)
  }

  /** The first candidate whose call comes back with an answer, if any. */
  predicate FirstToAnswer(raws: seq<Raw>, k: nat) {
    k < |raws| && IsAnswer(raws[k]) && forall j :: 0 <= j < k ==> !IsAnswer(raws[j])
  }

  /** Where the worker ends: at the first answer, or behind the last candidate. */
  ghost predicate EndsTrying(t: State, candidates: seq<string>, raws: seq<Raw>)
    requires |raws| == |candidates|
  {
    && t.worker.Exited? && t.main.Joining? && t.cut.None? && !t.closeFailed
    && ((forall j :: 0 <= j < |raws| ==> !IsAnswer(raws[j])) ==>
          t.progress == Progress(Tried(candidates, raws, |raws|), None, None, None, false))
    && (forall k: nat :: FirstToAnswer(raws, k) ==>
          t.progress == Progress(Tried(candidates, raws, k) + [Attempt(candidates[k], true, None)], None,
                                 Some(candidates[k]), Some(raws[k].text), false))
  }

  lemma OneTry(s: State, candidates: seq<string>, raws: seq<Raw>, i: nat) returns (steps: seq<Step>, t: State)
    requires TryingFrom(s, candidates, raws, i) && i < |raws|
    ensures Run(s, steps, t)
    ensures !IsAnswer(raws[i]) ==> TryingFrom(t, candidates, raws, i + 1)
    ensures IsAnswer(raws[i]) ==>
      t == s.(worker := Exited,
              progress := Progress(Tried(candidates, raws, i) + [Attempt(candidates[i], true, None)], None,
                                   Some(candidates[i]), Some(raws[i].text), false))
  {
    AnswersAreJudged(raws[i]);
    TriedOneMore(candidates, raws, i);
    var s1 := Next(s, BeginNext);
    var s2 := Next(s1, Return(raws[i]));
    var s3 := Next(s2, FinishOne);
    var on := if IsAnswer(raws[i]) then Persisted else Warned;
    t := Next(s3, on);
    steps := Before(s3, on, t, [], t);
    steps := Before(s2, FinishOne, s3, steps, t);
    steps := Before(s1, Return(raws[i]), s2, steps, t);
    steps := Before(s, BeginNext, s1, steps, t);
  }

  lemma {:induction false} TriesOn(s: State, candidates: seq<string>, raws: seq<Raw>, i: nat)
    returns (steps: seq<Step>, t: State)
    requires TryingFrom(s, candidates, raws, i) && forall j :: 0 <= j < i ==> !IsAnswer(raws[j])
    ensures Run(s, steps, t) && EndsTrying(t, candidates, raws)
    decreases |raws| - i
  {
    if i == |raws| {
      t := Next(s, BeginNext);
      steps := Before(s, BeginNext, t, [], t);
    } else {
      var first, u := OneTry(s, candidates, raws, i);
      if IsAnswer(raws[i]) {
        steps, t := first, u;
      } else {
        var rest: seq<Step>;
        rest, t := TriesOn(u, candidates, raws, i + 1);
        Then(s, first, u, rest, t);
        steps := first + rest;
      }
    }
  }

  /** Whatever the calls come back with, a turn nobody disturbs ends with the first answer and 0, all
      candidates before it listed as failed and none after it tried; or without one and 1. */
  lemma AnUndisturbedTurn(candidates: seq<string>, raws: seq<Raw>) returns (steps: seq<Step>, s: State)
    requires |raws| == |candidates|
    ensures Run(Initial(candidates), steps, s) && s.main.Finished?
    ensures (forall j :: 0 <= j < |raws| ==> !IsAnswer(raws[j])) ==>
      s.main.result == Result(false, None, None, Tried(candidates, raws, |raws|), Some("no candidate answered"), 1)
    ensures forall k: nat :: FirstToAnswer(raws, k) ==>
      s.main.result == Result(true, Some(candidates[k]), Some(raws[k].text),
                              Tried(candidates, raws, k) + [Attempt(candidates[k], true, None)], None, 0)
  {
    var start := Initial(candidates);
    var ready := Next(start, Open);
    var tries, t := TriesOn(ready, candidates, raws, 0);
    var rest: seq<Step>;
    rest, s := EndsQuietly(t);
    Then(ready, tries, t, rest, s);
    steps := Before(start, Open, ready, tries + rest, s);
  }

  lemma EndsQuietly(t: State) returns (steps: seq<Step>, s: State)
    requires t.worker.Exited? && t.main.Joining? && t.cut.None? && !t.closeFailed
    ensures Run(t, steps, s) && steps == [WorkerEnded, Close, Assemble]
    ensures s == t.(main := Finished(if t.progress.response.Some?
      then Result(true, t.progress.agent, t.progress.response, t.progress.attempts, None, 0)
      else Result(false, None, None, t.progress.attempts, Some("no candidate answered"), 1)))
  {
    var t1 := Next(t, WorkerEnded);
    var t2 := Next(t1, Close);
    s := Next(t2, Assemble);
    steps := Before(t2, Assemble, s, [], s);
    steps := Before(t1, Close, t2, steps, s);
    steps := Before(t, WorkerEnded, t1, steps, s);
  }

  // ---- Turns that are cut ----

  function CutBy(cause: Cause): Step { if cause.TimedOut? then Expire else Signal(cause) }

  predicate MayBeCut(s: State, cause: Cause) { s.main.Joining? && (cause.TimedOut? ==> Alive(s.worker)) }

  function ReasonOf(cause: Cause): string {
    match cause
    case TimedOut => "timeout"
    case Interrupted => "interrupted"
    case Terminated => "terminated"
  }

  function CodeOf(cause: Cause): int {
    match cause
    case TimedOut => 124
    case Interrupted => 130
    case Terminated => 143
  }

  /** What the end of a stop makes of the turn. */
  function Outcome(s: State): Result
    requires s.main.Draining?
  {
    if s.main.answered then Result(true, s.progress.agent, s.progress.response, s.progress.attempts, None, 0)
    else Result(false, None, None, s.progress.attempts, Some(ReasonOf(s.main.cause)), CodeOf(s.main.cause))
  }

  lemma DrainsAndEnds(s: State) returns (t: State, steps: seq<Step>)
    requires s.main.Draining? && s.cut.None? && !s.closeFailed
    requires s.main.answered ==> s.progress.response.Some? && !s.worker.Crashed?
    ensures Run(s, steps, t) && steps == [Drained, Close, Assemble]
    ensures t.progress == s.progress && t.worker == s.worker && t.main == Finished(Outcome(s))
  {
    var s1 := Next(s, Drained);
    var s2 := Next(s1, Close);
    t := Next(s2, Assemble);
    steps := Before(s2, Assemble, t, [], t);
    steps := Before(s1, Close, s2, steps, t);
    steps := Before(s, Drained, s1, steps, t);
  }

  /** A timeout or a signal before there is an answer ends the turn, wherever the worker is, with the attempt in
      progress, if any, as the last. */
  lemma ATurnThatIsCut(s: State, cause: Cause) returns (t: State)
    requires Reachable(s) && MayBeCut(s, cause) && s.progress.response.None?
    ensures Run(s, [CutBy(cause), TakeStopLock, RecordCurrent, Drained, Close, Assemble], t)
    ensures var attempts := s.progress.attempts +
        if s.progress.current.None? then [] else [Attempt(s.progress.current.value, false, Some(ReasonOf(cause)))];
      && t.worker == s.worker && t.progress.stopped && t.progress.attempts == attempts
      && t.main == Finished(Result(false, None, None, attempts, Some(ReasonOf(cause)), CodeOf(cause)))
  {
    ReachableInv(s);
    var s1 := Next(s, CutBy(cause));
    var s2 := Next(s1, TakeStopLock);
    var s3 := Next(s2, RecordCurrent);
    var steps: seq<Step>;
    t, steps := DrainsAndEnds(s3);
    steps := Before(s2, RecordCurrent, s3, steps, t);
    steps := Before(s1, TakeStopLock, s2, steps, t);
    steps := Before(s, CutBy(cause), s1, steps, t);
    assert steps == [CutBy(cause), TakeStopLock, RecordCurrent, Drained, Close, Assemble];
  }

  /** With an answer already there the cut comes too late: the turn is good. */
  lemma ACutThatComesTooLate(s: State, cause: Cause) returns (t: State)
    requires Reachable(s) && MayBeCut(s, cause) && s.progress.response.Some? && !s.worker.Crashed?
    ensures Run(s, [CutBy(cause), TakeStopLock, Drained, Close, Assemble], t) && t.progress == s.progress
    ensures t.main ==
      Finished(Result(true, s.progress.agent, s.progress.response, s.progress.attempts, None, 0))
  {
    ReachableInv(s);
    var s1 := Next(s, CutBy(cause));
    var s2 := Next(s1, TakeStopLock);
    var steps: seq<Step>;
    t, steps := DrainsAndEnds(s2);
    steps := Before(s1, TakeStopLock, s2, steps, t);
    steps := Before(s, CutBy(cause), s1, steps, t);
    assert steps == [CutBy(cause), TakeStopLock, Drained, Close, Assemble];
  }

  /** A worker that crashes, before the loop, in a call or after one, ends the turn with its message and 1, or,
      when the close is interrupted, with 130. */
  lemma ATurnThatCrashes(s: State, message: string, interrupted: bool) returns (t: State)
    requires Reachable(s) && s.main.Joining?
    requires s.worker.Opening? || s.worker.Calling? || s.worker.Persisting? || s.worker.Warning?
    ensures var close := if interrupted then CloseInterrupted else Close;
      Run(s, [Crash(message), WorkerEnded, close, Assemble], t)
    ensures t.main == Finished(Result(false, None, None, s.progress.attempts,
                                      Some(if interrupted then "interrupted while closing" else message),
                                      if interrupted then 130 else 1))
  {
    ReachableInv(s);
    var close := if interrupted then CloseInterrupted else Close;
    var s1 := Next(s, Crash(message));
    var s2 := Next(s1, WorkerEnded);
    var s3 := Next(s2, close);
    t := Next(s3, Assemble);
    var steps := Before(s3, Assemble, t, [], t);
    steps := Before(s2, close, s3, steps, t);
    steps := Before(s1, WorkerEnded, s2, steps, t);
    steps := Before(s, Crash(message), s1, steps, t);
    assert steps == [Crash(message), WorkerEnded, close, Assemble];
  }
}
