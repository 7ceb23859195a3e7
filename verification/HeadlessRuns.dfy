/** What the result of a headless turn says about the events of its run. */
module HeadlessRuns {
  import opened Headless
  import opened Options
  import opened Text

  // ---- Events ----

  /** The event happens in the course of these steps. */
  ghost predicate Happens(s: State, steps: seq<Step>, event: (State, Step) -> bool)
    decreases |steps|
  {
    steps != [] && Enabled(s, steps[0]) && (event(s, steps[0]) || Happens(Next(s, steps[0]), steps[1..], event))
  }

  /** The worker records an answer: it takes the lock with one before a stop without a response does. */
  const RecordsAnAnswer := (s: State, step: Step) =>
    step.FinishOne? && s.worker.Judged? && s.worker.verdict.Answer? && !s.progress.stopped

  const Crashes := (s: State, step: Step) => step.Crash?

  const InterruptsTheClose := (s: State, step: Step) => step.CloseInterrupted?

  /** A signal reaches the stop that an earlier signal began. */
  const SignalsAgain := (s: State, step: Step) =>
    step.Signal? && (s.main.Stopping? || s.main.Recording? || s.main.Draining?) && !s.main.cause.TimedOut?

  lemma {:induction false} ResponseIsRecorded(s: State, steps: seq<Step>, t: State)
    requires Inv(s) && Run(s, steps, t)
    ensures t.progress.response.Some? <==> s.progress.response.Some? || Happens(s, steps, RecordsAnAnswer)
    decreases |steps|
  {
    if steps != [] {
      StepKeepsInv(s, steps[0]);
      ResponseIsRecorded(Next(s, steps[0]), steps[1..], t);
    }
  }

  /** What an agent returns is an answer when it is a text with a character that is not a space. */
  predicate IsAnswer(raw: Raw) { raw.Said? && exists k :: 0 <= k < |raw.text| && !IsSpace(raw.text[k]) }

  /** The answer the worker records: it finishes a call that returned one (`last` is what the call under
      way has returned) while no stop without a response has taken the lock. */
  ghost function Answered(s: State, steps: seq<Step>, last: Option<Raw>): Option<string>
    decreases |steps|
  {
    if steps == [] || !Enabled(s, steps[0]) then None
    else if steps[0].FinishOne? && !s.progress.stopped && last.Some? && IsAnswer(last.value) then Some(last.value.text)
    else Answered(Next(s, steps[0]), steps[1..], if steps[0].Return? then Some(steps[0].raw) else last)
  }

  /** The worker judges what was returned. */
  predicate Remembers(s: State, last: Option<Raw>) {
    s.worker.Judged? ==> last.Some? && s.worker.verdict == Judge(last.value)
  }

  lemma {:induction false} AnswerIsWhatWasReturned(s: State, steps: seq<Step>, t: State, last: Option<Raw>)
    requires Inv(s) && Run(s, steps, t) && Remembers(s, last)
    ensures Answered(s, steps, last).Some? <==> Happens(s, steps, RecordsAnAnswer)
    ensures s.progress.response.None? ==> t.progress.response == Answered(s, steps, last)
    ensures s.progress.response.Some? ==> t.progress.response == s.progress.response
    decreases |steps|
  {
    if steps != [] {
      StepKeepsInv(s, steps[0]);
      ReturnIsRemembered(s, steps[0], last);
      AnswerIsWhatWasReturned(Next(s, steps[0]), steps[1..], t, if steps[0].Return? then Some(steps[0].raw) else last);
    }
  }

  lemma ReturnIsRemembered(s: State, step: Step, last: Option<Raw>)
    requires Inv(s) && Enabled(s, step) && Remembers(s, last)
    ensures Remembers(Next(s, step), if step.Return? then Some(step.raw) else last)
    ensures var records := step.FinishOne? && !s.progress.stopped && last.Some? && IsAnswer(last.value);
      && (records <==> RecordsAnAnswer(s, step))
      && (records ==> s.progress.response.None? && Next(s, step).progress.response == Some(last.value.text))
      && (!records ==> Next(s, step).progress.response == s.progress.response)
  {
    if last.Some? { AnswersAreJudged(last.value); }
  }

  lemma AnswersAreJudged(raw: Raw)
    ensures IsAnswer(raw) ==> Judge(raw) == Answer(raw.text)
    ensures !IsAnswer(raw) ==> Judge(raw) == Failure(
      if raw.Raised? then raw.message else if raw.NoResponse? then "no response" else "empty response")
  {}

  lemma {:induction false} CrashIsSeen(s: State, steps: seq<Step>, t: State)
    requires Run(s, steps, t)
    ensures t.worker.Crashed? <==> s.worker.Crashed? || Happens(s, steps, Crashes)
    ensures t.closeFailed <==> s.closeFailed || Happens(s, steps, InterruptsTheClose)
    decreases |steps|
  {
    if steps != [] { CrashIsSeen(Next(s, steps[0]), steps[1..], t); }
  }

  /** A cut comes from a stop that found no response, or from a second signal, and stays. */
  lemma {:induction false} CutHasACause(s: State, steps: seq<Step>, t: State)
    requires Inv(s) && Run(s, steps, t) && (s.cut.Some? ==> s.progress.stopped)
    ensures t.cut.Some? ==> t.progress.stopped || Happens(s, steps, SignalsAgain)
    decreases |steps|
  {
    if steps != [] {
      StepKeepsInv(s, steps[0]);
      if !SignalsAgain(s, steps[0]) { CutHasACause(Next(s, steps[0]), steps[1..], t); }
    }
  }

  lemma {:induction false} CutStays(s: State, steps: seq<Step>, t: State)
    requires Inv(s) && Run(s, steps, t)
    ensures s.cut.Some? || Happens(s, steps, SignalsAgain) ==> t.cut.Some?
    decreases |steps|
  {
    if steps != [] {
      StepKeepsInv(s, steps[0]);
      CutStays(Next(s, steps[0]), steps[1..], t);
    }
  }

  // ---- Main results ----

  /** The result of a turn is good, with exit code 0, exactly when in its run an answer was recorded,
      one that an agent returned with a character in it that is not a space,
      the worker did not crash, no signal interrupted the close, and no signal reached the stop of
      another; that answer is then the response, of the last attempt. */
  lemma ResultIsOkExactlyWhen(candidates: seq<string>, steps: seq<Step>, s: State)
    requires Run(Initial(candidates), steps, s) && Enabled(s, Assemble)
    ensures var r, start := Next(s, Assemble).main.result, Initial(candidates);
      && (r.ok <==>
            && Answered(start, steps, None).Some? && !Happens(start, steps, Crashes)
            && !Happens(start, steps, InterruptsTheClose) && !Happens(start, steps, SignalsAgain))
      && (r.ok <==> r.exitCode == EXIT_OK)
      && (r.ok <==> r.error.None?)
      && r.attempts == s.progress.attempts
      && (r.ok ==>
            && r.response == Answered(start, steps, None) && r.attempts != []
            && r.agent == Some(r.attempts[|r.attempts| - 1].agent) && r.attempts[|r.attempts| - 1].ok)
  {
    var start := Initial(candidates);
    RunKeepsInv(start, steps, s);
    ResponseIsRecorded(start, steps, s);
    AnswerIsWhatWasReturned(start, steps, s, None);
    CrashIsSeen(start, steps, s);
    CutHasACause(start, steps, s);
    CutStays(start, steps, s);
  }

  /** An answer that was recorded, in a run without a crash or an interrupted close, is lost exactly
      when a signal reached the stop of another: the attempt is reported as good, the turn as cut. */
  lemma RecordedAnswerIsLostExactlyWhen(candidates: seq<string>, steps: seq<Step>, s: State)
    requires Run(Initial(candidates), steps, s) && Enabled(s, Assemble)
    requires var start := Initial(candidates);
      && Answered(start, steps, None).Some? && !Happens(start, steps, Crashes)
      && !Happens(start, steps, InterruptsTheClose)
    ensures var r := Next(s, Assemble).main.result;
      && (r.response.None? <==> Happens(Initial(candidates), steps, SignalsAgain))
      && r.attempts != [] && r.attempts[|r.attempts| - 1].ok
      && (r.response.None? ==>
            s.cut.Some? && r.exitCode == ExitCode(s.cut.value) && r.error == Some(Reason(s.cut.value)))
  {
    var start := Initial(candidates);
    RunKeepsInv(start, steps, s);
    ResponseIsRecorded(start, steps, s);
    AnswerIsWhatWasReturned(start, steps, s, None);
    CutStays(start, steps, s);
    ResultIsOkExactlyWhen(candidates, steps, s);
  }

  /** It does happen: the answer is recorded, a Ctrl+C finds it, and a second one loses it. */
  lemma ARecordedAnswerMayBeLost() returns (steps: seq<Step>, s: State)
    ensures Run(Initial(["agent"]), steps, s) && Enabled(s, Assemble)
    ensures s.progress.response == Some("x") && !s.progress.stopped
    ensures var r := Next(s, Assemble).main.result;
      r.response.None? && r.exitCode == EXIT_INTERRUPTED && r.attempts == [Attempt("agent", true, None)]
  {
    var start := Initial(["agent"]);
    var worker := [Open, BeginNext, Return(Said("x")), FinishOne];
    var s4 := State(["agent"], Progress([Attempt("agent", true, None)], None, Some("agent"), Some("x"), false),
                    Persisting, Joining, None, false);
    AnswerIsRecorded(start, worker, s4);
    var main := [Signal(Interrupted), TakeStopLock, Signal(Interrupted), Close];
    s := s4.(main := Closed, cut := Some(Interrupted));
    SignalledTwice(s4, main, s);
    Then(start, worker, s4, main, s);
    steps := worker + main;
  }

  lemma AnswerIsRecorded(start: State, worker: seq<Step>, s4: State)
    requires start == Initial(["agent"]) && worker == [Open, BeginNext, Return(Said("x")), FinishOne]
    requires s4 == State(["agent"], Progress([Attempt("agent", true, None)], None, Some("agent"), Some("x"), false),
                         Persisting, Joining, None, false)
    ensures Run(start, worker, s4)
  {
    var s1 := Next(start, Open);
    var s2 := Next(s1, BeginNext);
    assert "x"[0] == 'x' && !Blank("x");
    assert Judge(Said("x")) == Answer("x");
    var s3 := Next(s2, Return(Said("x")));
    assert Next(s3, FinishOne) == s4;
    assert worker[1..] == [BeginNext, Return(Said("x")), FinishOne];
    assert worker[1..][1..] == [Return(Said("x")), FinishOne];
    assert worker[1..][1..][1..] == [FinishOne];
    assert worker[1..][1..][1..][1..] == [];
    assert Run(s3, [FinishOne], s4);
    assert Run(s2, [Return(Said("x")), FinishOne], s4);
  }

  lemma SignalledTwice(s4: State, main: seq<Step>, s: State)
    requires s4.main.Joining? && s4.progress.response.Some? && s4.cut.None?
    requires main == [Signal(Interrupted), TakeStopLock, Signal(Interrupted), Close]
    requires s == s4.(main := Closed, cut := Some(Interrupted))
    ensures Run(s4, main, s)
  {
    var s5 := Next(s4, Signal(Interrupted));
    var s6 := Next(s5, TakeStopLock);
    var s7 := Next(s6, Signal(Interrupted));
    assert Next(s7, Close) == s;
    assert main[1..] == [TakeStopLock, Signal(Interrupted), Close];
    assert main[1..][1..] == [Signal(Interrupted), Close];
    assert main[1..][1..][1..] == [Close];
    assert main[1..][1..][1..][1..] == [];
    assert Run(s7, [Close], s);
    assert Run(s6, [Signal(Interrupted), Close], s);
  }

  lemma {:induction false} Then(s: State, first: seq<Step>, u: State, rest: seq<Step>, t: State)
    requires Run(s, first, u) && Run(u, rest, t)
    ensures Run(s, first + rest, t)
    decreases |first|
  {
    if first == [] {
      assert first + rest == rest;
    } else {
      Then(Next(s, first[0]), first[1..], u, rest, t);
      assert (first + rest)[1..] == first[1..] + rest;
    }
  }

  lemma Before(s: State, step: Step, u: State, rest: seq<Step>, t: State) returns (steps: seq<Step>)
    requires Enabled(s, step) && Next(s, step) == u && Run(u, rest, t)
    ensures Run(s, steps, t) && steps == [step] + rest
  {
    steps := [step] + rest;
    assert steps[1..] == rest;
  }

  // ---- What a return leads to ----

  /** A call that returns an answer ends the turn with a good attempt and that answer. */
  lemma AnAnswerEndsTheTurn(s: State, raw: Raw) returns (t: State)
    requires Reachable(s) && s.worker.Calling? && !s.progress.stopped && IsAnswer(raw)
    ensures Run(s, [Return(raw), FinishOne, Persisted], t) && t.worker.Exited? && t.main == s.main
    ensures s.worker.i < |s.candidates|
    ensures t.progress == Progress(s.progress.attempts + [Attempt(s.candidates[s.worker.i], true, None)], None,
                                   Some(s.candidates[s.worker.i]), Some(raw.text), false)
  {
    ReachableInv(s);
    AnswersAreJudged(raw);
    var s1 := Next(s, Return(raw));
    var s2 := Next(s1, FinishOne);
    t := Next(s2, Persisted);
    var last := Before(s2, Persisted, t, [], t);
    last := Before(s1, FinishOne, s2, last, t);
    last := Before(s, Return(raw), s1, last, t);
    assert last == [Return(raw), FinishOne, Persisted];
  }

  /** A call that returns anything else has a failed attempt, and the next candidate, if any, is started. */
  lemma AFailureTriesTheNext(s: State, raw: Raw) returns (t: State)
    requires Reachable(s) && s.worker.Calling? && !s.progress.stopped && !IsAnswer(raw)
    ensures Run(s, [Return(raw), FinishOne, Warned, BeginNext], t) && t.main == s.main
    ensures s.worker.i < |s.candidates|
    ensures var error :=
        if raw.Raised? then raw.message else if raw.NoResponse? then "no response" else "empty response";
      && t.progress.attempts == s.progress.attempts + [Attempt(s.candidates[s.worker.i], false, Some(error))]
      && t.progress.response.None? && !t.progress.stopped
      && if s.worker.i + 1 < |s.candidates|
         then t.worker == Calling(s.worker.i + 1) && t.progress.current == Some(s.candidates[s.worker.i + 1])
         else t.worker.Exited? && t.progress.current.None?
  {
    ReachableInv(s);
    AnswersAreJudged(raw);
    var s1 := Next(s, Return(raw));
    var s2 := Next(s1, FinishOne);
    var s3 := Next(s2, Warned);
    t := Next(s3, BeginNext);
    var last := Before(s3, BeginNext, t, [], t);
    last := Before(s2, Warned, s3, last, t);
    last := Before(s1, FinishOne, s2, last, t);
    last := Before(s, Return(raw), s1, last, t);
    assert last == [Return(raw), FinishOne, Warned, BeginNext];
  }

  // ---- What the exit code tells ----

  /** What began the stop under way: the first signal, or the timeout when there was none. */
  ghost function Began(s: State, steps: seq<Step>, cause: Option<Cause>): Option<Cause>
    decreases |steps|
  {
    if steps == [] || !Enabled(s, steps[0]) then cause
    else Began(Next(s, steps[0]), steps[1..],
               if steps[0].Expire? then Some(TimedOut)
               else if steps[0].Signal? && (cause.None? || cause.value.TimedOut?) then Some(steps[0].cause) else cause)
  }

  predicate Stopped(s: State, cause: Option<Cause>) {
    && (s.main.Joining? ==> cause.None?)
    && (s.main.Stopping? || s.main.Recording? || s.main.Draining? ==> cause == Some(s.main.cause))
    && (s.cut.Some? ==> cause == s.cut)
  }

  lemma {:induction false} StopIsRemembered(s: State, steps: seq<Step>, t: State, cause: Option<Cause>)
    requires Inv(s) && Run(s, steps, t) && Stopped(s, cause)
    ensures Stopped(t, Began(s, steps, cause))
    decreases |steps|
  {
    if steps != [] {
      StepKeepsInv(s, steps[0]);
      var next := if steps[0].Expire? then Some(TimedOut)
        else if steps[0].Signal? && (cause.None? || cause.value.TimedOut?) then Some(steps[0].cause) else cause;
      assert Stopped(Next(s, steps[0]), next);
      StopIsRemembered(Next(s, steps[0]), steps[1..], t, next);
    }
  }

  /** The exit code of a turn that was cut names what began the stop: 124 a timeout, 130 a Ctrl+C and 143
      a SIGTERM; of others it is 0 when the result is good, 130 when the close was interrupted, else 1. */
  lemma ExitCodeTells(candidates: seq<string>, steps: seq<Step>, s: State)
    requires Run(Initial(candidates), steps, s) && Enabled(s, Assemble)
    ensures var r, start := Next(s, Assemble).main.result, Initial(candidates);
      && (s.cut.Some? ==> s.cut == Began(start, steps, None) && !r.ok && r.response.None?)
      && (s.cut == Some(TimedOut) ==> r.exitCode == 124 && r.error == Some("timeout"))
      && (s.cut == Some(Interrupted) ==> r.exitCode == 130 && r.error == Some("interrupted"))
      && (s.cut == Some(Terminated) ==> r.exitCode == 143 && r.error == Some("terminated"))
      && (s.cut.None? && r.ok ==> r.exitCode == 0)
      && (s.cut.None? && !r.ok ==> r.exitCode == if Happens(start, steps, InterruptsTheClose) then 130 else 1)
  {
    var start := Initial(candidates);
    RunKeepsInv(start, steps, s);
    StopIsRemembered(start, steps, s, None);
    CrashIsSeen(start, steps, s);
  }

  // ---- What a second signal leaves out ----

  /** A stop takes the lock and finds no response. */
  const TakesTheLock := (s: State, step: Step) => step.TakeStopLock? && s.progress.response.None?

  /** A signal ends the stop of another before it took the lock, while there is no response. */
  const CutsWithoutTheLock := (s: State, step: Step) =>
    step.Signal? && s.main.Stopping? && !s.main.cause.TimedOut? && !s.progress.stopped && s.progress.response.None?

  /** A signal ends the stop of another after the lock was taken and before the attempt in progress was
      recorded. */
  const SkipsTheRecord := (s: State, step: Step) =>
    step.Signal? && (s.main.Stopping? || s.main.Recording?) && !s.main.cause.TimedOut?
    && s.progress.stopped && s.progress.current.Some?

  const CrashesInACall := (s: State, step: Step) => step.Crash? && s.worker.Calling? && !s.progress.stopped

  /** The worker starts a candidate, ... */
  const Begins := (s: State, step: Step) =>
    step.BeginNext? && s.worker.Starting? && s.worker.i < |s.candidates| && !s.progress.stopped

  /** ... or it starts one or records something after the turn was cut. */
  const WorksAfterTheCut := (s: State, step: Step) =>
    (s.cut.Some? || s.progress.stopped)
    && (Begins(s, step) || (step.FinishOne? && s.worker.Judged? && !s.progress.stopped))

  ghost function Times(s: State, steps: seq<Step>, event: (State, Step) -> bool): nat
    decreases |steps|
  {
    if steps == [] || !Enabled(s, steps[0]) then 0
    else (if event(s, steps[0]) then 1 else 0) + Times(Next(s, steps[0]), steps[1..], event)
  }

  predicate InCall(w: Worker) { w.Calling? || w.Judged? }

  predicate Past(m: Main) { m.Closing? || m.Closed? || m.Finished? }

  /** Nothing that could still change the record is left to the worker. */
  predicate OutOfWork(s: State) {
    || s.progress.stopped || s.progress.response.Some? || !Alive(s.worker)
    || |s.progress.attempts| == |s.candidates|
  }

  lemma {:induction false} StartedAreCounted(s: State, steps: seq<Step>, t: State)
    requires Inv(s) && Run(s, steps, t)
    ensures Started(t.progress) == Started(s.progress) + Times(s, steps, Begins)
    decreases |steps|
  {
    if steps != [] {
      StepKeepsInv(s, steps[0]);
      StartedByAStep(s, steps[0]);
      StartedAreCounted(Next(s, steps[0]), steps[1..], t);
    }
  }

  lemma StartedByAStep(s: State, step: Step)
    requires Inv(s) && Enabled(s, step)
    ensures Started(Next(s, step).progress) == Started(s.progress) + if Begins(s, step) then 1 else 0
  {}

  lemma {:induction false} StopIsSeen(s: State, steps: seq<Step>, t: State)
    requires Run(s, steps, t)
    ensures t.progress.stopped <==> s.progress.stopped || Happens(s, steps, TakesTheLock)
    decreases |steps|
  {
    if steps != [] { StopIsSeen(Next(s, steps[0]), steps[1..], t); }
  }

  /** Without a stop only a crash leaves an attempt behind. */
  lemma {:induction false} CrashLeavesItsAttempt(s: State, steps: seq<Step>, t: State)
    requires Inv(s) && Run(s, steps, t) && !t.progress.stopped
    ensures t.worker.Crashed? && t.progress.current.Some? <==>
      (s.worker.Crashed? && s.progress.current.Some?) || Happens(s, steps, CrashesInACall)
    ensures !s.progress.stopped
    decreases |steps|
  {
    if steps != [] {
      StepKeepsInv(s, steps[0]);
      CrashLeavesItsAttempt(Next(s, steps[0]), steps[1..], t);
    }
  }

  predicate LeftOut(s: State) { Past(s.main) && s.progress.stopped && s.progress.current.Some? }

  lemma {:induction false} LeftOutHasACause(s: State, steps: seq<Step>, t: State)
    requires Inv(s) && Run(s, steps, t)
    ensures LeftOut(t) <==> LeftOut(s) || Happens(s, steps, SkipsTheRecord)
    decreases |steps|
  {
    if steps != [] {
      StepKeepsInv(s, steps[0]);
      LeftOutByAStep(s, steps[0]);
      LeftOutHasACause(Next(s, steps[0]), steps[1..], t);
    }
  }

  lemma LeftOutByAStep(s: State, step: Step)
    requires Inv(s) && Enabled(s, step)
    ensures LeftOut(Next(s, step)) <==> LeftOut(s) || SkipsTheRecord(s, step)
  {}

  /** A worker that still has work when the app closes was left by a signal. */
  lemma {:induction false} WorkIsLeftByASignal(s: State, steps: seq<Step>, t: State)
    requires Inv(s) && Run(s, steps, t) && (Past(s.main) ==> OutOfWork(s))
    ensures Past(t.main) && !OutOfWork(t) ==> Happens(s, steps, CutsWithoutTheLock)
    ensures Happens(s, steps, WorksAfterTheCut) ==> Happens(s, steps, CutsWithoutTheLock)
    decreases |steps|
  {
    if steps != [] {
      StepKeepsInv(s, steps[0]);
      if !CutsWithoutTheLock(s, steps[0]) {
        WorkLeftByAStep(s, steps[0]);
        WorkIsLeftByASignal(Next(s, steps[0]), steps[1..], t);
      }
    }
  }

  lemma WorkLeftByAStep(s: State, step: Step)
    requires Inv(s) && Enabled(s, step) && (Past(s.main) ==> OutOfWork(s)) && !CutsWithoutTheLock(s, step)
    ensures Past(Next(s, step).main) ==> OutOfWork(Next(s, step))
    ensures !WorksAfterTheCut(s, step)
  {}

  /** Over every run to its result each candidate that was started has its attempt exactly when no signal
      skipped the record, and either a stop took the lock or the worker neither is in a call nor
      crashed in one. A worker still in a call then was left by a signal that ended the stop of
      another before it took the lock. */
  lemma EveryStartIsRecordedExactlyWhen(candidates: seq<string>, steps: seq<Step>, s: State)
    requires Run(Initial(candidates), steps, s) && Enabled(s, Assemble)
    ensures var start := Initial(candidates);
      && (|Next(s, Assemble).main.result.attempts| == Times(start, steps, Begins) <==>
            && !Happens(start, steps, SkipsTheRecord)
            && (Happens(start, steps, TakesTheLock) || (!InCall(s.worker) && !Happens(start, steps, CrashesInACall))))
      && (InCall(s.worker) && !Happens(start, steps, TakesTheLock) ==> Happens(start, steps, CutsWithoutTheLock))
  {
    var start := Initial(candidates);
    RunKeepsInv(start, steps, s);
    StartedAreCounted(start, steps, s);
    StopIsSeen(start, steps, s);
    LeftOutHasACause(start, steps, s);
    WorkIsLeftByASignal(start, steps, s);
    if !s.progress.stopped { CrashLeavesItsAttempt(start, steps, s); }
  }

  /** So when no signal ends the stop of another before it took the lock, nothing is started or recorded
      after the cut; and when, besides, none skips the record and no call crashes the worker, every
      started candidate has its attempt. */
  lemma UndisturbedStopsLeaveNothingOut(candidates: seq<string>, steps: seq<Step>, s: State)
    requires Run(Initial(candidates), steps, s) && Enabled(s, Assemble)
    requires !Happens(Initial(candidates), steps, CutsWithoutTheLock)
    ensures var start := Initial(candidates);
      && !Happens(start, steps, WorksAfterTheCut)
      && (!Happens(start, steps, SkipsTheRecord) && !Happens(start, steps, CrashesInACall) ==>
            |Next(s, Assemble).main.result.attempts| == Times(start, steps, Begins))
  {
    var start := Initial(candidates);
    WorkIsLeftByASignal(start, steps, s);
    EveryStartIsRecordedExactlyWhen(candidates, steps, s);
  }

  // ---- When a second signal does harm ----

  /** In every continuation the record stays as it is. */
  ghost predicate FinalFrom(v: State) { forall steps, t :: Run(v, steps, t) ==> t.progress == v.progress }

  /** In every continuation each started candidate has its attempt when the app is closed. */
  ghost predicate CompleteFrom(v: State) {
    forall steps, t :: Run(v, steps, t) && t.main.Closed? ==> t.progress.current.None?
  }

  lemma {:induction false} NoWorkIsFinal(s: State, steps: seq<Step>, t: State)
    requires Inv(s) && Run(s, steps, t) && Past(s.main) && OutOfWork(s)
    ensures t.progress == s.progress
    decreases |steps|
  {
    if steps != [] {
      StepKeepsInv(s, steps[0]);
      NoWorkByAStep(s, steps[0]);
      NoWorkIsFinal(Next(s, steps[0]), steps[1..], t);
    }
  }

  lemma NoWorkByAStep(s: State, step: Step)
    requires Inv(s) && Enabled(s, step) && Past(s.main) && OutOfWork(s)
    ensures Next(s, step).progress == s.progress && Past(Next(s, step).main) && OutOfWork(Next(s, step))
  {}

  /** A worker with no attempt in progress and a candidate left can start it. */
  lemma StartsTheNext(s: State) returns (steps: seq<Step>, t: State)
    requires Inv(s) && !OutOfWork(s) && s.progress.current.None?
    ensures Run(s, steps, t) && t.progress.current.Some? && t.main == s.main
  {
    var u := s.(worker := Starting(|s.progress.attempts|));
    t := Next(u, BeginNext);
    steps := Before(u, BeginNext, t, [], t);
    if s.worker.Opening? {
      steps := Before(s, Open, u, steps, t);
    } else if s.worker.Warning? {
      steps := Before(s, Warned, u, steps, t);
    }
  }

  /** A worker with an attempt in progress can record it. */
  lemma RecordsTheCurrent(s: State) returns (steps: seq<Step>, t: State)
    requires Inv(s) && !OutOfWork(s) && s.progress.current.Some?
    ensures Run(s, steps, t) && t.progress != s.progress
  {
    var u := if s.worker.Calling? then Next(s, Return(NoResponse)) else s;
    t := Next(u, FinishOne);
    steps := Before(u, FinishOne, t, [], t);
    if s.worker.Calling? { steps := Before(s, Return(NoResponse), u, steps, t); }
  }

  /** A signal that ends the stop of another leaves the record final exactly when the lock was taken,
      there is a response, or the worker has ended or has no candidate left. */
  lemma SecondSignalIsFinalExactlyWhen(u: State, cause: Cause)
    requires Reachable(u) && Enabled(u, Signal(cause)) && SignalsAgain(u, Signal(cause))
    ensures FinalFrom(Next(u, Signal(cause))) <==> OutOfWork(u)
  {
    var v := Next(u, Signal(cause));
    ReachableInv(u);
    StepKeepsInv(u, Signal(cause));
    if OutOfWork(u) {
      forall steps, t | Run(v, steps, t) ensures t.progress == v.progress { NoWorkIsFinal(v, steps, t); }
    } else if u.progress.current.None? {
      var steps, t := StartsTheNext(v);
    } else {
      var steps, t := RecordsTheCurrent(v);
    }
  }

  /** ... and it leaves every started candidate with its attempt exactly when, besides, none is in
      progress. */
  lemma SecondSignalIsCompleteExactlyWhen(u: State, cause: Cause)
    requires Reachable(u) && Enabled(u, Signal(cause)) && SignalsAgain(u, Signal(cause))
    ensures CompleteFrom(Next(u, Signal(cause))) <==> OutOfWork(u) && u.progress.current.None?
  {
    var v := Next(u, Signal(cause));
    ReachableInv(u);
    StepKeepsInv(u, Signal(cause));
    if OutOfWork(u) && u.progress.current.None? {
      forall steps, t | Run(v, steps, t) && t.main.Closed? ensures t.progress.current.None? {
        NoWorkIsFinal(v, steps, t);
      }
    } else {
      var steps: seq<Step>, t := [], v;
      if u.progress.current.None? { steps, t := StartsTheNext(v); }
      var closed := Next(t, Close);
      var last := Before(t, Close, closed, [], closed);
      Then(v, steps, t, last, closed);
    }
  }

  const OneAgent := Initial(["a"])

  const CutEarly := OneAgent.(main := Closing, cut := Some(Interrupted))

  lemma CutBeforeTheLock()
    ensures Run(OneAgent, [Signal(Interrupted), Signal(Interrupted)], CutEarly)
  {
    var s1 := OneAgent.(main := Stopping(Interrupted));
    var last := Before(s1, Signal(Interrupted), CutEarly, [], CutEarly);
    var both := Before(OneAgent, Signal(Interrupted), s1, last, CutEarly);
    assert both == [Signal(Interrupted), Signal(Interrupted)];
  }

  lemma WorkerGoesOn() returns (steps: seq<Step>, s: State)
    ensures Run(CutEarly, steps, s) && s.main.Closed? && s.cut == Some(Interrupted)
    ensures s.progress == Progress([Attempt("a", true, None)], None, Some("a"), Some("x"), false)
    ensures Happens(CutEarly, steps, WorksAfterTheCut)
  {
    var s1 := CutEarly.(worker := Starting(0));
    var s2 := s1.(worker := Calling(0), progress := s1.progress.(current := Some("a")));
    assert "x"[0] == 'x' && !Blank("x");
    var s3 := s2.(worker := Judged(0, Answer("x")));
    var s4 := s3.(worker := Persisting,
                  progress := Progress([Attempt("a", true, None)], None, Some("a"), Some("x"), false));
    s := s4.(main := Closed);
    steps := Before(s4, Close, s, [], s);
    steps := Before(s3, FinishOne, s4, steps, s);
    steps := Before(s2, Return(Said("x")), s3, steps, s);
    steps := Before(s1, BeginNext, s2, steps, s);
    var rest := steps;
    assert Happens(s1, rest, WorksAfterTheCut);
    steps := Before(CutEarly, Open, s1, rest, s);
    assert Happens(CutEarly, steps, WorksAfterTheCut) by { assert steps[1..] == rest; }
  }

  lemma {:induction false} HappensLater(s: State, first: seq<Step>, u: State, rest: seq<Step>,
                                        event: (State, Step) -> bool)
    requires Run(s, first, u) && Happens(u, rest, event)
    ensures Happens(s, first + rest, event)
    decreases |first|
  {
    if first == [] {
      assert first + rest == rest;
    } else {
      HappensLater(Next(s, first[0]), first[1..], u, rest, event);
      assert (first + rest)[1..] == first[1..] + rest;
    }
  }

  /** Cut before the lock: the worker begins and records a candidate after the cut. */
  lemma ACutTurnMayGoOn() returns (steps: seq<Step>, s: State)
    ensures Run(OneAgent, steps, s) && Enabled(s, Assemble) && Happens(OneAgent, steps, WorksAfterTheCut)
    ensures var r := Next(s, Assemble).main.result;
      r.exitCode == EXIT_INTERRUPTED && r.attempts == [Attempt("a", true, None)] && r.response.None?
  {
    CutBeforeTheLock();
    var rest: seq<Step>;
    rest, s := WorkerGoesOn();
    var cut := [Signal(Interrupted), Signal(Interrupted)];
    Then(OneAgent, cut, CutEarly, rest, s);
    HappensLater(OneAgent, cut, CutEarly, rest, WorksAfterTheCut);
    steps := cut + rest;
  }

  const CandidateBegun := OneAgent.(worker := Calling(0), progress := Progress([], Some("a"), None, None, false))

  lemma BeginsTheCandidate()
    ensures Run(OneAgent, [Open, BeginNext], CandidateBegun)
  {
    var s1 := OneAgent.(worker := Starting(0));
    var last := Before(s1, BeginNext, CandidateBegun, [], CandidateBegun);
    var both := Before(OneAgent, Open, s1, last, CandidateBegun);
    assert both == [Open, BeginNext];
  }

  /** Cut between the lock and the record: the candidate in progress has no attempt. */
  lemma AStartedCandidateMayGoUnrecorded() returns (steps: seq<Step>, s: State)
    ensures Run(OneAgent, steps, s) && Enabled(s, Assemble) && s.progress.stopped
    ensures Started(s.progress) == 1 && Next(s, Assemble).main.result.attempts == []
  {
    var s1 := CandidateBegun.(main := Stopping(Interrupted));
    var s2 := s1.(main := Recording(Interrupted), progress := s1.progress.(stopped := true));
    var s3 := s2.(main := Closing, cut := Some(Interrupted));
    s := s3.(main := Closed);
    steps := Before(s3, Close, s, [], s);
    steps := Before(s2, Signal(Interrupted), s3, steps, s);
    steps := Before(s1, TakeStopLock, s2, steps, s);
    steps := Before(CandidateBegun, Signal(Interrupted), s1, steps, s);
    BeginsTheCandidate();
    Then(OneAgent, [Open, BeginNext], CandidateBegun, steps, s);
    steps := [Open, BeginNext] + steps;
  }
}
