/** The headless turn: a worker thread tries the candidates in order while the waiting thread
    may cut the turn (timeout, Ctrl+C, SIGTERM). */
module Headless {
  import opened Options
  import opened Text

  datatype Attempt = Attempt(agent: string, ok: bool, error: Option<string>)

  /** The fields shared by both threads. */
  datatype Progress = Progress(
    attempts: seq<Attempt>,
    current: Option<string>,
    agent: Option<string>,
    response: Option<string>,
    stopped: bool)

  /** What a delegation comes back with. */
  datatype Raw = Raised(message: string) | NoResponse | Said(text: string)

  datatype Verdict = Answer(text: string) | Failure(error: string)

  /** Only a response with visible text is an answer. */
  function Judge(raw: Raw): Verdict {
    match raw
    case Raised(message) => Failure(message)
    case NoResponse => Failure("no response")
    case Said(text) => if Blank(text) then Failure("empty response") else Answer(text)
  }

  // ---- The four critical sections ----

  function Begin(p: Progress, agent: string): Progress { if p.stopped then p else p.(current := Some(agent)) }

  function Finish(p: Progress, agent: string, verdict: Verdict): Progress {
    if p.stopped then p
    else match verdict
      case Answer(text) =>
        p.(attempts := p.attempts + [Attempt(agent, true, None)], current := None,
           agent := Some(agent), response := Some(text))
      case Failure(error) => p.(attempts := p.attempts + [Attempt(agent, false, Some(error))], current := None)
  }

  function MarkStopped(p: Progress): Progress { if p.response.Some? then p else p.(stopped := true) }

  function RecordCut(p: Progress, reason: string): Progress {
    if p.current.None? then p
    else p.(attempts := p.attempts + [Attempt(p.current.value, false, Some(reason))], current := None)
  }

  class SharedProgress {
    var attempts: seq<Attempt>
    var currentAgent: Option<string>
    var agent: Option<string>
    var response: Option<string>
    var stopped: bool

    function Model(): Progress
      reads this
    {
      Progress(attempts, currentAgent, agent, response, stopped)
    }

    constructor ()
      ensures Model() == Progress([], None, None, None, false)
    {
      attempts, currentAgent, agent, response, stopped := [], None, None, None, false;
    }

    method BeginCandidate(candidate: string) returns (go: bool)
      modifies this
      ensures go == old(!stopped) && Model() == Begin(old(Model()), candidate)
    {
      if stopped {
        return false;
      }
      currentAgent := Some(candidate);
      go := true;
    }

    method FinishCandidate(candidate: string, error: Option<string>, text: string) returns (recorded: bool)
      modifies this
      ensures recorded == old(!stopped)
      ensures Model() == Finish(old(Model()), candidate, if error.None? then Answer(text) else Failure(error.value))
    {
      if stopped {
        return false;
      }
      currentAgent := None;
      attempts := attempts + [Attempt(candidate, error.None?, error)];
      if error.None? {
        agent, response := Some(candidate), Some(text);
      }
      recorded := true;
    }

    method TryStop() returns (answered: bool)
      modifies this
      ensures answered == old(response.Some?) && Model() == MarkStopped(old(Model()))
    {
      answered := response.Some?;
      if !answered {
        stopped := true;
      }
    }

    method RecordCutAttempt(reason: string)
      modifies this
      ensures Model() == RecordCut(old(Model()), reason)
    {
      if currentAgent.Some? {
        attempts := attempts + [Attempt(currentAgent.value, false, Some(reason))];
        currentAgent := None;
      }
    }
  }

  // ---- Both threads ----

  datatype Worker =
    | Opening                              // before the loop
    | Starting(i: nat)
    | Calling(i: nat)
    | Judged(i: nat, verdict: Verdict)
    | Persisting | Warning(i: nat)
    | Exited | Crashed(message: string)

  datatype Cause = TimedOut | Interrupted | Terminated

  /** The waiting thread. `Stopping` has not taken the lock yet, `Recording` is between its two
      critical sections, `Draining` waits out the grace period. */
  datatype Main =
    | Joining
    | Stopping(cause: Cause) | Recording(cause: Cause) | Draining(cause: Cause, answered: bool)
    | Closing | Closed | Finished(result: Result)

  datatype Result = Result(
    ok: bool,
    agent: Option<string>,
    response: Option<string>,
    attempts: seq<Attempt>,
    error: Option<string>,
    exitCode: int)

  const EXIT_OK := 0
  const EXIT_ALL_FAILED := 1
  const EXIT_TIMEOUT := 124
  const EXIT_INTERRUPTED := 130
  const EXIT_TERMINATED := 143

  function ExitCode(cause: Cause): (code: int)
    ensures code != EXIT_OK
  {
    match cause
    case TimedOut => EXIT_TIMEOUT
    case Interrupted => EXIT_INTERRUPTED
    case Terminated => EXIT_TERMINATED
  }

  function Reason(cause: Cause): string {
    match cause
    case TimedOut => "timeout"
    case Interrupted => "interrupted"
    case Terminated => "terminated"
  }

  /** `cut` is the error already written to the result, with its exit code; `closeFailed` says
      that a signal hit the shutdown of the app. */
  datatype State = State(
    candidates: seq<string>,
    progress: Progress,
    worker: Worker,
    main: Main,
    cut: Option<Cause>,
    closeFailed: bool)

  datatype Step =
    | Open | BeginNext | Return(raw: Raw) | FinishOne | Persisted | Warned | Crash(message: string)
    | Expire | Signal(cause: Cause) | TakeStopLock | RecordCurrent | Drained
    | WorkerEnded | Close | CloseInterrupted | Assemble

  predicate Alive(w: Worker) { !w.Exited? && !w.Crashed? }

  function Initial(candidates: seq<string>): State {
    State(candidates, Progress([], None, None, None, false), Opening, Joining, None, false)
  }

  predicate WorkerStep(step: Step) {
    || step.Open? || step.BeginNext? || step.Return? || step.FinishOne?
    || step.Persisted? || step.Warned? || step.Crash?
  }

  predicate Enabled(s: State, step: Step) {
    match step
    case Open => s.worker.Opening?
    case BeginNext => s.worker.Starting?
    case Return(_) => s.worker.Calling?
    case FinishOne => s.worker.Judged? && s.worker.i < |s.candidates|
    case Persisted => s.worker.Persisting?
    case Warned => s.worker.Warning?
    case Crash(_) => s.worker.Opening? || s.worker.Calling? || s.worker.Persisting? || s.worker.Warning?
    case Expire => s.main.Joining? && Alive(s.worker)
    case Signal(cause) =>
      !cause.TimedOut? && (s.main.Joining? || s.main.Stopping? || s.main.Recording? || s.main.Draining?)
    case TakeStopLock => s.main.Stopping?
    case RecordCurrent => s.main.Recording?
    case Drained => s.main.Draining?
    case WorkerEnded => s.main.Joining? && !Alive(s.worker)
    case Close => s.main.Closing?
    case CloseInterrupted => s.main.Closing?
    case Assemble => s.main.Closed?
  }

  /** A first signal starts the stop over under its own name; one that hits the stop a signal
      started ends the wait, and the turn counts as cut. */
  function AfterSignal(s: State, cause: Cause): State
    requires Enabled(s, Signal(cause))
  {
    if s.main.Joining? || s.main.cause.TimedOut? then s.(main := Stopping(cause))
    else s.(main := Closing, cut := Some(s.main.cause))
  }

  function Next(s: State, step: Step): State
    requires Enabled(s, step)
  {
    match step
    case Open => s.(worker := Starting(0))
    case BeginNext =>
      if s.worker.i >= |s.candidates| then s.(worker := Exited)
      else s.(progress := Begin(s.progress, s.candidates[s.worker.i]),
              worker := if s.progress.stopped then Exited else Calling(s.worker.i))
    case Return(raw) => s.(worker := Judged(s.worker.i, Judge(raw)))
    case FinishOne =>
      s.(progress := Finish(s.progress, s.candidates[s.worker.i], s.worker.verdict),
         worker := if s.progress.stopped then Exited
                   else if s.worker.verdict.Answer? then Persisting else Warning(s.worker.i))
    case Persisted => s.(worker := Exited)
    case Warned => s.(worker := Starting(s.worker.i + 1))
    case Crash(message) => s.(worker := Crashed(message))
    case Expire => s.(main := Stopping(TimedOut))
    case Signal(cause) => AfterSignal(s, cause)
    case TakeStopLock =>
      s.(progress := MarkStopped(s.progress),
         main := if s.progress.response.Some? then Draining(s.main.cause, true) else Recording(s.main.cause))
    case RecordCurrent =>
      s.(progress := RecordCut(s.progress, Reason(s.main.cause)), main := Draining(s.main.cause, false))
    case Drained => s.(main := Closing, cut := if s.main.answered then None else Some(s.main.cause))
    case WorkerEnded => s.(main := Closing)
    case Close => s.(main := Closed)
    case CloseInterrupted => s.(main := Closed, closeFailed := true)
    case Assemble => s.(main := Finished(Assembled(s)))
  }

  function Assembled(s: State): Result {
    if s.cut.Some? then
      Result(false, None, None, s.progress.attempts, Some(Reason(s.cut.value)), ExitCode(s.cut.value))
    else if s.closeFailed then
      Result(false, None, None, s.progress.attempts, Some("interrupted while closing"), EXIT_INTERRUPTED)
    else if s.worker.Crashed? then
      Result(false, None, None, s.progress.attempts, Some(s.worker.message), EXIT_ALL_FAILED)
    else if s.progress.response.Some? then
      Result(true, s.progress.agent, s.progress.response, s.progress.attempts, None, EXIT_OK)
    else
      Result(false, None, None, s.progress.attempts, Some("no candidate answered"), EXIT_ALL_FAILED)
  }

  // ---- Invariant ----

  /** The recorded attempts are a prefix of the candidates, all but the last failed, and the
      last one is good exactly when its response was accepted. */
  predicate AttemptsOk(candidates: seq<string>, p: Progress) {
    && |p.attempts| <= |candidates|
    && (forall k :: 0 <= k < |p.attempts| ==> p.attempts[k].agent == candidates[k])
    && (forall k :: 0 <= k < |p.attempts| - 1 ==> !p.attempts[k].ok)
    && (forall k :: 0 <= k < |p.attempts| ==> (p.attempts[k].ok <==> p.attempts[k].error.None?))
    && (p.response.Some? <==> |p.attempts| > 0 && p.attempts[|p.attempts| - 1].ok)
    && (p.response.Some? ==> p.agent == Some(p.attempts[|p.attempts| - 1].agent))
    && (p.current.Some? ==> |p.attempts| < |candidates| && p.current.value == candidates[|p.attempts|])
    && (p.response.Some? ==> !p.stopped && p.current.None?)
  }

  /** The worker is where the record says it is, as long as nobody cut the turn. */
  predicate WorkerOk(s: State) {
    var n := |s.progress.attempts|;
    var idle := s.progress.current.None? && s.progress.response.None?;
    match s.worker
    case Opening => n == 0 && idle
    case Starting(i) => s.progress.stopped || (i == n && idle)
    case Calling(i) => i < |s.candidates| && (s.progress.stopped || (i == n && s.progress.current.Some?))
    case Judged(i, _) => i < |s.candidates| && (s.progress.stopped || (i == n && s.progress.current.Some?))
    case Persisting => s.progress.response.Some?
    case Warning(i) => s.progress.stopped || (i + 1 == n && idle)
    case Exited => s.progress.stopped || s.progress.current.None?
    case Crashed(_) => true
  }

  predicate MainOk(s: State) {
    && (s.main.Recording? ==> s.progress.stopped)
    && (s.main.Draining? && !s.main.answered ==> s.progress.stopped && s.progress.current.None?)
    && (s.main.Draining? && s.main.answered ==> s.progress.response.Some?)
    && (s.main.Joining? ==> !s.progress.stopped)
    && (s.main.Joining? || s.main.Stopping? || s.main.Recording? || s.main.Draining? ==> s.cut.None? && !s.closeFailed)
    && (s.main.Finished? ==> s.main.result.ok == (s.main.result.exitCode == EXIT_OK))
  }

  predicate Inv(s: State) {
    AttemptsOk(s.candidates, s.progress) && WorkerOk(s) && MainOk(s)
  }

  lemma StepKeepsAttempts(s: State, step: Step)
    requires Inv(s) && Enabled(s, step)
    ensures AttemptsOk(s.candidates, Next(s, step).progress)
  {}

  lemma StepKeepsWorker(s: State, step: Step)
    requires Inv(s) && Enabled(s, step)
    ensures WorkerOk(Next(s, step))
  {}

  lemma StepKeepsMain(s: State, step: Step)
    requires Inv(s) && Enabled(s, step)
    ensures MainOk(Next(s, step))
  {}

  lemma StepKeepsInv(s: State, step: Step)
    requires Inv(s) && Enabled(s, step)
    ensures Inv(Next(s, step)) && Next(s, step).candidates == s.candidates
  {
    StepKeepsAttempts(s, step);
    StepKeepsWorker(s, step);
    StepKeepsMain(s, step);
  }

  ghost predicate Run(s: State, steps: seq<Step>, t: State)
    decreases |steps|
  {
    if steps == [] then t == s
    else Enabled(s, steps[0]) && Run(Next(s, steps[0]), steps[1..], t)
  }

  lemma {:induction false} RunKeepsInv(s: State, steps: seq<Step>, t: State)
    requires Inv(s) && Run(s, steps, t)
    ensures Inv(t) && t.candidates == s.candidates
    decreases |steps|
  {
    if steps != [] {
      StepKeepsInv(s, steps[0]);
      RunKeepsInv(Next(s, steps[0]), steps[1..], t);
    }
  }

  ghost predicate Reachable(t: State) {
    exists steps :: Run(Initial(t.candidates), steps, t)
  }

  lemma ReachableInv(t: State)
    requires Reachable(t)
    ensures Inv(t)
  {
    var steps :| Run(Initial(t.candidates), steps, t);
    RunKeepsInv(Initial(t.candidates), steps, t);
  }

  // ---- Main results ----

  /** How many candidates were started. */
  function Started(p: Progress): nat { |p.attempts| + if p.current.Some? then 1 else 0 }

  function AgentsOf(attempts: seq<Attempt>): seq<string> {
    seq(|attempts|, k requires 0 <= k < |attempts| => attempts[k].agent)
  }

  /** In every interleaving the recorded attempts are a prefix of the candidates, each once; the
      candidate in progress, if any, is the next one; and all attempts but the last failed. */
  lemma AttemptsAreAPrefix(t: State)
    requires Reachable(t)
    ensures |t.progress.attempts| <= |t.candidates|
    ensures AgentsOf(t.progress.attempts) == t.candidates[..|t.progress.attempts|]
    ensures Started(t.progress) <= |t.candidates|
    ensures t.progress.current.Some? ==> t.progress.current.value == t.candidates[|t.progress.attempts|]
    ensures forall k :: 0 <= k < |t.progress.attempts| - 1 ==> !t.progress.attempts[k].ok
    ensures t.progress.response.Some? <==>
      t.progress.attempts != [] && t.progress.attempts[|t.progress.attempts| - 1].ok
  {
    ReachableInv(t);
  }

  /** Once a stop has taken the lock and found no response the worker changes nothing: it records no
      attempt, starts no candidate and accepts no response. */
  lemma WorkerIsMuteAfterTheCut(s: State, step: Step)
    requires s.progress.stopped && WorkerStep(step) && Enabled(s, step)
    ensures Next(s, step).progress == s.progress
    ensures !Next(s, step).worker.Calling?
  {}

  /** ... so over the rest of every run only the waiting thread writes, and only the attempt that
      was in progress: nothing starts, and no response is accepted. */
  lemma {:induction false} NothingAfterTheCut(s: State, steps: seq<Step>, t: State)
    requires Inv(s) && s.progress.stopped && Run(s, steps, t)
    ensures t.progress.stopped && t.progress.response.None? && Started(t.progress) == Started(s.progress)
    ensures t.progress.attempts == s.progress.attempts
      || (s.progress.current.Some? && |t.progress.attempts| == |s.progress.attempts| + 1
          && t.progress.attempts[..|s.progress.attempts|] == s.progress.attempts
          && t.progress.attempts[|s.progress.attempts|].agent == s.progress.current.value
          && !t.progress.attempts[|s.progress.attempts|].ok && t.progress.current.None?)
    decreases |steps|
  {
    if steps != [] {
      StepKeepsInv(s, steps[0]);
      NothingAfterTheCut(Next(s, steps[0]), steps[1..], t);
    }
  }

  /** When a stop that took the lock has made its record, every started candidate has its attempt, and
      that stays so, with nothing added, in every continuation. */
  lemma CutIsRecorded(s: State, steps: seq<Step>, t: State)
    requires Reachable(s) && s.main.Recording? && Run(Next(s, RecordCurrent), steps, t)
    ensures t.progress == Next(s, RecordCurrent).progress
    ensures |t.progress.attempts| == Started(s.progress) && t.progress.current.None?
    ensures s.progress.current.Some? ==>
      && |s.progress.attempts| < |t.candidates|
      && t.progress.attempts[|s.progress.attempts|] ==
        Attempt(t.candidates[|s.progress.attempts|], false, Some(Reason(s.main.cause)))
  {
    ReachableInv(s);
    StepKeepsInv(s, RecordCurrent);
    RunKeepsInv(Next(s, RecordCurrent), steps, t);
    RecordIsFinal(Next(s, RecordCurrent), steps, t);
  }

  lemma {:induction false} RecordIsFinal(s: State, steps: seq<Step>, t: State)
    requires Inv(s) && s.progress.stopped && s.progress.current.None? && Run(s, steps, t)
    ensures t.progress == s.progress
    decreases |steps|
  {
    if steps != [] {
      StepKeepsInv(s, steps[0]);
      RecordIsFinal(Next(s, steps[0]), steps[1..], t);
    }
  }

  /** A stop, timeout or signal, that no other signal ends cuts the turn exactly when no response was
      accepted before it took the lock; an accepted response survives it. */
  lemma AcceptedResponseSurvivesAStop(s: State)
    requires Reachable(s) && s.main.Draining?
    ensures Next(s, Drained).cut.Some? <==> s.progress.response.None?
    ensures s.main.answered <==> s.progress.response.Some?
  {
    ReachableInv(s);
  }
}
