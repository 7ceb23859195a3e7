/** When a cancelled API run may be abandoned: the guard on tool execution. */
module ApiRun {
  import opened Options
  import opened Sums

  /** One run, seen by a single thread. */
  class Run {
    var cancelEvent: bool
    var activeTools: nat

    constructor ()
      ensures !cancelEvent && activeTools == 0
    {
      cancelEvent, activeTools := false, 0;
    }

    method BeginToolExecution() returns (ok: bool)
      modifies this`activeTools
      ensures ok == !cancelEvent && activeTools == old(activeTools) + if ok then 1 else 0
    {
      if cancelEvent {
        return false;
      }
      activeTools := activeTools + 1;
      ok := true;
    }

    method EndToolExecution()
      modifies this`activeTools
      ensures activeTools == Minus1(old(activeTools))
    {
      activeTools := if activeTools > 0 then activeTools - 1 else 0;
    }

    method HasActiveToolExecution() returns (active: bool)
      ensures active == (activeTools > 0)
    {
      active := activeTools > 0;
    }
  }

  function Minus1(n: nat): nat { if n > 0 then n - 1 else 0 }

  // ---- Many threads: the event is not under the lock that protects check and increment ----

  /** `Locked` holds the lock before the check, `Admitted` holds it between check and increment. */
  datatype Tool = Idle | Locked | Admitted | Executing

  datatype State = State(event: bool, active: nat, holder: Option<nat>, tools: seq<Tool>, abandoned: bool)

  datatype Step =
    | Cancel                         // anybody sets the run's event, with no lock
    | Lock(i: nat) | Check(i: nat) | Enter(i: nat) | Leave(i: nat)
    | Look                           // the waiting thread: event seen set, then the lock-protected test

  function Initial(tools: nat): State { State(false, 0, None, seq(tools, _ => Idle), false) }

  predicate Enabled(s: State, step: Step) {
    match step
    case Cancel => true
    case Lock(i) => i < |s.tools| && s.tools[i].Idle? && s.holder.None?
    case Check(i) => i < |s.tools| && s.tools[i].Locked?
    case Enter(i) => i < |s.tools| && s.tools[i].Admitted?
    case Leave(i) => i < |s.tools| && s.tools[i].Executing? && s.holder.None?
    case Look => s.event && s.holder.None? && !s.abandoned
  }

  function Next(s: State, step: Step): State
    requires Enabled(s, step)
  {
    match step
    case Cancel => s.(event := true)
    case Lock(i) => s.(tools := s.tools[i := Locked], holder := Some(i))
    case Check(i) =>
      if s.event then s.(tools := s.tools[i := Idle], holder := None) else s.(tools := s.tools[i := Admitted])
    case Enter(i) => s.(tools := s.tools[i := Executing], holder := None, active := s.active + 1)
    case Leave(i) => s.(tools := s.tools[i := Idle], active := Minus1(s.active))
    case Look => s.(abandoned := s.active == 0)
  }

  function Counted(t: Tool): nat { if t.Executing? then 1 else 0 }

  predicate Inv(s: State) {
    && s.active == Sum(Counted, s.tools)
    && (forall i: nat :: i < |s.tools| ==> (s.tools[i].Locked? || s.tools[i].Admitted? <==> s.holder == Some(i)))
    && (s.abandoned ==> Drained(s))
  }

  /** Cancelled, and no tool is executing or has passed the check. */
  predicate Drained(s: State) {
    s.event && s.active == 0 && forall i :: 0 <= i < |s.tools| ==> !s.tools[i].Admitted?
  }

  lemma InitialInv(tools: nat)
    ensures Inv(Initial(tools))
  {
    SumZero(Counted, Initial(tools).tools);
  }

  lemma StepKeepsInv(s: State, step: Step)
    requires Inv(s) && Enabled(s, step)
    ensures Inv(Next(s, step))
    ensures step.Leave? ==> s.active > 0
  {
    match step
    case Cancel | Look =>
    case Lock(i) => SumUpdate(Counted, s.tools, i, Locked);
    case Check(i) => SumUpdate(Counted, s.tools, i, Next(s, step).tools[i]);
    case Enter(i) => SumUpdate(Counted, s.tools, i, Executing);
    case Leave(i) => SumUpdate(Counted, s.tools, i, Idle); SumAtLeast(Counted, s.tools, i);
  }

  ghost predicate Path(s: State, steps: seq<Step>, t: State)
    decreases |steps|
  {
    if steps == [] then t == s
    else Enabled(s, steps[0]) && Path(Next(s, steps[0]), steps[1..], t)
  }

  lemma {:induction false} PathKeepsInv(s: State, steps: seq<Step>, t: State)
    requires Inv(s) && Path(s, steps, t)
    ensures Inv(t)
    decreases |steps|
  {
    if steps != [] {
      StepKeepsInv(s, steps[0]);
      PathKeepsInv(Next(s, steps[0]), steps[1..], t);
    }
  }

  lemma NoToolExecutes(s: State)
    requires Inv(s) && s.active == 0
    ensures forall i :: 0 <= i < |s.tools| ==> !s.tools[i].Executing?
  {
    forall i | 0 <= i < |s.tools| ensures !s.tools[i].Executing? {
      SumAtLeast(Counted, s.tools, i);
    }
  }

  /** Once the event is set and the test answered "no active tool", no tool executes in any
      later state of any interleaving, although the event is set without the lock. */
  lemma {:induction false} DrainedForever(s: State, steps: seq<Step>, t: State)
    requires Inv(s) && Drained(s) && Path(s, steps, t)
    ensures Drained(t) && forall i :: 0 <= i < |t.tools| ==> !t.tools[i].Executing?
    decreases |steps|
  {
    if steps == [] {
      NoToolExecutes(s);
    } else {
      NoToolExecutes(s);
      StepKeepsInv(s, steps[0]);
      DrainedForever(Next(s, steps[0]), steps[1..], t);
    }
  }

  /** The waiting thread abandons a run only when no tool executes, and none will. */
  lemma AbandonIsSafe(tools: nat, before: seq<Step>, s: State, after: seq<Step>, t: State)
    requires Path(Initial(tools), before, s) && s.abandoned && Path(s, after, t)
    ensures t.active == 0 && forall i :: 0 <= i < |t.tools| ==> !t.tools[i].Executing?
  {
    InitialInv(tools);
    PathKeepsInv(Initial(tools), before, s);
    DrainedForever(s, after, t);
  }

  /** The clamp in `end_tool_execution` never takes effect. */
  lemma LeaveFindsAnActiveTool(tools: nat, before: seq<Step>, s: State, i: nat)
    requires Path(Initial(tools), before, s) && Enabled(s, Leave(i))
    ensures s.active > 0 && s.active == Sum(Counted, s.tools)
  {
    InitialInv(tools);
    PathKeepsInv(Initial(tools), before, s);
    SumAtLeast(Counted, s.tools, i);
  }

  // ---- What the steps of a path amount to ----

  /** A look that found no tool executing. */
  ghost predicate FoundNone(s: State, steps: seq<Step>)
    decreases |steps|
  {
    && steps != [] && Enabled(s, steps[0])
    && ((steps[0].Look? && s.active == 0) || FoundNone(Next(s, steps[0]), steps[1..]))
  }

  /** The run is cancelled exactly when somebody cancelled it, abandoned exactly when the waiting thread looked
      and found no tool executing, and counts the tools that entered and have not left. */
  lemma {:induction false} PathInItsSteps(s: State, steps: seq<Step>, t: State)
    requires Inv(s) && Path(s, steps, t)
    ensures t.event <==> s.event || Cancel in steps
    ensures t.abandoned <==> s.abandoned || FoundNone(s, steps)
    ensures t.active + Leaves(steps) == s.active + Enters(steps)
    decreases |steps|
  {
    if steps != [] {
      StepKeepsInv(s, steps[0]);
      PathInItsSteps(Next(s, steps[0]), steps[1..], t);
    }
  }

  function Enters(steps: seq<Step>): nat {
    if steps == [] then 0 else (if steps[0].Enter? then 1 else 0) + Enters(steps[1..])
  }

  function Leaves(steps: seq<Step>): nat {
    if steps == [] then 0 else (if steps[0].Leave? then 1 else 0) + Leaves(steps[1..])
  }

  /** With the lock free a tool that is not executing passes the check, enters and leaves again, exactly when
      the run was not cancelled before the check; else it is turned away and nothing has changed. */
  lemma AToolTakesItsCourse(before: seq<Step>, s: State, tools: nat, i: nat) returns (t: State)
    requires Path(Initial(tools), before, s) && s.holder.None? && i < |s.tools| && s.tools[i].Idle?
    ensures |s.tools| == tools
    ensures Cancel in before ==> Path(s, [Lock(i), Check(i)], t) && t == s
    ensures Cancel !in before ==>
      && Path(s, [Lock(i), Check(i), Enter(i)], t) && t == s.(tools := s.tools[i := Executing], active := s.active + 1)
      && Enabled(t, Leave(i)) && Next(t, Leave(i)) == s
  {
    InitialInv(tools);
    PathKeepsInv(Initial(tools), before, s);
    PathInItsSteps(Initial(tools), before, s);
    SameTools(Initial(tools), before, s);
    var s1 := Next(s, Lock(i));
    var s2 := Next(s1, Check(i));
    assert s1.tools[i := Idle] == s.tools;
    assert [Lock(i), Check(i)][1..] == [Check(i)] && [Lock(i), Check(i), Enter(i)][1..] == [Check(i), Enter(i)];
    assert [Check(i), Enter(i)][1..] == [Enter(i)] && [Enter(i)][1..] == [] && [Check(i)][1..] == [];
    if Cancel in before {
      t := s2;
    } else {
      t := Next(s2, Enter(i));
      assert Path(s2, [Enter(i)], t) && Path(s1, [Check(i), Enter(i)], t);
      assert t.tools == s.tools[i := Executing] && t.tools[i := Idle] == s.tools;
    }
  }

  lemma {:induction false} SameTools(s: State, steps: seq<Step>, t: State)
    requires Path(s, steps, t)
    ensures |t.tools| == |s.tools|
    decreases |steps|
  {
    if steps != [] { SameTools(Next(s, steps[0]), steps[1..], t); }
  }

  lemma {:induction false} Joined(s: State, first: seq<Step>, u: State, rest: seq<Step>, t: State)
    requires Path(s, first, u) && Path(u, rest, t)
    ensures Path(s, first + rest, t)
    decreases |first|
  {
    if first == [] {
      assert first + rest == rest;
    } else {
      Joined(Next(s, first[0]), first[1..], u, rest, t);
      assert (first + rest)[1..] == first[1..] + rest;
    }
  }

  /** Whoever holds the lock of a cancelled run gives it back. */
  lemma TheLockIsFreed(s: State) returns (steps: seq<Step>, t: State)
    requires Inv(s) && s.event && !s.abandoned && forall i :: s.holder == Some(i) ==> i < |s.tools|
    ensures Path(s, steps, t) && Inv(t) && t.event && !t.abandoned && t.holder.None?
  {
    if s.holder.None? {
      return [], s;
    }
    var i := s.holder.value;
    var step := if s.tools[i].Locked? then Check(i) else Enter(i);
    t := Next(s, step);
    StepKeepsInv(s, step);
    steps := [step];
    assert steps[1..] == [];
  }

  lemma {:induction false} AllToolsLeave(s: State) returns (steps: seq<Step>, t: State)
    requires Inv(s) && s.event && !s.abandoned && s.holder.None?
    ensures Path(s, steps, t) && Inv(t) && t.event && !t.abandoned && t.holder.None? && t.active == 0
    decreases s.active
  {
    if s.active == 0 {
      return [], s;
    }
    var i := SumPositive(Counted, s.tools);
    StepKeepsInv(s, Leave(i));
    var rest: seq<Step>;
    rest, t := AllToolsLeave(Next(s, Leave(i)));
    steps := [Leave(i)] + rest;
    assert steps[1..] == rest;
  }

  /** A cancelled run can always be abandoned in the end: the tools under way finish, none is admitted, and the
      waiting thread looks. */
  lemma ACancelledRunIsAbandoned(tools: nat, before: seq<Step>, s: State) returns (steps: seq<Step>, t: State)
    requires Path(Initial(tools), before, s) && Cancel in before
    ensures Path(s, steps, t) && t.abandoned
  {
    InitialInv(tools);
    PathKeepsInv(Initial(tools), before, s);
    PathInItsSteps(Initial(tools), before, s);
    if s.abandoned {
      return [], s;
    }
    HolderIsATool(Initial(tools), before, s);
    var u, v: State;
    var rest: seq<Step>;
    steps, u := TheLockIsFreed(s);
    rest, v := AllToolsLeave(u);
    Joined(s, steps, u, rest, v);
    t := Next(v, Look);
    assert [Look][1..] == [] && Path(v, [Look], t);
    Joined(s, steps + rest, v, [Look], t);
    steps := steps + rest + [Look];
  }

  lemma {:induction false} HolderIsATool(s: State, steps: seq<Step>, t: State)
    requires Path(s, steps, t) && (s.holder.Some? ==> s.holder.value < |s.tools|)
    ensures t.holder.Some? ==> t.holder.value < |t.tools|
    decreases |steps|
  {
    if steps != [] { HolderIsATool(Next(s, steps[0]), steps[1..], t); }
  }
}
