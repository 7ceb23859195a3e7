/** `/stop` of one submission against the binding of its isolated clients, including failover. */
module ChatStop {
  import opened Options
  import Tree = ClientTree

  /** The k-th client bound to the submission, which is also the k-th binding token. */
  datatype Binding = Locked(mustCancel: bool) | Held | Unbound

  /** One call of `stop_chat_submission`: after its first critical section it has captured the
      client; after its second the submission is no longer listed; `Stopped` has called its `cancel_own_work`. */
  datatype StopCall = Captured(client: Option<nat>) | Published(client: Option<nat>) | Stopped | TooLate

  /** `marked`: in `_cancelled_submission_ids`. `entry`: the listed execution with its client.
      `ended`: the processing thread has published a terminal status. */
  datatype State = State(
    marked: bool,
    entry: Option<Entry>,
    bindings: seq<Binding>,
    stops: seq<StopCall>,
    clients: seq<Client>,
    ended: bool)

  datatype Entry = Entry(client: Option<nat>)

  /** The k-th client: whether it was bound when the submission was already marked, its event, the
      phase of its run, and the phase each stop so far landed in. */
  datatype Client = Client(warned: bool, flag: bool, phase: Tree.Phase, landed: seq<Tree.Phase>)

  const Idle := Client(false, false, Tree.Resting, [])

  /** `cancel_own_work`. */
  function CancelOwnWork(c: Client): Client { c.(flag := true, landed := c.landed + [c.phase]) }

  /** Some stop landed outside the stretch between a run's test of the event and its clear. */
  predicate Told(c: Client) { exists i :: 0 <= i < |c.landed| && !c.landed[i].Tested? }

  datatype Step =
    | Bind | Settle(k: nat) | Unbind(k: nat)
    | Begin(k: nat) | ClearOwn(k: nat) | EndRun(k: nat)
    | Stop | Publish(j: nat) | CancelClient(j: nat)
    | LocalInterrupt
    | End(cancelled: bool)

  const Registered := State(false, Some(Entry(None)), [], [], [], false)

  predicate Enabled(s: State, step: Step) {
    match step
    case Bind => !s.ended
    case Settle(k) => k < |s.bindings| && s.bindings[k].Locked? && k < |s.clients|
    case Unbind(k) => HeldIn(s, k, Tree.Resting)
    case Begin(k) => HeldIn(s, k, Tree.Resting) && !s.clients[k].flag
    case ClearOwn(k) => HeldIn(s, k, Tree.Tested)
    case EndRun(k) => HeldIn(s, k, Tree.Underway)
    case Stop => true
    case Publish(j) => j < |s.stops| && s.stops[j].Captured?
    case CancelClient(j) =>
      j < |s.stops| && s.stops[j].Published? && (s.stops[j].client.Some? ==> s.stops[j].client.value < |s.clients|)
    case LocalInterrupt => true
    case End(_) => !s.ended && forall k :: 0 <= k < |s.bindings| ==> s.bindings[k].Unbound?
  }

  predicate HeldIn(s: State, k: nat, phase: Tree.Phase) {
    k < |s.bindings| && s.bindings[k].Held? && k < |s.clients| && s.clients[k].phase == phase
  }

  function Next(s: State, step: Step): State
    requires Enabled(s, step)
  {
    match step
    case Bind =>
      s.(bindings := s.bindings + [Locked(s.marked)],
         clients := s.clients + [Idle.(warned := s.marked)],
         entry := if !s.marked && s.entry.Some? then Some(Entry(Some(|s.bindings|))) else s.entry)
    case Settle(k) =>
      s.(bindings := s.bindings[k := Held],
         clients := if s.bindings[k].mustCancel then s.clients[k := CancelOwnWork(s.clients[k])] else s.clients)
    case Unbind(k) =>
      s.(bindings := s.bindings[k := Unbound],
         entry := if s.entry == Some(Entry(Some(k))) then Some(Entry(None)) else s.entry)
    case Begin(k) => s.(clients := s.clients[k := s.clients[k].(phase := Tree.Tested)])
    case ClearOwn(k) => s.(clients := s.clients[k := s.clients[k].(flag := false, phase := Tree.Underway)])
    case EndRun(k) => s.(clients := s.clients[k := s.clients[k].(phase := Tree.Resting)])
    case Stop =>
      if s.entry.None? then s.(stops := s.stops + [TooLate])
      else s.(stops := s.stops + [Captured(s.entry.value.client)], marked := true)
    case Publish(j) => s.(stops := s.stops[j := Published(s.stops[j].client)], entry := None, marked := true)
    case CancelClient(j) =>
      s.(stops := s.stops[j := Stopped],
         clients := match s.stops[j].client
           case None => s.clients
           case Some(k) => s.clients[k := CancelOwnWork(s.clients[k])])
    case LocalInterrupt => s.(entry := None, marked := true)
    case End(cancelled) => s.(ended := true, entry := None, marked := cancelled)
  }

  // ---- Invariant ----

  /** The newest binding, if it was made before any stop and is still open. */
  predicate OpenUnwarned(s: State) {
    && s.bindings != []
    && (s.bindings[|s.bindings| - 1] == Locked(false) || s.bindings[|s.bindings| - 1].Held?)
    && |s.clients| == |s.bindings| && s.clients[|s.clients| - 1].landed == []
  }

  predicate Inv(s: State) {
    && |s.clients| == |s.bindings|
    && (forall k :: 0 <= k < |s.clients| ==> ClientKept(s.clients[k]))
    && (s.entry.Some? && s.entry.value.client.Some? ==> s.entry.value.client.value < |s.bindings|)
    && (forall j :: 0 <= j < |s.stops| ==> CallOk(s, s.stops[j]))
    && (!s.ended && s.entry.None? ==> s.marked)
    && (s.ended ==> s.entry.None? && forall k :: 0 <= k < |s.bindings| ==> s.bindings[k].Unbound?)
    && (OpenUnwarned(s) && s.entry.Some? ==> s.entry.value.client == Some(|s.bindings| - 1))
  }

  /** The event shows the stops that did not land between test and clear; none has while a run is there. */
  predicate ClientKept(c: Client) { if c.phase.Tested? then !Told(c) else c.flag <==> Told(c) }

  lemma CancelIsKept(c: Client)
    requires ClientKept(c)
    ensures ClientKept(CancelOwnWork(c)) && CancelOwnWork(c).landed != []
  {
    var d := CancelOwnWork(c);
    assert d.landed[|c.landed|] == c.phase;
    assert forall i :: 0 <= i < |c.landed| ==> d.landed[i] == c.landed[i];
    assert Told(c) ==> exists i :: 0 <= i < |c.landed| && !d.landed[i].Tested?;
  }

  predicate CallOk(s: State, call: StopCall) {
    match call
    case TooLate => true
    case Stopped => (!s.ended ==> s.marked) && !OpenUnwarned(s)
    case Captured(c) => ClientOk(s, c)
    case Published(c) => ClientOk(s, c)
  }

  predicate ClientOk(s: State, c: Option<nat>) {
    && (!s.ended ==> s.marked)
    && (c.Some? ==> c.value < |s.bindings|)
    && (OpenUnwarned(s) ==> c == Some(|s.bindings| - 1))
  }

  lemma StepKeepsClients(s: State, step: Step)
    requires Inv(s) && Enabled(s, step)
    ensures forall k :: 0 <= k < |Next(s, step).clients| ==> ClientKept(Next(s, step).clients[k])
  {
    forall k | 0 <= k < |s.clients| ensures ClientKept(CancelOwnWork(s.clients[k])) { CancelIsKept(s.clients[k]); }
  }

  lemma StepKeepsInv(s: State, step: Step)
    requires Inv(s) && Enabled(s, step)
    ensures Inv(Next(s, step))
  {
    StepKeepsClients(s, step);
    var t := Next(s, step);
    forall j | 0 <= j < |t.stops| ensures CallOk(t, t.stops[j]) {
      if j < |s.stops| {
        assert CallOk(s, s.stops[j]);
      }
    }
  }

  ghost predicate Run(s: State, steps: seq<Step>, t: State)
    decreases |steps|
  {
    if steps == [] then t == s
    else Enabled(s, steps[0]) && Run(Next(s, steps[0]), steps[1..], t)
  }

  lemma {:induction false} RunKeepsInv(s: State, steps: seq<Step>, t: State)
    requires Inv(s) && Run(s, steps, t)
    ensures Inv(t)
    decreases |steps|
  {
    if steps != [] {
      StepKeepsInv(s, steps[0]);
      RunKeepsInv(Next(s, steps[0]), steps[1..], t);
    }
  }

  // ---- Main results ----

  /** Failover in one thread: a binding is released before the next one is made. */
  predicate OneAtATime(s: State) {
    forall k :: 0 <= k < |s.bindings| - 1 ==> s.bindings[k].Unbound?
  }

  /** When a stop call has returned "stopped", the newest client the submission still holds has been
      stopped, in every interleaving with binding, failover, other stops and interrupts; outside the
      start of a run its event is set exactly when a stop of it did not land in the start of a run. */
  lemma NewestClientIsStopped(steps: seq<Step>, t: State, j: nat)
    requires Run(Registered, steps, t) && j < |t.stops| && t.stops[j].Stopped?
    requires t.bindings != [] && t.bindings[|t.bindings| - 1].Held?
    ensures |t.clients| == |t.bindings|
    ensures var c := t.clients[|t.clients| - 1]; c.landed != [] && (!c.phase.Tested? ==> (c.flag <==> Told(c)))
  {
    RunKeepsInv(Registered, steps, t);
    assert CallOk(t, t.stops[j]);
  }

  /** So with one binding at a time a stop misses nobody: every client still held has been stopped. */
  lemma StopMissesNobody(steps: seq<Step>, t: State, j: nat, k: nat)
    requires Run(Registered, steps, t) && j < |t.stops| && t.stops[j].Stopped?
    requires OneAtATime(t) && k < |t.bindings| && t.bindings[k].Held?
    ensures k < |t.clients| && t.clients[k].landed != []
    ensures !t.clients[k].phase.Tested? ==> (t.clients[k].flag <==> Told(t.clients[k]))
  {
    NewestClientIsStopped(steps, t, j);
  }

  lemma {:induction false} LandedOnlyGrows(s: State, steps: seq<Step>, t: State, k: nat)
    requires Inv(s) && Run(s, steps, t) && k < |s.clients|
    ensures Inv(t) && k < |t.clients| && s.clients[k].landed <= t.clients[k].landed
    decreases |steps|
  {
    if steps != [] {
      StepKeepsInv(s, steps[0]);
      LandedOnlyGrows(Next(s, steps[0]), steps[1..], t, k);
    }
  }

  /** In every continuation the event of the client is set and it has no run at its start. */
  ghost predicate StaysStopped(s: State, k: nat) {
    forall steps, t :: Run(s, steps, t) ==> k < |t.clients| && t.clients[k].flag && !t.clients[k].phase.Tested?
  }

  /** A client stays stopped exactly when some stop of it did not land between the test and the
      clear of a run of its own: what is decided by the phases the stops landed in. */
  lemma ClientStaysStoppedExactlyWhen(s: State, k: nat)
    requires Inv(s) && k < |s.clients|
    ensures StaysStopped(s, k) <==> Told(s.clients[k])
  {
    if Told(s.clients[k]) {
      var i :| 0 <= i < |s.clients[k].landed| && !s.clients[k].landed[i].Tested?;
      forall steps, t | Run(s, steps, t) ensures k < |t.clients| && t.clients[k].flag && !t.clients[k].phase.Tested? {
        LandedOnlyGrows(s, steps, t, k);
        assert t.clients[k].landed[i] == s.clients[k].landed[i];
        assert ClientKept(t.clients[k]);
      }
    } else {
      assert ClientKept(s.clients[k]) && Run(s, [], s);
    }
  }

  lemma Before(s: State, step: Step, u: State, rest: seq<Step>, t: State) returns (steps: seq<Step>)
    requires Enabled(s, step) && Next(s, step) == u && Run(u, rest, t)
    ensures Run(s, steps, t)
  {
    steps := [step] + rest;
    assert steps[1..] == rest;
  }

  /** The discipline is needed: a client bound while an earlier one is still held hides it. */
  lemma OverlapIsMissed() returns (steps: seq<Step>, t: State)
    ensures Run(Registered, steps, t) && t.stops == [Stopped] && !OneAtATime(t)
    ensures t.bindings == [Held, Held] && |t.clients| == 2 && t.clients[0] == Idle
  {
    var s2 := Registered.(bindings := [Held], clients := [Idle], entry := Some(Entry(Some(0))));
    var s3 := s2.(bindings := [Held, Locked(false)], clients := [Idle, Idle], entry := Some(Entry(Some(1))));
    var s4 := s3.(bindings := [Held, Held]);
    var s5 := s4.(stops := [Captured(Some(1))], marked := true);
    var s6 := s5.(stops := [Published(Some(1))], entry := None);
    t := s6.(stops := [Stopped], clients := [Idle, CancelOwnWork(Idle)]);
    steps := [];
    assert Run(t, steps, t);
    steps := Before(s6, CancelClient(0), t, steps, t);
    steps := Before(s5, Publish(0), s6, steps, t);
    steps := Before(s4, Stop, s5, steps, t);
    steps := Before(s3, Settle(1), s4, steps, t);
    steps := Before(s2, Bind, s3, steps, t);
    steps := FirstClientBound(s2, steps, t);
    assert t.bindings[0].Held?;
  }

  lemma FirstClientBound(s2: State, rest: seq<Step>, t: State) returns (steps: seq<Step>)
    requires s2 == Registered.(bindings := [Held], clients := [Idle], entry := Some(Entry(Some(0)))) && Run(s2, rest, t)
    ensures Run(Registered, steps, t)
  {
    var s1 := s2.(bindings := [Locked(false)]);
    steps := Before(s1, Settle(0), s2, rest, t);
    steps := Before(Registered, Bind, s1, steps, t);
  }

  /** With one client only: a stop that has returned "stopped", erased by the run it was to stop. */
  lemma AReturnedStopMayBeLost() returns (steps: seq<Step>, t: State)
    ensures Run(Registered, steps, t) && t.stops == [Stopped] && t.bindings == [Held] && OneAtATime(t)
    ensures t.clients == [Client(false, false, Tree.Underway, [Tree.Tested])]
  {
    var s2 := Registered.(bindings := [Held], clients := [Idle], entry := Some(Entry(Some(0))));
    var s3 := s2.(clients := [Client(false, false, Tree.Tested, [])]);
    var s4 := s3.(stops := [Captured(Some(0))], marked := true);
    var s5 := s4.(stops := [Published(Some(0))], entry := None);
    var s6 := s5.(stops := [Stopped], clients := [Client(false, true, Tree.Tested, [Tree.Tested])]);
    t := s6.(clients := [Client(false, false, Tree.Underway, [Tree.Tested])]);
    steps := [];
    assert Run(t, steps, t);
    steps := Before(s6, ClearOwn(0), t, steps, t);
    assert CancelOwnWork(s5.clients[0]) == s6.clients[0];
    steps := Before(s5, CancelClient(0), s6, steps, t);
    steps := Before(s4, Publish(0), s5, steps, t);
    steps := Before(s3, Stop, s4, steps, t);
    steps := Before(s2, Begin(0), s3, steps, t);
    steps := FirstClientBound(s2, steps, t);
  }

  predicate NobodyStopped(s: State) { forall k :: 0 <= k < |s.clients| ==> s.clients[k].landed == [] }

  /** No client is stopped without a stop or an interrupt of this submission. */
  lemma {:induction false} OnlyStopsCancel(s: State, steps: seq<Step>, t: State)
    requires !s.marked && NobodyStopped(s) && s.stops == [] && Run(s, steps, t)
    requires forall k :: 0 <= k < |s.bindings| ==> s.bindings[k] != Locked(true)
    requires forall k :: 0 <= k < |steps| ==> !steps[k].Stop? && !steps[k].LocalInterrupt?
    ensures NobodyStopped(t)
    decreases |steps|
  {
    if steps != [] && !steps[0].End? {
      assert Run(Next(s, steps[0]), steps[1..], t);
      OnlyStopsCancel(Next(s, steps[0]), steps[1..], t);
    } else if steps != [] {
      NothingAfterTheEnd(Next(s, steps[0]), steps[1..], t);
    }
  }

  lemma {:induction false} NothingAfterTheEnd(s: State, steps: seq<Step>, t: State)
    requires s.ended && NobodyStopped(s) && s.stops == [] && Run(s, steps, t)
    requires forall k :: 0 <= k < |s.bindings| ==> s.bindings[k].Unbound?
    requires forall k :: 0 <= k < |steps| ==> !steps[k].Stop?
    ensures NobodyStopped(t)
    decreases |steps|
  {
    if steps != [] {
      NothingAfterTheEnd(Next(s, steps[0]), steps[1..], t);
    }
  }

  // ---- What the steps of a run amount to ----

  /** Marked by a stop that found the submission listed, by its second section or by a local interrupt, and
      set by the end as it was ended. */
  function Marks(s: State, step: Step): bool {
    match step
    case Stop => s.marked || s.entry.Some?
    case Publish(_) => true
    case LocalInterrupt => true
    case End(cancelled) => cancelled
    case _ => s.marked
  }

  /** The submission is listed until its stop, a local interrupt or its end takes it off the list. */
  predicate TakesOff(step: Step) { step.Publish? || step.LocalInterrupt? || step.End? }

  lemma {:induction false} ListedUntilTakenOff(s: State, steps: seq<Step>, t: State)
    requires Run(s, steps, t)
    ensures t.entry.Some? <==> s.entry.Some? && forall i :: 0 <= i < |steps| ==> !TakesOff(steps[i])
    ensures t.ended <==> s.ended || exists i :: 0 <= i < |steps| && steps[i].End?
    decreases |steps|
  {
    if steps != [] {
      ListedUntilTakenOff(Next(s, steps[0]), steps[1..], t);
      assert forall i :: 0 < i < |steps| ==> steps[i] == steps[1..][i - 1];
      assert forall i :: 0 <= i < |steps| - 1 ==> steps[1..][i] == steps[i + 1];
    }
  }

  /** The mark, and what becomes of the calls of `stop`: one that finds the submission unlisted is too late, any
      other goes on from its first section to its second and to its client. */
  lemma MarkAndCallsFollow(s: State, step: Step, j: nat)
    requires Enabled(s, step)
    ensures var t := Next(s, step);
      && (t.marked <==> Marks(s, step))
      && |t.stops| == |s.stops| + (if step.Stop? then 1 else 0)
      && (step.Stop? && j == |s.stops| ==>
            t.stops[j] == if s.entry.None? then TooLate else Captured(s.entry.value.client))
      && (j < |s.stops| ==>
            t.stops[j] ==
              if step == Publish(j) then Published(s.stops[j].client)
              else if step == CancelClient(j) then Stopped else s.stops[j])
  {}

  /** A submission whose last client is released: it binds a client, which runs once and is released, and ends as
      it is told to. */
  lemma ASubmissionTakesItsCourse(s: State, cancelled: bool) returns (t: State)
    requires Inv(s) && !s.ended && !s.marked && forall k :: 0 <= k < |s.bindings| ==> s.bindings[k].Unbound?
    ensures var k := |s.bindings|;
      Run(s, [Bind, Settle(k), Begin(k), ClearOwn(k), EndRun(k), Unbind(k), End(cancelled)], t)
    ensures t.ended && t.entry.None? && t.marked == cancelled && t.clients == s.clients + [Idle]
    ensures t.bindings == s.bindings + [Unbound] && t.stops == s.stops
  {
    var k := |s.bindings|;
    var u := ABindingRunsOnce(s);
    t := Next(Next(u, Unbind(k)), End(cancelled));
    TwoSteps(u, Unbind(k), End(cancelled), [], t);
    assert [Unbind(k), End(cancelled)] + [] == [Unbind(k), End(cancelled)];
    Joined(s, [Bind, Settle(k), Begin(k), ClearOwn(k), EndRun(k)], u, [Unbind(k), End(cancelled)], t);
    assert [Bind, Settle(k), Begin(k), ClearOwn(k), EndRun(k)] + [Unbind(k), End(cancelled)] ==
           [Bind, Settle(k), Begin(k), ClearOwn(k), EndRun(k), Unbind(k), End(cancelled)];
  }

  lemma ABindingRunsOnce(s: State) returns (u: State)
    requires Inv(s) && !s.ended && !s.marked
    ensures var k := |s.bindings|; Run(s, [Bind, Settle(k), Begin(k), ClearOwn(k), EndRun(k)], u)
    ensures u == s.(bindings := s.bindings + [Held], clients := s.clients + [Idle],
                    entry := if s.entry.Some? then Some(Entry(Some(|s.bindings|))) else None)
  {
    var k := |s.bindings|;
    var s2 := Next(Next(s, Bind), Settle(k));
    var s4 := Next(Next(s2, Begin(k)), ClearOwn(k));
    u := Next(s4, EndRun(k));
    assert s2.bindings == s.bindings + [Held] && u.clients == s.clients + [Idle];
    assert [EndRun(k)][1..] == [] && Run(s4, [EndRun(k)], u);
    TwoSteps(s2, Begin(k), ClearOwn(k), [EndRun(k)], u);
    TwoSteps(s, Bind, Settle(k), [Begin(k), ClearOwn(k)] + [EndRun(k)], u);
    assert [Bind, Settle(k)] + ([Begin(k), ClearOwn(k)] + [EndRun(k)]) ==
           [Bind, Settle(k), Begin(k), ClearOwn(k), EndRun(k)];
  }

  lemma {:induction false} Joined(s: State, first: seq<Step>, u: State, rest: seq<Step>, t: State)
    requires Run(s, first, u) && Run(u, rest, t)
    ensures Run(s, first + rest, t)
    decreases |first|
  {
    if first == [] {
      assert first + rest == rest;
    } else {
      Joined(Next(s, first[0]), first[1..], u, rest, t);
      assert (first + rest)[1..] == first[1..] + rest;
    }
  }

  /** A stop of a listed submission with a client that rests: its event is set, and the next stop is too late. */
  lemma AStopTakesItsCourse(s: State, k: nat) returns (t: State)
    requires Inv(s) && !s.ended && k < |s.clients| && s.entry == Some(Entry(Some(k)))
    ensures var j := |s.stops|; Run(s, [Stop, Publish(j), CancelClient(j), Stop], t)
    ensures t.marked && t.entry.None? && t.stops == s.stops + [Stopped, TooLate] && t.bindings == s.bindings
    ensures t.clients ==
      s.clients[k := s.clients[k].(flag := true, landed := s.clients[k].landed + [s.clients[k].phase])]
  {
    var j := |s.stops|;
    var s3 := Next(Next(Next(s, Stop), Publish(j)), CancelClient(j));
    assert s3.stops == s.stops + [Stopped];
    t := Next(s3, Stop);
    assert t.stops == s.stops + [Stopped, TooLate];
    assert [Stop][1..] == [] && Run(s3, [Stop], t);
    ThreeSteps(s, Stop, Publish(j), CancelClient(j), [Stop], t);
    assert [Stop, Publish(j), CancelClient(j)] + [Stop] == [Stop, Publish(j), CancelClient(j), Stop];
  }

  lemma TwoSteps(s: State, a: Step, b: Step, rest: seq<Step>, t: State)
    requires Enabled(s, a) && Enabled(Next(s, a), b) && Run(Next(Next(s, a), b), rest, t)
    ensures Run(s, [a, b] + rest, t)
  {
    assert ([a, b] + rest)[1..] == [b] + rest && ([b] + rest)[1..] == rest;
  }

  lemma ThreeSteps(s: State, a: Step, b: Step, c: Step, rest: seq<Step>, t: State)
    requires Enabled(s, a) && Enabled(Next(s, a), b) && Enabled(Next(Next(s, a), b), c)
    requires Run(Next(Next(Next(s, a), b), c), rest, t)
    ensures Run(s, [a, b, c] + rest, t)
  {
    TwoSteps(Next(s, a), b, c, rest, t);
    assert ([a, b, c] + rest)[1..] == [b, c] + rest;
  }
}
