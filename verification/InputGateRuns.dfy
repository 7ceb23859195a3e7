/** What a run of the gate's threads amounts to, told from its steps. */
module InputGateRuns {
  import opened InputGate
  import opened Options

  // ---- Stdin ----

  function Appended(steps: seq<Step>): seq<string> {
    if steps == [] then []
    else (if steps[0].Append? then [steps[0].line] else []) + Appended(steps[1..])
  }

  /** The lines the reader thread appended are, in order, those handed out and those in the deque;
      stdin is over exactly when it closed it. */
  lemma {:induction false} LinesAreThoseAppended(s: State, steps: seq<Step>, t: State)
    requires Run(s, steps, t)
    ensures t.read == s.read + Appended(steps)
    ensures t.gate.closed <==> s.gate.closed || Close in steps
    decreases |steps|
  {
    if steps != [] {
      LinesAreThoseAppended(Next(s, steps[0]), steps[1..], t);
      assert steps == [steps[0]] + steps[1..];
    }
  }

  /** From the start to any moment: what was appended is what was delivered, in order, and what is left. */
  lemma AppendedIsDeliveredOrLeft(s: State, steps: seq<Step>, t: State)
    requires Starting(s) && Run(s, steps, t)
    ensures Appended(steps) == LinesOf(t.handed) + t.gate.lines
    ensures t.gate.closed <==> Close in steps
  {
    LinesAreThoseAppended(s, steps, t);
    assert s.read + Appended(steps) == Appended(steps);
    LinesAreDeliveredOnceInOrder(t);
  }

  // ---- Reservations ----

  /** A reservation is held until it is released, however often, and counts until its one release has
      taken effect. */
  lemma {:induction false} ReservationsFollowTheSteps(s: State, steps: seq<Step>, t: State, k: nat)
    requires Run(s, steps, t) && k < |t.reservations|
    ensures |t.reservations| == |s.reservations| + multiset(steps)[Reserve]
    ensures t.reservations[k].Held? <==> (k < |s.reservations| ==> s.reservations[k].Held?) && Release(k) !in steps
    ensures t.reservations[k].Freed? <==> (k < |s.reservations| && s.reservations[k].Freed?) || Unreserve(k) in steps
    decreases |steps|
  {
    if steps != [] {
      ReservationsFollowTheSteps(Next(s, steps[0]), steps[1..], t, k);
      assert steps == [steps[0]] + steps[1..];
    }
  }

  /** So a released reservation stops counting, once: the second step is there to take, and takes one
      waiter away. */
  lemma ReleaseGivesTheTurnBack(s: State, k: nat)
    requires k < |s.reservations| && s.reservations[k].Held?
    ensures Enabled(s, Release(k)) && Enabled(Next(s, Release(k)), Unreserve(k))
    ensures var t := Next(Next(s, Release(k)), Unreserve(k));
      && t.gate == s.gate.(waiters := s.gate.waiters - 1) && t.reservations[k].Freed?
      && !Enabled(t, Unreserve(k)) && Next(t, Release(k)) == t
  {
    assert s.reservations[k := Marked][k := Freed] == s.reservations[k := Freed];
  }

  // ---- Requests ----

  /** What the changes of a request make of it: answered for good, cancelled as the event was last left,
      and expired when a lapse found it neither answered nor claimed. */
  lemma {:induction false} ChangesInFields(t: Ticket, cs: seq<Change>)
    ensures var u := ChangedAll(t, cs);
      && u.claimed == t.claimed
      && (u.done <==> t.done || Answer in cs)
      && (u.cancelled <==> LastSet(t.cancelled, cs))
      && (u.expired <==> t.expired || (!t.claimed && LapsesUnanswered(t.done, cs)))
    decreases |cs|
  {
    if cs != [] {
      ChangesInFields(Changed(t, cs[0]), cs[1..]);
      assert cs == [cs[0]] + cs[1..];
    }
  }

  function LastSet(on: bool, cs: seq<Change>): bool
    decreases |cs|
  {
    if cs == [] then on else LastSet(if cs[0].Cancelled? then cs[0].on else on, cs[1..])
  }

  predicate LapsesUnanswered(done: bool, cs: seq<Change>)
    decreases |cs|
  {
    cs != [] && ((cs[0].Lapse? && !done) || LapsesUnanswered(done || cs[0].Answer?, cs[1..]))
  }

  /** The changes a step makes to request `k`, and whether it claims a line for it. */
  function ChangesOf(s: State, step: Step, k: nat): seq<Change> {
    match step
    case ChangeTicket(t, change) => if t == k then [change] else []
    case Take(r, _, late) => if r < |s.readers| && s.readers[r].ticket == Some(k) then late else []
    case _ => []
  }

  /** A step leaves a request as it was but for its changes, and for the claim of a read it serves. */
  lemma RequestsFollowTheSteps(s: State, step: Step, k: nat)
    requires Enabled(s, step) && k < |s.tickets|
    ensures var u := ChangedAll(s.tickets[k], ChangesOf(s, step, k));
      var served := step.Take? && s.readers[step.r].ticket == Some(k) && TakeOutcome(s, step).Line?;
      && k < |Next(s, step).tickets|
      && Next(s, step).tickets[k] == u.(claimed := u.claimed || served)
  {
    if step.ChangeTicket? && step.t == k {
      assert ChangedAll(Changed(s.tickets[k], step.change), []) == Changed(s.tickets[k], step.change);
    }
    if step.Take? && s.readers[step.r].ticket == Some(k) && TakeOutcome(s, step).Line? {
      assert !Aborts(ChangedAll(s.tickets[k], step.late));
    }
  }

  // ---- Reads ----

  /** Where a read is after a step: served, given up or waiting as its pass came out; a chat read that got
      no line is at the end of file exactly when stdin is over with nothing left, else asks again. */
  lemma ReadsFollowTheSteps(s: State, step: Step, r: nat)
    requires Enabled(s, step) && r < |s.readers|
    ensures r < |Next(s, step).readers|
    ensures var before, after := s.readers[r], Next(s, step).readers[r];
      && after.direct == before.direct && after.ticket == before.ticket
      && (step.Take? && step.r == r && TakeOutcome(s, step).Line? ==>
            s.gate.lines != [] && after.place == Got(s.gate.lines[0]) && Next(s, step).gate.lines == s.gate.lines[1..])
      && (step.Take? && step.r == r && TakeOutcome(s, step).Nothing? ==> after.place == NoLine)
      && (step.Take? && step.r == r && TakeOutcome(s, step).Wait? ==> after.place == InWait)
      && (step.CheckEof? && step.r == r ==> after.place == if s.gate.closed && s.gate.lines == [] then AtEof else Idle)
      && (!((step.Take? || step.CheckEof?) && step.r == r) ==> after == before)
  {}

  /** No thread is kept from acting but by what it has done itself: a read that has not come to an end may
      take its turn, the reader thread may append or close until it closed, and so on. */
  lemma EveryThreadMayAct(s: State)
    requires Reachable(s)
    ensures forall r: nat, timedOut, late :: Enabled(s, Take(r, timedOut, late)) <==>
      r < |s.readers| && (s.readers[r].place.Idle? || s.readers[r].place.InWait?)
    ensures forall r: nat ::
      Enabled(s, CheckEof(r)) <==> r < |s.readers| && s.readers[r].place.NoLine? && !s.readers[r].direct
    ensures forall line :: Enabled(s, Append(line)) <==> !s.gate.closed
    ensures (Enabled(s, Close) <==> !s.gate.closed) && Enabled(s, Reserve)
    ensures forall k: nat :: Enabled(s, Release(k)) <==> k < |s.reservations|
    ensures forall k: nat :: Enabled(s, Unreserve(k)) <==> k < |s.reservations| && s.reservations[k].Marked?
    ensures forall k: nat, change :: Enabled(s, ChangeTicket(k, change)) <==> k < |s.tickets|
  {
    ReachableInv(s);
  }

  /** A line waiting with nobody ahead is there for the next read that asks: it is served in one step. */
  lemma AWaitingLineIsServed(s: State, r: nat)
    requires Reachable(s) && r < |s.readers| && (s.readers[r].place.Idle? || s.readers[r].place.InWait?)
    requires s.gate.lines != [] && (s.readers[r].direct || NobodyAhead(s))
    requires s.readers[r].ticket.Some? && s.readers[r].ticket.value < |s.tickets| ==>
      var t := s.tickets[s.readers[r].ticket.value]; !t.done && !t.expired && !t.cancelled
    ensures Enabled(s, Take(r, false, [])) && r < |Next(s, Take(r, false, [])).readers|
    ensures Next(s, Take(r, false, [])).readers[r].place == Got(s.gate.lines[0])
  {
    EveryThreadMayAct(s);
    ReachableInv(s);
    ReadIsServedExactlyWhen(s, Take(r, false, []));
    ReadsFollowTheSteps(s, Take(r, false, []), r);
  }
}
