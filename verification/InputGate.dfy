/** Routing of piped stdin lines: a reader thread fills a deque, direct reads have priority over
    the chat, reservations keep the chat away before the question is even shown. */
module InputGate {
  import opened Options
  import opened Sums

  /** The fields guarded by the gate's condition. */
  datatype Gate = Gate(lines: seq<string>, closed: bool, waiters: int)

  /** A broker request as its reader sees it. `cancelled` is what the cancel event of the run that
      asked answers at the moment; that event may also be cleared again. */
  datatype Ticket = Ticket(claimed: bool, expired: bool, done: bool, cancelled: bool)

  datatype Outcome = Line(line: string) | Nothing | Wait

  /** `should_abort`. */
  predicate Aborts(t: Ticket) { t.done || t.expired || t.cancelled }

  /** `claim`: refused when the reading should abort, and sticks. */
  function Claim(t: Ticket): Ticket { if Aborts(t) then t else t.(claimed := true) }

  /** `try_expire`: refused once the request is answered or a line was claimed, not by a cancellation. */
  function Expire(t: Ticket): Ticket { if t.done || t.claimed then t else t.(expired := true) }

  /** What other threads do to a request: answer it, expire it, set or clear the event behind it. */
  datatype Change = Answer | Lapse | Cancelled(on: bool)

  function Changed(t: Ticket, c: Change): Ticket {
    match c
    case Answer => t.(done := true)
    case Lapse => Expire(t)
    case Cancelled(on) => t.(cancelled := on)
  }

  function ChangedAll(t: Ticket, cs: seq<Change>): Ticket
    decreases |cs|
  {
    if cs == [] then t else ChangedAll(Changed(t, cs[0]), cs[1..])
  }

  /** One pass of the loop in `_take`: what happens between two waits. `alive` is what
      `should_abort` saw and `claims` what `claim` would answer (both true without a ticket). */
  function Pass(g: Gate, direct: bool, alive: bool, claims: bool, timedOut: bool): Outcome {
    if !alive then Nothing
    else if g.lines != [] && (direct || g.waiters == 0) then
      if claims then Line(g.lines[0]) else Nothing
    else if g.closed && g.lines == [] then Nothing
    else if timedOut then Nothing
    else Wait
  }

  /** The pass with its effects: the line leaves the deque, a direct read that returns stops waiting. */
  function AfterPass(g: Gate, direct: bool, out: Outcome): Gate {
    var g' := if out.Line? && g.lines != [] then g.(lines := g.lines[1..]) else g;
    if direct && !out.Wait? then g'.(waiters := g'.waiters - 1) else g'
  }

  // ---- The code, one critical section a method ----

  class InputRequest {
    var claimed: bool
    var expired: bool
    var done: bool
    var cancelled: bool

    function Model(): Ticket
      reads this
    {
      Ticket(claimed, expired, done, cancelled)
    }

    method TryExpire() returns (ok: bool)
      modifies this
      ensures Model() == Expire(old(Model()))
      ensures ok == (old(!done && !claimed))
      ensures expired == (old(expired) || ok)
      ensures claimed == old(claimed) && done == old(done) && cancelled == old(cancelled)
    {
      if done || claimed {
        return false;
      }
      expired := true;
      ok := true;
    }

    method ClaimLine() returns (ok: bool)
      modifies this
      ensures Model() == Claim(old(Model()))
      ensures ok == (!old(done) && !old(expired) && !old(cancelled))
      ensures claimed == (old(claimed) || ok)
      ensures expired == old(expired) && done == old(done) && cancelled == old(cancelled)
    {
      if done || expired || cancelled {
        return false;
      }
      claimed := true;
      ok := true;
    }
  }

  class SimpleInputGate {
    var lines: seq<string>
    var closed: bool
    var directWaiters: int

    function Model(): Gate
      reads this
    {
      Gate(lines, closed, directWaiters)
    }

    constructor ()
      ensures Model() == Gate([], false, 0)
    {
      lines, closed, directWaiters := [], false, 0;
    }

    method AppendLine(line: string)
      modifies this
      ensures Model() == old(Model()).(lines := old(lines) + [line])
    {
      lines := lines + [line];
    }

    method CloseStdin()
      modifies this
      ensures Model() == old(Model()).(closed := true)
    {
      closed := true;
    }

    method ReserveDirectInput()
      modifies this
      ensures Model() == old(Model()).(waiters := old(directWaiters) + 1)
    {
      directWaiters := directWaiters + 1;
    }

    method ReleaseReserved()
      modifies this
      ensures Model() == old(Model()).(waiters := old(directWaiters) - 1)
    {
      directWaiters := directWaiters - 1;
    }

    method IsClosed() returns (r: bool)
      ensures r == (Model().closed && Model().lines == [])
    {
      r := closed && lines == [];
    }

    /** From entering the lock (`entering`) or waking up to the next wait or return. */
    method TakeOnce(direct: bool, entering: bool, timedOut: bool, ticket: InputRequest?) returns (out: Outcome)
      modifies this, ticket
      ensures var g := if direct && entering then old(Model()).(waiters := old(directWaiters) + 1) else old(Model());
        var live := ticket == null || !Aborts(old(ticket.Model()));
        && out == Pass(g, direct, live, live, timedOut)
        && Model() == AfterPass(g, direct, out)
      ensures ticket != null ==>
        ticket.Model() == if out.Line? then Claim(old(ticket.Model())) else old(ticket.Model())
      ensures var there := old(lines) != [] && (direct || old(directWaiters) == 0);
        var live := ticket == null || (!old(ticket.done) && !old(ticket.expired) && !old(ticket.cancelled));
        && (out.Line? <==> live && there)
        && (out.Wait? <==> live && !there && !timedOut && !(old(closed) && old(lines) == []))
        && (out.Line? ==> old(lines) == [out.line] + lines && (ticket != null ==> ticket.claimed))
        && (!out.Line? ==> lines == old(lines) && (ticket != null ==> ticket.claimed == old(ticket.claimed)))
      ensures closed == old(closed)
      ensures directWaiters == old(directWaiters)
        + (if direct && entering then 1 else 0) - if direct && !out.Wait? then 1 else 0
    {
      if direct && entering {
        directWaiters := directWaiters + 1;
      }
      if ticket != null && (ticket.done || ticket.expired || ticket.cancelled) {
        out := Nothing;
      } else if lines != [] && (direct || directWaiters == 0) {
        var ok := true;
        if ticket != null {
          ok := ticket.ClaimLine();
        }
        if ok {
          out := Line(lines[0]);
          lines := lines[1..];
        } else {
          out := Nothing;
        }
      } else if closed && lines == [] {
        out := Nothing;
      } else if timedOut {
        out := Nothing;
      } else {
        out := Wait;
      }
      if direct && out != Wait {
        directWaiters := directWaiters - 1;
      }
    }
  }

  // ---- All threads together ----

  /** `Marked`: `_released` is set but the counter is not decremented yet. */
  datatype Reservation = Held | Marked | Freed

  datatype Place = Idle | InWait | Got(line: string) | NoLine | AtEof

  /** A chat read has no ticket. */
  datatype Reader = Reader(direct: bool, ticket: Option<nat>, place: Place)

  datatype Delivery = Delivery(reader: nat, line: string)

  /** `read` and `handed` are history: every line the reader thread appended, and which read
      took which line, in order. */
  datatype State = State(
    gate: Gate,
    reservations: seq<Reservation>,
    readers: seq<Reader>,
    tickets: seq<Ticket>,
    read: seq<string>,
    handed: seq<Delivery>)

  datatype Step =
    | Append(line: string) | Close
    | Reserve | Release(k: nat) | Unreserve(k: nat)
    | Take(r: nat, timedOut: bool, late: seq<Change>)
    | CheckEof(r: nat)
    | ChangeTicket(t: nat, change: Change)

  function Initial(readers: seq<Reader>, tickets: seq<Ticket>): State {
    State(Gate([], false, 0), [], readers, tickets, [], [])
  }

  predicate Starting(s: State) {
    && s == Initial(s.readers, s.tickets)
    && (forall r :: 0 <= r < |s.readers| ==> s.readers[r].place.Idle? && ReaderOk(s.readers[r], s.tickets))
    && (forall t :: 0 <= t < |s.tickets| ==> !s.tickets[t].claimed && !s.tickets[t].expired)
  }

  predicate Enabled(s: State, step: Step) {
    match step
    case Append(_) | Close => !s.gate.closed
    case Reserve => true
    case Release(k) => k < |s.reservations|
    case Unreserve(k) => k < |s.reservations| && s.reservations[k].Marked?
    case Take(r, _, _) =>
      && r < |s.readers| && (s.readers[r].place.Idle? || s.readers[r].place.InWait?)
      && ReaderOk(s.readers[r], s.tickets)
    case CheckEof(r) => r < |s.readers| && s.readers[r].place.NoLine? && !s.readers[r].direct
    case ChangeTicket(t, _) => t < |s.tickets|
  }

  function Entered(s: State, r: nat): Gate
    requires r < |s.readers|
  {
    if s.readers[r].direct && s.readers[r].place.Idle? then s.gate.(waiters := s.gate.waiters + 1) else s.gate
  }

  /** The request may change between `should_abort` and `claim` (`late`). */
  function TakeOutcome(s: State, step: Step): Outcome
    requires step.Take? && Enabled(s, step)
  {
    var reader := s.readers[step.r];
    var alive := reader.ticket.Some? ==> !Aborts(s.tickets[reader.ticket.value]);
    var claims := reader.ticket.Some? ==> !Aborts(ChangedAll(s.tickets[reader.ticket.value], step.late));
    Pass(Entered(s, step.r), reader.direct, alive, claims, step.timedOut)
  }

  function Landing(out: Outcome): Place {
    match out
    case Line(line) => Got(line)
    case Nothing => NoLine
    case Wait => InWait
  }

  function TicketsAfterTake(s: State, step: Step): seq<Ticket>
    requires step.Take? && Enabled(s, step)
  {
    var reader := s.readers[step.r];
    if reader.ticket.None? then s.tickets
    else
      var t' := ChangedAll(s.tickets[reader.ticket.value], step.late);
      s.tickets[reader.ticket.value := if TakeOutcome(s, step).Line? then Claim(t') else t']
  }

  function Next(s: State, step: Step): State
    requires Enabled(s, step)
  {
    match step
    case Append(line) => s.(gate := s.gate.(lines := s.gate.lines + [line]), read := s.read + [line])
    case Close => s.(gate := s.gate.(closed := true))
    case Reserve => s.(gate := s.gate.(waiters := s.gate.waiters + 1), reservations := s.reservations + [Held])
    case Release(k) => if s.reservations[k].Held? then s.(reservations := s.reservations[k := Marked]) else s
    case Unreserve(k) =>
      s.(gate := s.gate.(waiters := s.gate.waiters - 1), reservations := s.reservations[k := Freed])
    case Take(r, _, _) =>
      var out := TakeOutcome(s, step);
      s.(gate := AfterPass(Entered(s, r), s.readers[r].direct, out),
         readers := s.readers[r := s.readers[r].(place := Landing(out))],
         tickets := TicketsAfterTake(s, step),
         handed := if out.Line? then s.handed + [Delivery(r, out.line)] else s.handed)
    case CheckEof(r) =>
      if s.gate.closed && s.gate.lines == [] then s.(readers := s.readers[r := s.readers[r].(place := AtEof)])
      else s.(readers := s.readers[r := s.readers[r].(place := Idle)])  // the chat loop asks again
    case ChangeTicket(t, change) => s.(tickets := s.tickets[t := Changed(s.tickets[t], change)])
  }

  // ---- Invariant ----

  predicate ReaderOk(reader: Reader, tickets: seq<Ticket>) {
    && (reader.ticket.Some? ==> reader.direct && reader.ticket.value < |tickets|)
    && (reader.ticket.Some? && reader.place.Got? ==> tickets[reader.ticket.value].claimed)
  }

  function Reserved(r: Reservation): nat { if r.Freed? then 0 else 1 }

  function Reading(r: Reader): nat { if r.direct && r.place.InWait? then 1 else 0 }

  function LinesOf(log: seq<Delivery>): seq<string> {
    seq(|log|, k requires 0 <= k < |log| => log[k].line)
  }

  /** The log and the reads agree: every delivery landed, in a read of its own, and no read
      has a line that is not in the log. */
  predicate DeliveriesOk(log: seq<Delivery>, readers: seq<Reader>) {
    && (forall k :: 0 <= k < |log| ==> log[k].reader < |readers| && readers[log[k].reader].place == Got(log[k].line))
    && (forall k, m :: 0 <= k < m < |log| ==> log[k].reader != log[m].reader)
    && (forall r: nat :: r < |readers| && readers[r].place.Got? ==> exists k :: 0 <= k < |log| && log[k].reader == r)
  }

  predicate Inv(s: State) {
    && s.read == LinesOf(s.handed) + s.gate.lines
    && DeliveriesOk(s.handed, s.readers)
    && s.gate.waiters == Sum(Reserved, s.reservations) + Sum(Reading, s.readers)
    && (forall r :: 0 <= r < |s.readers| ==> ReaderOk(s.readers[r], s.tickets))
    && (forall t :: 0 <= t < |s.tickets| ==> TicketOk(s.tickets[t]))
    && (forall r :: 0 <= r < |s.readers| && s.readers[r].place.AtEof? ==> s.gate.closed && s.gate.lines == [])
  }

  predicate TicketOk(t: Ticket) { !(t.expired && t.claimed) }

  lemma {:induction false} ChangesKeepTicketOk(t: Ticket, cs: seq<Change>)
    requires TicketOk(t)
    ensures TicketOk(ChangedAll(t, cs)) && (t.claimed ==> ChangedAll(t, cs).claimed)
    decreases |cs|
  {
    if cs != [] { ChangesKeepTicketOk(Changed(t, cs[0]), cs[1..]); }
  }

  lemma StartingInv(s: State)
    requires Starting(s)
    ensures Inv(s)
  {
    assert Sum(Reserved, s.reservations) == 0;
    NobodyReads(s.readers);
    NothingDelivered(s.readers);
  }

  lemma NobodyReads(readers: seq<Reader>)
    requires forall r :: 0 <= r < |readers| ==> readers[r].place.Idle?
    ensures Sum(Reading, readers) == 0
  {
    SumZero(Reading, readers);
  }

  lemma NothingDelivered(readers: seq<Reader>)
    requires forall r :: 0 <= r < |readers| ==> readers[r].place.Idle?
    ensures DeliveriesOk([], readers)
  {}

  lemma {:induction false} SumAppend(weight: Reservation -> nat, xs: seq<Reservation>, x: Reservation)
    ensures Sum(weight, xs + [x]) == Sum(weight, xs) + weight(x)
  {
    if xs == [] {
      assert (xs + [x])[1..] == [];
    } else {
      assert (xs + [x])[1..] == xs[1..] + [x];
      SumAppend(weight, xs[1..], x);
    }
  }

  lemma TakeMovesOneLine(s: State, step: Step)
    requires s.read == LinesOf(s.handed) + s.gate.lines && step.Take? && Enabled(s, step)
    ensures Next(s, step).read == LinesOf(Next(s, step).handed) + Next(s, step).gate.lines
  {
    if TakeOutcome(s, step).Line? {
      assert s.gate.lines == [s.gate.lines[0]] + s.gate.lines[1..];
      assert LinesOf(Next(s, step).handed) == LinesOf(s.handed) + [s.gate.lines[0]];
    }
  }

  lemma DeliveryLogged(log: seq<Delivery>, readers: seq<Reader>, r: nat, line: string)
    requires DeliveriesOk(log, readers) && r < |readers| && !readers[r].place.Got?
    ensures DeliveriesOk(log + [Delivery(r, line)], readers[r := readers[r].(place := Got(line))])
  {
    var log' := log + [Delivery(r, line)];
    assert log'[|log|].reader == r;
    forall q: nat | q < |readers| && readers[q].place.Got?
      ensures exists k :: 0 <= k < |log'| && log'[k].reader == q
    {
      var k :| 0 <= k < |log| && log[k].reader == q;
      assert log'[k].reader == q;
    }
  }

  lemma NoDelivery(log: seq<Delivery>, readers: seq<Reader>, r: nat, place: Place)
    requires DeliveriesOk(log, readers) && r < |readers| && !readers[r].place.Got? && !place.Got?
    ensures DeliveriesOk(log, readers[r := readers[r].(place := place)])
  {}

  lemma TakeKeepsInv(s: State, step: Step)
    requires Inv(s) && step.Take? && Enabled(s, step)
    ensures Inv(Next(s, step))
  {
    SumUpdate(Reading, s.readers, step.r, Next(s, step).readers[step.r]);
    TakeMovesOneLine(s, step);
    if s.readers[step.r].ticket.Some? {
      ChangesKeepTicketOk(s.tickets[s.readers[step.r].ticket.value], step.late);
    }
    if TakeOutcome(s, step).Line? {
      DeliveryLogged(s.handed, s.readers, step.r, TakeOutcome(s, step).line);
    } else {
      NoDelivery(s.handed, s.readers, step.r, Landing(TakeOutcome(s, step)));
    }
  }

  lemma CheckEofKeepsInv(s: State, step: Step)
    requires Inv(s) && step.CheckEof? && Enabled(s, step)
    ensures Inv(Next(s, step))
  {
    SumUpdate(Reading, s.readers, step.r, Next(s, step).readers[step.r]);
    NoDelivery(s.handed, s.readers, step.r, Next(s, step).readers[step.r].place);
  }

  lemma StepKeepsInv(s: State, step: Step)
    requires Inv(s) && Enabled(s, step)
    ensures Inv(Next(s, step))
  {
    var t := Next(s, step);
    match step
    case Append(line) => assert t.read == LinesOf(s.handed) + (s.gate.lines + [line]);
    case Reserve => SumAppend(Reserved, s.reservations, Held);
    case Release(k) => SumUpdate(Reserved, s.reservations, k, t.reservations[k]);
      assert s.reservations[k := s.reservations[k]] == s.reservations;
    case Unreserve(k) => SumUpdate(Reserved, s.reservations, k, Freed);
    case Take(_, _, _) => TakeKeepsInv(s, step);
    case CheckEof(r) => CheckEofKeepsInv(s, step);
    case _ =>
  }

  // ---- Whole runs ----

  ghost predicate Run(s: State, steps: seq<Step>, t: State)
    decreases |steps|
  {
    if steps == [] then t == s
    else Enabled(s, steps[0]) && Run(Next(s, steps[0]), steps[1..], t)
  }

  lemma {:induction false} RunKeepsInv(s: State, steps: seq<Step>, t: State)
    requires Inv(s) && Run(s, steps, t)
    ensures Inv(t)
    decreases |steps|
  {
    if steps != [] {
      StepKeepsInv(s, steps[0]);
      RunKeepsInv(Next(s, steps[0]), steps[1..], t);
    }
  }

  ghost predicate Reachable(t: State) {
    exists s, steps :: Starting(s) && Run(s, steps, t)
  }

  lemma ReachableInv(t: State)
    requires Reachable(t)
    ensures Inv(t)
  {
    var s, steps :| Starting(s) && Run(s, steps, t);
    StartingInv(s);
    RunKeepsInv(s, steps, t);
  }

  /** Every line read so far was handed to exactly one read or is still in the deque, in the
      order it was read, and no read got more than one line. */
  lemma LinesAreDeliveredOnceInOrder(t: State)
    requires Reachable(t)
    ensures t.read == LinesOf(t.handed) + t.gate.lines
    ensures forall k, m :: 0 <= k < m < |t.handed| ==> t.handed[k].reader != t.handed[m].reader
    ensures forall r: nat :: r < |t.readers| ==>
      (t.readers[r].place.Got? <==> exists k :: 0 <= k < |t.handed| && t.handed[k].reader == r)
    ensures forall k :: 0 <= k < |t.handed| && t.handed[k].reader < |t.readers| ==>
      t.readers[t.handed[k].reader].place == Got(t.handed[k].line)
  {
    ReachableInv(t);
  }

  /** `_direct_waiters` counts the reservations not yet decremented, however often and from
      however many threads they were released, and the direct reads in progress. */
  lemma WaitersAreAccounted(t: State)
    requires Reachable(t)
    ensures t.gate.waiters == Sum(Reserved, t.reservations) + Sum(Reading, t.readers)
  {
    ReachableInv(t);
  }

  /** The chat takes a line only when nobody has a reservation and no direct read waits. */
  lemma ChatYields(s: State, step: Step)
    requires Reachable(s) && step.Take? && Enabled(s, step) && !s.readers[step.r].direct
    requires |Next(s, step).handed| > |s.handed|
    ensures forall k :: 0 <= k < |s.reservations| ==> s.reservations[k].Freed?
    ensures forall r :: 0 <= r < |s.readers| ==> !(s.readers[r].direct && s.readers[r].place.InWait?)
  {
    ReachableInv(s);
    forall k | 0 <= k < |s.reservations| ensures s.reservations[k].Freed? {
      SumAtLeast(Reserved, s.reservations, k);
    }
    forall r | 0 <= r < |s.readers| ensures !(s.readers[r].direct && s.readers[r].place.InWait?) {
      SumAtLeast(Reading, s.readers, r);
    }
  }

  /** A line reaches a ticketed read only after its request claimed it, and such a request
      never expires. */
  lemma TicketedLineIsClaimed(t: State, r: nat)
    requires Reachable(t) && r < |t.readers| && t.readers[r].place.Got? && t.readers[r].ticket.Some?
    ensures t.readers[r].ticket.value < |t.tickets|
    ensures t.tickets[t.readers[r].ticket.value].claimed && !t.tickets[t.readers[r].ticket.value].expired
  {
    ReachableInv(t);
  }

  /** No reservation is open and no direct read is waiting. */
  predicate NobodyAhead(s: State) {
    && (forall k :: 0 <= k < |s.reservations| ==> s.reservations[k].Freed?)
    && forall r :: 0 <= r < |s.readers| ==> !(s.readers[r].direct && s.readers[r].place.InWait?)
  }

  lemma NobodyAheadExactlyWhen(s: State)
    requires Inv(s)
    ensures NobodyAhead(s) <==> s.gate.waiters == 0
  {
    if NobodyAhead(s) {
      SumZero(Reserved, s.reservations);
      SumZero(Reading, s.readers);
    } else if !(forall k :: 0 <= k < |s.reservations| ==> s.reservations[k].Freed?) {
      var k :| 0 <= k < |s.reservations| && !s.reservations[k].Freed?;
      SumAtLeast(Reserved, s.reservations, k);
    } else {
      var r :| 0 <= r < |s.readers| && s.readers[r].direct && s.readers[r].place.InWait?;
      SumAtLeast(Reading, s.readers, r);
    }
  }

  /** In every interleaving: a line is there for a direct read when there is one at all, for the chat when,
      besides, nobody is ahead of it. A read is served exactly when a line is there for it and its
      request, if any, is neither answered nor expired nor cancelled at both tests; it waits exactly when
      none is there though stdin is not over, its request was alive and its time is not up; otherwise it
      gives up. */
  lemma ReadIsServedExactlyWhen(s: State, step: Step)
    requires Reachable(s) && step.Take? && Enabled(s, step)
    ensures var reader := s.readers[step.r];
      var there := s.gate.lines != [] && (reader.direct || NobodyAhead(s));
      var alive := reader.ticket.Some? ==>
        var t := s.tickets[reader.ticket.value]; !t.done && !t.expired && !t.cancelled;
      var claims := reader.ticket.Some? ==>
        var t := ChangedAll(s.tickets[reader.ticket.value], step.late); !t.done && !t.expired && !t.cancelled;
      && (TakeOutcome(s, step).Line? <==> there && alive && claims)
      && (TakeOutcome(s, step).Wait? <==>
            !there && alive && !step.timedOut && !(s.gate.closed && s.gate.lines == []))
  {
    ReachableInv(s);
    NobodyAheadExactlyWhen(s);
  }

  predicate Exhausted(s: State) { s.gate.closed && s.gate.lines == [] }

  /** `EOFError` is raised only when stdin is over and every line was handed out, ... */
  lemma EofMeansExhausted(t: State, r: nat)
    requires Reachable(t) && r < |t.readers| && t.readers[r].place.AtEof?
    ensures Exhausted(t) && t.read == LinesOf(t.handed)
  {
    ReachableInv(t);
    assert LinesOf(t.handed) + [] == LinesOf(t.handed);
  }

  /** ... and that is final: no later action of any thread reads or hands out a line. */
  lemma {:induction false} ExhaustedIsFinal(s: State, steps: seq<Step>, t: State)
    requires Exhausted(s) && Run(s, steps, t)
    ensures Exhausted(t) && t.read == s.read && t.handed == s.handed
    decreases |steps|
  {
    if steps != [] {
      ExhaustedIsFinal(Next(s, steps[0]), steps[1..], t);
    }
  }
}
