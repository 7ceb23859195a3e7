/** The jam that only the deadline breaks: queued prompts hold the workers, reserved ones the permits. */
module ChatJam {
  import opened ChatConservation
  import opened ChatProgress
  import opened ChatSlots
  import opened RuntimeState
  import opened Sums

  /** Queued prompts hold every worker while all permits are taken; whoever else is left waits for a
      worker. */
  predicate Jammed(s: State) {
    && s.counters.free == 0 && Sum(Busy, s.prompts) == s.capacity
    && s.chatQueue == []
    && forall i :: 0 <= i < |s.prompts| ==> Stuck(s.prompts[i])
  }

  predicate Stuck(p: Prompt) {
    || p.place.Done? || (p.place.Queued? && p.place.hooked)
    || (p.place.Polling? && p.place.remaining > 0 && !p.stopped)
  }

  /** No action but a tick of the clock can be taken without a user or a failure. */
  ghost predicate OnlyTheClock(s: State) {
    forall step :: Internal(step) && Enabled(s, step) ==> step.Tick?
  }

  /** An unfinished state waits for the clock alone exactly when it is jammed. */
  lemma OnlyTheClockActsExactlyWhenJammed(s: State)
    requires Inv(s) && !Quiescent(s)
    ensures OnlyTheClock(s) <==> Jammed(s)
  {
    if Jammed(s) {
      forall step | Internal(step) && Enabled(s, step) ensures step.Tick? {
        JamNeedsClock(s, step);
      }
    }
    if OnlyTheClock(s) {
      ClockMeansStuck(s);
      ClockMeansFull(s);
    }
  }

  lemma JamNeedsClock(s: State, step: Step)
    requires Jammed(s) && Internal(step) && Enabled(s, step)
    ensures step.Tick?
  {}

  lemma ClockMeansStuck(s: State)
    requires Inv(s) && OnlyTheClock(s)
    ensures s.chatQueue == [] && forall i :: 0 <= i < |s.prompts| ==> Stuck(s.prompts[i])
  {
    assert s.chatQueue != [] ==> s.chatQueue[0] in s.chatQueue;
    forall i | 0 <= i < |s.prompts| ensures Stuck(s.prompts[i]) {
      var p := s.prompts[i];
      if p.place.InChatQueue? {
        QueuedCanBeForwarded(s, i);
      } else if !p.place.Done? && !(p.place.Queued? && p.place.hooked) {
        OwnStepEnabled(s, i);
        assert !Enabled(s, GiveUp(i));
      }
    }
  }

  lemma ClockMeansFull(s: State)
    requires Inv(s) && OnlyTheClock(s) && !Quiescent(s)
    requires forall i :: 0 <= i < |s.prompts| ==> Stuck(s.prompts[i])
    ensures s.counters.free == 0 && Sum(Busy, s.prompts) == s.capacity
  {
    assert !Enabled(s, Start);
    var i := SomebodyPolls(s);
    assert !Enabled(s, Acquire(i));
    var j := SumPositive(Holds, s.prompts);
    StuckWaitsForWorker(s, j);
  }

  /** In a stuck state that is not over somebody polls for a permit. */
  lemma SomebodyPolls(s: State) returns (i: nat)
    requires Inv(s) && !Quiescent(s) && !Enabled(s, Start)
    requires forall i :: 0 <= i < |s.prompts| ==> Stuck(s.prompts[i])
    ensures i < |s.prompts| && s.prompts[i].place.Polling?
  {
    var j: nat :| j < |s.prompts| && !s.prompts[j].place.Done?;
    if s.prompts[j].place.Polling? {
      i := j;
    } else {
      StuckWaitsForWorker(s, j);
      i := SumPositive(Busy, s.prompts);
    }
  }

  lemma StuckWaitsForWorker(s: State, j: nat)
    requires Inv(s) && !Enabled(s, Start) && j < |s.prompts| && s.prompts[j].place.Queued?
    ensures Sum(Busy, s.prompts) == s.capacity
  {
    if Sum(Busy, s.prompts) < s.capacity {
      PendingCanBeStarted(s, j);
    }
  }

  // ---- A schedule that jams any number of slots ----

  function Slot(place: Place): Prompt { Prompt(place, Ledger(1, 0, 1, 0, 0, 0), false) }
  function Wait(place: Place): Prompt { Prompt(place, Ledger(0, 0, 0, 0, 1, 0), false) }
  function Gone(place: Place): Prompt { Prompt(place, Ledger(1, 1, 1, 1, 0, 0), false) }

  /** Six acts for `n` slots and three groups of `n` prompts, each act taking one prompt after the
      other: the first group runs; the second is queued behind it; the first gives its permits
      back; the third takes them; the workers return and pick up the second; the third, with
      its permits, queues for a worker. Here is prompt `j` when act `act` has done `i` of them. */
  function Cast(n: nat, w: nat, act: nat, i: nat, j: nat): Prompt {
    match act
    case 1 => if j < i then Slot(Running) else Fresh
    case 2 => if j < n then Slot(Running) else if j < n + i then Wait(Queued(false, true)) else Fresh
    case 3 =>
      if j < i then Gone(Returning) else if j < n then Slot(Running)
      else if j < 2 * n then Wait(Queued(false, true)) else Fresh
    case 4 =>
      if j < n then Gone(Returning) else if j < 2 * n then Wait(Queued(false, true))
      else if j < 2 * n + i then Slot(Counted) else Fresh
    case 5 =>
      if j < i then Gone(Done) else if j < n then Gone(Returning)
      else if j < n + i then Wait(Polling(w)) else if j < 2 * n then Wait(Queued(false, true)) else Slot(Counted)
    case _ =>
      if j < n then Gone(Done) else if j < 2 * n then Wait(Polling(w))
      else if j < 2 * n + i then Slot(Queued(true, true)) else Slot(Counted)
  }

  function Prompts(n: nat, w: nat, act: nat, i: nat): seq<Prompt> {
    seq(3 * n, j requires 0 <= j < 3 * n => Cast(n, w, act, i, j))
  }

  function Tally(n: nat, act: nat, i: nat): Counters {
    match act
    case 1 => Counters(n - i, i, 0)
    case 2 => Counters(0, n, i)
    case 3 => Counters(i, n - i, n)
    case 4 => Counters(n - i, i, n)
    case _ => Counters(0, n, n)
  }

  function Ids(a: nat, b: nat): seq<nat> { if a < b then seq(b - a, k requires 0 <= k < b - a => a + k) else [] }

  function Line(n: nat, act: nat, i: nat): seq<nat> {
    match act
    case 1 => []
    case 2 => Ids(n, n + i)
    case 3 | 4 => Ids(n, 2 * n)
    case 5 => Ids(n + i, 2 * n)
    case _ => Ids(2 * n, 2 * n + i)
  }

  function Scene(n: nat, w: nat, act: nat, i: nat): State {
    State(n, w, Tally(n, act, i), Prompts(n, w, act, i), [], Line(n, act, i))
  }

  predicate Played(n: nat, act: nat, i: nat) { n >= 1 && 1 <= act <= 6 && i <= n }

  // ---- One action ----

  predicate Takes(t: State, step: Step, u: State) { Enabled(t, step) && Next(t, step) == u }

  /** State `s` with prompt `i` at `p`, and these counters and queues. */
  function With(s: State, c: Counters, i: nat, p: Prompt, chat: seq<nat>, exec: seq<nat>): State
    requires i < |s.prompts|
  {
    State(s.capacity, s.waitLimit, c, s.prompts[i := p], chat, exec)
  }

  lemma Solo(s: State, c: Counters, i: nat, p: Prompt, chat: seq<nat>, exec: seq<nat>, step: Step)
    requires i < |s.prompts| && !step.Tick? && !step.Forward? && !step.Start? && step.i == i
    requires LocallyEnabled(p, c.free, step)
    ensures Takes(With(s, c, i, p, chat, exec), step,
      With(s, NextCounters(c, step), i, NextPrompt(p, c.free, step, s.waitLimit),
           if step.Put? then chat + [i] else chat, if step.Submit? then exec + [i] else exec))
  {
    var q := NextPrompt(p, c.free, step, s.waitLimit);
    assert s.prompts[i := p][i := q] == s.prompts[i := q];
  }

  lemma Forwarded(s: State, c: Counters, i: nat, p: Prompt, exec: seq<nat>)
    requires i < |s.prompts| && p.place.InChatQueue?
    ensures Takes(With(s, c, i, p, [i], exec), Forward,
      With(s, c, i, NextPrompt(p, c.free, Forward, s.waitLimit), [], exec))
  {
    var q := NextPrompt(p, c.free, Forward, s.waitLimit);
    assert s.prompts[i := p][i := q] == s.prompts[i := q];
  }

  lemma Picked(s: State, c: Counters, i: nat, p: Prompt, exec: seq<nat>)
    requires i < |s.prompts| && p.place.Queued? && exec != [] && exec[0] == i
    requires Sum(Busy, s.prompts[i := p]) < s.capacity
    ensures Takes(With(s, c, i, p, [], exec), Start,
      With(s, c, i, NextPrompt(p, c.free, Start, s.waitLimit), [], exec[1..]))
  {
    var q := NextPrompt(p, c.free, Start, s.waitLimit);
    assert s.prompts[i := p][i := q] == s.prompts[i := q];
  }

  lemma {:induction false} RunThen(s: State, steps: seq<Step>, t: State, step: Step, u: State)
    requires Run(s, steps, t) && Takes(t, step, u)
    ensures Run(s, steps + [step], u)
    decreases |steps|
  {
    if steps != [] {
      RunThen(Next(s, steps[0]), steps[1..], t, step, u);
      assert (steps + [step])[1..] == steps[1..] + [step];
    } else {
      assert (steps + [step])[1..] == [];
    }
  }

  /** A set of states that no action leaves. */
  ghost predicate Closed(led: State -> bool) {
    forall t, step, u :: led(t) && Takes(t, step, u) ==> led(u)
  }

  lemma LedOn(led: State -> bool, t: State, step: Step, u: State)
    requires Closed(led) && led(t) && Takes(t, step, u)
    ensures led(u)
  {}

  /** One more action of prompt `i`, which leaves it at `q` and the counters at `d`. */
  lemma Acts(led: State -> bool, s: State, c: Counters, i: nat, p: Prompt, chat: seq<nat>, exec: seq<nat>,
             step: Step, d: Counters, q: Prompt)
    requires Closed(led)
    requires i < |s.prompts| && led(With(s, c, i, p, chat, exec))
    requires !step.Tick? && !step.Forward? && !step.Start? && !step.Put? && !step.Submit? && step.i == i
    requires LocallyEnabled(p, c.free, step) && NextCounters(c, step) == d
    requires NextPrompt(p, c.free, step, s.waitLimit) == q
    ensures led(With(s, d, i, q, chat, exec))
  {
    Solo(s, c, i, p, chat, exec, step);
    LedOn(led, With(s, c, i, p, chat, exec), step, With(s, d, i, q, chat, exec));
  }

  lemma Unchanged(s: State, i: nat)
    requires i < |s.prompts|
    ensures s == With(s, s.counters, i, s.prompts[i], s.chatQueue, s.execQueue)
  {
    assert s.prompts[i := s.prompts[i]] == s.prompts;
  }

  // ---- What one prompt goes through in each act ----

  /** A fresh prompt that gets a slot goes as far as the main loop has counted it. */
  lemma GetsSlot(led: State -> bool, s: State, i: nat)
    requires Closed(led)
    requires led(s) && i < |s.prompts| && s.prompts[i] == Fresh && s.counters.free > 0
    ensures var c := s.counters;
      led(With(s, Counters(c.free - 1, c.inflight + 1, c.pending), i, Slot(Counted), s.chatQueue, s.execQueue))
  {
    var c := s.counters;
    var granted := Prompt(Granted, Ledger(1, 0, 0, 0, 0, 0), false);
    Unchanged(s, i);
    Acts(led, s, c, i, Fresh, s.chatQueue, s.execQueue, Admit(i), TakePermit(c), granted);
    Acts(led, s, TakePermit(c), i, granted, s.chatQueue, s.execQueue, Count(i), CountInflight(TakePermit(c)), Slot(Counted));
  }

  /** From counted to submitted: through the chat queue and the worker. */
  lemma GetsSubmitted(led: State -> bool, s: State, c: Counters, i: nat, p: Prompt, exec: seq<nat>)
    requires Closed(led)
    requires i < |s.prompts| && (p == Slot(Counted) || p == Wait(Parked))
    requires led(With(s, c, i, p, [], exec))
    ensures led(With(s, c, i, p.(place := Queued(p.place.Counted?, false)), [], exec + [i]))
  {
    var r := p.place.Counted?;
    var p1, p2 := p.(place := InChatQueue(r)), p.(place := Forwarding(r));
    Solo(s, c, i, p, [], exec, Put(i));
    assert [] + [i] == [i];
    LedOn(led, With(s, c, i, p, [], exec), Put(i), With(s, c, i, p1, [i], exec));
    Forwarded(s, c, i, p1, exec);
    LedOn(led, With(s, c, i, p1, [i], exec), Forward, With(s, c, i, p2, [], exec));
    Solo(s, c, i, p2, [], exec, Submit(i));
    LedOn(led, With(s, c, i, p2, [], exec), Submit(i),
            With(s, c, i, p.(place := Queued(r, false)), [], exec + [i]));
  }

  lemma Runs(led: State -> bool, s: State, i: nat)
    requires Closed(led)
    requires led(s) && i < |s.prompts| && s.prompts[i] == Fresh && s.counters.free > 0
    requires s.chatQueue == [] && s.execQueue == [] && Sum(Busy, s.prompts) < s.capacity
    ensures var c := s.counters;
      led(With(s, Counters(c.free - 1, c.inflight + 1, c.pending), i, Slot(Running), [], []))
  {
    var c := CountInflight(TakePermit(s.counters));
    var queued := Slot(Queued(true, false));
    GetsSlot(led, s, i);
    GetsSubmitted(led, s, c, i, Slot(Counted), []);
    assert [] + [i] == [i];
    SumUpdate(Busy, s.prompts, i, queued);
    Picked(s, c, i, queued, [i]);
    LedOn(led, With(s, c, i, queued, [], [i]), Start, With(s, c, i, Slot(Running), [], []));
  }

  lemma Waits(led: State -> bool, s: State, i: nat)
    requires Closed(led)
    requires led(s) && i < |s.prompts| && s.prompts[i] == Fresh && s.counters.free == 0 && s.chatQueue == []
    ensures led(With(s, CountPending(s.counters), i, Wait(Queued(false, true)), [], s.execQueue + [i]))
  {
    var c, exec := s.counters, s.execQueue;
    var d := CountPending(c);
    Unchanged(s, i);
    Acts(led, s, c, i, Fresh, [], exec, Admit(i), c, Fresh.(place := Refused));
    Acts(led, s, c, i, Fresh.(place := Refused), [], exec, Park(i), d, Wait(Parked));
    GetsSubmitted(led, s, d, i, Wait(Parked), exec);
    Acts(led, s, d, i, Wait(Queued(false, false)), [], exec + [i], Hook(i), d, Wait(Queued(false, true)));
  }

  lemma Ends(led: State -> bool, s: State, i: nat)
    requires Closed(led)
    requires led(s) && i < |s.prompts| && s.prompts[i] == Slot(Running) && s.counters.inflight > 0
    ensures var c := s.counters;
      led(With(s, Counters(c.free + 1, c.inflight - 1, c.pending), i, Gone(Returning), s.chatQueue, s.execQueue))
  {
    var c, chat, exec := s.counters, s.chatQueue, s.execQueue;
    var d, p := UncountInflight(c), Prompt(Releasing(true), Ledger(1, 0, 1, 1, 0, 0), false);
    Unchanged(s, i);
    Acts(led, s, c, i, Slot(Running), chat, exec, Finish(i), c, Slot(Uncounting(true)));
    Acts(led, s, c, i, Slot(Uncounting(true)), chat, exec, Uncount(i), d, p);
    Acts(led, s, d, i, p, chat, exec, Release(i), GivePermit(d), Gone(Returning));
  }

  lemma Polls(led: State -> bool, s: State, j: nat)
    requires Closed(led)
    requires led(s) && j < |s.prompts| && s.prompts[j] == Wait(Queued(false, true)) && s.chatQueue == []
    requires s.execQueue != [] && s.execQueue[0] == j && Sum(Busy, s.prompts) < s.capacity
    ensures led(With(s, s.counters, j, Wait(Polling(s.waitLimit)), [], s.execQueue[1..]))
  {
    Unchanged(s, j);
    Picked(s, s.counters, j, s.prompts[j], s.execQueue);
    LedOn(led, s, Start, With(s, s.counters, j, Wait(Polling(s.waitLimit)), [], s.execQueue[1..]));
  }

  lemma Queues(led: State -> bool, s: State, i: nat)
    requires Closed(led)
    requires led(s) && i < |s.prompts| && s.prompts[i] == Slot(Counted) && s.chatQueue == []
    ensures led(With(s, s.counters, i, Slot(Queued(true, true)), [], s.execQueue + [i]))
  {
    var c, exec := s.counters, s.execQueue;
    Unchanged(s, i);
    GetsSubmitted(led, s, c, i, Slot(Counted), exec);
    Acts(led, s, c, i, Slot(Queued(true, false)), [], exec + [i], Hook(i), c, Slot(Queued(true, true)));
  }

  // ---- All acts ----

  /** One act ends where the next begins. */
  lemma Curtain(n: nat, w: nat, act: nat)
    requires 1 <= act < 6
    ensures Scene(n, w, act + 1, 0) == Scene(n, w, act, n)
  {
    assert Prompts(n, w, act + 1, 0) == Prompts(n, w, act, n);
    assert Line(n, act + 1, 0) == Line(n, act, n);
  }

  /** The prompt act `act` turns to next (in the fifth act it turns to `n + i` as well). */
  function Turn(n: nat, act: nat, i: nat): nat {
    if act == 1 || act == 3 || act == 5 then i else if act == 2 then n + i else 2 * n + i
  }

  /** Between two prompts of the fifth act: one worker has returned and picked up nothing yet. */
  function Between(n: nat, w: nat, i: nat): seq<Prompt>
    requires i < n
  {
    Prompts(n, w, 5, i)[i := Gone(Done)]
  }

  lemma NextPrompts(n: nat, w: nat, act: nat, i: nat)
    requires Played(n, act, i) && i < n
    ensures var j := Turn(n, act, i);
      Prompts(n, w, act, i + 1) ==
        if act == 5 then Between(n, w, i)[n + i := Wait(Polling(w))]
        else Prompts(n, w, act, i)[j := Cast(n, w, act, i + 1, j)]
  {}

  /** How many workers are taken. */
  lemma {:induction false} BusyAt(n: nat, w: nat, act: nat, i: nat)
    requires Played(n, act, i)
    ensures Sum(Busy, Prompts(n, w, act, i)) == if act == 1 then i else n
    decreases act, i
  {
    if i == 0 {
      if act == 1 {
        SumZero(Busy, Prompts(n, w, 1, 0));
      } else {
        BusyAt(n, w, act - 1, n);
        Curtain(n, w, act - 1);
      }
    } else {
      BusyAt(n, w, act, i - 1);
      BusyStep(n, w, act, i - 1);
    }
  }

  lemma BusyStep(n: nat, w: nat, act: nat, i: nat)
    requires Played(n, act, i) && i < n
    ensures Sum(Busy, Prompts(n, w, act, i + 1)) == Sum(Busy, Prompts(n, w, act, i)) + if act == 1 then 1 else 0
  {
    match act
    case 1 => BusyNext(n, w, 1, i, Slot(Running));
    case 2 => BusyNext(n, w, 2, i, Wait(Queued(false, true)));
    case 3 => BusyNext(n, w, 3, i, Gone(Returning));
    case 4 => BusyNext(n, w, 4, i, Slot(Counted));
    case 5 => BusyFifth(n, w, i);
    case _ => BusyNext(n, w, 6, i, Slot(Queued(true, true)));
  }

  lemma BusyNext(n: nat, w: nat, act: nat, i: nat, p: Prompt)
    requires Played(n, act, i) && i < n && act != 5 && p == Cast(n, w, act, i + 1, Turn(n, act, i))
    ensures var j := Turn(n, act, i);
      Sum(Busy, Prompts(n, w, act, i + 1)) + Busy(Cast(n, w, act, i, j)) == Sum(Busy, Prompts(n, w, act, i)) + Busy(p)
  {
    NextPrompts(n, w, act, i);
    SumUpdate(Busy, Prompts(n, w, act, i), Turn(n, act, i), p);
  }

  lemma BusyFifth(n: nat, w: nat, i: nat)
    requires i < n
    ensures Sum(Busy, Between(n, w, i)) + 1 == Sum(Busy, Prompts(n, w, 5, i)) == Sum(Busy, Prompts(n, w, 5, i + 1))
  {
    NextPrompts(n, w, 5, i);
    SumUpdate(Busy, Prompts(n, w, 5, i), i, Gone(Done));
    SumUpdate(Busy, Between(n, w, i), n + i, Wait(Polling(w)));
  }

  lemma NextLine(n: nat, act: nat, i: nat)
    requires Played(n, act, i) && i < n
    ensures act == 2 || act == 6 ==> Line(n, act, i + 1) == Line(n, act, i) + [Turn(n, act, i)]
    ensures act == 5 ==> Line(n, act, i) != [] && Line(n, act, i)[0] == n + i && Line(n, act, i + 1) == Line(n, act, i)[1..]
    ensures act == 1 || act == 3 || act == 4 ==> Line(n, act, i + 1) == Line(n, act, i)
  {}

  lemma FirstAct(led: State -> bool, n: nat, w: nat, i: nat)
    requires Closed(led)
    requires n >= 1 && i < n && led(Scene(n, w, 1, i))
    ensures led(Scene(n, w, 1, i + 1))
  {
    NextPrompts(n, w, 1, i);
    BusyAt(n, w, 1, i);
    Runs(led, Scene(n, w, 1, i), i);
  }

  lemma SecondAct(led: State -> bool, n: nat, w: nat, i: nat)
    requires Closed(led)
    requires n >= 1 && i < n && led(Scene(n, w, 2, i))
    ensures led(Scene(n, w, 2, i + 1))
  {
    NextPrompts(n, w, 2, i);
    NextLine(n, 2, i);
    Waits(led, Scene(n, w, 2, i), n + i);
  }

  lemma ThirdAct(led: State -> bool, n: nat, w: nat, i: nat)
    requires Closed(led)
    requires n >= 1 && i < n && led(Scene(n, w, 3, i))
    ensures led(Scene(n, w, 3, i + 1))
  {
    NextPrompts(n, w, 3, i);
    Ends(led, Scene(n, w, 3, i), i);
  }

  lemma FourthAct(led: State -> bool, n: nat, w: nat, i: nat)
    requires Closed(led)
    requires n >= 1 && i < n && led(Scene(n, w, 4, i))
    ensures led(Scene(n, w, 4, i + 1))
  {
    NextPrompts(n, w, 4, i);
    GetsSlot(led, Scene(n, w, 4, i), 2 * n + i);
  }

  lemma FifthAct(led: State -> bool, n: nat, w: nat, i: nat)
    requires Closed(led)
    requires n >= 1 && i < n && led(Scene(n, w, 5, i))
    ensures led(Scene(n, w, 5, i + 1))
  {
    var s := Scene(n, w, 5, i);
    var c, exec := s.counters, s.execQueue;
    NextPrompts(n, w, 5, i);
    NextLine(n, 5, i);
    BusyAt(n, w, 5, i);
    BusyFifth(n, w, i);
    Unchanged(s, i);
    Acts(led, s, c, i, Gone(Returning), [], exec, Return(i), c, Gone(Done));
    PollsInFifthAct(led, n, w, i, With(s, c, i, Gone(Done), [], exec));
  }

  lemma PollsInFifthAct(led: State -> bool, n: nat, w: nat, i: nat, t: State)
    requires Closed(led)
    requires n >= 1 && i < n && led(t)
    requires t == State(n, w, Tally(n, 5, i), Between(n, w, i), [], Line(n, 5, i)) && Sum(Busy, t.prompts) < n
    ensures led(Scene(n, w, 5, i + 1))
  {
    NextPrompts(n, w, 5, i);
    NextLine(n, 5, i);
    Polls(led, t, n + i);
  }

  lemma SixthAct(led: State -> bool, n: nat, w: nat, i: nat)
    requires Closed(led)
    requires n >= 1 && i < n && led(Scene(n, w, 6, i))
    ensures led(Scene(n, w, 6, i + 1))
  {
    NextPrompts(n, w, 6, i);
    NextLine(n, 6, i);
    Queues(led, Scene(n, w, 6, i), 2 * n + i);
  }

  lemma {:induction false} ScenesFollow(led: State -> bool, n: nat, w: nat, act: nat, i: nat)
    requires Closed(led) && Played(n, act, i) && led(Scene(n, w, 1, 0))
    ensures led(Scene(n, w, act, i))
    decreases act, i
  {
    if i > 0 {
      ScenesFollow(led, n, w, act, i - 1);
      match act
      case 1 => FirstAct(led, n, w, i - 1);
      case 2 => SecondAct(led, n, w, i - 1);
      case 3 => ThirdAct(led, n, w, i - 1);
      case 4 => FourthAct(led, n, w, i - 1);
      case 5 => FifthAct(led, n, w, i - 1);
      case _ => SixthAct(led, n, w, i - 1);
    } else if act > 1 {
      ScenesFollow(led, n, w, act - 1, n);
      Curtain(n, w, act - 1);
    }
  }

  /** Some run leads from `s` to `t`. */
  ghost predicate Leads(s: State, t: State) { exists steps :: Run(s, steps, t) }

  lemma LeadsIsClosed(s: State)
    ensures Closed(t => Leads(s, t)) && Leads(s, s)
  {
    assert Run(s, [], s);
    forall t, step, u | Leads(s, t) && Takes(t, step, u) ensures Leads(s, u) {
      var steps :| Run(s, steps, t);
      RunThen(s, steps, t, step, u);
    }
  }

  /** Whatever the number of slots and the (positive) deadline, a jam is reachable. */
  lemma JamIsReachable(n: nat, w: nat) returns (t: State)
    requires n >= 1 && w > 0
    ensures t.capacity == n && t.waitLimit == w && Reachable(t) && Jammed(t) && !Quiescent(t)
  {
    var start := Initial(n, w, 3 * n);
    t := Scene(n, w, 6, n);
    SceneBegins(n, w);
    LeadsIsClosed(start);
    ScenesFollow(u => Leads(start, u), n, w, 6, n);
    EndIsReached(start, n, w, t);
    EndIsJammed(n, w);
  }

  lemma SceneBegins(n: nat, w: nat)
    ensures Scene(n, w, 1, 0) == Initial(n, w, 3 * n)
  {
    assert Prompts(n, w, 1, 0) == Initial(n, w, 3 * n).prompts;
  }

  lemma EndIsReached(start: State, n: nat, w: nat, t: State)
    requires n >= 1 && start == Initial(n, w, 3 * n) && t.capacity == n && Leads(start, t)
    ensures Reachable(t)
  {
    var steps :| Run(start, steps, t);
    assert Run(Initial(t.capacity, w, 3 * n), steps, t);
  }

  lemma EndIsJammed(n: nat, w: nat)
    requires n >= 1 && w > 0
    ensures Jammed(Scene(n, w, 6, n)) && !Quiescent(Scene(n, w, 6, n))
  {
    BusyAt(n, w, 6, n);
    assert Prompts(n, w, 6, n)[n] == Wait(Polling(w));
  }
}
