/** Admission of chat prompts: the main loop, the forwarding worker, an executor with as many
    workers as there are slots, and a canceller, interleaved one atomic action at a time. */
module ChatSlots {
  import opened RuntimeState
  import opened Sums

  /** Where one prompt is. `reserved` says that the main loop took a permit for it. */
  datatype Place =
    | Typed                                     // read by the main loop
    | Granted                                   // non-blocking acquire succeeded
    | Counted                                   // inflight incremented, item not yet queued
    | Refused                                   // non-blocking acquire failed
    | Parked                                    // pending incremented, item not yet queued
    | InChatQueue(reserved: bool)
    | Forwarding(reserved: bool)                // taken by the worker, inside submit
    | Queued(reserved: bool, hooked: bool)      // future pending; `hooked`: done callback attached
    | CancelledEarly(reserved: bool)            // future cancelled before the callback was attached
    | Polling(remaining: nat)                   // on an executor worker, waiting for a permit
    | GotSlot                                   // permit acquired, not yet promoted
    | Running
    | Uncounting(onWorker: bool)                // must decrement inflight, then release
    | Releasing(onWorker: bool)                 // must release the permit
    | Unparking(onWorker: bool)                 // must decrement pending
    | Returning                                 // worker is completing the future
    | Done

  /** How often each unit was taken and given back on behalf of one prompt. */
  datatype Ledger = Ledger(taken: nat, given: nat, counted: nat, uncounted: nat, parked: nat, unparked: nat)

  datatype Prompt = Prompt(place: Place, ledger: Ledger, stopped: bool)

  /** `waitLimit` is the queue deadline in clock ticks. */
  datatype State = State(
    capacity: nat,
    waitLimit: nat,
    counters: Counters,
    prompts: seq<Prompt>,
    chatQueue: seq<nat>,
    execQueue: seq<nat>)

  const Fresh := Prompt(Typed, Ledger(0, 0, 0, 0, 0, 0), false)

  function Initial(capacity: nat, waitLimit: nat, prompts: nat): State {
    State(capacity, waitLimit, Counters(capacity, 0, 0), seq(prompts, _ => Fresh), [], [])
  }

  // ---- What a place owns ----

  function Holds(p: Prompt): nat {
    match p.place
    case Granted | Counted | GotSlot | Running | Uncounting(_) | Releasing(_) => 1
    case InChatQueue(r) => if r then 1 else 0
    case Forwarding(r) => if r then 1 else 0
    case Queued(r, _) => if r then 1 else 0
    case CancelledEarly(r) => if r then 1 else 0
    case _ => 0
  }

  function Active(p: Prompt): nat {
    if p.place.Granted? || p.place.GotSlot? || p.place.Releasing? then 0 else Holds(p)
  }

  /** Accepted without a slot, and neither promoted nor dropped yet. */
  function Waiting(p: Prompt): nat {
    match p.place
    case Parked | Polling(_) | GotSlot | Unparking(_) => 1
    case InChatQueue(r) => if r then 0 else 1
    case Forwarding(r) => if r then 0 else 1
    case Queued(r, _) => if r then 0 else 1
    case CancelledEarly(r) => if r then 0 else 1
    case _ => 0
  }

  /** Occupies an executor worker. */
  function Busy(p: Prompt): nat {
    match p.place
    case Polling(_) | GotSlot | Running | Returning => 1
    case Uncounting(w) => if w then 1 else 0
    case Releasing(w) => if w then 1 else 0
    case Unparking(w) => if w then 1 else 0
    case _ => 0
  }

  // ---- Actions ----

  datatype Step =
    | Admit(i: nat) | Count(i: nat) | Park(i: nat) | Put(i: nat) | Interrupt(i: nat)
    | Forward
    | DropCancelled(i: nat) | Submit(i: nat) | SubmitFails(i: nat) | Hook(i: nat)
    | Start | GiveUp(i: nat) | TimeOut(i: nat) | Acquire(i: nat) | PromoteIt(i: nat) | Finish(i: nat)
    | Uncount(i: nat) | Release(i: nat) | Unpark(i: nat) | Return(i: nat)
    | Stop(i: nat) | CancelFuture(i: nat)
    | Tick

  /** What one action does to the prompt it is about, and to the shared counters. */
  predicate LocallyEnabled(p: Prompt, free: int, step: Step) {
    match step
    case Admit(_) => p.place.Typed?
    case Count(_) => p.place.Granted?
    case Park(_) => p.place.Refused?
    case Put(_) => p.place.Counted? || p.place.Parked?
    case Interrupt(_) => p.place.Counted?
    case Forward => p.place.InChatQueue?
    case DropCancelled(_) => p.place.Forwarding? && p.stopped
    case Submit(_) => p.place.Forwarding?
    case SubmitFails(_) => p.place.Forwarding?
    case Hook(_) => (p.place.Queued? && !p.place.hooked) || p.place.CancelledEarly?
    case Start => p.place.Queued?
    case GiveUp(_) => p.place.Polling? && p.stopped
    case TimeOut(_) => p.place == Polling(0)
    case Acquire(_) => p.place.Polling? && free > 0  // also in the last moment
    case PromoteIt(_) => p.place.GotSlot?
    case Finish(_) => p.place.Running?
    case Uncount(_) => p.place.Uncounting?
    case Release(_) => p.place.Releasing?
    case Unpark(_) => p.place.Unparking?
    case Return(_) => p.place.Returning?
    case Stop(_) => !p.place.Done? && !p.stopped
    case CancelFuture(_) => p.place.Queued?
    case Tick => p.place.Polling? && p.place.remaining > 0
  }

  /** Where an unstarted prompt goes to give its unit back. */
  function Settle(reserved: bool): Place {
    if reserved then Uncounting(false) else Unparking(false)
  }

  function NextPlace(p: Prompt, free: int, step: Step, waitLimit: nat): Place
    requires LocallyEnabled(p, free, step)
  {
    match step
    case Admit(_) => if free > 0 then Granted else Refused
    case Count(_) => Counted
    case Park(_) => Parked
    case Put(_) => InChatQueue(p.place.Counted?)
    case Interrupt(_) => Uncounting(false)
    case Forward => Forwarding(p.place.reserved)
    case DropCancelled(_) => Settle(p.place.reserved)
    case Submit(_) => Queued(p.place.reserved, false)
    case SubmitFails(_) => Settle(p.place.reserved)
    case Hook(_) => if p.place.Queued? then Queued(p.place.reserved, true) else Settle(p.place.reserved)
    case Start => if p.place.reserved then Running else Polling(waitLimit)
    case GiveUp(_) => Unparking(true)
    case TimeOut(_) => Unparking(true)
    case Acquire(_) => GotSlot
    case PromoteIt(_) => Running
    case Finish(_) => Uncounting(true)
    case Uncount(_) => Releasing(p.place.onWorker)
    case Release(_) => if p.place.onWorker then Returning else Done
    case Unpark(_) => if p.place.onWorker then Returning else Done
    case Return(_) => Done
    case Stop(_) => p.place
    case CancelFuture(_) => if p.place.hooked then Settle(p.place.reserved) else CancelledEarly(p.place.reserved)
    case Tick => Polling(p.place.remaining - 1)
  }

  function NextCounters(c: Counters, step: Step): Counters {
    match step
    case Admit(_) => if c.free > 0 then TakePermit(c) else c
    case Acquire(_) => TakePermit(c)
    case Count(_) => CountInflight(c)
    case Park(_) => CountPending(c)
    case PromoteIt(_) => Promote(c)
    case Uncount(_) => UncountInflight(c)
    case Release(_) => GivePermit(c)
    case Unpark(_) => UncountPending(c)
    case _ => c
  }

  function NextLedger(l: Ledger, free: int, step: Step): Ledger {
    match step
    case Admit(_) => if free > 0 then l.(taken := l.taken + 1) else l
    case Acquire(_) => l.(taken := l.taken + 1)
    case Count(_) => l.(counted := l.counted + 1)
    case Park(_) => l.(parked := l.parked + 1)
    case PromoteIt(_) => l.(counted := l.counted + 1, unparked := l.unparked + 1)
    case Uncount(_) => l.(uncounted := l.uncounted + 1)
    case Release(_) => l.(given := l.given + 1)
    case Unpark(_) => l.(unparked := l.unparked + 1)
    case _ => l
  }

  function NextPrompt(p: Prompt, free: int, step: Step, waitLimit: nat): Prompt
    requires LocallyEnabled(p, free, step)
  {
    Prompt(NextPlace(p, free, step, waitLimit), NextLedger(p.ledger, free, step), p.stopped || step.Stop?)
  }

  function Age(p: Prompt): Prompt {
    if LocallyEnabled(p, 0, Tick) then NextPrompt(p, 0, Tick, 0) else p
  }

  /** The prompt an action is about. */
  function Subject(s: State, step: Step): nat
    requires !step.Tick? && (step.Forward? ==> s.chatQueue != []) && (step.Start? ==> s.execQueue != [])
  {
    if step.Forward? then s.chatQueue[0] else if step.Start? then s.execQueue[0] else step.i
  }

  /** The head of the executor queue is a cancelled future: a worker drops it. */
  predicate Skips(s: State, step: Step) {
    && step.Start? && s.execQueue != []
    && s.execQueue[0] < |s.prompts| && !s.prompts[s.execQueue[0]].place.Queued?
  }

  predicate Enabled(s: State, step: Step) {
    if step.Tick? then
      exists i :: 0 <= i < |s.prompts| && LocallyEnabled(s.prompts[i], 0, Tick)
    else
      && (step.Forward? ==> s.chatQueue != [])
      && (step.Start? ==> s.execQueue != [] && Sum(Busy, s.prompts) < s.capacity)  // a worker is free
      && Subject(s, step) < |s.prompts|
      && (Skips(s, step) || LocallyEnabled(s.prompts[Subject(s, step)], s.counters.free, step))
  }

  function Next(s: State, step: Step): (t: State)
    requires Enabled(s, step)
  {
    if step.Tick? then
      s.(prompts := seq(|s.prompts|, i requires 0 <= i < |s.prompts| => Age(s.prompts[i])))
    else if Skips(s, step) then
      s.(execQueue := s.execQueue[1..])
    else
      var i := Subject(s, step);
      State(s.capacity, s.waitLimit, NextCounters(s.counters, step),
            s.prompts[i := NextPrompt(s.prompts[i], s.counters.free, step, s.waitLimit)],
            if step.Put? then s.chatQueue + [i] else if step.Forward? then s.chatQueue[1..] else s.chatQueue,
            if step.Submit? then s.execQueue + [i] else if step.Start? then s.execQueue[1..] else s.execQueue)
  }

  // ---- Invariant ----

  /** The units a prompt has taken and given back by the time it is at a place. */
  predicate LedgerOk(p: Prompt) {
    var l := p.ledger;
    match p.place
    case Typed | Refused => l == Ledger(0, 0, 0, 0, 0, 0)
    case Granted => l == Ledger(1, 0, 0, 0, 0, 0)
    case Counted => l == Ledger(1, 0, 1, 0, 0, 0)
    case Parked | Polling(_) | Unparking(_) => l == Ledger(0, 0, 0, 0, 1, 0)
    case InChatQueue(reserved) => Unstarted(l, reserved)
    case Forwarding(reserved) => Unstarted(l, reserved)
    case Queued(reserved, _) => Unstarted(l, reserved)
    case CancelledEarly(reserved) => Unstarted(l, reserved)
    case GotSlot => l == Ledger(1, 0, 0, 0, 1, 0)
    case Running | Uncounting(_) => l == Ledger(1, 0, 1, 0, 0, 0) || l == Ledger(1, 0, 1, 0, 1, 1)
    case Releasing(_) => l == Ledger(1, 0, 1, 1, 0, 0) || l == Ledger(1, 0, 1, 1, 1, 1)
    case Returning | Done => Settled(l)
  }

  predicate Unstarted(l: Ledger, reserved: bool) {
    l == if reserved then Ledger(1, 0, 1, 0, 0, 0) else Ledger(0, 0, 0, 0, 1, 0)
  }

  /** The three exits: ran with (or lost) its reservation, was dropped while waiting,
      was promoted and ran. Each unit taken was given back once. */
  predicate Settled(l: Ledger) {
    || l == Ledger(1, 1, 1, 1, 0, 0)
    || l == Ledger(0, 0, 0, 0, 1, 1)
    || l == Ledger(1, 1, 1, 1, 1, 1)
  }

  /** What a prompt still owns is what its ledger has not given back. */
  lemma LedgerShowsHoldings(p: Prompt)
    requires LedgerOk(p)
    ensures p.ledger.taken == p.ledger.given + Holds(p)
    ensures p.ledger.counted == p.ledger.uncounted + Active(p)
    ensures p.ledger.parked == p.ledger.unparked + Waiting(p)
  {}

  /** The chat queue holds exactly the prompts that say they are in it, each once. */
  predicate ChatQueueOk(queue: seq<nat>, ps: seq<Prompt>) {
    && (forall k, m :: 0 <= k < m < |queue| ==> queue[k] != queue[m])
    && (forall i :: i in queue ==> i < |ps|)
    && (forall i: nat :: i < |ps| ==> (ps[i].place.InChatQueue? <==> i in queue))
  }

  /** Every pending future is in the executor queue, among cancelled ones. */
  predicate ExecQueueOk(queue: seq<nat>, ps: seq<Prompt>) {
    && (forall i :: i in queue ==> i < |ps|)
    && (forall i: nat :: i < |ps| && ps[i].place.Queued? ==> i in queue)
  }

  predicate Balanced(s: State) {
    && s.counters.free >= 0
    && s.counters.free + Sum(Holds, s.prompts) == s.capacity
    && s.counters.inflight == Sum(Active, s.prompts)
    && s.counters.pending == Sum(Waiting, s.prompts)
    && Sum(Busy, s.prompts) <= s.capacity
  }

  predicate Inv(s: State) {
    && s.capacity >= 1
    && Balanced(s)
    && ChatQueueOk(s.chatQueue, s.prompts)
    && ExecQueueOk(s.execQueue, s.prompts)
    && PromptsOk(s)
  }

  predicate PromptsOk(s: State) {
    forall i :: 0 <= i < |s.prompts| ==> LedgerOk(s.prompts[i]) && WaitOk(s.waitLimit, s.prompts[i])
  }

  predicate WaitOk(waitLimit: nat, p: Prompt) {
    p.place.Polling? ==> p.place.remaining <= waitLimit
  }

  lemma InitialInv(capacity: nat, waitLimit: nat, prompts: nat)
    requires capacity >= 1
    ensures Inv(Initial(capacity, waitLimit, prompts))
  {
    var ps := Initial(capacity, waitLimit, prompts).prompts;
    SumZero(Holds, ps);
    SumZero(Active, ps);
    SumZero(Waiting, ps);
    SumZero(Busy, ps);
  }

  /** The effect of changing one prompt on the four sums. */
  lemma MoveSums(ps: seq<Prompt>, i: nat, p: Prompt)
    requires i < |ps|
    ensures Sum(Holds, ps[i := p]) + Holds(ps[i]) == Sum(Holds, ps) + Holds(p)
    ensures Sum(Active, ps[i := p]) + Active(ps[i]) == Sum(Active, ps) + Active(p)
    ensures Sum(Waiting, ps[i := p]) + Waiting(ps[i]) == Sum(Waiting, ps) + Waiting(p)
    ensures Sum(Busy, ps[i := p]) + Busy(ps[i]) == Sum(Busy, ps) + Busy(p)
    ensures Holds(ps[i]) <= Sum(Holds, ps) && Active(ps[i]) <= Sum(Active, ps)
    ensures Waiting(ps[i]) <= Sum(Waiting, ps)
  {
    SumUpdate(Holds, ps, i, p);
    SumUpdate(Active, ps, i, p);
    SumUpdate(Waiting, ps, i, p);
    SumUpdate(Busy, ps, i, p);
    SumAtLeast(Holds, ps, i);
    SumAtLeast(Active, ps, i);
    SumAtLeast(Waiting, ps, i);
  }

  /** One action moves the counters exactly as it moves what its prompt owns. The two
      decrements are the clamped ones of the source. */
  lemma LocalEffect(p: Prompt, c: Counters, step: Step, waitLimit: nat)
    requires LocallyEnabled(p, c.free, step)
    requires Active(p) <= c.inflight && Waiting(p) <= c.pending && 0 <= c.free
    ensures var q := NextPrompt(p, c.free, step, waitLimit);
      var d := NextCounters(c, step);
      && d.free + Holds(q) == c.free + Holds(p) && 0 <= d.free
      && d.inflight + Active(p) == c.inflight + Active(q)
      && d.pending + Waiting(p) == c.pending + Waiting(q)
      && (Busy(q) <= Busy(p) || step.Start?)
  {}

  lemma LocalLedger(p: Prompt, free: int, step: Step, waitLimit: nat)
    requires LedgerOk(p) && WaitOk(waitLimit, p) && LocallyEnabled(p, free, step)
    ensures LedgerOk(NextPrompt(p, free, step, waitLimit)) && WaitOk(waitLimit, NextPrompt(p, free, step, waitLimit))
  {}

  lemma LocalQueueEffect(p: Prompt, free: int, step: Step, waitLimit: nat)
    requires LocallyEnabled(p, free, step)
    ensures var q := NextPrompt(p, free, step, waitLimit);
      && (q.place.InChatQueue? <==> step.Put? || (p.place.InChatQueue? && !step.Forward?))
      && (q.place.Queued? ==> step.Submit? || (p.place.Queued? && !step.Start?))
  {}

  lemma AgeEffect(p: Prompt, waitLimit: nat)
    requires LedgerOk(p) && WaitOk(waitLimit, p)
    ensures Holds(Age(p)) == Holds(p) && Active(Age(p)) == Active(p)
    ensures Waiting(Age(p)) == Waiting(p) && Busy(Age(p)) == Busy(p)
    ensures LedgerOk(Age(p)) && WaitOk(waitLimit, Age(p))
    ensures Age(p).place.InChatQueue? <==> p.place.InChatQueue?
    ensures Age(p).place.Queued? <==> p.place.Queued?
  {}

  lemma TickKeepsSums(ps: seq<Prompt>, qs: seq<Prompt>, waitLimit: nat)
    requires |ps| == |qs| && forall i :: 0 <= i < |ps| ==> qs[i] == Age(ps[i])
    requires forall i :: 0 <= i < |ps| ==> LedgerOk(ps[i]) && WaitOk(waitLimit, ps[i])
    ensures Sum(Holds, qs) == Sum(Holds, ps) && Sum(Active, qs) == Sum(Active, ps)
    ensures Sum(Waiting, qs) == Sum(Waiting, ps) && Sum(Busy, qs) == Sum(Busy, ps)
    ensures forall i :: 0 <= i < |qs| ==> LedgerOk(qs[i]) && WaitOk(waitLimit, qs[i])
  {
    forall i | 0 <= i < |ps|
      ensures Holds(qs[i]) == Holds(ps[i]) && Active(qs[i]) == Active(ps[i])
      ensures Waiting(qs[i]) == Waiting(ps[i]) && Busy(qs[i]) == Busy(ps[i])
      ensures LedgerOk(qs[i]) && WaitOk(waitLimit, qs[i])
    {
      AgeEffect(ps[i], waitLimit);
    }
    SumSame(Holds, ps, qs);
    SumSame(Active, ps, qs);
    SumSame(Waiting, ps, qs);
    SumSame(Busy, ps, qs);
  }

  lemma TickKeepsQueues(s: State, ps: seq<Prompt>)
    requires ChatQueueOk(s.chatQueue, s.prompts) && ExecQueueOk(s.execQueue, s.prompts)
    requires |ps| == |s.prompts| && forall i :: 0 <= i < |ps| ==> ps[i] == Age(s.prompts[i])
    ensures ChatQueueOk(s.chatQueue, ps) && ExecQueueOk(s.execQueue, ps)
  {
    assert forall i :: 0 <= i < |ps| ==> (ps[i].place.InChatQueue? <==> s.prompts[i].place.InChatQueue?);
    assert forall i :: 0 <= i < |ps| ==> (ps[i].place.Queued? <==> s.prompts[i].place.Queued?);
  }

  lemma TickKeepsInv(s: State)
    requires Inv(s) && Enabled(s, Tick)
    ensures Inv(Next(s, Tick))
  {
    var t := Next(s, Tick);
    TickKeepsSums(s.prompts, t.prompts, s.waitLimit);
    TickKeepsQueues(s, t.prompts);
  }

  lemma HeadAndTail(queue: seq<nat>)
    requires queue != []
    ensures forall i :: i in queue <==> i == queue[0] || i in queue[1..]
  {
    assert queue == [queue[0]] + queue[1..];
  }

  lemma MoveKeepsChatQueue(s: State, step: Step)
    requires ChatQueueOk(s.chatQueue, s.prompts) && !step.Tick? && Enabled(s, step) && !Skips(s, step)
    ensures ChatQueueOk(Next(s, step).chatQueue, Next(s, step).prompts)
  {
    var t := Next(s, step);
    var i := Subject(s, step);
    LocalQueueEffect(s.prompts[i], s.counters.free, step, s.waitLimit);
    if step.Forward? {
      HeadAndTail(s.chatQueue);
    } else if step.Put? {
      assert i !in s.chatQueue;
    }
  }

  lemma MoveKeepsExecQueue(s: State, step: Step)
    requires ExecQueueOk(s.execQueue, s.prompts) && !step.Tick? && Enabled(s, step) && !Skips(s, step)
    ensures ExecQueueOk(Next(s, step).execQueue, Next(s, step).prompts)
  {
    var t := Next(s, step);
    var i := Subject(s, step);
    LocalQueueEffect(s.prompts[i], s.counters.free, step, s.waitLimit);
    if step.Start? {
      HeadAndTail(s.execQueue);
    }
  }

  lemma MoveKeepsBalance(s: State, step: Step)
    requires Balanced(s) && !step.Tick? && Enabled(s, step) && !Skips(s, step)
    ensures Balanced(Next(s, step))
  {
    var i := Subject(s, step);
    var q := NextPrompt(s.prompts[i], s.counters.free, step, s.waitLimit);
    MoveSums(s.prompts, i, q);
    LocalEffect(s.prompts[i], s.counters, step, s.waitLimit);
  }

  lemma MoveKeepsPrompts(s: State, step: Step)
    requires PromptsOk(s) && !step.Tick? && Enabled(s, step) && !Skips(s, step)
    ensures PromptsOk(Next(s, step))
  {
    LocalLedger(s.prompts[Subject(s, step)], s.counters.free, step, s.waitLimit);
  }

  lemma SkipKeepsInv(s: State, step: Step)
    requires Inv(s) && Enabled(s, step) && Skips(s, step)
    ensures Inv(Next(s, step))
  {
    HeadAndTail(s.execQueue);
  }

  lemma StepKeepsInv(s: State, step: Step)
    requires Inv(s) && Enabled(s, step)
    ensures Inv(Next(s, step))
  {
    if step.Tick? {
      TickKeepsInv(s);
    } else if Skips(s, step) {
      SkipKeepsInv(s, step);
    } else {
      MoveKeepsBalance(s, step);
      MoveKeepsPrompts(s, step);
      MoveKeepsChatQueue(s, step);
      MoveKeepsExecQueue(s, step);
    }
  }

  // ---- Runs ----

  ghost predicate Run(s: State, steps: seq<Step>, t: State)
    decreases |steps|
  {
    if steps == [] then t == s
    else Enabled(s, steps[0]) && Run(Next(s, steps[0]), steps[1..], t)
  }

  lemma {:induction false} RunKeepsInv(s: State, steps: seq<Step>, t: State)
    requires Inv(s) && Run(s, steps, t)
    ensures Inv(t)
    decreases |steps|
  {
    if steps != [] {
      StepKeepsInv(s, steps[0]);
      RunKeepsInv(Next(s, steps[0]), steps[1..], t);
    }
  }

  ghost predicate Reachable(t: State) {
    exists waitLimit: nat, prompts: nat, steps: seq<Step> ::
      t.capacity >= 1 && Run(Initial(t.capacity, waitLimit, prompts), steps, t)
  }

  lemma ReachableInv(t: State)
    requires Reachable(t)
    ensures Inv(t)
  {
    var waitLimit: nat, prompts: nat, steps: seq<Step> :|
      t.capacity >= 1 && Run(Initial(t.capacity, waitLimit, prompts), steps, t);
    InitialInv(t.capacity, waitLimit, prompts);
    RunKeepsInv(Initial(t.capacity, waitLimit, prompts), steps, t);
  }
}
