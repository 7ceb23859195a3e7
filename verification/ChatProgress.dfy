/** With a queue deadline every prompt ends: a measure over prompts, queue and remaining wait. */
module ChatProgress {
  import opened ChatConservation
  import opened ChatSlots
  import opened RuntimeState
  import opened Sums

  /** An upper bound on the actions a prompt still takes part in. Waiting out the queue
      deadline is worth `waitLimit`, so the bound is finite only because there is a deadline. */
  function Rank(waitLimit: nat, p: Prompt): nat {
    (if p.stopped then 0 else 1) +
    match p.place
    case Done => 0
    case Returning => 1
    case Releasing(_) => 2
    case Unparking(_) => 2
    case Uncounting(_) => 3
    case Running => 4
    case GotSlot => 5
    case CancelledEarly(_) => 5
    case Polling(r) => 6 + r
    case Queued(_, hooked) => waitLimit + if hooked then 7 else 8
    case Forwarding(_) => waitLimit + 10
    case InChatQueue(_) => waitLimit + 11
    case Counted | Parked => waitLimit + 12
    case Granted | Refused => waitLimit + 13
    case Typed => waitLimit + 14
  }

  function Measure(s: State): nat {
    Sum((p: Prompt) => Rank(s.waitLimit, p), s.prompts) + |s.execQueue|
  }

  lemma LocalRank(p: Prompt, free: int, step: Step, waitLimit: nat)
    requires LocallyEnabled(p, free, step)
    requires p.place.Polling? ==> p.place.remaining <= waitLimit
    ensures Rank(waitLimit, NextPrompt(p, free, step, waitLimit)) + (if step.Submit? then 1 else 0)
      < Rank(waitLimit, p) + (if step.Start? then 1 else 0)
  {}

  lemma StepLowersMeasure(s: State, step: Step)
    requires Inv(s) && Enabled(s, step)
    ensures Measure(Next(s, step)) < Measure(s)
  {
    var t := Next(s, step);
    var rank := (p: Prompt) => Rank(s.waitLimit, p);
    if step.Tick? {
      forall i | 0 <= i < |s.prompts|
        ensures rank(t.prompts[i]) <= rank(s.prompts[i])
        ensures LocallyEnabled(s.prompts[i], 0, Tick) ==> rank(t.prompts[i]) < rank(s.prompts[i])
      {
        assert t.prompts[i] == Age(s.prompts[i]);
      }
      SumPointwise(rank, s.prompts, t.prompts);
    } else if !Skips(s, step) {
      var i := Subject(s, step);
      SumUpdate(rank, s.prompts, i, t.prompts[i]);
      LocalRank(s.prompts[i], s.counters.free, step, s.waitLimit);
    }
  }

  /** Every run, whatever the interleaving, is over within `Measure` actions. */
  lemma {:induction false} RunsAreBounded(s: State, steps: seq<Step>, t: State)
    requires Inv(s) && Run(s, steps, t)
    ensures |steps| + Measure(t) <= Measure(s)
    decreases |steps|
  {
    if steps != [] {
      StepLowersMeasure(s, steps[0]);
      StepKeepsInv(s, steps[0]);
      RunsAreBounded(Next(s, steps[0]), steps[1..], t);
    }
  }

  /** Actions that need neither a user nor a failure. */
  predicate Internal(step: Step) {
    !step.Stop? && !step.CancelFuture? && !step.Interrupt? && !step.SubmitFails?
  }

  /** The next action of a prompt that does not depend on a queue. */
  function OwnStep(p: Prompt, i: nat): (step: Step)
    requires !p.place.Done? && !p.place.InChatQueue? && !(p.place.Queued? && p.place.hooked)
    ensures Internal(step) && LocallyEnabled(p, 0, step) && !step.Forward? && !step.Start?
    ensures step.Tick? || step.i == i
  {
    match p.place
    case Typed => Admit(i)
    case Granted => Count(i)
    case Counted | Parked => Put(i)
    case Refused => Park(i)
    case Forwarding(_) => Submit(i)
    case Queued(_, _) | CancelledEarly(_) => Hook(i)
    case Polling(r) => if r == 0 then TimeOut(i) else Tick
    case GotSlot => PromoteIt(i)
    case Running => Finish(i)
    case Uncounting(_) => Uncount(i)
    case Releasing(_) => Release(i)
    case Unparking(_) => Unpark(i)
    case Returning => Return(i)
  }

  lemma OwnStepEnabled(s: State, i: nat)
    requires i < |s.prompts| && !s.prompts[i].place.Done? && !s.prompts[i].place.InChatQueue?
    requires !(s.prompts[i].place.Queued? && s.prompts[i].place.hooked)
    ensures Enabled(s, OwnStep(s.prompts[i], i))
  {}

  /** No reachable state is stuck: while a prompt is unfinished some internal action is enabled. */
  lemma NeverStuck(s: State) returns (step: Step)
    requires Inv(s) && !Quiescent(s)
    ensures Internal(step) && Enabled(s, step)
  {
    var i: nat :| i < |s.prompts| && !s.prompts[i].place.Done?;
    var p := s.prompts[i];
    if p.place.InChatQueue? {
      step := Forward;
      QueuedCanBeForwarded(s, i);
    } else if p.place.Queued? && p.place.hooked {
      if Sum(Busy, s.prompts) < s.capacity {
        step := Start;
        PendingCanBeStarted(s, i);
      } else {
        var j := SumPositive(Busy, s.prompts);
        OwnStepEnabled(s, j);
        step := OwnStep(s.prompts[j], j);
      }
    } else {
      OwnStepEnabled(s, i);
      step := OwnStep(p, i);
    }
  }

  lemma QueuedCanBeForwarded(s: State, i: nat)
    requires ChatQueueOk(s.chatQueue, s.prompts) && i < |s.prompts| && s.prompts[i].place.InChatQueue?
    ensures Enabled(s, Forward)
  {
    assert s.chatQueue[0] in s.chatQueue;
  }

  lemma PendingCanBeStarted(s: State, i: nat)
    requires ExecQueueOk(s.execQueue, s.prompts) && i < |s.prompts| && s.prompts[i].place.Queued?
    requires Sum(Busy, s.prompts) < s.capacity
    ensures Enabled(s, Start)
  {
    assert s.execQueue[0] in s.execQueue;
  }

  /** From every reachable state the internal actions alone finish every prompt, in at most
      `Measure` of them, and leave both counters at zero and all permits free. */
  lemma {:induction false} EveryPromptEnds(s: State) returns (steps: seq<Step>, t: State)
    requires Inv(s)
    ensures Run(s, steps, t) && (forall k :: 0 <= k < |steps| ==> Internal(steps[k]))
    ensures |steps| <= Measure(s)
    ensures Quiescent(t) && t.counters == Counters(t.capacity, 0, 0)
    decreases Measure(s)
  {
    if Quiescent(s) {
      steps, t := [], s;
      QuiescentIsEmpty(s);
    } else {
      var step := NeverStuck(s);
      StepLowersMeasure(s, step);
      StepKeepsInv(s, step);
      var rest, end := EveryPromptEnds(Next(s, step));
      steps, t := [step] + rest, end;
      assert steps[1..] == rest;
    }
  }
}
