/** What becomes of each prompt: the actions that befall it, from being typed to its end, whatever the
    others do meanwhile. */
module ChatStories {
  import opened ChatConservation
  import opened ChatProgress
  import opened ChatSlots
  import opened RuntimeState
  import opened Sums

  // ---- Stories ----

  /** The action befalls prompt `i`; a tick befalls those that wait for a permit. A request to stop is
      told apart. */
  predicate Befalls(s: State, step: Step, i: nat)
    requires i < |s.prompts|
  {
    match step
    case Forward => s.chatQueue != [] && s.chatQueue[0] == i
    case Start => s.execQueue != [] && s.execQueue[0] == i && s.prompts[i].place.Queued?
    case Tick => s.prompts[i].place.Polling? && s.prompts[i].place.remaining > 0
    case Stop(_) => false
    case _ => step.i == i
  }

  /** The actions of a run that befall prompt `i`, in order. */
  ghost function Story(s: State, steps: seq<Step>, i: nat): seq<Step>
    requires i < |s.prompts|
    decreases |steps|
  {
    if steps == [] || !Enabled(s, steps[0]) then []
    else (if Befalls(s, steps[0], i) then [steps[0]] else []) + Story(Next(s, steps[0]), steps[1..], i)
  }

  predicate EndsWith(h: seq<Step>, e: Step) { h != [] && h[|h| - 1] == e }

  function Init(h: seq<Step>): seq<Step> { if h == [] then [] else h[..|h| - 1] }

  /** Typed, admitted with a permit (counted) or without (parked), and forwarded. */
  function Opening(i: nat, reserved: bool): seq<Step> {
    [Admit(i), if reserved then Count(i) else Park(i), Put(i), Forward]
  }

  function Submitted(i: nat, reserved: bool, hooked: bool): seq<Step> {
    Opening(i, reserved) + if hooked then [Submit(i), Hook(i)] else [Submit(i)]
  }

  /** On a worker without a permit, for `k` ticks of the clock. */
  function Waited(i: nat, hooked: bool, k: nat): seq<Step> { Submitted(i, false, hooked) + [Start] + seq(k, _ => Tick) }

  ghost predicate InWait(i: nat, k: nat, h: seq<Step>) { exists hooked :: h == Waited(i, hooked, k) }

  /** All that comes before the message is processed: a worker took the prompt up, which had a permit
      or acquired one by the deadline. */
  ghost predicate Begun(i: nat, waitLimit: nat, h: seq<Step>) {
    || (exists hooked :: h == Submitted(i, true, hooked) + [Start])
    || (EndsWith(h, PromoteIt(i)) && EndsWith(Init(h), Acquire(i))
        && exists k: nat :: k <= waitLimit && InWait(i, k, Init(Init(h))))
  }

  /** It was lost before a worker took it up. */
  ghost predicate Lost(i: nat, reserved: bool, h: seq<Step>) {
    || (reserved && h == [Admit(i), Count(i), Interrupt(i)])
    || h == Opening(i, reserved) + [DropCancelled(i)]
    || h == Opening(i, reserved) + [SubmitFails(i)]
    || h == Submitted(i, reserved, true) + [CancelFuture(i)]
    || h == Submitted(i, reserved, false) + [CancelFuture(i), Hook(i)]
  }

  /** It waited for a permit in vain: it was stopped, or the deadline passed. */
  ghost predicate InVain(i: nat, waitLimit: nat, h: seq<Step>) {
    || (EndsWith(h, GiveUp(i)) && exists k: nat :: k <= waitLimit && InWait(i, k, Init(h)))
    || (EndsWith(h, TimeOut(i)) && InWait(i, waitLimit, Init(h)))
  }

  ghost predicate Ran(i: nat, waitLimit: nat, h: seq<Step>) { EndsWith(h, Finish(i)) && Begun(i, waitLimit, Init(h)) }

  /** What a prompt has been through by the time it is at a place. */
  ghost predicate Told(i: nat, waitLimit: nat, place: Place, h: seq<Step>) {
    match place
    case Typed => h == []
    case Granted | Refused => h == [Admit(i)]
    case Counted => h == [Admit(i), Count(i)]
    case Parked => h == [Admit(i), Park(i)]
    case InChatQueue(r) => h == [Admit(i), if r then Count(i) else Park(i), Put(i)]
    case Forwarding(r) => h == Opening(i, r)
    case Queued(r, hooked) => h == Submitted(i, r, hooked)
    case CancelledEarly(r) => h == Submitted(i, r, false) + [CancelFuture(i)]
    case Polling(left) => left <= waitLimit && InWait(i, waitLimit - left, h)
    case GotSlot => exists k: nat :: k <= waitLimit && InWait(i, k, Init(h)) && EndsWith(h, Acquire(i))
    case Running => Begun(i, waitLimit, h)
    case Uncounting(w) => if w then Ran(i, waitLimit, h) else Lost(i, true, h)
    case Releasing(w) => EndsWith(h, Uncount(i)) && if w then Ran(i, waitLimit, Init(h)) else Lost(i, true, Init(h))
    case Unparking(w) => if w then InVain(i, waitLimit, h) else Lost(i, false, h)
    case Returning => ToldReturning(i, waitLimit, h)
    case Done =>
      || (EndsWith(h, Return(i)) && ToldReturning(i, waitLimit, Init(h)))
      || (EndsWith(h, Release(i)) && EndsWith(Init(h), Uncount(i)) && Lost(i, true, Init(Init(h))))
      || (EndsWith(h, Unpark(i)) && Lost(i, false, Init(h)))
  }

  ghost predicate ToldReturning(i: nat, waitLimit: nat, h: seq<Step>) {
    || (EndsWith(h, Release(i)) && EndsWith(Init(h), Uncount(i)) && Ran(i, waitLimit, Init(Init(h))))
    || (EndsWith(h, Unpark(i)) && InVain(i, waitLimit, Init(h)))
  }

  lemma OneMore(h: seq<Step>, e: Step)
    ensures EndsWith(h + [e], e) && Init(h + [e]) == h
  {}

  lemma OneMoreTick(i: nat, hooked: bool, k: nat)
    ensures Waited(i, hooked, k) + [Tick] == Waited(i, hooked, k + 1)
  {
    assert seq(k, _ => Tick) + [Tick] == seq(k + 1, _ => Tick);
  }

  /** Up to the chat queue. */
  lemma AdmissionIsTold(s: State, step: Step, i: nat, h: seq<Step>)
    requires i < |s.prompts| && Enabled(s, step) && !Skips(s, step) && Befalls(s, step, i)
    requires Told(i, s.waitLimit, s.prompts[i].place, h)
    requires s.prompts[i].place.Typed? || s.prompts[i].place.Granted? || s.prompts[i].place.Refused?
    ensures Told(i, s.waitLimit, Next(s, step).prompts[i].place, h + [step])
  {}

  lemma PuttingIsTold(s: State, step: Step, i: nat, h: seq<Step>)
    requires i < |s.prompts| && Enabled(s, step) && !Skips(s, step) && Befalls(s, step, i)
    requires Told(i, s.waitLimit, s.prompts[i].place, h)
    requires s.prompts[i].place.Counted? || s.prompts[i].place.Parked? || s.prompts[i].place.InChatQueue?
    ensures Told(i, s.waitLimit, Next(s, step).prompts[i].place, h + [step])
  {}

  /** Up to the executor queue. */
  lemma SubmissionIsTold(s: State, step: Step, i: nat, h: seq<Step>)
    requires i < |s.prompts| && Enabled(s, step) && !Skips(s, step) && Befalls(s, step, i)
    requires Told(i, s.waitLimit, s.prompts[i].place, h) && s.prompts[i].place.Forwarding?
    ensures Told(i, s.waitLimit, Next(s, step).prompts[i].place, h + [step])
  {}

  /** In the executor queue. */
  lemma QueueingIsTold(s: State, step: Step, i: nat, h: seq<Step>)
    requires i < |s.prompts| && Enabled(s, step) && !Skips(s, step) && Befalls(s, step, i) && !step.Start?
    requires Told(i, s.waitLimit, s.prompts[i].place, h)
    requires s.prompts[i].place.Queued? || s.prompts[i].place.CancelledEarly?
    ensures Told(i, s.waitLimit, Next(s, step).prompts[i].place, h + [step])
  {}

  lemma StartIsTold(s: State, i: nat, h: seq<Step>)
    requires i < |s.prompts| && Enabled(s, Start) && Befalls(s, Start, i)
    requires Told(i, s.waitLimit, s.prompts[i].place, h)
    ensures Told(i, s.waitLimit, Next(s, Start).prompts[i].place, h + [Start])
  {
    var hooked := s.prompts[i].place.hooked;
    assert h == Submitted(i, s.prompts[i].place.reserved, hooked);
    if !s.prompts[i].place.reserved {
      assert h + [Start] == Waited(i, hooked, 0);
      assert InWait(i, 0, h + [Start]);
    }
  }

  lemma WaitIsTold(s: State, step: Step, i: nat, h: seq<Step>)
    requires i < |s.prompts| && Enabled(s, step) && Befalls(s, step, i) && s.prompts[i].place.Polling?
    requires Told(i, s.waitLimit, s.prompts[i].place, h)
    ensures Told(i, s.waitLimit, Next(s, step).prompts[i].place, h + [step])
  {
    OneMore(h, step);
    var k := s.waitLimit - s.prompts[i].place.remaining;
    assert InWait(i, k, h);
    var hooked :| h == Waited(i, hooked, k);
    if step.Tick? {
      OneMoreTick(i, hooked, k);
      assert Next(s, Tick).prompts[i] == Age(s.prompts[i]);
      assert InWait(i, k + 1, h + [Tick]);
    }
  }

  lemma LateStepIsTold(s: State, step: Step, i: nat, h: seq<Step>)
    requires i < |s.prompts| && Enabled(s, step) && !Skips(s, step) && Befalls(s, step, i)
    requires Told(i, s.waitLimit, s.prompts[i].place, h)
    requires match s.prompts[i].place
      case GotSlot | Running | Uncounting(_) | Releasing(_) | Unparking(_) | Returning | Done => true
      case _ => false
    ensures Told(i, s.waitLimit, Next(s, step).prompts[i].place, h + [step])
  {
    OneMore(h, step);
  }

  lemma OthersStandStill(s: State, step: Step, i: nat)
    requires i < |s.prompts| && Enabled(s, step) && !Befalls(s, step, i)
    ensures i < |Next(s, step).prompts| && Next(s, step).prompts[i].place == s.prompts[i].place
  {
    if step.Tick? { assert Next(s, step).prompts[i] == Age(s.prompts[i]); }
  }

  lemma StepIsTold(s: State, step: Step, i: nat, h: seq<Step>)
    requires i < |s.prompts| && Enabled(s, step) && Told(i, s.waitLimit, s.prompts[i].place, h)
    ensures i < |Next(s, step).prompts| && Next(s, step).waitLimit == s.waitLimit
    ensures Told(i, s.waitLimit, Next(s, step).prompts[i].place, h + if Befalls(s, step, i) then [step] else [])
  {
    if !Befalls(s, step, i) {
      OthersStandStill(s, step, i);
      assert h + [] == h;
    } else if s.prompts[i].place.Polling? {
      WaitIsTold(s, step, i, h);
    } else if step.Start? {
      StartIsTold(s, i, h);
    } else {
      match s.prompts[i].place
      case GotSlot | Running | Uncounting(_) | Releasing(_) | Unparking(_) | Returning | Done =>
        LateStepIsTold(s, step, i, h);
      case Forwarding(_) => SubmissionIsTold(s, step, i, h);
      case Queued(_, _) | CancelledEarly(_) => QueueingIsTold(s, step, i, h);
      case Counted | Parked | InChatQueue(_) => PuttingIsTold(s, step, i, h);
      case _ => AdmissionIsTold(s, step, i, h);
    }
  }

  function Grown(s: State, step: Step, i: nat, h: seq<Step>): seq<Step> {
    if i < |s.prompts| && Befalls(s, step, i) then h + [step] else h
  }

  /** What each action keeps true of a prompt and its story a run keeps true. */
  lemma {:induction false} RunKeeps(told: (State, seq<Step>) -> bool, s: State, steps: seq<Step>, t: State, i: nat,
                                    h: seq<Step>)
    requires forall u: State, step: Step, g: seq<Step> {:trigger Enabled(u, step), told(u, g)} ::
      Enabled(u, step) && told(u, g) ==> told(Next(u, step), Grown(u, step, i, g))
    requires i < |s.prompts| && Run(s, steps, t) && told(s, h)
    ensures told(t, h + Story(s, steps, i))
    decreases |steps|
  {
    if steps == [] {
      assert h + [] == h;
    } else {
      assert told(Next(s, steps[0]), Grown(s, steps[0], i, h));
      StoryUnfolds(s, steps, i, h);
      RunKeeps(told, Next(s, steps[0]), steps[1..], t, i, Grown(s, steps[0], i, h));
    }
  }

  lemma Associates(h: seq<Step>, x: seq<Step>, rest: seq<Step>)
    ensures h + (x + rest) == h + x + rest && h + [] == h
  {}

  lemma PromptsStay(s: State, step: Step)
    requires Enabled(s, step)
    ensures |Next(s, step).prompts| == |s.prompts|
  {}

  lemma StoryUnfolds(s: State, steps: seq<Step>, i: nat, h: seq<Step>)
    requires i < |s.prompts| && steps != [] && Enabled(s, steps[0])
    ensures i < |Next(s, steps[0]).prompts|
    ensures h + Story(s, steps, i) == Grown(s, steps[0], i, h) + Story(Next(s, steps[0]), steps[1..], i)
  {
    PromptsStay(s, steps[0]);
    Associates(h, if Befalls(s, steps[0], i) then [steps[0]] else [], Story(Next(s, steps[0]), steps[1..], i));
  }

  ghost predicate ToldOf(i: nat, waitLimit: nat, s: State, h: seq<Step>) {
    s.waitLimit == waitLimit && i < |s.prompts| && Told(i, waitLimit, s.prompts[i].place, h)
  }

  lemma AnyStepIsTold(i: nat, waitLimit: nat, s: State, step: Step, h: seq<Step>)
    requires ToldOf(i, waitLimit, s, h) && Enabled(s, step)
    ensures ToldOf(i, waitLimit, Next(s, step), Grown(s, step, i, h))
  {
    StepIsTold(s, step, i, h);
    assert h + [] == h;
  }

  lemma RunIsTold(s: State, steps: seq<Step>, t: State, i: nat)
    requires i < |s.prompts| && Run(s, steps, t) && s.prompts[i].place.Typed?
    ensures ToldOf(i, s.waitLimit, t, Story(s, steps, i))
  {
    var w := s.waitLimit;
    var told := (u: State, g: seq<Step>) => ToldOf(i, w, u, g);
    forall u: State, step: Step, g: seq<Step> | Enabled(u, step) && told(u, g)
      ensures told(Next(u, step), Grown(u, step, i, g))
    {
      AnyStepIsTold(i, w, u, step, g);
    }
    RunKeeps(told, s, steps, t, i, []);
    assert [] + Story(s, steps, i) == Story(s, steps, i);
  }

  // ---- Main results ----

  /** What keeps a prompt from being processed. */
  predicate Mishap(step: Step) {
    step.Interrupt? || step.DropCancelled? || step.SubmitFails? || step.CancelFuture? || step.GiveUp? || step.TimeOut?
  }

  predicate Harmed(h: seq<Step>) { exists k :: 0 <= k < |h| && Mishap(h[k]) }

  /** How often the message of a prompt was processed to the end. */
  function Finishes(h: seq<Step>): nat {
    if h == [] then 0 else Finishes(Init(h)) + if h[|h| - 1].Finish? then 1 else 0
  }

  lemma Longer(h: seq<Step>)
    requires h != []
    ensures Harmed(h) <==> Harmed(Init(h)) || Mishap(h[|h| - 1])
    ensures Finishes(h) == Finishes(Init(h)) + if h[|h| - 1].Finish? then 1 else 0
  {
    if k :| 0 <= k < |Init(h)| && Mishap(Init(h)[k]) { assert Mishap(h[k]); }
    if k :| 0 <= k < |h| && Mishap(h[k]) {
      if k < |h| - 1 { assert Mishap(Init(h)[k]); }
    }
  }

  predicate Plain(step: Step) { !Mishap(step) && !step.Finish? }

  /** An end that is neither a mishap nor the processing itself. */
  lemma Tail(h: seq<Step>)
    requires h != [] && Plain(h[|h| - 1])
    ensures Harmed(h) <==> Harmed(Init(h))
    ensures Finishes(h) == Finishes(Init(h))
  {
    Longer(h);
  }

  lemma TwoTails(h: seq<Step>, a: Step, b: Step)
    requires EndsWith(h, b) && EndsWith(Init(h), a) && Plain(a) && Plain(b)
    ensures Harmed(h) <==> Harmed(Init(Init(h)))
    ensures Finishes(h) == Finishes(Init(Init(h)))
  {
    Tail(h);
    Tail(Init(h));
  }

  lemma {:induction false} PlainStories(h: seq<Step>)
    requires forall k :: 0 <= k < |h| ==> Plain(h[k])
    ensures !Harmed(h) && Finishes(h) == 0
  {
    if h != [] { PlainStories(Init(h)); }
  }

  lemma SubmittedIsPlain(i: nat, reserved: bool, hooked: bool, k: nat)
    ensures forall j :: 0 <= j < |Submitted(i, reserved, hooked)| ==> Plain(Submitted(i, reserved, hooked)[j])
    ensures forall j :: 0 <= j < |Waited(i, hooked, k)| ==> Plain(Waited(i, hooked, k)[j])
  {}

  lemma BegunIsPlain(i: nat, waitLimit: nat, h: seq<Step>)
    requires Begun(i, waitLimit, h)
    ensures !Harmed(h) && Finishes(h) == 0
  {
    if EndsWith(h, PromoteIt(i)) && EndsWith(Init(h), Acquire(i))
      && exists k: nat :: k <= waitLimit && InWait(i, k, Init(Init(h)))
    {
      PromotedIsPlain(i, waitLimit, h);
    } else {
      var hooked :| h == Submitted(i, true, hooked) + [Start];
      StartedIsPlain(i, hooked, h);
    }
  }

  lemma StartedIsPlain(i: nat, hooked: bool, h: seq<Step>)
    requires h == Submitted(i, true, hooked) + [Start]
    ensures !Harmed(h) && Finishes(h) == 0
  {
    SubmittedIsPlain(i, true, hooked, 0);
    PlainStories(h);
  }

  lemma PromotedIsPlain(i: nat, waitLimit: nat, h: seq<Step>)
    requires EndsWith(h, PromoteIt(i)) && EndsWith(Init(h), Acquire(i))
    requires exists k: nat :: k <= waitLimit && InWait(i, k, Init(Init(h)))
    ensures !Harmed(h) && Finishes(h) == 0
  {
    var k: nat :| k <= waitLimit && InWait(i, k, Init(Init(h)));
    InWaitIsPlain(i, k, Init(Init(h)));
    TwoTails(h, Acquire(i), PromoteIt(i));
  }

  lemma InWaitIsPlain(i: nat, k: nat, h: seq<Step>)
    requires InWait(i, k, h)
    ensures !Harmed(h) && Finishes(h) == 0
  {
    var hooked :| h == Waited(i, hooked, k);
    SubmittedIsPlain(i, false, hooked, k);
    PlainStories(h);
  }

  lemma RanIsFinished(i: nat, waitLimit: nat, h: seq<Step>)
    requires Ran(i, waitLimit, h)
    ensures !Harmed(h) && Finishes(h) == 1
  {
    BegunIsPlain(i, waitLimit, Init(h));
    Longer(h);
  }

  lemma InVainIsHarmed(i: nat, waitLimit: nat, h: seq<Step>)
    requires InVain(i, waitLimit, h)
    ensures Harmed(h) && Finishes(h) == 0
  {
    var k: nat :| k <= waitLimit && InWait(i, k, Init(h));
    InWaitIsPlain(i, k, Init(h));
    Longer(h);
  }

  lemma OpeningIsPlain(i: nat, reserved: bool)
    ensures !Harmed(Opening(i, reserved)) && Finishes(Opening(i, reserved)) == 0
  {
    PlainStories(Opening(i, reserved));
  }

  lemma LostIsHarmed(i: nat, reserved: bool, h: seq<Step>)
    requires Lost(i, reserved, h)
    ensures Harmed(h) && Finishes(h) == 0
  {
    Longer(h);
    if h == Submitted(i, reserved, false) + [CancelFuture(i), Hook(i)] {
      assert Init(h) == Submitted(i, reserved, false) + [CancelFuture(i)];
      Longer(Init(h));
      SubmittedIsPlain(i, reserved, false, 0);
      OneMore(Submitted(i, reserved, false), CancelFuture(i));
      PlainStories(Submitted(i, reserved, false));
    } else if h == Submitted(i, reserved, true) + [CancelFuture(i)] {
      SubmittedIsPlain(i, reserved, true, 0);
      OneMore(Submitted(i, reserved, true), CancelFuture(i));
      PlainStories(Submitted(i, reserved, true));
    } else if h == [Admit(i), Count(i), Interrupt(i)] {
      assert Init(h) == [Admit(i), Count(i)];
      PlainStories(Init(h));
    } else {
      assert Init(h) == Opening(i, reserved);
      OpeningIsPlain(i, reserved);
    }
  }

  lemma ReturningIsSettled(i: nat, waitLimit: nat, h: seq<Step>)
    requires ToldReturning(i, waitLimit, h)
    ensures Finishes(h) == if Harmed(h) then 0 else 1
  {
    if EndsWith(h, Unpark(i)) {
      Tail(h);
      InVainIsHarmed(i, waitLimit, Init(h));
    } else {
      TwoTails(h, Uncount(i), Release(i));
      RanIsFinished(i, waitLimit, Init(Init(h)));
    }
  }

  lemma ReleasedIsSettled(i: nat, h: seq<Step>)
    requires EndsWith(h, Release(i)) && EndsWith(Init(h), Uncount(i)) && Lost(i, true, Init(Init(h)))
    ensures Finishes(h) == 0 && Harmed(h)
  {
    TwoTails(h, Uncount(i), Release(i));
    LostIsHarmed(i, true, Init(Init(h)));
  }

  lemma UnparkedIsSettled(i: nat, h: seq<Step>)
    requires EndsWith(h, Unpark(i)) && Lost(i, false, Init(h))
    ensures Finishes(h) == 0 && Harmed(h)
  {
    Tail(h);
    LostIsHarmed(i, false, Init(h));
  }

  lemma DoneIsSettled(i: nat, waitLimit: nat, h: seq<Step>)
    requires Told(i, waitLimit, Done, h)
    ensures Finishes(h) == if Harmed(h) then 0 else 1
  {
    if EndsWith(h, Return(i)) {
      Tail(h);
      ReturningIsSettled(i, waitLimit, Init(h));
    } else if EndsWith(h, Release(i)) {
      ReleasedIsSettled(i, h);
    } else {
      UnparkedIsSettled(i, h);
    }
  }

  /** The steps of a run that are about prompt `i` by name are in its story. */
  lemma {:induction false} StoryHasItsSteps(s: State, steps: seq<Step>, t: State, i: nat, e: Step)
    requires i < |s.prompts| && Run(s, steps, t)
    requires !e.Forward? && !e.Start? && !e.Tick? && !e.Stop? && e.i == i
    ensures multiset(Story(s, steps, i))[e] == multiset(steps)[e]
    decreases |steps|
  {
    if steps != [] {
      var rest := Story(Next(s, steps[0]), steps[1..], i);
      StoryHasItsSteps(Next(s, steps[0]), steps[1..], t, i, e);
      assert steps == [steps[0]] + steps[1..];
      assert Story(s, steps, i) == (if Befalls(s, steps[0], i) then [steps[0]] else []) + rest;
    }
  }

  /** Only actions about `i` are in its story. */
  lemma {:induction false} StoryIsItsOwn(s: State, steps: seq<Step>, t: State, i: nat)
    requires i < |s.prompts| && Run(s, steps, t)
    ensures forall e :: e in Story(s, steps, i) ==> !e.Stop? && (e.Forward? || e.Start? || e.Tick? || e.i == i)
    decreases |steps|
  {
    if steps != [] { StoryIsItsOwn(Next(s, steps[0]), steps[1..], t, i); }
  }

  lemma {:induction false} FinishesAreCounted(h: seq<Step>, i: nat)
    requires forall e :: e in h && e.Finish? ==> e.i == i
    ensures Finishes(h) == multiset(h)[Finish(i)]
  {
    if h != [] {
      assert h == Init(h) + [h[|h| - 1]];
      FinishesAreCounted(Init(h), i);
    }
  }

  predicate Befell(steps: seq<Step>, i: nat) {
    || Interrupt(i) in steps || DropCancelled(i) in steps || SubmitFails(i) in steps
    || CancelFuture(i) in steps || GiveUp(i) in steps || TimeOut(i) in steps
  }

  lemma InStory(s: State, steps: seq<Step>, t: State, i: nat, e: Step)
    requires i < |s.prompts| && Run(s, steps, t)
    requires !e.Forward? && !e.Start? && !e.Tick? && !e.Stop? && e.i == i
    ensures e in Story(s, steps, i) <==> e in steps
  {
    StoryHasItsSteps(s, steps, t, i, e);
    assert e in Story(s, steps, i) <==> multiset(Story(s, steps, i))[e] > 0;
    assert e in steps <==> multiset(steps)[e] > 0;
  }

  lemma HarmIsAMishap(h: seq<Step>, i: nat)
    requires forall e :: e in h && Mishap(e) ==> e.i == i
    ensures Harmed(h) <==> Befell(h, i)
  {
    if Harmed(h) {
      var k :| 0 <= k < |h| && Mishap(h[k]);
      assert h[k] in h;
    }
    if e :| e in h && Mishap(e) {
      var k :| 0 <= k < |h| && h[k] == e;
    }
  }

  lemma HarmIsInTheSteps(s: State, steps: seq<Step>, t: State, i: nat)
    requires i < |s.prompts| && Run(s, steps, t)
    ensures Harmed(Story(s, steps, i)) <==> Befell(steps, i)
    ensures Finishes(Story(s, steps, i)) == multiset(steps)[Finish(i)]
  {
    var h := Story(s, steps, i);
    StoryIsItsOwn(s, steps, t, i);
    FinishesAreCounted(h, i);
    HarmIsAMishap(h, i);
    StoryHasItsSteps(s, steps, t, i, Finish(i));
    InStory(s, steps, t, i, Interrupt(i));
    InStory(s, steps, t, i, DropCancelled(i));
    InStory(s, steps, t, i, SubmitFails(i));
    InStory(s, steps, t, i, CancelFuture(i));
    InStory(s, steps, t, i, GiveUp(i));
    InStory(s, steps, t, i, TimeOut(i));
  }

  /** Over every run from the start a prompt that is done was processed, once, exactly when it was not
      interrupted, dropped, refused by the executor or cancelled before, and neither was stopped
      nor ran out of time while it waited. */
  lemma ProcessedExactlyWhen(capacity: nat, waitLimit: nat, n: nat, steps: seq<Step>, t: State, i: nat)
    requires Run(Initial(capacity, waitLimit, n), steps, t) && i < n
    ensures i < |t.prompts|
    ensures t.prompts[i].place.Done? ==> multiset(steps)[Finish(i)] == if Befell(steps, i) then 0 else 1
  {
    var s := Initial(capacity, waitLimit, n);
    RunIsTold(s, steps, t, i);
    HarmIsInTheSteps(s, steps, t, i);
    if t.prompts[i].place.Done? { DoneIsSettled(i, waitLimit, Story(s, steps, i)); }
  }

  ghost predicate OneOfFourEnds(i: nat, waitLimit: nat, h: seq<Step>) {
    || (exists g :: Begun(i, waitLimit, g) && h == g + [Finish(i), Uncount(i), Release(i), Return(i)])
    || (exists g :: Lost(i, true, g) && h == g + [Uncount(i), Release(i)])
    || (exists g :: Lost(i, false, g) && h == g + [Unpark(i)])
    || (exists g :: InVain(i, waitLimit, g) && h == g + [Unpark(i), Return(i)])
  }

  lemma ReturnedEnds(i: nat, waitLimit: nat, h: seq<Step>)
    requires EndsWith(h, Return(i)) && ToldReturning(i, waitLimit, Init(h))
    ensures OneOfFourEnds(i, waitLimit, h)
  {
    var g := Init(Init(h));
    if EndsWith(Init(h), Unpark(i)) {
      assert h == g + [Unpark(i), Return(i)];
    } else {
      var f := Init(Init(g));
      LastTwo(h, Release(i), Return(i));
      LastTwo(g, Finish(i), Uncount(i));
      assert f + [Finish(i), Uncount(i)] + [Release(i), Return(i)] == f + [Finish(i), Uncount(i), Release(i), Return(i)];
      assert Begun(i, waitLimit, f);
    }
  }

  lemma LastTwo(h: seq<Step>, a: Step, b: Step)
    requires EndsWith(h, b) && EndsWith(Init(h), a)
    ensures h == Init(Init(h)) + [a, b]
  {}

  lemma DoneEnds(i: nat, waitLimit: nat, h: seq<Step>)
    requires Told(i, waitLimit, Done, h)
    ensures OneOfFourEnds(i, waitLimit, h)
  {
    if EndsWith(h, Return(i)) {
      ReturnedEnds(i, waitLimit, h);
    } else if EndsWith(h, Release(i)) {
      assert h == Init(Init(h)) + [Uncount(i), Release(i)];
    } else {
      assert h == Init(h) + [Unpark(i)];
    }
  }

  /** ... and then this is all that befell it: it was processed and gave its worker, count and permit
      back, or was lost with or without a permit, or waited in vain. */
  lemma EachPromptEndsOneWay(capacity: nat, waitLimit: nat, n: nat, steps: seq<Step>, t: State, i: nat)
    requires Run(Initial(capacity, waitLimit, n), steps, t) && i < n
    ensures i < |t.prompts|
    ensures t.prompts[i].place.Done? ==> OneOfFourEnds(i, waitLimit, Story(Initial(capacity, waitLimit, n), steps, i))
  {
    RunIsTold(Initial(capacity, waitLimit, n), steps, t, i);
    if t.prompts[i].place.Done? { DoneEnds(i, waitLimit, Story(Initial(capacity, waitLimit, n), steps, i)); }
  }

  lemma BegunEnds(i: nat, waitLimit: nat, h: seq<Step>)
    requires Begun(i, waitLimit, h)
    ensures |h| > 1 && (h[|h| - 1] == PromoteIt(i) || (h[|h| - 1] == Start && h[1] == Count(i)))
  {}

  lemma WaitEnds(i: nat, k: nat, h: seq<Step>)
    requires InWait(i, k, h)
    ensures |h| > 1 && h[1] == Park(i) && (h[|h| - 1] == Start || h[|h| - 1] == Tick)
  {}

  predicate Elsewhere(h: seq<Step>, i: nat) {
    || h == []
    || (h[|h| - 1] != PromoteIt(i) && h[|h| - 1] != Start)
    || (|h| > 1 && h[1] == Park(i) && h[|h| - 1] == Start)
  }

  lemma NotBegunElsewhere(i: nat, waitLimit: nat, place: Place, h: seq<Step>)
    requires Told(i, waitLimit, place, h) && !place.Running?
    ensures Elsewhere(h, i)
  {
    if place.Polling? {
      WaitEnds(i, waitLimit - place.remaining, h);
    } else if place.Uncounting? && !place.onWorker {
      LostEnds(i, true, h);
    } else if place.Unparking? && !place.onWorker {
      LostEnds(i, false, h);
    }
  }

  lemma LostEnds(i: nat, reserved: bool, h: seq<Step>)
    requires Lost(i, reserved, h)
    ensures h != [] && h[|h| - 1] != PromoteIt(i) && h[|h| - 1] != Start
  {}

  /** The message of a prompt is being processed exactly when a worker has taken it up with a permit, and
      that is the last that befell it. */
  lemma ProcessingExactlyWhen(capacity: nat, waitLimit: nat, n: nat, steps: seq<Step>, t: State, i: nat)
    requires Run(Initial(capacity, waitLimit, n), steps, t) && i < n
    ensures i < |t.prompts|
    ensures t.prompts[i].place.Running? <==> Begun(i, waitLimit, Story(Initial(capacity, waitLimit, n), steps, i))
  {
    RunIsTold(Initial(capacity, waitLimit, n), steps, t, i);
    var h := Story(Initial(capacity, waitLimit, n), steps, i);
    RunningWhenBegun(i, waitLimit, t.prompts[i].place, h);
  }

  lemma RunningWhenBegun(i: nat, waitLimit: nat, place: Place, h: seq<Step>)
    requires Told(i, waitLimit, place, h)
    ensures place.Running? <==> Begun(i, waitLimit, h)
  {
    if Begun(i, waitLimit, h) && !place.Running? {
      BegunEnds(i, waitLimit, h);
      NotBegunElsewhere(i, waitLimit, place, h);
      assert false;
    }
  }

  function Indicator(p: Prompt): nat { if p.place.Running? then 1 else 0 }

  function Processing(ps: seq<Prompt>): set<nat> { set i: nat | i < |ps| && ps[i].place.Running? }

  lemma {:induction false} RunningAreSummed(ps: seq<Prompt>)
    ensures |Processing(ps)| == Sum(Indicator, ps)
  {
    if ps == [] {
      assert Processing(ps) == {};
    } else {
      var n := |ps| - 1;
      RunningAreSummed(ps[..n]);
      assert ps == ps[..n] + [ps[n]];
      SumSnoc(Indicator, ps[..n], ps[n]);
      assert Processing(ps) == Processing(ps[..n]) + if ps[n].place.Running? then {n} else {};
    }
  }

  lemma {:induction false} SumSnoc(weight: Prompt -> nat, xs: seq<Prompt>, x: Prompt)
    ensures Sum(weight, xs + [x]) == Sum(weight, xs) + weight(x)
  {
    if xs == [] {
      assert (xs + [x])[1..] == [];
    } else {
      assert (xs + [x])[1..] == xs[1..] + [x];
      SumSnoc(weight, xs[1..], x);
    }
  }

  /** In every reachable state at most as many messages are being processed as there are slots. */
  lemma AtMostCapacityRun(t: State)
    requires Reachable(t)
    ensures |Processing(t.prompts)| <= t.capacity
  {
    SlotsAreConserved(t);
    RunningAreSummed(t.prompts);
    SumMonotone(Indicator, Holds, t.prompts);
  }

  // ---- Stops and ends ----

  lemma StoppedByOne(s: State, step: Step, i: nat)
    requires i < |s.prompts| && Enabled(s, step)
    ensures i < |Next(s, step).prompts|
    ensures Next(s, step).prompts[i].stopped <==> s.prompts[i].stopped || step == Stop(i)
  {
    if step.Tick? { assert Next(s, Tick).prompts[i] == Age(s.prompts[i]); }
  }

  /** At every moment a prompt that is not done may be stopped, once, and each other mishap may come wherever it
      is one. */
  lemma MishapsMayCome(s: State, i: nat)
    requires i < |s.prompts|
    ensures Enabled(s, Stop(i)) <==> !s.prompts[i].place.Done? && !s.prompts[i].stopped
    ensures Enabled(s, Interrupt(i)) <==> s.prompts[i].place.Counted?
    ensures Enabled(s, SubmitFails(i)) <==> s.prompts[i].place.Forwarding?
    ensures Enabled(s, DropCancelled(i)) <==> s.prompts[i].place.Forwarding? && s.prompts[i].stopped
    ensures Enabled(s, CancelFuture(i)) <==> s.prompts[i].place.Queued?
    ensures Enabled(s, GiveUp(i)) <==> s.prompts[i].place.Polling? && s.prompts[i].stopped
    ensures Enabled(s, TimeOut(i)) <==> s.prompts[i].place == Polling(0)
  {}

  /** A prompt is dropped, or gives up waiting, only when a stop of it came before. */
  lemma {:induction false} OnlyTheStoppedAreDropped(s: State, steps: seq<Step>, t: State, i: nat)
    requires i < |s.prompts| && Run(s, steps, t) && !s.prompts[i].stopped
    requires DropCancelled(i) in steps || GiveUp(i) in steps
    ensures Stop(i) in steps
    decreases |steps|
  {
    assert steps == [steps[0]] + steps[1..];
    StoppedByOne(s, steps[0], i);
    if steps[0] != Stop(i) { OnlyTheStoppedAreDropped(Next(s, steps[0]), steps[1..], t, i); }
  }

  lemma HeadAndTail(first: seq<Step>, rest: seq<Step>)
    ensures first == [] ==> first + rest == rest
    ensures first != [] ==> first + rest != [] && (first + rest)[0] == first[0]
    ensures first != [] ==> (first + rest)[1..] == first[1..] + rest
  {}

  lemma {:induction false} Then(s: State, first: seq<Step>, u: State, rest: seq<Step>, t: State)
    requires Run(s, first, u) && Run(u, rest, t)
    ensures Run(s, first + rest, t)
    decreases |first|
  {
    HeadAndTail(first, rest);
    if first != [] { Then(Next(s, first[0]), first[1..], u, rest, t); }
  }

  /** From every state a run can be in, actions that need neither a user nor a failure end every prompt,
      and each was processed, once, exactly when nothing befell it in the whole of the run. */
  lemma EveryPromptIsProcessedOrHarmed(capacity: nat, waitLimit: nat, n: nat, before: seq<Step>, s: State)
    returns (steps: seq<Step>, t: State)
    requires capacity >= 1 && Run(Initial(capacity, waitLimit, n), before, s)
    ensures Run(s, steps, t) && (forall k :: 0 <= k < |steps| ==> Internal(steps[k]))
    ensures Quiescent(t) && t.counters == Counters(t.capacity, 0, 0)
    ensures forall i: nat :: i < n ==> multiset(before + steps)[Finish(i)] == if Befell(before + steps, i) then 0 else 1
  {
    var start := Initial(capacity, waitLimit, n);
    InitialInv(capacity, waitLimit, n);
    RunKeepsInv(start, before, s);
    steps, t := EveryPromptEnds(s);
    Then(start, before, s, steps, t);
    forall i: nat | i < n
      ensures multiset(before + steps)[Finish(i)] == if Befell(before + steps, i) then 0 else 1
    {
      ProcessedExactlyWhen(capacity, waitLimit, n, before + steps, t, i);
    }
  }
}
