/** What the rotation of the agent pool promises over whole runs. */
module AgentFairness {
  import opened AgentPools
  import opened Options

  /** One call of the pool, with the clock reading it makes. A call that raises changes nothing. */
  datatype Op =
    | Take(now: real)
    | Look(now: real)
    | SuspendOp(now: real, name: string, seconds: real, reason: string)
    | ResumeOp(name: string)
    | FreezeOp(name: string, orchestrates: bool)
    | UnfreezeOp
    | AddOp(name: string)
    | RemoveOp(name: string)
    | RotateOp
    | SetOp(agents: seq<string>)

  function Apply(p: Pool, op: Op): Pool {
    match op
    case Take(now) => AfterTake(p, now)
    case Look(now) => DropExpired(p, now)
    case SuspendOp(now, name, seconds, reason) =>
      if name in p.agents then Suspend(p, now, name, seconds, reason) else p
    case ResumeOp(name) => Resume(p, name)
    case FreezeOp(name, orchestrates) =>
      if name in p.agents then p.(frozen := Some(name), orchestrator := if orchestrates then Some(name) else None)
      else p
    case UnfreezeOp => Unrouted(p)
    case AddOp(name) => Add(p, name)
    case RemoveOp(name) => Remove(p, name)
    case RotateOp => Rotate(p)
    case SetOp(agents) => SetAgents(p, agents)
  }

  /** What the calls of `take_primary` in a run return, in order. */
  function Picks(p: Pool, ops: seq<Op>): seq<Option<string>>
    decreases |ops|
  {
    if ops == [] then []
    else (if ops[0].Take? then [Taken(p, ops[0].now)] else []) + Picks(Apply(p, ops[0]), ops[1..])
  }

  predicate IsAvailable(p: Pool, a: string) { a in p.agents && a !in p.suspended }

  predicate RotationDecides(p: Pool, now: real) {
    var q := DropExpired(p, now);
    !FrozenNow(q) && Available(q.agents, q.suspended) != []
  }

  // ---- One call ----

  lemma {:induction false} FirstAvailable(agents: seq<string>, suspended: map<string, Suspension>, a: string)
    requires a in agents && a !in suspended
    ensures Available(agents, suspended) != []
    ensures var first := Available(agents, suspended)[0];
      first in agents && IndexOf(agents, first) <= IndexOf(agents, a)
  {
    if agents[0] in suspended {
      assert a in agents[1..];
      FirstAvailable(agents[1..], suspended, a);
    }
  }

  /** The rotation returns the first available agent of the list unless a frozen one is available. */
  lemma TakeServesTheFirst(p: Pool, now: real, a: string)
    requires IsAvailable(DropExpired(p, now), a) && !FrozenNow(DropExpired(p, now))
    ensures Taken(p, now).Some? && Taken(p, now).value in p.agents
    ensures Taken(p, now).value !in DropExpired(p, now).suspended
    ensures IndexOf(p.agents, Taken(p, now).value) <= IndexOf(p.agents, a)
    ensures AfterTake(p, now).agents == MoveToBack(p.agents, IndexOf(p.agents, Taken(p, now).value))
  {
    var q := DropExpired(p, now);
    FirstAvailable(q.agents, q.suspended, a);
    var first := Available(q.agents, q.suspended)[0];
    AvailableMembers(q.agents, q.suspended, first);
  }

  lemma IndexIsFirst(agents: seq<string>, a: string, i: nat)
    requires i < |agents| && agents[i] == a && forall j :: 0 <= j < i ==> agents[j] != a
    ensures a in agents && IndexOf(agents, a) == i
  {}

  /** Serving an agent that stands before `a` moves `a` one place forward. */
  lemma OthersMoveUp(agents: seq<string>, i: nat, a: string)
    requires a in agents && i < IndexOf(agents, a)
    ensures a in MoveToBack(agents, i) && IndexOf(MoveToBack(agents, i), a) == IndexOf(agents, a) - 1
  {
    var k := IndexOf(agents, a);
    var moved := MoveToBack(agents, i);
    assert moved[k - 1] == a;
    forall j | 0 <= j < k - 1 ensures moved[j] != a {
      assert moved[j] == if j < i then agents[j] else agents[j + 1];
    }
    IndexIsFirst(moved, a, k - 1);
  }

  lemma RemovalMovesUp(agents: seq<string>, name: string, a: string)
    requires a in agents && a != name
    ensures a in Without(agents, name) && IndexOf(Without(agents, name), a) <= IndexOf(agents, a)
  {
    if name in agents {
      var k := WhereAfterRemoval(agents, IndexOf(agents, name), IndexOf(agents, a));
      PrefixBound(Without(agents, name), k, a);
    }
  }

  lemma WhereAfterRemoval(agents: seq<string>, i: nat, k: nat) returns (at: nat)
    requires i < |agents| && k < |agents| && i != k
    ensures at <= k && at < |agents| - 1 && (agents[..i] + agents[i + 1..])[at] == agents[k]
  {
    at := if i < k then k - 1 else k;
  }

  lemma PrefixBound(agents: seq<string>, i: nat, a: string)
    requires i < |agents| && agents[i] == a
    ensures a in agents && IndexOf(agents, a) <= i
  {}

  // ---- Fairness ----

  /** `a` stays a member, is available and not overridden by a frozen agent at every
      `take_primary`, the list is not replaced, and no manual rotation takes `a` off the front. */
  predicate StaysServable(p: Pool, ops: seq<Op>, a: string)
    decreases |ops|
  {
    ops == [] ||
    (&& a in p.agents
     && (ops[0].Take? ==> IsAvailable(DropExpired(p, ops[0].now), a) && !FrozenNow(DropExpired(p, ops[0].now)))
     && (ops[0].RemoveOp? ==> ops[0].name != a)
     && (ops[0].RotateOp? ==> p.agents[0] != a)
     && !ops[0].SetOp?
     && StaysServable(Apply(p, ops[0]), ops[1..], a))
  }

  lemma RotateMovesUp(agents: seq<string>, a: string)
    requires a in agents && agents[0] != a
    ensures |agents| > 1 && a in agents[1..] + agents[..1]
    ensures IndexOf(agents[1..] + agents[..1], a) <= IndexOf(agents, a)
  {
    var k := IndexOf(agents, a);
    assert (agents[1..] + agents[..1])[k - 1] == a;
    PrefixBound(agents[1..] + agents[..1], k - 1, a);
  }

  /** No call but a `take_primary` that serves `a` itself moves `a` back. */
  lemma OtherCallsDoNotMoveBack(p: Pool, op: Op, a: string)
    requires StaysServable(p, [op], a) && !op.Take?
    ensures a in Apply(p, op).agents && IndexOf(Apply(p, op).agents, a) <= IndexOf(p.agents, a)
  {
    match op
    case AddOp(name) =>
      if name !in p.agents {
        assert (p.agents + [name])[IndexOf(p.agents, a)] == a;
        PrefixBound(p.agents + [name], IndexOf(p.agents, a), a);
      }
    case RemoveOp(name) => RemovalMovesUp(p.agents, name, a);
    case RotateOp => RotateMovesUp(p.agents, a);
    case _ =>
  }

  /** An agent at index `i` that stays servable is chosen by one of the next `i + 1` calls of
      `take_primary`, whatever is suspended, resumed, added, removed or frozen in between. */
  lemma {:induction false} ServedWithinItsIndex(p: Pool, ops: seq<Op>, a: string) returns (k: nat)
    requires a in p.agents && StaysServable(p, ops, a)
    requires |Picks(p, ops)| > IndexOf(p.agents, a)
    ensures k <= IndexOf(p.agents, a) && k < |Picks(p, ops)| && Picks(p, ops)[k] == Some(a)
    decreases |ops|
  {
    var op, q := ops[0], Apply(p, ops[0]);
    if op.Take? {
      TakeServesTheFirst(p, op.now, a);
      if Taken(p, op.now) == Some(a) {
        k := 0;
      } else {
        IndicesDiffer(p.agents, Taken(p, op.now).value, a);
        OthersMoveUp(p.agents, IndexOf(p.agents, Taken(p, op.now).value), a);
        k := ServedWithinItsIndex(q, ops[1..], a);
        k := k + 1;
      }
    } else {
      OneCallServable(p, ops, a);
      OtherCallsDoNotMoveBack(p, op, a);
      k := ServedWithinItsIndex(q, ops[1..], a);
    }
  }

  lemma IndicesDiffer(agents: seq<string>, a: string, b: string)
    requires a in agents && b in agents && a != b
    ensures IndexOf(agents, a) != IndexOf(agents, b)
  {}

  lemma OneCallServable(p: Pool, ops: seq<Op>, a: string)
    requires ops != [] && StaysServable(p, ops, a)
    ensures StaysServable(p, [ops[0]], a)
  {
    assert [ops[0]][1..] == [];
  }

  /** The available agents among themselves see a plain round-robin: the one served goes from
      the front of their list to its back. */
  lemma AvailableSeePlainRotation(p: Pool, now: real)
    requires RotationDecides(p, now)
    ensures var suspended := DropExpired(p, now).suspended;
      var before := Available(p.agents, suspended);
      && Taken(p, now) == Some(before[0])
      && Available(AfterTake(p, now).agents, suspended) == before[1..] + [before[0]]
      && AfterTake(p, now).suspended == suspended
  {
    var q := DropExpired(p, now);
    var first := Available(q.agents, q.suspended)[0];
    AvailableMembers(q.agents, q.suspended, first);
    TakeServesTheFirst(p, now, first);
    var i := IndexOf(p.agents, first);
    NothingBefore(p.agents, q.suspended);
    MovedAvailable(p.agents, i, q.suspended);
  }

  /** No `take_primary` loses, adds or duplicates a member. */
  lemma TakeKeepsMembers(p: Pool, now: real)
    ensures multiset(AfterTake(p, now).agents) == multiset(p.agents)
  {
    var q := DropExpired(p, now);
    var chosen := Pick(q).0;
    if chosen.Some? && chosen.value in p.agents {
      MoveKeepsMembers(p.agents, IndexOf(p.agents, chosen.value));
    }
  }

  lemma MoveKeepsMembers(agents: seq<string>, i: nat)
    requires i < |agents|
    ensures multiset(MoveToBack(agents, i)) == multiset(agents)
  {
    assert agents == agents[..i] + [agents[i]] + agents[i + 1..];
  }

  lemma MovedAvailable(agents: seq<string>, i: nat, suspended: map<string, Suspension>)
    requires i < |agents| && agents[i] !in suspended && Available(agents[..i], suspended) == []
    ensures Available(agents, suspended) == [agents[i]] + Available(agents[i + 1..], suspended)
    ensures Available(MoveToBack(agents, i), suspended) == Available(agents[i + 1..], suspended) + [agents[i]]
  {
    var head, one, tail := agents[..i], [agents[i]], agents[i + 1..];
    assert Available(one, suspended) == one by { assert one[1..] == []; }
    assert agents == head + (one + tail);
    AvailableConcat(head, one + tail, suspended);
    AvailableConcat(one, tail, suspended);
    assert MoveToBack(agents, i) == head + (tail + one);
    AvailableConcat(head, tail + one, suspended);
    AvailableConcat(tail, one, suspended);
  }

  lemma {:induction false} AvailableConcat(xs: seq<string>, ys: seq<string>, suspended: map<string, Suspension>)
    ensures Available(xs + ys, suspended) == Available(xs, suspended) + Available(ys, suspended)
  {
    if xs == [] {
      assert xs + ys == ys;
    } else {
      assert (xs + ys)[1..] == xs[1..] + ys;
      AvailableConcat(xs[1..], ys, suspended);
    }
  }

  /** Everybody before the first available agent is suspended. */
  lemma {:induction false} NothingBefore(agents: seq<string>, suspended: map<string, Suspension>)
    requires Available(agents, suspended) != []
    ensures var first := Available(agents, suspended)[0];
      first in agents && Available(agents[..IndexOf(agents, first)], suspended) == []
  {
    var first := Available(agents, suspended)[0];
    AvailableMembers(agents, suspended, first);
    var i := IndexOf(agents, first);
    if agents[0] in suspended {
      NothingBefore(agents[1..], suspended);
      assert agents[..i][1..] == agents[1..][..i - 1];
    } else {
      assert agents[..0] == [];
    }
  }

  /** With everybody suspended the rotation probes whoever returns first, and does not move. */
  lemma AllSuspendedProbesTheEarliest(p: Pool, now: real, a: string)
    requires a in p.agents && Available(p.agents, DropExpired(p, now).suspended) == []
    ensures Taken(p, now).Some? && Taken(p, now).value in p.agents && AfterTake(p, now).agents == p.agents
    ensures a in p.suspended && Taken(p, now).value in p.suspended
    ensures p.suspended[Taken(p, now).value].until <= p.suspended[a].until
  {
    AllSuspended(p.agents, DropExpired(p, now).suspended);
  }

  // ---- Who is served ----

  /** A call forgets the suspensions that are over and touches nothing else but the order of the list. */
  lemma TakeKeepsTheRest(p: Pool, now: real)
    ensures var q := AfterTake(p, now);
      && q.frozen == p.frozen && q.orchestrator == p.orchestrator
      && (forall n :: n in q.suspended <==> n in p.suspended && p.suspended[n].until > now)
      && (forall n :: n in q.suspended ==> q.suspended[n] == p.suspended[n])
  {}

  /** A frozen agent that is free is served, and the list stays as it is. */
  lemma TakeServesTheFrozen(p: Pool, now: real)
    requires p.frozen.Some? && Free(p.agents, p.suspended, now, p.frozen.value)
    ensures Taken(p, now) == p.frozen && AfterTake(p, now).agents == p.agents
  {
    AvailableAreFree(p.agents, p.suspended, now);
  }

  /** Without one the first free agent is served and goes to the back. */
  lemma TakeServesTheFirstFree(p: Pool, now: real, a: string) returns (i: nat)
    requires !(p.frozen.Some? && Free(p.agents, p.suspended, now, p.frozen.value))
    requires Free(p.agents, p.suspended, now, a)
    ensures FirstFree(p, now, i) && Taken(p, now) == Some(p.agents[i])
    ensures AfterTake(p, now).agents == p.agents[..i] + p.agents[i + 1..] + [p.agents[i]]
  {
    AvailableAreFree(p.agents, p.suspended, now);
    TakeServesTheFirst(p, now, a);
    i := IndexOf(p.agents, Taken(p, now).value);
    forall j | 0 <= j < i ensures !Free(p.agents, p.suspended, now, p.agents[j]) {
      PrefixBound(p.agents, j, p.agents[j]);
      if Free(p.agents, p.suspended, now, p.agents[j]) { TakeServesTheFirst(p, now, p.agents[j]); }
    }
  }

  /** With all suspended the first of those due back earliest is probed, and the list stays; nobody is
      served from an empty list only. */
  lemma TakeProbesTheEarliest(p: Pool, now: real)
    requires forall a :: a in p.agents ==> !Free(p.agents, p.suspended, now, a)
    ensures AfterTake(p, now).agents == p.agents
    ensures if p.agents == [] then Taken(p, now).None? else EarliestDue(p, Taken(p, now))
  {
    AvailableAreFree(p.agents, p.suspended, now);
    if p.agents != [] {
      NobodyAvailable(p, now);
      EarliestIsFirst(p.agents, DropExpired(p, now).suspended);
    }
  }

  predicate FirstFree(p: Pool, now: real, i: int) {
    && 0 <= i < |p.agents| && Free(p.agents, p.suspended, now, p.agents[i])
    && forall j :: 0 <= j < i ==> !Free(p.agents, p.suspended, now, p.agents[j])
  }

  predicate EarliestDue(p: Pool, chosen: Option<string>) {
    exists i :: 0 <= i < |p.agents| && chosen == Some(p.agents[i]) && p.agents[i] in p.suspended
      && (forall j :: 0 <= j < |p.agents| && p.agents[j] in p.suspended ==>
            p.suspended[p.agents[i]].until <= p.suspended[p.agents[j]].until)
      && forall j :: 0 <= j < i && p.agents[j] in p.suspended ==>
           p.suspended[p.agents[i]].until < p.suspended[p.agents[j]].until
  }

  lemma NobodyAvailable(p: Pool, now: real)
    requires forall a :: a in p.agents ==> !Free(p.agents, p.suspended, now, a)
    ensures Available(p.agents, DropExpired(p, now).suspended) == []
  {
    var q := DropExpired(p, now);
    if Available(q.agents, q.suspended) != [] {
      var a := Available(q.agents, q.suspended)[0];
      AvailableMembers(q.agents, q.suspended, a);
      assert Free(p.agents, p.suspended, now, a);
    }
  }

  lemma {:induction false} EarliestIsFirst(agents: seq<string>, suspended: map<string, Suspension>)
    requires agents != [] && forall a :: a in agents ==> a in suspended
    ensures exists i :: (0 <= i < |agents| && agents[i] == Earliest(agents, suspended)
      && forall j :: 0 <= j < i ==> suspended[agents[i]].until < suspended[agents[j]].until)
  {
    if |agents| == 1 {
      assert agents[0] == Earliest(agents, suspended);
    } else {
      EarliestIsFirst(agents[1..], suspended);
      var i :| 0 <= i < |agents[1..]| && agents[1..][i] == Earliest(agents[1..], suspended)
        && forall j :: 0 <= j < i ==> suspended[agents[1..][i]].until < suspended[agents[1..][j]].until;
      if suspended[agents[0]].until <= suspended[agents[1..][i]].until {
        assert agents[0] == Earliest(agents, suspended);
      } else {
        assert agents[i + 1] == Earliest(agents, suspended);
        assert forall j :: 0 < j < i + 1 ==> agents[j] == agents[1..][j - 1];
      }
    }
  }

  /** Nothing lifts the freeze of `a` or removes it, and it is free whenever somebody is asked for. */
  predicate StaysFrozen(p: Pool, ops: seq<Op>, a: string)
    decreases |ops|
  {
    ops == [] ||
    (&& (ops[0].Take? ==> (a in p.suspended ==> p.suspended[a].until <= ops[0].now))
     && !ops[0].UnfreezeOp?
     && (ops[0].FreezeOp? ==> ops[0].name == a || ops[0].name !in p.agents)
     && (ops[0].RemoveOp? ==> ops[0].name != a)
     && (ops[0].SetOp? ==> a in ops[0].agents)
     && StaysFrozen(Apply(p, ops[0]), ops[1..], a))
  }

  lemma FrozenStays(p: Pool, op: Op, a: string)
    requires p.frozen == Some(a) && a in p.agents && StaysFrozen(p, [op], a)
    ensures Apply(p, op).frozen == Some(a) && a in Apply(p, op).agents
  {
    match op
    case Take(now) => TakeServesTheFrozen(p, now);
    case RemoveOp(name) => RemovalMovesUp(p.agents, name, a);
    case RotateOp => assert p.agents == p.agents[..1] + p.agents[1..] || |p.agents| <= 1;
    case _ =>
  }

  /** After a freeze of `a`, which is a member, every pick is `a` until the freeze is lifted. */
  lemma {:induction false} AFrozenAgentIsAlwaysServed(p: Pool, ops: seq<Op>, a: string, k: nat)
    requires p.frozen == Some(a) && a in p.agents && StaysFrozen(p, ops, a) && k < |Picks(p, ops)|
    ensures Picks(p, ops)[k] == Some(a)
    decreases |ops|
  {
    assert [ops[0]][1..] == [];
    FrozenStays(p, ops[0], a);
    if ops[0].Take? {
      TakeServesTheFrozen(p, ops[0].now);
      if k > 0 { AFrozenAgentIsAlwaysServed(Apply(p, ops[0]), ops[1..], a, k - 1); }
    } else {
      AFrozenAgentIsAlwaysServed(Apply(p, ops[0]), ops[1..], a, k);
    }
  }

  /** A freeze takes effect at once, as long as the agent is a member. */
  lemma FreezeServes(p: Pool, orchestrates: bool, ops: seq<Op>, a: string, k: nat)
    requires a in p.agents
    requires StaysFrozen(Apply(p, FreezeOp(a, orchestrates)), ops, a)
    requires k < |Picks(p, [FreezeOp(a, orchestrates)] + ops)|
    ensures Picks(p, [FreezeOp(a, orchestrates)] + ops)[k] == Some(a)
  {
    assert ([FreezeOp(a, orchestrates)] + ops)[1..] == ops;
    AFrozenAgentIsAlwaysServed(Apply(p, FreezeOp(a, orchestrates)), ops, a, k);
  }

  // ---- Least recently served ----

  /** The list is sorted by the moment each agent was last rotated to the back or added
      (`served`), all of them in the past. */
  predicate SortedByService(agents: seq<string>, served: map<string, int>, tick: int) {
    && (forall i :: 0 <= i < |agents| ==> agents[i] in served && served[agents[i]] < tick)
    && (forall i, j :: 0 <= i < j < |agents| && agents[i] in served && agents[j] in served ==>
          served[agents[i]] < served[agents[j]])
  }

  predicate RotatesPast(p: Pool, now: real) {
    && Pick(DropExpired(p, now)).1 && Taken(p, now).Some? && |p.agents| > 1
  }

  function Serve(p: Pool, served: map<string, int>, tick: int, op: Op): map<string, int> {
    match op
    case Take(now) => if RotatesPast(p, now) then served[Taken(p, now).value := tick] else served
    case AddOp(name) => if name in p.agents then served else served[name := tick]
    case RotateOp => if |p.agents| > 1 then served[p.agents[0] := tick] else served
    case _ => served
  }

  lemma MoveToBackSorted(agents: seq<string>, i: nat, served: map<string, int>, tick: int)
    requires i < |agents| && SortedByService(agents, served, tick)
    ensures SortedByService(MoveToBack(agents, i), served[agents[i] := tick], tick + 1)
  {
    var moved := MoveToBack(agents, i);
    var source := (k: int) => if k < i then k else k + 1;
    assert forall k :: 0 <= k < |moved| - 1 ==> moved[k] == agents[source(k)] && moved[k] != agents[i];
  }

  lemma DropSorted(agents: seq<string>, i: nat, served: map<string, int>, tick: int)
    requires i < |agents| && SortedByService(agents, served, tick)
    ensures SortedByService(agents[..i] + agents[i + 1..], served, tick + 1)
  {
    var rest := agents[..i] + agents[i + 1..];
    var source := (k: int) => if k < i then k else k + 1;
    assert forall k :: 0 <= k < |rest| ==> rest[k] == agents[source(k)];
  }

  lemma TakeKeepsOrder(p: Pool, served: map<string, int>, tick: int, now: real)
    requires SortedByService(p.agents, served, tick)
    ensures SortedByService(AfterTake(p, now).agents, Serve(p, served, tick, Take(now)), tick + 1)
  {
    if RotatesPast(p, now) {
      var q := DropExpired(p, now);
      AvailableMembers(q.agents, q.suspended, Taken(p, now).value);
      MoveToBackSorted(p.agents, IndexOf(p.agents, Taken(p, now).value), served, tick);
    }
  }

  lemma RotateKeepsOrder(p: Pool, served: map<string, int>, tick: int)
    requires SortedByService(p.agents, served, tick)
    ensures SortedByService(Rotate(p).agents, Serve(p, served, tick, RotateOp), tick + 1)
  {
    if |p.agents| > 1 {
      MoveToBackSorted(p.agents, 0, served, tick);
      assert p.agents[1..] + p.agents[..1] == MoveToBack(p.agents, 0);
    }
  }

  lemma AddKeepsOrder(p: Pool, served: map<string, int>, tick: int, name: string)
    requires SortedByService(p.agents, served, tick)
    ensures SortedByService(Add(p, name).agents, Serve(p, served, tick, AddOp(name)), tick + 1)
  {}

  lemma CallKeepsOrder(p: Pool, served: map<string, int>, tick: int, op: Op)
    requires SortedByService(p.agents, served, tick) && !op.SetOp?
    ensures SortedByService(Apply(p, op).agents, Serve(p, served, tick, op), tick + 1)
  {
    match op
    case Take(now) => TakeKeepsOrder(p, served, tick, now);
    case AddOp(name) => AddKeepsOrder(p, served, tick, name);
    case RemoveOp(name) =>
      if name in p.agents { DropSorted(p.agents, IndexOf(p.agents, name), served, tick); }
    case RotateOp => RotateKeepsOrder(p, served, tick);
    case _ =>
  }

  /** Whom a scheduler that only remembers service times would serve: an available agent
      that waited at least as long as every other available one. */
  predicate ServesTheOldest(p: Pool, served: map<string, int>, now: real) {
    var q := DropExpired(p, now);
    && Taken(p, now).Some? && IsAvailable(q, Taken(p, now).value) && Taken(p, now).value in served
    && forall a :: a in q.agents && a !in q.suspended ==> a in served && served[Taken(p, now).value] <= served[a]
  }

  lemma TakeServesTheOldest(p: Pool, served: map<string, int>, tick: int, now: real)
    requires SortedByService(p.agents, served, tick) && RotationDecides(p, now)
    ensures ServesTheOldest(p, served, now)
  {
    var q := DropExpired(p, now);
    var chosen := Available(q.agents, q.suspended)[0];
    AvailableMembers(q.agents, q.suspended, chosen);
    forall a | a in q.agents && a !in q.suspended ensures a in served && chosen in served && served[chosen] <= served[a]
    {
      TakeServesTheFirst(p, now, a);
      assert p.agents[IndexOf(p.agents, chosen)] == chosen && p.agents[IndexOf(p.agents, a)] == a;
    }
  }

  /** At every step the list is in service order, and a pick that the rotation decides serves the oldest. */
  predicate AlwaysServesTheOldest(p: Pool, served: map<string, int>, tick: int, ops: seq<Op>)
    decreases |ops|
  {
    && SortedByService(p.agents, served, tick)
    && (ops != [] ==>
          && (ops[0].Take? && RotationDecides(p, ops[0].now) ==> ServesTheOldest(p, served, ops[0].now))
          && AlwaysServesTheOldest(Apply(p, ops[0]), Serve(p, served, tick, ops[0]), tick + 1, ops[1..]))
  }

  /** Over every run without a wholesale `set`, from a list in service order (a list of distinct
      names is one), the round-robin is a least-recently-served scheduler. */
  lemma {:induction false} RotationIsLeastRecentlyServed(p: Pool, served: map<string, int>, tick: int, ops: seq<Op>)
    requires SortedByService(p.agents, served, tick) && forall k :: 0 <= k < |ops| ==> !ops[k].SetOp?
    ensures AlwaysServesTheOldest(p, served, tick, ops)
    decreases |ops|
  {
    if ops != [] {
      var op := ops[0];
      if op.Take? && RotationDecides(p, op.now) {
        TakeServesTheOldest(p, served, tick, op.now);
      }
      CallKeepsOrder(p, served, tick, op);
      RotationIsLeastRecentlyServed(Apply(p, op), Serve(p, served, tick, op), tick + 1, ops[1..]);
    }
  }

  /** A list of distinct names is in service order for the moments it was filled in. */
  lemma DistinctNamesAreSorted(agents: seq<string>)
    requires forall i, j :: 0 <= i < j < |agents| ==> agents[i] != agents[j]
    ensures SortedByService(agents, map a | a in agents :: IndexOf(agents, a), |agents|)
  {
    forall i | 0 <= i < |agents| ensures IndexOf(agents, agents[i]) == i {
      IndexIsFirst(agents, agents[i], i);
    }
  }
}
