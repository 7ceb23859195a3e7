/** The two-level cancel signal: the owner of a round, its forks, and the API runs they register. */
module ClientTree {
  import opened Options

  // ---- The event of a fork ----

  /** Own flag of an event. A fork's event also answers to the event it was forked from;
      `set` and `clear` act on the own flag alone. */
  class CancelEvent {
    var flag: bool
    const round: CancelEvent?
    ghost const depth: nat

    ghost predicate Valid()
      decreases depth
    {
      round != null ==> round.depth < depth && round.Valid()
    }

    ghost function Chain(): set<CancelEvent>
      requires Valid()
      decreases depth
    {
      {this} + if round == null then {} else round.Chain()
    }

    constructor Root()
      ensures Valid() && !flag && round == null
    {
      flag, round, depth := false, null, 0;
    }

    constructor Fork(of: CancelEvent)
      requires of.Valid()
      ensures Valid() && !flag && round == of
    {
      flag, round, depth := false, of, of.depth + 1;
    }

    predicate IsSet()
      requires Valid()
      reads Chain()
      decreases depth
    {
      flag || (round != null && round.IsSet())
    }

    method Set()
      requires Valid()
      modifies this`flag
      ensures flag && IsSet()
    {
      flag := true;
    }

    /** A fork that starts running clears its own event; a round that is cancelled stays so for it. */
    method Clear()
      requires Valid()
      modifies this`flag
      ensures !flag
      ensures round != null && this !in round.Chain() ==> IsSet() == old(round.IsSet())
    {
      flag := false;
    }
  }

  // ---- Clients and runs, with the steps of a cancellation interleaved ----

  /** One run of a client at a time: it finds the event clear, then clears it again on its own
      (the signal handler does so when it starts), and is under way. */
  datatype Phase = Resting | Tested | Underway

  /** `parent` is the client it was forked from (none for the owner of the round); `own` is its
      event's own flag; `watched` the API run its run waits for. */
  datatype Client = Client(parent: Option<nat>, own: bool, phase: Phase, watched: Option<nat>)

  datatype Stage = Prepared | Registered | Left

  /** An API run with the client that made it, and its own event. */
  datatype ApiRun = ApiRun(client: nat, stage: Stage, event: bool)

  /** One call of `cancel_own_work` (or, on the owner, `cancel_active_work`): it has set the
      event, then takes a snapshot of the runs in reach, then sets their events one by one. */
  datatype Call =
    | Flagged(who: nat)
    | Setting(who: nat, todo: set<nat>, reached: set<nat>)
    | Returned(who: nat, reached: set<nat>)

  datatype World = World(clients: seq<Client>, runs: seq<ApiRun>, calls: seq<Call>)

  datatype Step =
    | Fork(from: nat)
    | Begin(client: nat) | ClearOwn(client: nat) | Prepare(client: nat) | Register(r: nat) | Unregister(r: nat)
    | Watch(r: nat) | EndRun(client: nat)
    | CancelWork(who: nat) | Snapshot(c: nat) | SetOne(c: nat, r: nat) | Return(c: nat)
    | ResetRound

  const OneRound := World([Client(None, false, Resting, None)], [], [])

  predicate TreeOk(cs: seq<Client>) {
    && cs != [] && cs[0].parent.None?
    && forall i :: 0 < i < |cs| ==> cs[i].parent.Some? && cs[i].parent.value < i
  }

  /** What `is_set` answers on the event of client `i`. */
  predicate IsSet(cs: seq<Client>, i: nat)
    requires TreeOk(cs) && i < |cs|
  {
    cs[i].own || (i > 0 && IsSet(cs, cs[i].parent.value))
  }

  predicate DescendsFrom(cs: seq<Client>, i: nat, top: nat)
    requires TreeOk(cs) && i < |cs|
  {
    i == top || (i > 0 && DescendsFrom(cs, cs[i].parent.value, top))
  }

  /** The owner reaches every run of the round, a fork only its own. */
  predicate InReach(who: nat, run: ApiRun) { who == 0 || run.client == who }

  predicate Enabled(w: World, step: Step) {
    match step
    case Fork(from) => from < |w.clients|
    case Begin(i) => TreeOk(w.clients) && i < |w.clients| && w.clients[i].phase.Resting? && !IsSet(w.clients, i)
    case ClearOwn(i) => i < |w.clients| && w.clients[i].phase.Tested?
    case Prepare(i) =>
      TreeOk(w.clients) && i < |w.clients| && w.clients[i].phase.Underway? && w.clients[i].watched.None?
    case Register(r) => r < |w.runs| && w.runs[r].stage.Prepared?
    case Unregister(r) => r < |w.runs| && w.runs[r].stage.Registered?
    case Watch(r) => TreeOk(w.clients) && Watched(w, r)
    case EndRun(i) => i < |w.clients| && w.clients[i].phase.Underway?
    case CancelWork(who) => who < |w.clients|
    case Snapshot(c) => c < |w.calls| && w.calls[c].Flagged?
    case SetOne(c, r) => c < |w.calls| && w.calls[c].Setting? && r in w.calls[c].todo && r < |w.runs|
    case Return(c) => c < |w.calls| && w.calls[c].Setting? && w.calls[c].todo == {}
    case ResetRound => w.clients != []
  }

  /** The client of the run is waiting for it and looks at its own event from time to time. */
  predicate Watched(w: World, r: nat) {
    && r < |w.runs| && w.runs[r].stage.Registered?
    && w.runs[r].client < |w.clients| && w.clients[w.runs[r].client].watched == Some(r)
  }

  function Reached(runs: seq<ApiRun>, who: nat): set<nat> {
    set r: nat | r < |runs| && runs[r].stage.Registered? && InReach(who, runs[r])
  }

  function Next(w: World, step: Step): World
    requires Enabled(w, step)
  {
    match step
    case Fork(from) => w.(clients := w.clients + [Client(Some(from), false, Resting, None)])
    case Begin(i) => w.(clients := w.clients[i := w.clients[i].(phase := Tested)])
    case ClearOwn(i) => w.(clients := w.clients[i := w.clients[i].(own := false, phase := Underway)])
    case Prepare(i) =>
      w.(clients := w.clients[i := w.clients[i].(watched := Some(|w.runs|))],
         runs := w.runs + [ApiRun(i, Prepared, IsSet(w.clients, i))])
    case Register(r) => w.(runs := w.runs[r := w.runs[r].(stage := Registered)])
    case Unregister(r) => w.(runs := w.runs[r := w.runs[r].(stage := Left)])
    case Watch(r) =>
      if IsSet(w.clients, w.runs[r].client) then w.(runs := w.runs[r := w.runs[r].(event := true)]) else w
    case EndRun(i) => w.(clients := w.clients[i := w.clients[i].(phase := Resting, watched := None)])
    case CancelWork(who) =>
      w.(clients := w.clients[who := w.clients[who].(own := true)], calls := w.calls + [Flagged(who)])
    case Snapshot(c) =>
      var who := w.calls[c].who;
      w.(calls := w.calls[c := Setting(who, Reached(w.runs, who), Reached(w.runs, who))])
    case SetOne(c, r) =>
      w.(runs := w.runs[r := w.runs[r].(event := true)],
         calls := w.calls[c := w.calls[c].(todo := w.calls[c].todo - {r})])
    case Return(c) => w.(calls := w.calls[c := Returned(w.calls[c].who, w.calls[c].reached)])
    case ResetRound => w.(clients := w.clients[0 := w.clients[0].(own := false)])
  }

  /** The runs of the snapshot are in reach, and have their events set or still to be set. */
  predicate CallOk(w: World, call: Call) {
    match call
    case Flagged(_) => true
    case Setting(who, todo, reached) =>
      && todo <= reached
      && forall r :: r in reached ==> r < |w.runs| && InReach(who, w.runs[r]) && (w.runs[r].event || r in todo)
    case Returned(who, reached) =>
      forall r :: r in reached ==> r < |w.runs| && InReach(who, w.runs[r]) && w.runs[r].event
  }

  predicate Inv(w: World) {
    && TreeOk(w.clients)
    && (forall r :: 0 <= r < |w.runs| ==> w.runs[r].client < |w.clients|)
    && (forall c :: 0 <= c < |w.calls| ==> CallOk(w, w.calls[c]))
  }

  lemma StepKeepsInv(w: World, step: Step)
    requires Inv(w) && Enabled(w, step)
    ensures Inv(Next(w, step))
  {
    var v := Next(w, step);
    forall c | 0 <= c < |v.calls| ensures CallOk(v, v.calls[c]) {
      if c < |w.calls| {
        assert CallOk(w, w.calls[c]);
      }
    }
  }

  ghost predicate Run(w: World, steps: seq<Step>, v: World)
    decreases |steps|
  {
    if steps == [] then v == w
    else Enabled(w, steps[0]) && Run(Next(w, steps[0]), steps[1..], v)
  }

  lemma {:induction false} RunKeepsInv(w: World, steps: seq<Step>, v: World)
    requires Inv(w) && Run(w, steps, v)
    ensures Inv(v)
    decreases |steps|
  {
    if steps != [] {
      StepKeepsInv(w, steps[0]);
      RunKeepsInv(Next(w, steps[0]), steps[1..], v);
    }
  }

  // ---- Main results ----

  lemma {:induction false} SetReachesDescendants(cs: seq<Client>, top: nat, i: nat)
    requires TreeOk(cs) && i < |cs| && top < |cs| && DescendsFrom(cs, i, top) && cs[top].own
    ensures IsSet(cs, i)
    decreases i
  {
    if i != top {
      SetReachesDescendants(cs, top, cs[i].parent.value);
    }
  }

  lemma {:induction false} EverybodyDescendsFromTheOwner(cs: seq<Client>, i: nat)
    requires TreeOk(cs) && i < |cs|
    ensures DescendsFrom(cs, i, 0)
    decreases i
  {
    if i > 0 {
      EverybodyDescendsFromTheOwner(cs, cs[i].parent.value);
    }
  }

  lemma {:induction false} SignalSpreads(cs: seq<Client>, who: nat, i: nat)
    requires TreeOk(cs) && who < |cs| && i < |cs|
    ensures var cs' := cs[who := cs[who].(own := true)];
      TreeOk(cs') && (IsSet(cs', i) <==> IsSet(cs, i) || DescendsFrom(cs, i, who))
    decreases i
  {
    if i > 0 {
      SignalSpreads(cs, who, cs[i].parent.value);
    }
  }

  /** Setting the event of a client signals exactly that client and what was forked from it:
      a fork's stop leaves the round and the other forks alone, the owner's reaches everybody. */
  lemma CancelSignalsExactlyTheSubtree(w: World, who: nat, i: nat)
    requires Inv(w) && Enabled(w, CancelWork(who)) && i < |w.clients|
    ensures Inv(Next(w, CancelWork(who)))
    ensures IsSet(Next(w, CancelWork(who)).clients, i) <==> IsSet(w.clients, i) || DescendsFrom(w.clients, i, who)
    ensures who == 0 ==> IsSet(Next(w, CancelWork(who)).clients, i)
    ensures i != who ==> Next(w, CancelWork(who)).clients[i] == w.clients[i]
    ensures Next(w, CancelWork(who)).runs == w.runs
  {
    StepKeepsInv(w, CancelWork(who));
    SignalSpreads(w.clients, who, i);
    EverybodyDescendsFromTheOwner(w.clients, i);
  }

  lemma {:induction false} SnapshotStays(w: World, steps: seq<Step>, v: World, c: nat)
    requires Run(w, steps, v) && c < |w.calls| && !w.calls[c].Flagged?
    ensures c < |v.calls| && !v.calls[c].Flagged?
    ensures v.calls[c].who == w.calls[c].who && v.calls[c].reached == w.calls[c].reached
    decreases |steps|
  {
    if steps != [] {
      SnapshotStays(Next(w, steps[0]), steps[1..], v, c);
    }
  }

  /** A returned cancellation has set the event of every run that was registered when it took its snapshot,
      by the owner, or by the same fork, whatever forks, runs and other cancellations went on beside it. */
  lemma ReturnedCancelReachedItsRuns(before: seq<Step>, w: World, c: nat, rest: seq<Step>, v: World, r: nat)
    requires Run(OneRound, before, w) && Enabled(w, Snapshot(c)) && Run(Next(w, Snapshot(c)), rest, v)
    requires r < |w.runs| && w.runs[r].stage.Registered? && (w.calls[c].who == 0 || w.runs[r].client == w.calls[c].who)
    requires c < |v.calls| && v.calls[c].Returned?
    ensures r < |v.runs| && v.runs[r].event
  {
    RunKeepsInv(OneRound, before, w);
    StepKeepsInv(w, Snapshot(c));
    RunKeepsInv(Next(w, Snapshot(c)), rest, v);
    SnapshotStays(Next(w, Snapshot(c)), rest, v, c);
    assert CallOk(v, v.calls[c]);
  }

  /** A cancellation by the owner may set the event of any run, one by a fork those of the fork only. */
  lemma CancelHitsNobodyElse(w: World, step: Step, r: nat)
    requires Inv(w) && Enabled(w, step) && (step.CancelWork? || step.Snapshot? || step.SetOne? || step.Return?)
    requires r < |w.runs| && Next(w, step).runs[r] != w.runs[r]
    ensures step.SetOne? && step.r == r && (w.calls[step.c].who == 0 || w.runs[r].client == w.calls[step.c].who)
  {
    if step.SetOne? {
      assert CallOk(w, w.calls[step.c]);
    }
  }

  // ---- Whom a stop leaves alone ----

  /** The tree only grows. */
  predicate Grows(cs: seq<Client>, ds: seq<Client>) {
    |cs| <= |ds| && forall i :: 0 <= i < |cs| ==> ds[i].parent == cs[i].parent
  }

  lemma {:induction false} TreeGrows(w: World, steps: seq<Step>, v: World)
    requires Run(w, steps, v)
    ensures Grows(w.clients, v.clients)
    decreases |steps|
  {
    if steps != [] {
      assert Grows(w.clients, Next(w, steps[0]).clients);
      TreeGrows(Next(w, steps[0]), steps[1..], v);
    }
  }

  /** No event of `c` or above it is set. */
  predicate Undisturbed(cs: seq<Client>, tree: seq<Client>, c: nat)
    requires TreeOk(tree) && c < |tree|
  {
    forall a :: 0 <= a < |cs| && a < |tree| && DescendsFrom(tree, c, a) ==> !cs[a].own
  }

  lemma {:induction false} UndisturbedIsClear(cs: seq<Client>, tree: seq<Client>, c: nat, i: nat)
    requires TreeOk(cs) && TreeOk(tree) && Grows(cs, tree) && c < |tree| && i < |cs|
    requires Undisturbed(cs, tree, c) && DescendsFrom(tree, c, i)
    ensures !IsSet(cs, i)
    decreases i
  {
    if i > 0 {
      AboveAbove(tree, c, i);
      UndisturbedIsClear(cs, tree, c, cs[i].parent.value);
    }
  }

  /** What `i` was forked from is above what is below `i`. */
  lemma {:induction false} AboveAbove(tree: seq<Client>, c: nat, i: nat)
    requires TreeOk(tree) && c < |tree| && 0 < i < |tree| && DescendsFrom(tree, c, i)
    ensures DescendsFrom(tree, c, tree[i].parent.value)
    decreases c
  {
    if c == i {
      assert DescendsFrom(tree, tree[i].parent.value, tree[i].parent.value);
    } else {
      AboveAbove(tree, tree[c].parent.value, i);
    }
  }

  /** No cancellation is for `c` or anybody above it, and no run of `c` is told anything. */
  predicate LeftAlone(w: World, tree: seq<Client>, c: nat)
    requires TreeOk(tree) && c < |tree|
  {
    && Undisturbed(w.clients, tree, c)
    && (forall j :: 0 <= j < |w.calls| ==> w.calls[j].who < |tree| && !DescendsFrom(tree, c, w.calls[j].who))
    && (forall r :: 0 <= r < |w.runs| && w.runs[r].client == c ==> !w.runs[r].event)
  }

  lemma LeftAloneByAStep(w: World, step: Step, tree: seq<Client>, c: nat)
    requires Inv(w) && Enabled(w, step) && TreeOk(tree) && 0 < c < |tree| && Grows(Next(w, step).clients, tree)
    requires LeftAlone(w, tree, c) && (step.CancelWork? ==> !DescendsFrom(tree, c, step.who))
    ensures LeftAlone(Next(w, step), tree, c)
  {
    EverybodyDescendsFromTheOwner(tree, c);
    match step
    case Prepare(i) => if i == c { UndisturbedIsClear(w.clients, tree, c, c); }
    case Watch(r) => if w.runs[r].client == c { UndisturbedIsClear(w.clients, tree, c, c); }
    case SetOne(j, _) =>
      assert CallOk(w, w.calls[j]);
      assert DescendsFrom(tree, c, c);
    case _ =>
  }

  lemma {:induction false} LeftAloneByARun(w: World, steps: seq<Step>, v: World, c: nat)
    requires Inv(w) && Run(w, steps, v) && Inv(v) && 0 < c < |v.clients| && LeftAlone(w, v.clients, c)
    requires forall who: nat :: CancelWork(who) in steps && who < |v.clients| ==> !DescendsFrom(v.clients, c, who)
    ensures LeftAlone(v, v.clients, c)
    decreases |steps|
  {
    if steps != [] {
      TreeGrows(Next(w, steps[0]), steps[1..], v);
      assert steps[0] in steps;
      LeftAloneByAStep(w, steps[0], v.clients, c);
      StepKeepsInv(w, steps[0]);
      assert forall who: nat :: CancelWork(who) in steps[1..] ==> CancelWork(who) in steps;
      LeftAloneByARun(Next(w, steps[0]), steps[1..], v, c);
    }
  }

  /** Over every run: as long as neither a fork is stopped nor anybody it was forked from, whatever other
      forks are, its event is not set and no run of it is told to stop. */
  lemma OthersStopsLeaveAlone(steps: seq<Step>, w: World, c: nat)
    requires Run(OneRound, steps, w) && 0 < c < |w.clients| && TreeOk(w.clients)
    requires forall who: nat :: CancelWork(who) in steps && who < |w.clients| ==> !DescendsFrom(w.clients, c, who)
    ensures !IsSet(w.clients, c)
    ensures forall r :: 0 <= r < |w.runs| && w.runs[r].client == c ==> !w.runs[r].event
  {
    RunKeepsInv(OneRound, steps, w);
    LeftAloneByARun(OneRound, steps, w, c);
    UndisturbedIsClear(w.clients, w.clients, c, c);
  }

  lemma {:induction false} ClearKeepsTheRest(cs: seq<Client>, fork: nat, i: nat)
    requires TreeOk(cs) && 0 < fork < |cs| && i < fork
    ensures var cs' := cs[fork := cs[fork].(own := false, phase := Underway)];
      TreeOk(cs') && (IsSet(cs', i) <==> IsSet(cs, i))
    decreases i
  {
    if i > 0 {
      ClearKeepsTheRest(cs, fork, cs[i].parent.value);
    }
  }

  /** A fork that clears its event does not erase a cancellation of the round. */
  lemma ClearKeepsTheRound(w: World, fork: nat)
    requires Inv(w) && fork > 0 && Enabled(w, ClearOwn(fork))
    ensures Inv(Next(w, ClearOwn(fork)))
    ensures IsSet(Next(w, ClearOwn(fork)).clients, fork) <==> IsSet(w.clients, w.clients[fork].parent.value)
  {
    StepKeepsInv(w, ClearOwn(fork));
    ClearKeepsTheRest(w.clients, fork, w.clients[fork].parent.value);
  }

  // ---- Which cancellations last ----

  /** The owner's event is also cleared for each new message; a fork's is not. */
  predicate Unreset(who: nat, steps: seq<Step>) { who == 0 ==> ResetRound !in steps }

  /** The stop stands, and what its client has prepared since is told. */
  predicate Stands(w: World, who: nat, since: nat) {
    && who < |w.clients| && w.clients[who].own && !w.clients[who].phase.Tested?
    && since <= |w.runs| && forall r :: since <= r < |w.runs| && w.runs[r].client == who ==> w.runs[r].event
  }

  lemma StandsForAStep(w: World, step: Step, who: nat, since: nat)
    requires Inv(w) && Enabled(w, step) && Stands(w, who, since) && (who == 0 ==> !step.ResetRound?)
    ensures Stands(Next(w, step), who, since)
    ensures w.clients[who].phase.Resting? ==> Next(w, step).clients[who].phase.Resting?
  {}

  lemma {:induction false} StandsForever(w: World, steps: seq<Step>, v: World, who: nat, since: nat)
    requires Inv(w) && Run(w, steps, v) && Stands(w, who, since) && Unreset(who, steps)
    ensures Inv(v) && Stands(v, who, since)
    ensures w.clients[who].phase.Resting? ==> v.clients[who].phase.Resting?
    decreases |steps|
  {
    if steps != [] {
      StepKeepsInv(w, steps[0]);
      StandsForAStep(w, steps[0], who, since);
      StandsForever(Next(w, steps[0]), steps[1..], v, who, since);
    }
  }

  /** In every continuation, up to a new message for the owner, the event stays set. */
  ghost predicate LastsFrom(w: World, who: nat) {
    forall steps, v :: Run(w, steps, v) && Unreset(who, steps) ==> who < |v.clients| && v.clients[who].own
  }

  /** A stop lasts exactly when it does not land between a run's test of the event and its clear. */
  lemma StopLastsExactlyWhen(w: World, who: nat)
    requires Inv(w) && Enabled(w, CancelWork(who))
    ensures LastsFrom(Next(w, CancelWork(who)), who) <==> !w.clients[who].phase.Tested?
  {
    var v := Next(w, CancelWork(who));
    StepKeepsInv(w, CancelWork(who));
    if w.clients[who].phase.Tested? {
      var u := Next(v, ClearOwn(who));
      assert Run(u, [], u);
      assert Run(v, [ClearOwn(who)], u);
      assert Unreset(who, [ClearOwn(who)]) && !u.clients[who].own;
    } else {
      forall steps, u | Run(v, steps, u) && Unreset(who, steps) ensures who < |u.clients| && u.clients[who].own {
        StandsForever(v, steps, u, who, |w.runs|);
      }
    }
  }

  /** ... and then in every continuation the client begins nothing if it was resting, what it
      prepares is told from the start, and what it or a fork of it watches is told by that watch. */
  lemma LastingStopReachesItsRuns(w: World, who: nat, steps: seq<Step>, v: World, r: nat)
    requires Inv(w) && Enabled(w, CancelWork(who)) && !w.clients[who].phase.Tested?
    requires Run(Next(w, CancelWork(who)), steps, v) && Unreset(who, steps) && r < |v.runs|
    ensures who < |v.clients| && (w.clients[who].phase.Resting? ==> v.clients[who].phase.Resting?)
    ensures v.runs[r].client == who && r >= |w.runs| ==> v.runs[r].event
    ensures Enabled(v, Watch(r)) && DescendsFrom(v.clients, v.runs[r].client, who) ==> Next(v, Watch(r)).runs[r].event
  {
    StepKeepsInv(w, CancelWork(who));
    StandsForever(Next(w, CancelWork(who)), steps, v, who, |w.runs|);
    if Enabled(v, Watch(r)) && DescendsFrom(v.clients, v.runs[r].client, who) {
      SetReachesDescendants(v.clients, who, v.runs[r].client);
    }
  }

  lemma Before(w: World, step: Step, u: World, rest: seq<Step>, v: World) returns (steps: seq<Step>)
    requires Enabled(w, step) && Next(w, step) == u && Run(u, rest, v)
    ensures Run(w, steps, v) && steps == [step] + rest
  {
    steps := [step] + rest;
    assert steps[1..] == rest;
  }

  const Owner := Client(None, false, Resting, None)
  const Forked := Client(Some(0), false, Resting, None)
  const Stopping := World([Owner, Forked.(phase := Tested, own := true)], [], [Flagged(1)])
  const Erased := World([Owner, Forked.(phase := Underway)], [], [Returned(1, {})])
  const GoingOn :=
    World([Owner, Forked.(phase := Underway, watched := Some(0))], [ApiRun(1, Registered, false)], [Returned(1, {})])

  lemma ForkIsClear(w: World)
    requires TreeOk(w.clients) && |w.clients| == 2 && !w.clients[0].own && !w.clients[1].own
    ensures !IsSet(w.clients, 1)
  {
    assert w.clients[1].parent == Some(0) && !IsSet(w.clients, 0);
  }

  lemma AStopLandsAfterTheTest() returns (steps: seq<Step>)
    ensures Run(OneRound, steps, Stopping) && ResetRound !in steps
  {
    var w1 := World([Owner, Forked], [], []);
    var w2 := World([Owner, Forked.(phase := Tested)], [], []);
    ForkIsClear(w1);
    steps := [];
    steps := Before(w2, CancelWork(1), Stopping, steps, Stopping);
    steps := Before(w1, Begin(1), w2, steps, Stopping);
    steps := Before(OneRound, Fork(0), w1, steps, Stopping);
  }

  lemma TheStopReturnsAndIsErased() returns (steps: seq<Step>)
    ensures Run(Stopping, steps, Erased) && ResetRound !in steps
  {
    var w1 := Stopping.(calls := [Setting(1, {}, {})]);
    var w2 := Stopping.(calls := [Returned(1, {})]);
    assert Reached(Stopping.runs, 1) == {};
    steps := [];
    steps := Before(w2, ClearOwn(1), Erased, steps, Erased);
    steps := Before(w1, Return(0), w2, steps, Erased);
    steps := Before(Stopping, Snapshot(0), w1, steps, Erased);
  }

  lemma TheRunGoesOn() returns (steps: seq<Step>)
    ensures Run(Erased, steps, GoingOn) && ResetRound !in steps
    ensures !IsSet(GoingOn.clients, 1)
  {
    var w1 := GoingOn.(runs := [ApiRun(1, Prepared, false)]);
    ForkIsClear(Erased);
    ForkIsClear(GoingOn);
    steps := [];
    steps := Before(w1, Register(0), GoingOn, steps, GoingOn);
    steps := Before(Erased, Prepare(1), w1, steps, GoingOn);
  }

  lemma {:induction false} Then(w: World, first: seq<Step>, u: World, rest: seq<Step>, v: World)
    requires Run(w, first, u) && Run(u, rest, v)
    ensures Run(w, first + rest, v)
    decreases |first|
  {
    if first == [] {
      assert first + rest == rest;
    } else {
      Then(Next(w, first[0]), first[1..], u, rest, v);
      assert (first + rest)[1..] == first[1..] + rest;
    }
  }

  /** The code does lose one: a stop of a fork that has returned, and the run it was for goes on,
      registered, its event clear, and nothing for its watch to see. */
  lemma AStopMayBeLost() returns (steps: seq<Step>)
    ensures Run(OneRound, steps, GoingOn) && ResetRound !in steps && Inv(GoingOn)
    ensures GoingOn.calls[0].Returned? && GoingOn.calls[0].who == 1 == GoingOn.runs[0].client
    ensures Watched(GoingOn, 0) && !GoingOn.runs[0].event
    ensures !IsSet(GoingOn.clients, 1) && Next(GoingOn, Watch(0)) == GoingOn
  {
    var first := AStopLandsAfterTheTest();
    var second := TheStopReturnsAndIsErased();
    var third := TheRunGoesOn();
    Then(OneRound, first, Stopping, second, Erased);
    Then(OneRound, first + second, Erased, third, GoingOn);
    steps := first + second + third;
    RunKeepsInv(OneRound, steps, GoingOn);
  }
}
