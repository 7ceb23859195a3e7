/** Processes started ahead of need: who owns each of them while `take`, `schedule_warm`, the
    warming threads and `shutdown` run side by side. */
module WarmPools {
  import opened Options

  datatype Key = Key(cmd: seq<string>, cwd: Option<string>, extraEnv: string)

  /** The fields the lock protects; a process is its number in the order of creation. */
  datatype Pool = Pool(slots: map<Key, nat>, pending: set<Key>, shutdown: bool)

  function Reserve(pool: Pool, key: Key): Pool {
    if key in pool.slots || key in pool.pending then pool else pool.(pending := pool.pending + {key})
  }

  function Forget(pool: Pool, key: Key): Pool { pool.(pending := pool.pending - {key}) }

  function Store(pool: Pool, key: Key, p: nat): Pool {
    if pool.shutdown then Forget(pool, key) else Forget(pool, key).(slots := pool.slots[key := p])
  }

  /** What `Store` discards. */
  function Rejected(pool: Pool, key: Key, p: nat): seq<nat> {
    if pool.shutdown then [p] else if key in pool.slots then [pool.slots[key]] else []
  }

  function Pop(pool: Pool, key: Key): Pool { pool.(slots := pool.slots - {key}) }

  const CLOSED := Pool(map[], {}, true)

  /** The critical sections of the pool. */
  class WarmPool {
    var slots: map<Key, nat>
    var pending: set<Key>
    var shutdown: bool

    function Model(): Pool
      reads this
    {
      Pool(slots, pending, shutdown)
    }

    constructor ()
      ensures Model() == Pool(map[], {}, false)
    {
      slots, pending, shutdown := map[], {}, false;
    }

    method PopSlot(key: Key) returns (slot: Option<nat>)
      modifies this`slots
      ensures slot == if key in old(slots) then Some(old(slots)[key]) else None
      ensures Model() == Pop(old(Model()), key) && slots == old(slots) - {key}
    {
      slot := if key in slots then Some(slots[key]) else None;
      slots := slots - {key};
    }

    method ReserveKey(key: Key) returns (start: bool)
      modifies this`pending
      ensures start == (key !in slots && key !in old(pending))
      ensures Model() == Reserve(old(Model()), key) && pending == old(pending) + if start then {key} else {}
    {
      if key in slots || key in pending {
        return false;
      }
      pending := pending + {key};
      start := true;
    }

    method StoreSlot(key: Key, slot: nat) returns (discarded: seq<nat>)
      modifies this
      ensures discarded == Rejected(old(Model()), key, slot)
      ensures Model() == Store(old(Model()), key, slot)
      ensures shutdown == old(shutdown) && pending == old(pending) - {key}
      ensures shutdown ==> discarded == [slot] && slots == old(slots)
      ensures !shutdown ==> slots == old(slots)[key := slot]
      ensures !shutdown ==> discarded == if key in old(slots) then [old(slots)[key]] else []
    {
      if shutdown {
        pending := pending - {key};
        return [slot];
      }
      discarded := if key in slots then [slots[key]] else [];
      slots := slots[key := slot];
      pending := pending - {key};
    }

    method Close() returns (found: map<Key, nat>)
      modifies this
      ensures found == old(slots) && Model() == CLOSED
      ensures slots == map[] && pending == {} && shutdown
    {
      shutdown := true;
      found := slots;
      slots, pending := map[], {};
    }
  }

  // ---- All threads ----

  datatype Warmer = Spawning(key: Key) | Failing(key: Key) | Holding(key: Key, proc: nat) | Finished

  datatype Taker = Took(proc: nat) | Answered

  /** One call of `shutdown`: it discards `found[next..]`. */
  datatype Closing = Closing(found: seq<nat>, next: nat)

  /** `passed` are the calls of `schedule_warm` between the unlocked test and the lock;
      `delivered` and `discarded` record what happened to processes, in order. */
  datatype State = State(
    pool: Pool,
    spawned: nat,
    passed: seq<Option<Key>>,
    warmers: seq<Warmer>,
    takers: seq<Taker>,
    closings: seq<Closing>,
    delivered: seq<nat>,
    discarded: seq<nat>)

  datatype Step =
    | Schedule(key: Key) | LockAndReserve(c: nat)
    | Spawn(w: nat) | SpawnFails(w: nat) | GiveUp(w: nat) | LockAndStore(w: nat)
    | Take(key: Key) | Hand(t: nat, alive: bool)
    | Shutdown(order: seq<Key>) | DiscardNext(c: nat)

  const Initial := State(Pool(map[], {}, false), 0, [], [], [], [], [], [])

  predicate Listing(order: seq<Key>, keys: set<Key>) {
    && (forall k :: k in order ==> k in keys)
    && (forall k :: k in keys ==> k in order)
    && forall i, j :: 0 <= i < j < |order| ==> order[i] != order[j]
  }

  predicate Enabled(s: State, step: Step) {
    match step
    case Schedule(_) => true
    case LockAndReserve(c) => c < |s.passed| && s.passed[c].Some?
    case Spawn(w) => w < |s.warmers| && s.warmers[w].Spawning?
    case SpawnFails(w) => w < |s.warmers| && s.warmers[w].Spawning?
    case GiveUp(w) => w < |s.warmers| && s.warmers[w].Failing?
    case LockAndStore(w) => w < |s.warmers| && s.warmers[w].Holding?
    case Take(_) => true
    case Hand(t, _) => t < |s.takers| && s.takers[t].Took?
    case Shutdown(order) => Listing(order, s.pool.slots.Keys)
    case DiscardNext(c) => c < |s.closings| && s.closings[c].next < |s.closings[c].found|
  }

  function Found(slots: map<Key, nat>, order: seq<Key>): seq<nat>
    requires forall k :: k in order ==> k in slots
  {
    seq(|order|, i requires 0 <= i < |order| => slots[order[i]])
  }

  function Next(s: State, step: Step): State
    requires Enabled(s, step)
  {
    match step
    case Schedule(key) => if key.cmd == [] || s.pool.shutdown then s else s.(passed := s.passed + [Some(key)])
    case LockAndReserve(c) =>
      var key := s.passed[c].value;
      s.(pool := Reserve(s.pool, key),
         passed := s.passed[c := None],
         warmers := if key in s.pool.slots || key in s.pool.pending then s.warmers else s.warmers + [Spawning(key)])
    case Spawn(w) =>
      s.(spawned := s.spawned + 1, warmers := s.warmers[w := Holding(s.warmers[w].key, s.spawned)])
    case SpawnFails(w) => s.(warmers := s.warmers[w := Failing(s.warmers[w].key)])
    case GiveUp(w) => s.(pool := Forget(s.pool, s.warmers[w].key), warmers := s.warmers[w := Finished])
    case LockAndStore(w) =>
      var key, p := s.warmers[w].key, s.warmers[w].proc;
      s.(pool := Store(s.pool, key, p),
         warmers := s.warmers[w := Finished],
         discarded := s.discarded + Rejected(s.pool, key, p))
    case Take(key) =>
      if key.cmd == [] || key !in s.pool.slots then s
      else s.(pool := Pop(s.pool, key), takers := s.takers + [Took(s.pool.slots[key])])
    case Hand(t, alive) =>
      if alive then s.(takers := s.takers[t := Answered], delivered := s.delivered + [s.takers[t].proc])
      else s.(takers := s.takers[t := Answered], discarded := s.discarded + [s.takers[t].proc])
    case Shutdown(order) => s.(pool := CLOSED, closings := s.closings + [Closing(Found(s.pool.slots, order), 0)])
    case DiscardNext(c) =>
      var call := s.closings[c];
      s.(closings := s.closings[c := call.(next := call.next + 1)], discarded := s.discarded + [call.found[call.next]])
  }

  // ---- Ownership ----

  datatype Place =
    | AtWarmer(w: nat) | InTable(key: Key) | AtTaker(t: nat) | AtShutdown(c: nat, i: nat)
    | WithCaller(i: nat) | Discarded(i: nat)

  predicate Holds(s: State, a: Place, p: nat) {
    match a
    case AtWarmer(w) => w < |s.warmers| && s.warmers[w].Holding? && s.warmers[w].proc == p
    case InTable(key) => key in s.pool.slots && s.pool.slots[key] == p
    case AtTaker(t) => t < |s.takers| && s.takers[t] == Took(p)
    case AtShutdown(c, i) =>
      c < |s.closings| && s.closings[c].next <= i < |s.closings[c].found| && s.closings[c].found[i] == p
    case WithCaller(i) => i < |s.delivered| && s.delivered[i] == p
    case Discarded(i) => i < |s.discarded| && s.discarded[i] == p
  }

  ghost predicate Somewhere(s: State, p: nat) { exists a :: Holds(s, a, p) }

  /** Every process has an owner, and only one. */
  ghost predicate Owned(s: State) {
    && (forall p: nat :: p < s.spawned ==> Somewhere(s, p))
    && (forall a, p: nat :: Holds(s, a, p) ==> p < s.spawned)
    && forall a, b, p: nat :: Holds(s, a, p) && Holds(s, b, p) ==> a == b
  }

  /** The same owners as before. */
  lemma NothingMoves(s: State, t: State)
    requires Owned(s) && t.spawned == s.spawned && forall a, p: nat :: Holds(t, a, p) <==> Holds(s, a, p)
    ensures Owned(t)
  {
    forall p: nat | p < t.spawned ensures Somewhere(t, p) {
      assert Somewhere(s, p);
      var a :| Holds(s, a, p);
      assert Holds(t, a, p);
    }
  }

  /** Process `q` goes from `a` to `b`. */
  lemma OneMoves(s: State, t: State, q: nat, a: Place, b: Place)
    requires Owned(s) && t.spawned == s.spawned && Holds(s, a, q) && Holds(t, b, q)
    requires forall c, p: nat :: Holds(t, c, p) && !(c == b && p == q) ==> Holds(s, c, p) && c != a
    requires forall c, p: nat :: Holds(s, c, p) && c != a ==> Holds(t, c, p)
    ensures Owned(t)
  {
    forall p: nat | p < t.spawned ensures Somewhere(t, p) {
      assert Somewhere(s, p);
      var c :| Holds(s, c, p);
      assert Holds(t, if c == a then b else c, p);
    }
  }

  /** A new process is at `b`. */
  lemma OneAppears(s: State, t: State, b: Place)
    requires Owned(s) && t.spawned == s.spawned + 1 && Holds(t, b, s.spawned)
    requires forall c, p: nat :: Holds(t, c, p) && !(c == b && p == s.spawned) ==> Holds(s, c, p)
    requires forall c, p: nat :: Holds(s, c, p) ==> Holds(t, c, p)
    ensures Owned(t)
  {
    forall p: nat | p < t.spawned ensures Somewhere(t, p) {
      if p < s.spawned {
        assert Somewhere(s, p);
        var c :| Holds(s, c, p);
        assert Holds(t, c, p);
      } else {
        assert Holds(t, b, p);
      }
    }
  }

  lemma ShutdownMoves(s: State, order: seq<Key>)
    requires Owned(s) && Enabled(s, Shutdown(order))
    ensures Owned(Next(s, Shutdown(order)))
  {
    var t := Next(s, Shutdown(order));
    var c := |s.closings|;
    forall a, p: nat | Holds(t, a, p)
      ensures Holds(s, if a.AtShutdown? && a.c == c then InTable(order[a.i]) else a, p)
    {
    }
    forall p: nat | p < t.spawned ensures Somewhere(t, p) {
      assert Somewhere(s, p);
      var a :| Holds(s, a, p);
      if a.InTable? {
        var i :| 0 <= i < |order| && order[i] == a.key;
        assert Holds(t, AtShutdown(c, i), p);
      } else {
        assert Holds(t, a, p);
      }
    }
  }

  // ---- Invariant ----

  predicate InFlight(w: Warmer) { !w.Finished? }

  /** Before the shutdown the pending keys are those being warmed, each by one thread. */
  predicate FlightsOk(s: State) {
    && s.pool.slots.Keys !! s.pool.pending
    && (forall w :: 0 <= w < |s.warmers| && InFlight(s.warmers[w]) ==> s.warmers[w].key in s.pool.pending)
    && (forall v, w :: 0 <= v < w < |s.warmers| && InFlight(s.warmers[v]) && InFlight(s.warmers[w]) ==>
          s.warmers[v].key != s.warmers[w].key)
    && forall key :: key in s.pool.pending ==> Warming(s, key)
  }

  predicate Warming(s: State, key: Key) {
    exists w :: 0 <= w < |s.warmers| && InFlight(s.warmers[w]) && s.warmers[w].key == key
  }

  ghost predicate Inv(s: State) {
    && Owned(s)
    && (!s.pool.shutdown ==> FlightsOk(s))
    && (s.pool.shutdown ==> s.pool.slots == map[])
  }

  lemma StepKeepsTable(s: State, step: Step)
    requires Inv(s) && Enabled(s, step)
    ensures Next(s, step).pool.shutdown ==> Next(s, step).pool.slots == map[]
    ensures s.pool.shutdown ==> Next(s, step).pool.shutdown
  {}

  lemma StepKeepsFlights(s: State, step: Step)
    requires FlightsOk(s) && Enabled(s, step) && !Next(s, step).pool.shutdown
    ensures FlightsOk(Next(s, step))
  {
    var t := Next(s, step);
    StepKeepsFlightKeys(s, step);
    forall key | key in t.pool.pending ensures Warming(t, key) {
      if key in s.pool.pending {
        assert Warming(s, key);
        var w :| 0 <= w < |s.warmers| && InFlight(s.warmers[w]) && s.warmers[w].key == key;
        assert InFlight(t.warmers[w]) && t.warmers[w].key == key;
      } else {
        assert t.warmers[|s.warmers|] == Spawning(key);
      }
    }
  }

  lemma StepKeepsFlightKeys(s: State, step: Step)
    requires FlightsOk(s) && Enabled(s, step) && !Next(s, step).pool.shutdown
    ensures var t := Next(s, step);
      && t.pool.slots.Keys !! t.pool.pending
      && (forall w :: 0 <= w < |t.warmers| && InFlight(t.warmers[w]) ==> t.warmers[w].key in t.pool.pending)
      && forall v, w :: 0 <= v < w < |t.warmers| && InFlight(t.warmers[v]) && InFlight(t.warmers[w]) ==>
           t.warmers[v].key != t.warmers[w].key
  {
    var t := Next(s, step);
    assert forall w :: 0 <= w < |s.warmers| && InFlight(t.warmers[w]) ==>
      InFlight(s.warmers[w]) && t.warmers[w].key == s.warmers[w].key;
  }

  lemma StepKeepsOwners(s: State, step: Step)
    requires Inv(s) && Enabled(s, step)
    ensures Owned(Next(s, step))
  {
    var t := Next(s, step);
    match step
    case Schedule(_) => NothingMoves(s, t);
    case LockAndReserve(_) => NothingMoves(s, t);
    case Spawn(w) => OneAppears(s, t, AtWarmer(w));
    case SpawnFails(_) => NothingMoves(s, t);
    case GiveUp(_) => NothingMoves(s, t);
    case LockAndStore(w) => StoreMoves(s, w);
    case Take(key) => TakeMoves(s, key);
    case Hand(i, alive) => HandMoves(s, i, alive);
    case Shutdown(order) => ShutdownMoves(s, order);
    case DiscardNext(c) => DiscardMoves(s, c);
  }

  lemma StoreMoves(s: State, w: nat)
    requires Inv(s) && Enabled(s, LockAndStore(w))
    ensures Owned(Next(s, LockAndStore(w)))
  {
    var key, p := s.warmers[w].key, s.warmers[w].proc;
    assert Holds(s, AtWarmer(w), p);
    OneMoves(s, Next(s, LockAndStore(w)), p, AtWarmer(w),
             if s.pool.shutdown then Discarded(|s.discarded|) else InTable(key));
  }

  lemma TakeMoves(s: State, key: Key)
    requires Inv(s)
    ensures Owned(Next(s, Take(key)))
  {
    if key.cmd == [] || key !in s.pool.slots {
    } else {
      assert Holds(s, InTable(key), s.pool.slots[key]);
      OneMoves(s, Next(s, Take(key)), s.pool.slots[key], InTable(key), AtTaker(|s.takers|));
    }
  }

  lemma HandMoves(s: State, i: nat, alive: bool)
    requires Inv(s) && Enabled(s, Hand(i, alive))
    ensures Owned(Next(s, Hand(i, alive)))
  {
    assert Holds(s, AtTaker(i), s.takers[i].proc);
    OneMoves(s, Next(s, Hand(i, alive)), s.takers[i].proc, AtTaker(i),
             if alive then WithCaller(|s.delivered|) else Discarded(|s.discarded|));
  }

  lemma DiscardMoves(s: State, c: nat)
    requires Inv(s) && Enabled(s, DiscardNext(c))
    ensures Owned(Next(s, DiscardNext(c)))
  {
    var call := s.closings[c];
    assert Holds(s, AtShutdown(c, call.next), call.found[call.next]);
    OneMoves(s, Next(s, DiscardNext(c)), call.found[call.next], AtShutdown(c, call.next),
             Discarded(|s.discarded|));
  }

  lemma StepKeepsInv(s: State, step: Step)
    requires Inv(s) && Enabled(s, step)
    ensures Inv(Next(s, step))
  {
    StepKeepsOwners(s, step);
    StepKeepsTable(s, step);
    if !Next(s, step).pool.shutdown { StepKeepsFlights(s, step); }
  }

  ghost predicate Run(s: State, steps: seq<Step>, t: State)
    decreases |steps|
  {
    if steps == [] then t == s
    else Enabled(s, steps[0]) && Run(Next(s, steps[0]), steps[1..], t)
  }

  lemma {:induction false} RunKeepsInv(s: State, steps: seq<Step>, t: State)
    requires Inv(s) && Run(s, steps, t)
    ensures Inv(t) && (s.pool.shutdown ==> t.pool.shutdown)
    decreases |steps|
  {
    if steps != [] {
      StepKeepsInv(s, steps[0]);
      StepKeepsTable(s, steps[0]);
      RunKeepsInv(Next(s, steps[0]), steps[1..], t);
    }
  }

  lemma RunInv(steps: seq<Step>, t: State)
    requires Run(Initial, steps, t)
    ensures Inv(t)
  {
    RunKeepsInv(Initial, steps, t);
  }

  // ---- Main results ----

  /** In every interleaving each process that was started is in exactly one place: with the thread
      that started it, in the table, with a `take` or a `shutdown` under way, with one caller, or discarded. */
  lemma EachProcessHasOneOwner(steps: seq<Step>, t: State, p: nat)
    requires Run(Initial, steps, t) && p < t.spawned
    ensures exists a :: Holds(t, a, p) && forall b :: Holds(t, b, p) ==> b == a
  {
    RunInv(steps, t);
    assert Somewhere(t, p);
  }

  /** So no process is handed out twice, discarded twice, or handed out and discarded. */
  lemma HandedOutOrDiscardedOnce(steps: seq<Step>, t: State)
    requires Run(Initial, steps, t)
    ensures forall i, j :: 0 <= i < j < |t.delivered| ==> t.delivered[i] != t.delivered[j]
    ensures forall i, j :: 0 <= i < j < |t.discarded| ==> t.discarded[i] != t.discarded[j]
    ensures forall p :: p in t.delivered ==> p !in t.discarded
  {
    RunInv(steps, t);
    forall i, j | 0 <= i < j < |t.delivered| ensures t.delivered[i] != t.delivered[j] {
      assert Holds(t, WithCaller(i), t.delivered[i]) && Holds(t, WithCaller(j), t.delivered[j]);
    }
    forall i, j | 0 <= i < j < |t.discarded| ensures t.discarded[i] != t.discarded[j] {
      assert Holds(t, Discarded(i), t.discarded[i]) && Holds(t, Discarded(j), t.discarded[j]);
    }
    forall p | p in t.delivered ensures p !in t.discarded {
      var i :| 0 <= i < |t.delivered| && t.delivered[i] == p;
      assert Holds(t, WithCaller(i), p);
      forall j | 0 <= j < |t.discarded| ensures t.discarded[j] != p {
        assert Holds(t, Discarded(j), t.discarded[j]);
      }
    }
  }

  /** What callers of `take` were handed, and what was found dead by then, told from the steps. */
  ghost function Handed(s: State, steps: seq<Step>, alive: bool): seq<nat>
    decreases |steps|
  {
    if steps == [] || !Enabled(s, steps[0]) then []
    else
      (if steps[0].Hand? && steps[0].alive == alive then [s.takers[steps[0].t].proc] else [])
      + Handed(Next(s, steps[0]), steps[1..], alive)
  }

  /** Over every run a caller is handed exactly the processes that were alive when they were looked at. */
  lemma {:induction false} OnlyTheLivingAreHandedOut(s: State, steps: seq<Step>, t: State)
    requires Run(s, steps, t)
    ensures t.delivered == s.delivered + Handed(s, steps, true)
    decreases |steps|
  {
    if steps != [] {
      OnlyTheLivingAreHandedOut(Next(s, steps[0]), steps[1..], t);
    } else {
      assert s.delivered + [] == s.delivered;
    }
  }

  lemma {:induction false} DiscardedStay(s: State, steps: seq<Step>, t: State, p: nat)
    requires Run(s, steps, t) && p in s.discarded
    ensures p in t.discarded
    decreases |steps|
  {
    if steps != [] { DiscardedStay(Next(s, steps[0]), steps[1..], t, p); }
  }

  /** ... and a dead one is discarded. */
  lemma {:induction false} TheDeadAreDiscarded(s: State, steps: seq<Step>, t: State, p: nat)
    requires Run(s, steps, t) && p in Handed(s, steps, false)
    ensures p in t.discarded
    decreases |steps|
  {
    if steps[0].Hand? && !steps[0].alive && s.takers[steps[0].t].proc == p {
      DiscardedStay(Next(s, steps[0]), steps[1..], t, p);
    } else {
      TheDeadAreDiscarded(Next(s, steps[0]), steps[1..], t, p);
    }
  }

  /** A key is never both ready and being warmed. Before the shutdown at most one thread warms it,
      and it finds the slot free: the branch that discards an older process is dead. */
  lemma OneWarmingPerKey(steps: seq<Step>, t: State, v: nat, w: nat)
    requires Run(Initial, steps, t) && v < |t.warmers| && w < |t.warmers| && !t.pool.shutdown
    requires InFlight(t.warmers[v]) && InFlight(t.warmers[w]) && t.warmers[v].key == t.warmers[w].key
    ensures v == w && t.warmers[v].key !in t.pool.slots
    ensures t.warmers[v].Holding? ==> Rejected(t.pool, t.warmers[v].key, t.warmers[v].proc) == []
  {
    RunInv(steps, t);
  }

  lemma ReadyAndPendingAreDisjoint(steps: seq<Step>, t: State)
    requires Run(Initial, steps, t)
    ensures t.pool.slots.Keys !! t.pool.pending
  {
    RunInv(steps, t);
  }

  /** Once shut down the table stays empty for good, and whatever arrives is discarded. */
  lemma LateArrivalsAreDiscarded(steps: seq<Step>, s: State, later: seq<Step>, t: State, w: nat)
    requires Run(Initial, steps, s) && s.pool.shutdown && Run(s, later, t)
    requires Enabled(t, LockAndStore(w))
    ensures t.pool.slots == map[] && Next(t, LockAndStore(w)).pool.slots == map[]
    ensures Next(t, LockAndStore(w)).discarded == t.discarded + [t.warmers[w].proc]
  {
    RunInv(steps, s);
    RunKeepsInv(s, later, t);
  }

  /** Nobody is in the middle of a call. */
  predicate AtRest(s: State) {
    && (forall w :: 0 <= w < |s.warmers| ==> s.warmers[w].Finished?)
    && (forall i :: 0 <= i < |s.takers| ==> s.takers[i].Answered?)
    && forall c :: 0 <= c < |s.closings| ==> s.closings[c].next >= |s.closings[c].found|
  }

  /** Nothing leaks: after a shutdown, once every call and thread has ended, each process went to a
      caller or was discarded. Without a shutdown the rest is in the table and no key is pending. */
  lemma NothingLeaks(steps: seq<Step>, t: State, p: nat)
    requires Run(Initial, steps, t) && AtRest(t) && p < t.spawned
    ensures t.pool.shutdown ==> p in t.delivered || p in t.discarded
    ensures !t.pool.shutdown ==> p in t.delivered || p in t.discarded || p in t.pool.slots.Values
    ensures !t.pool.shutdown ==> t.pool.pending == {}
  {
    RunInv(steps, t);
    assert Somewhere(t, p);
    var a :| Holds(t, a, p);
    if a.InTable? { assert t.pool.slots[a.key] in t.pool.slots.Values; }
    if !t.pool.shutdown {
      assert forall key :: !Warming(t, key);
    }
  }

  lemma RunSnoc(s: State, steps: seq<Step>, t: State, step: Step)
    requires Run(s, steps, t) && Enabled(t, step)
    ensures Run(s, steps + [step], Next(t, step))
    decreases |steps|
  {
    if steps == [] {
      assert Run(Next(t, step), [], Next(t, step));
      assert ([] + [step])[1..] == [];
    } else {
      RunSnoc(Next(s, steps[0]), steps[1..], t, step);
      assert (steps + [step])[1..] == steps[1..] + [step];
    }
  }

  // ---- Progress ----

  /** A call of `schedule_warm` enters the lock once, so it reserves its key at most once. */
  lemma {:induction false} ACallReservesOnce(s: State, steps: seq<Step>, t: State, c: nat)
    requires Run(s, steps, t)
    ensures multiset(steps)[LockAndReserve(c)] <= if c < |s.passed| && s.passed[c].None? then 0 else 1
    decreases |steps|
  {
    if steps != [] {
      ACallReservesOnce(Next(s, steps[0]), steps[1..], t, c);
      assert steps == [steps[0]] + steps[1..];
    }
  }

  /** A start that fails keeps its key pending until the thread gives it up; no process was started. */
  lemma AFailedStartFreesItsKey(s: State, w: nat) returns (t: State)
    requires w < |s.warmers| && s.warmers[w].Spawning?
    ensures Run(s, [SpawnFails(w), GiveUp(w)], t) && Next(s, SpawnFails(w)).pool == s.pool
    ensures t == s.(pool := s.pool.(pending := s.pool.pending - {s.warmers[w].key}),
                    warmers := s.warmers[w := Finished])
  {
    t := Next(Next(s, SpawnFails(w)), GiveUp(w));
    assert [SpawnFails(w), GiveUp(w)][1..] == [GiveUp(w)];
  }

  /** Before the shutdown a key that is neither ready nor pending can be warmed and its process handed out,
      whatever else is under way. */
  lemma AWarmedProcessIsHandedOut(s: State, key: Key) returns (t: State)
    requires key.cmd != [] && !s.pool.shutdown && key !in s.pool.slots && key !in s.pool.pending
    ensures var c, w, k := |s.passed|, |s.warmers|, |s.takers|;
      Run(s, [Schedule(key), LockAndReserve(c), Spawn(w), LockAndStore(w), Take(key), Hand(k, true)], t)
    ensures t.delivered == s.delivered + [s.spawned] && t.spawned == s.spawned + 1 && t.discarded == s.discarded
    ensures t.pool == s.pool
  {
    var c, w, k := |s.passed|, |s.warmers|, |s.takers|;
    t := WarmedAndTaken(s, key);
    var one, two := [Schedule(key), LockAndReserve(c), Spawn(w)], [LockAndStore(w), Take(key), Hand(k, true)];
    assert one + two == [Schedule(key), LockAndReserve(c), Spawn(w), LockAndStore(w), Take(key), Hand(k, true)];
  }

  lemma WarmedAndTaken(s: State, key: Key) returns (t: State)
    requires key.cmd != [] && !s.pool.shutdown && key !in s.pool.slots && key !in s.pool.pending
    ensures var c, w, k := |s.passed|, |s.warmers|, |s.takers|;
      Run(s, [Schedule(key), LockAndReserve(c), Spawn(w)] + [LockAndStore(w), Take(key), Hand(k, true)], t)
    ensures t.delivered == s.delivered + [s.spawned] && t.spawned == s.spawned + 1 && t.discarded == s.discarded
    ensures t.pool == s.pool
  {
    var c, w, k := |s.passed|, |s.warmers|, |s.takers|;
    var held := Next(Next(Next(s, Schedule(key)), LockAndReserve(c)), Spawn(w));
    var stored := Next(held, LockAndStore(w));
    t := Next(Next(stored, Take(key)), Hand(k, true));
    ThreeSteps(s, Schedule(key), LockAndReserve(c), Spawn(w), [LockAndStore(w), Take(key), Hand(k, true)], t);
    ThreeSteps(held, LockAndStore(w), Take(key), Hand(k, true), [], t);
    assert [LockAndStore(w), Take(key), Hand(k, true)] + [] == [LockAndStore(w), Take(key), Hand(k, true)];
  }

  lemma ThreeSteps(s: State, a: Step, b: Step, c: Step, rest: seq<Step>, t: State)
    requires Enabled(s, a) && Enabled(Next(s, a), b) && Enabled(Next(Next(s, a), b), c)
    ensures Run(s, [a, b, c] + rest, t) <==> Run(Next(Next(Next(s, a), b), c), rest, t)
  {
    assert ([a, b, c] + rest)[1..] == [b, c] + rest && ([b, c] + rest)[1..] == [c] + rest;
    assert ([c] + rest)[1..] == rest;
    assert Run(Next(s, a), [b, c] + rest, t) <==> Run(Next(Next(s, a), b), [c] + rest, t);
  }
}
