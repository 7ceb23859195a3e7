/** What can still start once a pool has been shut down. */
module WarmPoolShutdown {
  import opened Options
  import opened WarmPools

  /** A call of `schedule_warm` is past its unlocked test; a thread is about to start its process. */
  predicate SomePassed(s: State) { exists c :: 0 <= c < |s.passed| && s.passed[c].Some? }

  predicate SomeSpawning(s: State) { exists w :: 0 <= w < |s.warmers| && s.warmers[w].Spawning? }

  /** A pending key is being warmed, before and after the shutdown. */
  predicate PendingWarm(s: State) { forall key :: key in s.pool.pending ==> Warming(s, key) }

  lemma StepKeepsPendingWarm(s: State, step: Step)
    requires PendingWarm(s) && Enabled(s, step)
    ensures PendingWarm(Next(s, step))
  {
    var t := Next(s, step);
    forall key | key in t.pool.pending ensures Warming(t, key) {
      if key in s.pool.pending {
        assert Warming(s, key);
        var w :| 0 <= w < |s.warmers| && InFlight(s.warmers[w]) && s.warmers[w].key == key;
        assert InFlight(t.warmers[w]) && t.warmers[w].key == key;
      } else {
        assert t.warmers[|s.warmers|] == Spawning(key);
      }
    }
  }

  lemma {:induction false} RunKeepsPendingWarm(s: State, steps: seq<Step>, t: State)
    requires PendingWarm(s) && Run(s, steps, t)
    ensures PendingWarm(t)
    decreases |steps|
  {
    if steps != [] {
      StepKeepsPendingWarm(s, steps[0]);
      RunKeepsPendingWarm(Next(s, steps[0]), steps[1..], t);
    }
  }

  // ---- Processes ----

  ghost predicate CanStillStart(s: State) { exists steps, t :: Run(s, steps, t) && t.spawned > s.spawned }

  /** Once shut down with nobody past the test and nobody starting, nothing starts any more. */
  lemma {:induction false} IdleStartsNothing(s: State, steps: seq<Step>, t: State)
    requires s.pool.shutdown && !SomePassed(s) && !SomeSpawning(s) && Run(s, steps, t)
    ensures t.spawned == s.spawned
    decreases |steps|
  {
    if steps != [] {
      IdleStartsNothing(Next(s, steps[0]), steps[1..], t);
    }
  }

  lemma One(s: State, step: Step)
    requires Enabled(s, step)
    ensures Run(s, [step], Next(s, step))
  {
    assert Run(Next(s, step), [], Next(s, step));
  }

  lemma StartsAfter(s: State, step: Step)
    requires Enabled(s, step) && Next(s, step).spawned == s.spawned && CanStillStart(Next(s, step))
    ensures CanStillStart(s)
  {
    var u := Next(s, step);
    var steps, t :| Run(u, steps, t) && t.spawned > u.spawned;
    assert ([step] + steps)[1..] == steps;
    assert Run(s, [step] + steps, t);
  }

  lemma SpawningStarts(s: State, w: nat)
    requires w < |s.warmers| && s.warmers[w].Spawning?
    ensures CanStillStart(s)
  {
    One(s, Spawn(w));
  }

  lemma FreeKeyStarts(s: State, c: nat)
    requires c < |s.passed| && s.passed[c].Some? && s.passed[c].value !in s.pool.pending && s.pool.slots == map[]
    ensures CanStillStart(s)
  {
    SpawningStarts(Next(s, LockAndReserve(c)), |s.warmers|);
    StartsAfter(s, LockAndReserve(c));
  }

  /** A call that finds its key pending only has to wait for the thread that warms it. */
  lemma PassedStarts(s: State, c: nat)
    requires s.pool.shutdown && s.pool.slots == map[] && PendingWarm(s) && c < |s.passed| && s.passed[c].Some?
    ensures CanStillStart(s)
  {
    var key := s.passed[c].value;
    if key !in s.pool.pending {
      FreeKeyStarts(s, c);
    } else {
      assert Warming(s, key);
      var w :| 0 <= w < |s.warmers| && InFlight(s.warmers[w]) && s.warmers[w].key == key;
      match s.warmers[w]
      case Spawning(_) => SpawningStarts(s, w);
      case Failing(_) =>
        FreeKeyStarts(Next(s, GiveUp(w)), c);
        StartsAfter(s, GiveUp(w));
      case Holding(_, _) =>
        FreeKeyStarts(Next(s, LockAndStore(w)), c);
        StartsAfter(s, LockAndStore(w));
    }
  }

  /** After a shutdown a process can still start exactly when a call of `schedule_warm` has passed its
      test, or a thread whose key was reserved is about to start its process. */
  lemma StartsAfterShutdownExactlyWhen(steps: seq<Step>, s: State)
    requires Run(Initial, steps, s) && s.pool.shutdown
    ensures CanStillStart(s) <==> SomePassed(s) || SomeSpawning(s)
  {
    RunInv(steps, s);
    RunKeepsPendingWarm(Initial, steps, s);
    if SomePassed(s) {
      var c :| 0 <= c < |s.passed| && s.passed[c].Some?;
      PassedStarts(s, c);
    } else if SomeSpawning(s) {
      var w :| 0 <= w < |s.warmers| && s.warmers[w].Spawning?;
      SpawningStarts(s, w);
    } else {
      forall later, t | Run(s, later, t) ensures t.spawned == s.spawned { IdleStartsNothing(s, later, t); }
    }
  }

  // ---- Keys ----

  ghost predicate CanStillReserve(s: State) { exists steps, t :: Run(s, steps, t) && t.pool.pending != {} }

  lemma {:induction false} NothingReserved(s: State, steps: seq<Step>, t: State)
    requires s.pool.shutdown && s.pool.pending == {} && !SomePassed(s) && Run(s, steps, t)
    ensures t.pool.pending == {}
    decreases |steps|
  {
    if steps != [] {
      NothingReserved(Next(s, steps[0]), steps[1..], t);
    }
  }

  /** After a shutdown, which empties the pending keys, one can still be reserved exactly when a call
      has passed the test: this is what taking the test without the lock costs. */
  lemma ReservedAfterShutdownExactlyWhen(steps: seq<Step>, s: State)
    requires Run(Initial, steps, s) && s.pool.shutdown && s.pool.pending == {}
    ensures CanStillReserve(s) <==> SomePassed(s)
  {
    RunInv(steps, s);
    if SomePassed(s) {
      var c :| 0 <= c < |s.passed| && s.passed[c].Some?;
      One(s, LockAndReserve(c));
      assert s.passed[c].value in Next(s, LockAndReserve(c)).pool.pending;
    } else {
      forall later, t | Run(s, later, t) ensures t.pool.pending == {} { NothingReserved(s, later, t); }
    }
  }

  // ---- Both ways to start late ----

  const Agent := Key(["agent"], None, "")

  /** Through the unlocked test: the key is reserved after the shutdown. */
  lemma AProcessCanStartAfterShutdown() returns (steps: seq<Step>, t: State)
    ensures Run(Initial, steps, t) && t.pool.shutdown && t.spawned == 1
    ensures t.warmers == [Holding(Agent, 0)] && t.pool.pending == {Agent}
  {
    var s1 := Next(Initial, Schedule(Agent));
    One(Initial, Schedule(Agent));
    var s2 := Next(s1, Shutdown([]));
    RunSnoc(Initial, [Schedule(Agent)], s1, Shutdown([]));
    var s3 := Next(s2, LockAndReserve(0));
    RunSnoc(Initial, [Schedule(Agent)] + [Shutdown([])], s2, LockAndReserve(0));
    t := Next(s3, Spawn(0));
    RunSnoc(Initial, [Schedule(Agent)] + [Shutdown([])] + [LockAndReserve(0)], s3, Spawn(0));
    steps := [Schedule(Agent)] + [Shutdown([])] + [LockAndReserve(0)] + [Spawn(0)];
  }

  /** With the key reserved before the shutdown, which no test in `schedule_warm` would prevent. */
  lemma AReservedProcessStartsAfterShutdown() returns (steps: seq<Step>, t: State)
    ensures Run(Initial, steps, t) && t.pool.shutdown && t.spawned == 1
    ensures t.warmers == [Holding(Agent, 0)] && t.pool.pending == {}
    ensures |steps| == 4 && steps[1].LockAndReserve? && steps[2].Shutdown? && steps[3].Spawn?
  {
    var s1 := Next(Initial, Schedule(Agent));
    One(Initial, Schedule(Agent));
    var s2 := Next(s1, LockAndReserve(0));
    RunSnoc(Initial, [Schedule(Agent)], s1, LockAndReserve(0));
    var s3 := Next(s2, Shutdown([]));
    RunSnoc(Initial, [Schedule(Agent)] + [LockAndReserve(0)], s2, Shutdown([]));
    t := Next(s3, Spawn(0));
    RunSnoc(Initial, [Schedule(Agent)] + [LockAndReserve(0)] + [Shutdown([])], s3, Spawn(0));
    steps := [Schedule(Agent)] + [LockAndReserve(0)] + [Shutdown([])] + [Spawn(0)];
  }
}
