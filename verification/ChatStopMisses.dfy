/** Which client a stop finds listed, and which it misses. */
module ChatStopMisses {
  import opened ChatStop
  import opened Options

  /** The last client bound before the submission was marked. */
  predicate LastFree(s: State, c: nat) {
    && c < |s.clients| && !s.clients[c].warned
    && (c + 1 < |s.clients| ==> s.clients[c + 1].warned)
  }

  predicate IsOpen(s: State, k: nat) { k < |s.bindings| && !s.bindings[k].Unbound? }

  predicate Over(s: State) { s.marked || s.ended }

  // ---- What the bindings remember ----

  /** Once the submission is marked every client is bound as warned, and is stopped when it is settled. */
  predicate WarningsOk(s: State) {
    && (forall i, j :: 0 <= i < j < |s.clients| && s.clients[i].warned ==> s.clients[j].warned)
    && (forall k :: 0 <= k < |s.clients| && (s.clients[k].warned || s.clients[k].landed != []) ==> Over(s))
    && (forall k :: 0 <= k < |s.clients| && k < |s.bindings| ==> BindingOk(s.bindings[k], s.clients[k]))
  }

  predicate BindingOk(b: Binding, c: Client) {
    if b.Locked? then b.mustCancel == c.warned else c.warned ==> c.landed != []
  }

  /** The listed client is the last free one, as long as it is open. */
  ghost predicate ListingOk(s: State) {
    s.entry.Some? ==> forall c: nat :: s.entry.value.client == Some(c) <==> LastFree(s, c) && IsOpen(s, c)
  }

  /** A stop is for the last free client, and for no other unless it was warned. */
  ghost predicate StopsOk(s: State) {
    && (forall j :: 0 <= j < |s.stops| ==> AimOk(s, s.stops[j]))
    && (forall k :: 0 <= k < |s.clients| && s.clients[k].landed != [] ==> s.clients[k].warned || LastFree(s, k))
  }

  ghost predicate AimOk(s: State, call: StopCall) {
    match call
    case TooLate => true
    case Stopped => Over(s) && forall m: nat :: LastFree(s, m) && IsOpen(s, m) ==> s.clients[m].landed != []
    case Captured(c) => TargetOk(s, c)
    case Published(c) => TargetOk(s, c)
  }

  ghost predicate TargetOk(s: State, c: Option<nat>) {
    && Over(s)
    && (c.Some? ==> LastFree(s, c.value))
    && forall m: nat :: LastFree(s, m) && IsOpen(s, m) ==> c == Some(m)
  }

  ghost predicate HistoryOk(s: State) { Inv(s) && WarningsOk(s) && ListingOk(s) && StopsOk(s) }

  lemma StepKeepsOrder(s: State, step: Step, i: nat, j: nat)
    requires Inv(s) && WarningsOk(s) && Enabled(s, step) && i < j < |Next(s, step).clients|
    ensures Next(s, step).clients[i].warned ==> Next(s, step).clients[j].warned
  {}

  lemma StepKeepsBinding(s: State, step: Step, k: nat)
    requires Inv(s) && WarningsOk(s) && (forall j :: 0 <= j < |s.stops| ==> AimOk(s, s.stops[j])) && Enabled(s, step)
    requires k < |Next(s, step).clients|
    ensures var t := Next(s, step);
      && BindingOk(t.bindings[k], t.clients[k])
      && (t.clients[k].warned || t.clients[k].landed != [] ==> Over(t))
  {
    if k < |s.clients| { assert BindingOk(s.bindings[k], s.clients[k]); }
    if step.CancelClient? { assert AimOk(s, s.stops[step.j]); }
  }

  lemma StepKeepsWarnings(s: State, step: Step)
    requires HistoryOk(s) && Enabled(s, step)
    ensures WarningsOk(Next(s, step))
  {
    var t := Next(s, step);
    StepKeepsInv(s, step);
    forall i, j | 0 <= i < j < |t.clients| && t.clients[i].warned ensures t.clients[j].warned {
      StepKeepsOrder(s, step, i, j);
    }
    forall k | 0 <= k < |t.clients|
      ensures BindingOk(t.bindings[k], t.clients[k])
      ensures t.clients[k].warned || t.clients[k].landed != [] ==> Over(t)
    {
      StepKeepsBinding(s, step, k);
    }
  }

  /** No step makes another client the last free one of a submission that is over, or opens one again. */
  lemma StepKeepsLastFree(s: State, step: Step, m: nat)
    requires HistoryOk(s) && Enabled(s, step)
    ensures Over(s) ==> (LastFree(Next(s, step), m) <==> LastFree(s, m)) && Over(Next(s, step))
    ensures m < |s.bindings| && IsOpen(Next(s, step), m) ==> IsOpen(s, m)
    ensures m < |s.clients| && s.clients[m].landed != [] ==> Next(s, step).clients[m].landed != []
  {}

  lemma StepKeepsListing(s: State, step: Step)
    requires HistoryOk(s) && Enabled(s, step)
    ensures ListingOk(Next(s, step))
  {
    var t := Next(s, step);
    if t.entry.Some? {
      forall c: nat ensures t.entry.value.client == Some(c) <==> LastFree(t, c) && IsOpen(t, c) {
        assert s.entry.value.client == Some(c) <==> LastFree(s, c) && IsOpen(s, c);
      }
    }
  }

  lemma StepKeepsAim(s: State, step: Step, j: nat)
    requires HistoryOk(s) && Enabled(s, step) && j < |Next(s, step).stops|
    ensures AimOk(Next(s, step), Next(s, step).stops[j])
  {
    var t := Next(s, step);
    if j < |s.stops| {
      assert AimOk(s, s.stops[j]);
      forall m: nat ensures Over(s) ==> (LastFree(t, m) <==> LastFree(s, m)) && Over(t)
        ensures m < |s.bindings| && IsOpen(t, m) ==> IsOpen(s, m)
        ensures m < |s.clients| && s.clients[m].landed != [] ==> t.clients[m].landed != []
      {
        StepKeepsLastFree(s, step, m);
      }
    }
  }

  lemma StepKeepsTargets(s: State, step: Step, k: nat)
    requires HistoryOk(s) && Enabled(s, step) && k < |Next(s, step).clients| && Next(s, step).clients[k].landed != []
    ensures Next(s, step).clients[k].warned || LastFree(Next(s, step), k)
  {
    StepKeepsLastFree(s, step, k);
    if step.CancelClient? { assert AimOk(s, s.stops[step.j]); }
  }

  lemma StepKeepsHistory(s: State, step: Step)
    requires HistoryOk(s) && Enabled(s, step)
    ensures HistoryOk(Next(s, step))
  {
    var t := Next(s, step);
    StepKeepsInv(s, step);
    StepKeepsWarnings(s, step);
    StepKeepsListing(s, step);
    forall j | 0 <= j < |t.stops| ensures AimOk(t, t.stops[j]) { StepKeepsAim(s, step, j); }
    forall k | 0 <= k < |t.clients| && t.clients[k].landed != [] ensures t.clients[k].warned || LastFree(t, k) {
      StepKeepsTargets(s, step, k);
    }
  }

  lemma {:induction false} RunKeepsHistory(s: State, steps: seq<Step>, t: State)
    requires HistoryOk(s) && Run(s, steps, t)
    ensures HistoryOk(t)
    decreases |steps|
  {
    if steps != [] {
      StepKeepsHistory(s, steps[0]);
      RunKeepsHistory(Next(s, steps[0]), steps[1..], t);
    }
  }

  // ---- Main results ----

  /** In every interleaving the client listed with the submission is the last one bound before it was
      marked, as long as that is open, and none otherwise: a release of any other leaves it listed. */
  lemma ListedIsTheLastFree(steps: seq<Step>, t: State)
    requires Run(Registered, steps, t) && t.entry.Some?
    ensures forall c: nat :: t.entry.value.client == Some(c) <==> LastFree(t, c) && IsOpen(t, c)
    ensures forall k: nat :: Enabled(t, Unbind(k)) ==>
      Next(t, Unbind(k)).entry == if LastFree(t, k) then Some(Entry(None)) else t.entry
  {
    RunKeepsHistory(Registered, steps, t);
    forall k: nat | Enabled(t, Unbind(k))
      ensures Next(t, Unbind(k)).entry == if LastFree(t, k) then Some(Entry(None)) else t.entry
    {
      assert t.entry.value.client == Some(k) <==> LastFree(t, k) && IsOpen(t, k);
    }
  }

  /** When a stop has returned "stopped", a client still held has been missed exactly when it was bound
      before the submission was marked and another was bound after it before the mark, too. */
  lemma StopMissesExactlyWhen(steps: seq<Step>, t: State, j: nat, k: nat)
    requires Run(Registered, steps, t) && j < |t.stops| && t.stops[j].Stopped?
    requires k < |t.bindings| && t.bindings[k].Held?
    ensures k < |t.clients|
    ensures t.clients[k].landed == [] <==>
      !t.clients[k].warned && k + 1 < |t.clients| && !t.clients[k + 1].warned
  {
    RunKeepsHistory(Registered, steps, t);
    assert AimOk(t, t.stops[j]);
    assert BindingOk(t.bindings[k], t.clients[k]);
  }
}
