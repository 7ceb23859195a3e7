/** What admission conserves: permits, counters, and each prompt's own units. */
module ChatConservation {
  import opened ChatSlots
  import opened RuntimeState
  import opened Sums

  /** Conservation, in every interleaving: free permits and slot holders add up to the capacity,
      and the two counters count exactly what they are documented to count. */
  lemma SlotsAreConserved(t: State)
    requires Reachable(t)
    ensures t.counters.free + Sum(Holds, t.prompts) == t.capacity
    ensures 0 <= t.counters.free
    ensures 0 <= t.counters.inflight <= Sum(Holds, t.prompts) <= t.capacity
    ensures t.counters.inflight == Sum(Active, t.prompts)
    ensures t.counters.pending == Sum(Waiting, t.prompts)
    ensures Sum(Busy, t.prompts) <= t.capacity
  {
    ReachableInv(t);
    SumMonotone(Active, Holds, t.prompts);
  }

  lemma OwnedUnitIsCounted(s: State, i: nat)
    requires Balanced(s) && i < |s.prompts|
    ensures Active(s.prompts[i]) <= s.counters.inflight && Waiting(s.prompts[i]) <= s.counters.pending
    ensures Holds(s.prompts[i]) + s.counters.free <= s.capacity
  {
    SumAtLeast(Active, s.prompts, i);
    SumAtLeast(Waiting, s.prompts, i);
    SumAtLeast(Holds, s.prompts, i);
  }

  lemma ReturnFindsItsUnit(s: State, step: Step)
    requires Balanced(s) && Enabled(s, step)
    ensures step.Uncount? ==> s.counters.inflight > 0
    ensures step.Unpark? || step.PromoteIt? ==> s.counters.pending > 0
    ensures step.Release? ==> s.counters.free < s.capacity
  {
    if step.Uncount? || step.Unpark? || step.PromoteIt? || step.Release? {
      OwnedUnitIsCounted(s, step.i);
    }
  }

  /** The clamps `max(0, n - 1)` never take effect: every decrement finds a positive counter,
      and every release finds a permit missing. */
  lemma ClampsNeverBite(s: State, step: Step)
    requires Reachable(s) && Enabled(s, step)
    ensures step.Uncount? ==> s.counters.inflight > 0
    ensures step.Unpark? || step.PromoteIt? ==> s.counters.pending > 0
    ensures step.Release? ==> s.counters.free < s.capacity
  {
    ReachableInv(s);
    ReturnFindsItsUnit(s, step);
  }

  /** Each prompt takes each unit at most once, owns what it has not given back, and has given
      back every unit it took when it is done, whichever way it ended. */
  lemma EachUnitGivenBackOnce(t: State, i: nat)
    requires Reachable(t) && i < |t.prompts|
    ensures t.prompts[i].place.Done? ==> Settled(t.prompts[i].ledger)
    ensures var l := t.prompts[i].ledger;
      && l.given + Holds(t.prompts[i]) == l.taken <= 1
      && l.uncounted + Active(t.prompts[i]) == l.counted <= 1
      && l.unparked + Waiting(t.prompts[i]) == l.parked <= 1
  {
    ReachableInv(t);
    LedgerShowsHoldings(t.prompts[i]);
  }

  predicate Quiescent(s: State) {
    forall i :: 0 <= i < |s.prompts| ==> s.prompts[i].place.Done?
  }

  lemma QuiescentIsEmpty(s: State)
    requires Inv(s) && Quiescent(s)
    ensures s.counters == Counters(s.capacity, 0, 0)
  {
    SumZero(Holds, s.prompts);
    SumZero(Active, s.prompts);
    SumZero(Waiting, s.prompts);
  }
}
