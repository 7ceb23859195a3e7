/** Whole sessions over the shared state: how long a key lives, what an update does to each key,
    and what merging two lists yields. */
module SharedStateRuns {
  import opened Options
  import opened SharedState
  import opened Text

  /** `touched`: the turn in which each key was last stored by an update, or found at the start. */
  datatype Session = Session(state: State, touched: map<string, int>)

  datatype Step =
    | Apply(payload: seq<(string, Json)>) | Advance | Reset
    | SystemWrite(key: string, value: Option<Json>)

  predicate Enabled(step: Step) { step.SystemWrite? ==> step.key !in AGENT_KEYS }

  function Initial(restored: map<string, Json>, turn: Option<int>, historyRestored: bool): Session {
    var s := Bootstrapped(ClearedForStart(State(restored, turn, map[]), historyRestored));
    Session(s, map k | k in s.shared && k in AGENT_KEYS :: Turn(s))
  }

  function Written(s: State, payload: seq<(string, Json)>): set<string> {
    ApplyItems(Update(s.shared, s.stamps, {}), payload).written
  }

  function Next(w: Session, step: Step): Session {
    match step
    case Apply(payload) =>
      Session(Applied(w.state, payload), w.touched + map k | k in Written(w.state, payload) :: Turn(w.state))
    case Advance => w.(state := Advanced(w.state))
    case Reset => Session(State(map[], None, map[]), map[])
    case SystemWrite(key, value) =>
      w.(state := w.state.(shared := if value.Some? then w.state.shared[key := value.value] else w.state.shared - {key}))
  }

  // ---- One update ----

  /** An update leaves a key it did not store as it was, with its stamp, or removes it. */
  lemma {:induction false} UnwrittenKey(u: Update, payload: seq<(string, Json)>, k: string)
    requires k !in ApplyItems(u, payload).written
    ensures var v := ApplyItems(u, payload);
      k in v.shared ==> k in u.shared && v.shared[k] == u.shared[k] && Get(v.stamps, k) == Get(u.stamps, k)
    ensures u.written <= ApplyItems(u, payload).written
  {
    if payload != [] { UnwrittenKey(u, payload[..|payload| - 1], k); }
  }

  lemma {:induction false} WrittenAreAgentKeys(u: Update, payload: seq<(string, Json)>)
    requires u.written <= AGENT_KEYS
    ensures ApplyItems(u, payload).written <= AGENT_KEYS
  {
    if payload != [] { WrittenAreAgentKeys(u, payload[..|payload| - 1]); }
  }

  predicate IsListKey(k: string) {
    k in {"decisions", "acceptance_criteria", "allowed_scope", "non_goals", "out_of_scope_notes", "evidence"}
  }

  predicate IsAgentKey(k: string) { IsListKey(k) || k in {"goal", "goal_canonical", "current_step", "next_step"} }

  /** A spelling of the key: case and surrounding space do not count, and a space stands for `_`. */
  predicate Spells(key: string, k: string) {
    var t := Lower(Strip(key));
    |t| == |k| && forall i :: 0 <= i < |k| ==> k[i] == if t[i] == ' ' then '_' else t[i]
  }

  /** What may be sent for an agent key: nothing, an empty text, a text of at most 4000 characters, or for
      a list key a list of texts of at most 2000 each. */
  predicate MayBeSent(k: string, value: Json) {
    match value
    case Null => true
    case Str(text) => text == "" || (!IsListKey(k) && |text| <= 4000)
    case List(items) => IsListKey(k) && forall i :: 0 <= i < |items| ==> items[i].Str? && |items[i].text| <= 2000
    case Other(_) => false
  }

  predicate Concerns(item: (string, Json), k: string) { IsAgentKey(k) && Spells(item.0, k) && MayBeSent(k, item.1) }

  lemma KeysAreSpelled(key: string, k: string)
    ensures NormalizeKey(key) == k <==> Spells(key, k)
  {
    var t, n := Lower(Strip(key)), NormalizeKey(key);
    assert |n| == |t| && forall i :: 0 <= i < |n| ==> n[i] == if t[i] == ' ' then '_' else t[i];
    if Spells(key, k) { assert n == k; }
  }

  lemma ItemConcerns(item: (string, Json), k: string)
    ensures Concerns(item, k) <==> k in AGENT_KEYS && NormalizeKey(item.0) == k && ValidValue(k, item.1)
  {
    KeysAreSpelled(item.0, k);
  }

  /** What the items for one key make of its value. */
  function Folded(current: Option<Json>, payload: seq<(string, Json)>, k: string): Option<Json> {
    if payload == [] then current
    else
      var before := Folded(current, payload[..|payload| - 1], k);
      if Concerns(payload[|payload| - 1], k) then Merge(before, payload[|payload| - 1].1) else before
  }

  /** Updates act key by key: an agent key gets the merge of the valid items sent for it, in order,
      and no other key changes. */
  lemma {:induction false} UpdateIsPerKey(u: Update, payload: seq<(string, Json)>, k: string)
    ensures Get(ApplyItems(u, payload).shared, k) ==
      if IsAgentKey(k) then Folded(Get(u.shared, k), payload, k) else Get(u.shared, k)
    decreases |payload|
  {
    if payload != [] {
      UpdateIsPerKey(u, payload[..|payload| - 1], k);
      ItemIsPerKey(ApplyItems(u, payload[..|payload| - 1]), payload[|payload| - 1], k);
    }
  }

  lemma ItemIsPerKey(u: Update, item: (string, Json), k: string)
    ensures Get(ApplyItem(u, item.0, item.1).shared, k) ==
      if Concerns(item, k) then Merge(Get(u.shared, k), item.1) else Get(u.shared, k)
  {
    ItemConcerns(item, k);
  }

  // ---- Invariant ----

  /** Every agent key in the state has the stamp of its last write, at most ten turns old. */
  predicate Inv(w: Session) {
    forall k :: k in w.state.shared && k in AGENT_KEYS ==> KeyOk(w, k)
  }

  predicate KeyOk(w: Session, k: string) {
    && k in w.state.stamps && k in w.touched && w.state.stamps[k] == w.touched[k]
    && Turn(w.state) - 10 <= w.touched[k] <= Turn(w.state)
  }

  lemma ApplyKeepsInv(w: Session, payload: seq<(string, Json)>)
    requires Inv(w)
    ensures Inv(Next(w, Apply(payload)))
  {
    var v := Next(w, Apply(payload));
    forall k | k in v.state.shared && k in AGENT_KEYS ensures KeyOk(v, k) {
      if k !in Written(w.state, payload) {
        UnwrittenKey(Update(w.state.shared, w.state.stamps, {}), payload, k);
        assert KeyOk(w, k);
      }
    }
  }

  lemma AdvanceKeepsInv(w: Session)
    requires Inv(w)
    ensures Inv(Next(w, Advance))
  {
    var v := Next(w, Advance);
    forall k | k in v.state.shared && k in AGENT_KEYS ensures KeyOk(v, k) {
      assert KeyOk(w, k);
    }
  }

  lemma StepKeepsInv(w: Session, step: Step)
    requires Inv(w) && Enabled(step)
    ensures Inv(Next(w, step))
  {
    match step
    case Apply(payload) => ApplyKeepsInv(w, payload);
    case Advance => AdvanceKeepsInv(w);
    case Reset =>
    case SystemWrite(_, _) =>
      forall k | k in Next(w, step).state.shared && k in AGENT_KEYS ensures KeyOk(Next(w, step), k) {
        assert KeyOk(w, k);
      }
  }

  predicate AllEnabled(steps: seq<Step>) { forall i :: 0 <= i < |steps| ==> Enabled(steps[i]) }

  function Run(w: Session, steps: seq<Step>): Session {
    if steps == [] then w else Next(Run(w, steps[..|steps| - 1]), steps[|steps| - 1])
  }

  lemma {:induction false} RunKeepsInv(w: Session, steps: seq<Step>)
    requires Inv(w) && AllEnabled(steps)
    ensures Inv(Run(w, steps))
  {
    if steps != [] {
      RunKeepsInv(w, steps[..|steps| - 1]);
      StepKeepsInv(Run(w, steps[..|steps| - 1]), steps[|steps| - 1]);
    }
  }

  /** Whatever was restored, a session starts with its agent keys stamped. */
  lemma InitialInv(restored: map<string, Json>, turn: Option<int>, historyRestored: bool)
    ensures Inv(Initial(restored, turn, historyRestored))
  {
    var w := Initial(restored, turn, historyRestored);
    forall k | k in w.state.shared && k in AGENT_KEYS ensures KeyOk(w, k) {}
  }

  // ---- Main results ----

  /** In every session, from any restored state, each agent key present was written or found at the
      start at most ten turns ago. */
  lemma AgentKeysAreFresh(restored: map<string, Json>, turn: Option<int>, historyRestored: bool, steps: seq<Step>,
                          k: string)
    requires AllEnabled(steps)
    requires k in Run(Initial(restored, turn, historyRestored), steps).state.shared && IsAgentKey(k)
    ensures var w := Run(Initial(restored, turn, historyRestored), steps);
      k in w.touched && Turn(w.state) - 10 <= w.touched[k] <= Turn(w.state)
  {
    InitialInv(restored, turn, historyRestored);
    RunKeepsInv(Initial(restored, turn, historyRestored), steps);
    assert KeyOk(Run(Initial(restored, turn, historyRestored), steps), k);
  }

  /** A new turn removes exactly the agent keys whose last write is now more than ten turns old;
      no other key goes and no value changes. */
  lemma AdvanceExpiresExactlyTheOld(w: Session, k: string)
    requires Inv(w)
    ensures Turn(Next(w, Advance).state) == Turn(w.state) + 1
    ensures IsAgentKey(k) && k in w.state.shared ==>
      Get(Next(w, Advance).state.shared, k) ==
        if k in w.touched && Turn(w.state) + 1 - w.touched[k] <= 10 then Get(w.state.shared, k) else None
    ensures !IsAgentKey(k) || k !in w.state.shared ==>
      Get(Next(w, Advance).state.shared, k) == Get(w.state.shared, k)
  {
    if k in AGENT_KEYS && k in w.state.shared { assert KeyOk(w, k); }
  }

  /** The step does not reset the state and sends nothing for key `k`. */
  predicate Leaves(step: Step, k: string) {
    match step
    case Apply(payload) => forall i :: 0 <= i < |payload| ==> !Spells(payload[i].0, k)
    case Advance => true
    case Reset => false
    case SystemWrite(key, _) => key != k
  }

  lemma {:induction false} LeftKey(u: Update, payload: seq<(string, Json)>, k: string)
    requires forall i :: 0 <= i < |payload| ==> !Spells(payload[i].0, k)
    ensures var v := ApplyItems(u, payload);
      && Get(v.shared, k) == Get(u.shared, k) && Get(v.stamps, k) == Get(u.stamps, k)
      && (k in v.written <==> k in u.written)
  {
    if payload != [] {
      KeysAreSpelled(payload[|payload| - 1].0, k);
      LeftKey(u, payload[..|payload| - 1], k);
    }
  }

  /** An agent key that nobody sends again keeps its value for the ten turns after its last write,
      whatever happens to other keys, and is gone from the eleventh on. */
  lemma {:induction false} LivesExactlyTenTurns(w: Session, steps: seq<Step>, k: string)
    requires Inv(w) && AllEnabled(steps) && IsAgentKey(k) && k in w.state.shared
    requires forall i :: 0 <= i < |steps| ==> Leaves(steps[i], k)
    ensures k in w.touched && Inv(Run(w, steps)) && Get(Run(w, steps).touched, k) == Get(w.touched, k)
    ensures Turn(Run(w, steps).state) >= Turn(w.state)
    ensures Get(Run(w, steps).state.shared, k) ==
      if Turn(Run(w, steps).state) <= w.touched[k] + 10 then Get(w.state.shared, k) else None
  {
    RunKeepsInv(w, steps);
    assert KeyOk(w, k);
    if steps != [] {
      var init, last := steps[..|steps| - 1], steps[|steps| - 1];
      LivesExactlyTenTurns(w, init, k);
      var v := Run(w, init);
      assert Run(w, steps) == Next(v, last) && Leaves(last, k);
      LeavesKey(v, last, k);
    }
  }

  lemma LeavesKey(v: Session, step: Step, k: string)
    requires Inv(v) && Enabled(step) && Leaves(step, k) && k in AGENT_KEYS && k in v.touched
    ensures Get(Next(v, step).touched, k) == Get(v.touched, k)
    ensures Turn(Next(v, step).state) == Turn(v.state) + if step.Advance? then 1 else 0
    ensures Get(Next(v, step).state.shared, k) ==
      if k in v.state.shared && Turn(Next(v, step).state) - v.touched[k] <= 10 then Get(v.state.shared, k) else None
  {
    if k in v.state.shared { assert KeyOk(v, k); }
    match step
    case Apply(payload) => LeftKey(Update(v.state.shared, v.state.stamps, {}), payload, k);
    case Advance => AdvanceExpiresExactlyTheOld(v, k);
    case SystemWrite(_, _) =>
  }

  // ---- Refused payloads ----

  /** The item concerns no agent key. */
  ghost predicate Ignored(item: (string, Json)) { forall k :: !Concerns(item, k) }

  lemma {:induction false} RefusedItemsChangeNothing(u: Update, payload: seq<(string, Json)>)
    requires forall i :: 0 <= i < |payload| ==> Ignored(payload[i])
    ensures ApplyItems(u, payload) == u
  {
    if payload != [] {
      var last := payload[|payload| - 1];
      ItemConcerns(last, NormalizeKey(last.0));
      assert !Concerns(last, NormalizeKey(last.0));
      RefusedItemsChangeNothing(u, payload[..|payload| - 1]);
    }
  }

  /** A payload whose every item is refused changes nothing and is yet answered with true. */
  lemma RefusedPayloadIsAnsweredTrue(s: State, payload: seq<(string, Json)>)
    requires payload != [] && forall i :: 0 <= i < |payload| ==> Ignored(payload[i])
    ensures Applied(s, payload) == s && Answer(payload)
  {
    RefusedItemsChangeNothing(Update(s.shared, s.stamps, {}), payload);
  }

  /** There are such payloads. */
  lemma AnUnknownKeyIsRefused()
    ensures Ignored(("budget", Str("low")))
  {
    assert NormalizeKey("budget") == "budget";
    forall k ensures !Concerns(("budget", Str("low")), k) {
      ItemConcerns(("budget", Str("low")), k);
    }
  }

  // ---- Stamps without a key ----

  /** The i-th item stores the key, or deletes it. */
  predicate Stores(current: Option<Json>, payload: seq<(string, Json)>, k: string, i: nat)
    requires i < |payload|
  {
    Concerns(payload[i], k) && Merge(Folded(current, payload[..i], k), payload[i].1).Some?
  }

  predicate Deletes(current: Option<Json>, payload: seq<(string, Json)>, k: string, i: nat)
    requires i < |payload|
  {
    Concerns(payload[i], k) && Merge(Folded(current, payload[..i], k), payload[i].1).None?
  }

  predicate SomeStores(current: Option<Json>, payload: seq<(string, Json)>, k: string) {
    exists i :: 0 <= i < |payload| && Stores(current, payload, k, i)
  }

  predicate SomeDeletes(current: Option<Json>, payload: seq<(string, Json)>, k: string) {
    exists i :: 0 <= i < |payload| && Deletes(current, payload, k, i)
  }

  lemma PrefixItem(current: Option<Json>, payload: seq<(string, Json)>, k: string, i: nat)
    requires i < |payload| - 1
    ensures Stores(current, payload[..|payload| - 1], k, i) <==> Stores(current, payload, k, i)
    ensures Deletes(current, payload[..|payload| - 1], k, i) <==> Deletes(current, payload, k, i)
  {
    assert payload[..|payload| - 1][..i] == payload[..i];
  }

  lemma LastStores(current: Option<Json>, payload: seq<(string, Json)>, k: string)
    requires payload != []
    ensures var n := |payload| - 1;
      SomeStores(current, payload, k) <==> SomeStores(current, payload[..n], k) || Stores(current, payload, k, n)
  {
    var n := |payload| - 1;
    if SomeStores(current, payload, k) {
      var i :| 0 <= i < |payload| && Stores(current, payload, k, i);
      if i < n { PrefixItem(current, payload, k, i); }
    } else if SomeStores(current, payload[..n], k) {
      var i :| 0 <= i < n && Stores(current, payload[..n], k, i);
      PrefixItem(current, payload, k, i);
    }
  }

  lemma LastDeletes(current: Option<Json>, payload: seq<(string, Json)>, k: string)
    requires payload != []
    ensures var n := |payload| - 1;
      SomeDeletes(current, payload, k) <==> SomeDeletes(current, payload[..n], k) || Deletes(current, payload, k, n)
  {
    var n := |payload| - 1;
    if SomeDeletes(current, payload, k) {
      var i :| 0 <= i < |payload| && Deletes(current, payload, k, i);
      if i < n { PrefixItem(current, payload, k, i); }
    } else if SomeDeletes(current, payload[..n], k) {
      var i :| 0 <= i < n && Deletes(current, payload[..n], k, i);
      PrefixItem(current, payload, k, i);
    }
  }

  lemma {:induction false} WrittenAndStamped(u: Update, payload: seq<(string, Json)>, k: string)
    requires k in AGENT_KEYS
    ensures var v, current := ApplyItems(u, payload), Get(u.shared, k);
      && (k in v.written <==> k in u.written || SomeStores(current, payload, k))
      && (k in v.stamps <==> k in u.stamps && !SomeDeletes(current, payload, k))
    decreases |payload|
  {
    if payload != [] {
      var n := |payload| - 1;
      WrittenAndStamped(u, payload[..n], k);
      UpdateIsPerKey(u, payload[..n], k);
      LastStores(Get(u.shared, k), payload, k);
      LastDeletes(Get(u.shared, k), payload, k);
      StampedByLast(ApplyItems(u, payload[..n]), payload[n], k);
    }
  }

  lemma StampedByLast(u: Update, item: (string, Json), k: string)
    requires k in AGENT_KEYS
    ensures var v, merged := ApplyItem(u, item.0, item.1), Merge(Get(u.shared, k), item.1);
      && (k in v.written <==> k in u.written || (Concerns(item, k) && merged.Some?))
      && (k in v.stamps <==> k in u.stamps && !(Concerns(item, k) && merged.None?))
  {
    ItemConcerns(item, k);
  }

  /** An update leaves an agent key gone but stamped exactly when its items make nothing of it, and
      one of them stored it, or it had a stamp that none of them took. */
  lemma AbsentButStampedExactlyWhen(s: State, payload: seq<(string, Json)>, k: string)
    requires k in AGENT_KEYS
    ensures var t, current := Applied(s, payload), Get(s.shared, k);
      k !in t.shared && k in t.stamps <==>
        && Folded(current, payload, k).None?
        && (SomeStores(current, payload, k) || (k in s.stamps && !SomeDeletes(current, payload, k)))
  {
    var u := Update(s.shared, s.stamps, {});
    UpdateIsPerKey(u, payload, k);
    WrittenAndStamped(u, payload, k);
    assert Get(Applied(s, payload).shared, k) == Folded(Get(s.shared, k), payload, k);
  }

  /** A payload may name a key twice, in different spellings. When it stores the key and then
      deletes it, the key is gone but stamped. */
  lemma AnAbsentKeyMayBeStamped() returns (payload: seq<(string, Json)>)
    ensures var s := Applied(State(map[], None, map[]), payload);
      "goal" !in s.shared && "goal" in s.stamps
  {
    payload := [("goal", Str("ship")), ("Goal", Str(""))];
    var u0 := Update(map[], map[], {});
    var u1 := ApplyItem(u0, "goal", Str("ship"));
    assert NormalizeKey("goal") == "goal" && NormalizeKey("Goal") == "goal";
    assert u1 == Update(map["goal" := Str("ship")], map[], {"goal"});
    var u2 := ApplyItem(u1, "Goal", Str(""));
    assert payload[..1] == [payload[0]] && payload[..1][..0] == [];
    assert ApplyItems(u0, []) == u0;
    assert ApplyItems(u0, payload[..1]) == u1;
    assert ApplyItems(u0, payload) == u2;
  }

  // ---- Merging lists ----

  /** Position of the first occurrence. */
  function First(xs: seq<Json>, x: Json): (i: nat)
    ensures i <= |xs| && (i < |xs| ==> xs[i] == x) && (x in xs ==> i < |xs|)
  {
    if xs == [] || xs[0] == x then 0 else 1 + First(xs[1..], x)
  }

  lemma {:induction false} FirstInPrefix(xs: seq<Json>, n: nat, x: Json)
    requires n <= |xs| && x in xs[..n]
    ensures First(xs[..n], x) == First(xs, x)
  {
    if xs[0] != x {
      assert xs[..n][1..] == xs[1..][..n - 1];
      FirstInPrefix(xs[1..], n - 1, x);
    }
  }

  lemma {:induction false} FirstIsNew(xs: seq<Json>)
    requires xs != [] && xs[|xs| - 1] !in xs[..|xs| - 1]
    ensures First(xs, xs[|xs| - 1]) == |xs| - 1
  {
    if |xs| > 1 {
      assert xs[0] in xs[..|xs| - 1];
      assert xs[1..][..|xs| - 2] == xs[..|xs| - 1][1..];
      FirstIsNew(xs[1..]);
    }
  }

  predicate NoDuplicates(xs: seq<Json>) { forall i, j :: 0 <= i < j < |xs| ==> xs[i] != xs[j] }

  /** Appending adds exactly what is new: the old list is a prefix, every item of both is there,
      nothing added repeats anything before it, and the new ones come in the order they were sent. */
  lemma {:induction false} AppendNewAddsTheNew(current: seq<Json>, incoming: seq<Json>)
    ensures var all := AppendNew(current, incoming);
      && current <= all
      && (forall x :: x in all <==> x in current || x in incoming)
      && (forall i, j :: 0 <= i < j < |all| && j >= |current| ==> all[i] != all[j])
      && (forall i, j :: |current| <= i < j < |all| ==> First(incoming, all[i]) < First(incoming, all[j]))
  {
    if incoming != [] {
      var init, item := incoming[..|incoming| - 1], incoming[|incoming| - 1];
      assert incoming == init + [item];
      AppendNewAddsTheNew(current, init);
      var before, all := AppendNew(current, init), AppendNew(current, incoming);
      forall i, j | |current| <= i < j < |all| ensures First(incoming, all[i]) < First(incoming, all[j]) {
        assert before[i] in before;
        NewComesFromIncoming(current, init, i);
        FirstInPrefix(incoming, |init|, all[i]);
        if j < |before| {
          NewComesFromIncoming(current, init, j);
          FirstInPrefix(incoming, |init|, all[j]);
        } else {
          FirstIsNew(incoming);
        }
      }
    }
  }

  lemma {:induction false} NewComesFromIncoming(current: seq<Json>, incoming: seq<Json>, i: nat)
    requires |current| <= i < |AppendNew(current, incoming)|
    ensures AppendNew(current, incoming)[i] in incoming
  {
    if incoming != [] {
      var init := incoming[..|incoming| - 1];
      if i < |AppendNew(current, init)| { NewComesFromIncoming(current, init, i); }
    }
  }

  /** What an update makes of one value: nothing sent leaves it as it is, a list cut to its last fifty
      items, an empty text removes it, and anything else but a list into a list takes its place. */
  lemma MergeInFields(current: Option<Json>, incoming: Json)
    ensures incoming.Null? && (current.None? || current.value.Null?) ==> Merge(current, incoming).None?
    ensures incoming.Null? && current.Some? && !current.value.Null? && !current.value.List? ==>
      Merge(current, incoming) == current
    ensures incoming.Null? && current.Some? && current.value.List? ==>
      && Merge(current, incoming).Some? && Merge(current, incoming).value.List?
      && IsEnd(Merge(current, incoming).value.items, current.value.items)
    ensures incoming == Str("") ==> Merge(current, incoming).None?
    ensures !incoming.Null? && incoming != Str("") && !(current.Some? && current.value.List? && incoming.List?) ==>
      Merge(current, incoming) == Some(incoming)
  {}

  /** The last fifty items, or all of them. */
  predicate IsEnd(end: seq<Json>, all: seq<Json>) {
    && |end| == (if |all| < 50 then |all| else 50)
    && end == all[|all| - |end|..]
  }

  /** Merging a list into a list: at most fifty items, the last ones, in order, without a new
      duplicate; with fifty or fewer in all nothing is lost. */
  lemma MergedListsAreBounded(current: seq<Json>, incoming: seq<Json>)
    ensures Merge(Some(List(current)), List(incoming)).Some? && Merge(Some(List(current)), List(incoming)).value.List?
    ensures var merged := Merge(Some(List(current)), List(incoming)).value.items;
      && |merged| <= 50
      && IsEnd(merged, AppendNew(current, incoming))
      && (NoDuplicates(current) ==> NoDuplicates(merged))
      && (forall x :: x in merged ==> x in current || x in incoming)
      && (|AppendNew(current, incoming)| <= 50 ==> forall x :: x in current || x in incoming ==> x in merged)
  {
    AppendNewAddsTheNew(current, incoming);
    var all := AppendNew(current, incoming);
    assert forall i :: 0 <= i < |current| ==> all[i] == current[i];
  }

  /** Sending a list again adds nothing: merging is a reaffirmation. */
  lemma {:induction false} ResendingAddsNothing(all: seq<Json>, incoming: seq<Json>)
    requires forall x :: x in incoming ==> x in all
    ensures AppendNew(all, incoming) == all
  {
    if incoming != [] {
      assert incoming[|incoming| - 1] in incoming;
      ResendingAddsNothing(all, incoming[..|incoming| - 1]);
    }
  }

  // ---- Whole sessions in the fields ----

  /** What a session starts with: without history neither agent keys nor a turn, with it all but goal and
      steps; each agent key left counts as written in the turn restored. */
  lemma SessionStartsInFields(restored: map<string, Json>, turn: Option<int>, historyRestored: bool, k: string)
    ensures var w := Initial(restored, turn, historyRestored);
      var kept := if historyRestored then k !in {"goal", "goal_canonical", "current_step", "next_step"}
        else !IsAgentKey(k);
      && w.state.turn == (if historyRestored then turn else None)
      && Get(w.state.shared, k) == (if kept then Get(restored, k) else None)
      && (k in w.touched <==> historyRestored && kept && k in restored && IsAgentKey(k))
      && (k in w.touched ==> w.touched[k] == if turn.Some? then turn.value else 0)
  {}

  /** The turn moves by one with each new turn and is forgotten by a reset, which leaves nothing; the system
      writes one key. */
  lemma OtherStepsInFields(w: Session, step: Step, k: string)
    requires Enabled(step)
    ensures var v := Next(w, step);
      match step
      case Apply(_) => v.state.turn == w.state.turn
      case Advance => v.state.turn == Some(1 + if w.state.turn.Some? then w.state.turn.value else 0)
      case Reset => v == Session(State(map[], None, map[]), map[])
      case SystemWrite(key, value) =>
        && v.state.turn == w.state.turn && v.touched == w.touched && v.state.stamps == w.state.stamps
        && Get(v.state.shared, k) == if k == key then value else Get(w.state.shared, k)
  {}

  /** An update counts as a write of a key exactly when one of its items stored it. */
  lemma AWriteIsAStore(w: Session, payload: seq<(string, Json)>, k: string)
    requires IsAgentKey(k)
    ensures Get(Next(w, Apply(payload)).touched, k) ==
      if SomeStores(Get(w.state.shared, k), payload, k) then Some(if w.state.turn.Some? then w.state.turn.value else 0)
      else Get(w.touched, k)
  {
    WrittenAndStamped(Update(w.state.shared, w.state.stamps, {}), payload, k);
  }
}
