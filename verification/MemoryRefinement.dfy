/** The lazily pruned memory store behaves like a map whose entries vanish on time. */
module MemoryRefinement {
  import opened MemoryStore
  import opened Options
  import opened Ordering

  /** One accepted call, with its arguments after validation. */
  datatype Op =
    | SaveOp(now: int, ns: string, k: string, value: string, tags: set<string>, actor: Option<string>, ttl: Option<int>)
    | DeleteOp(now: int, ns: string, key: Option<string>)
    | RetrieveOp(now: int)

  /** What the call does to the stored entries. */
  function LazyStep(entries: Entries, op: Op): Entries {
    var pruned := Pruned(entries, op.now);
    match op
    case SaveOp(now, ns, k, value, tags, actor, ttl) => Saved(pruned, now, ns, k, value, tags, actor, ttl)
    case DeleteOp(_, ns, key) => Deleted(pruned, ns, key)
    case RetrieveOp(_) => pruned
  }

  /** What it should do: a flat map without expired entries. */
  function EagerStep(v: View, op: Op): View {
    var live := Expire(v, op.now);
    match op
    case SaveOp(_, ns, k, _, _, _, _) =>
      live[(ns, k) := SavedEntry(live, op)]
    case DeleteOp(_, ns, key) => map p | p in live && !Targeted(p, ns, key) :: live[p]
    case RetrieveOp(_) => live
  }

  predicate Targeted(p: Key, ns: string, key: Option<string>) { p.0 == ns && (key.Some? ==> p.1 == key.value) }

  predicate Agree(entries: Entries, v: View, now: int) { ViewAt(entries, now) == Expire(v, now) }

  lemma AgreementLasts(entries: Entries, v: View, now: int, later: int)
    requires Agree(entries, v, now) && now <= later
    ensures Agree(entries, v, later)
  {
    var a, b := ViewAt(entries, later), Expire(v, later);
    forall p: Key | p in a ensures p in b && a[p] == b[p] { assert p in ViewAt(entries, now); }
    forall p: Key | p in b ensures p in a { assert p in Expire(v, now); }
  }

  function SavedEntry(v: View, op: Op): Entry
    requires op.SaveOp?
  {
    NewEntry(if (op.ns, op.k) in v then Some(v[(op.ns, op.k)]) else None, op.now, op.value, op.tags, op.actor, op.ttl)
  }

  lemma SavedAt(entries: Entries, op: Op, p: Key)
    requires op.SaveOp?
    ensures At(Saved(entries, op.now, op.ns, op.k, op.value, op.tags, op.actor, op.ttl), p) ==
      if p == (op.ns, op.k) then Some(NewEntry(At(entries, p), op.now, op.value, op.tags, op.actor, op.ttl))
      else At(entries, p)
  {}

  lemma DeletedAt(entries: Entries, ns: string, key: Option<string>, p: Key)
    ensures At(Deleted(entries, ns, key), p) == if Targeted(p, ns, key) then None else At(entries, p)
  {}

  /** The stored entries after pruning are exactly the view. */
  ghost predicate Shows(entries: Entries, v: View) {
    forall p: Key :: (p in v <==> At(entries, p).Some?) && (p in v ==> At(entries, p) == Some(v[p]))
  }

  lemma SaveAgrees(pruned: Entries, live: View, op: Op)
    requires op.SaveOp? && Shows(pruned, live) && forall p :: p in live ==> Live(live[p], op.now)
    ensures Agree(Saved(pruned, op.now, op.ns, op.k, op.value, op.tags, op.actor, op.ttl),
                  live[(op.ns, op.k) := SavedEntry(live, op)], op.now)
  {
    var after := Saved(pruned, op.now, op.ns, op.k, op.value, op.tags, op.actor, op.ttl);
    var a, b := ViewAt(after, op.now), Expire(live[(op.ns, op.k) := SavedEntry(live, op)], op.now);
    forall p: Key ensures p in a <==> p in b
      ensures p in a ==> a[p] == b[p]
    {
      InView(after, op.now, p);
      SavedAt(pruned, op, p);
    }
  }

  lemma DeleteAgrees(pruned: Entries, live: View, op: Op)
    requires op.DeleteOp? && Shows(pruned, live) && forall p :: p in live ==> Live(live[p], op.now)
    ensures Agree(Deleted(pruned, op.ns, op.key), map p | p in live && !Targeted(p, op.ns, op.key) :: live[p], op.now)
  {
    var after := Deleted(pruned, op.ns, op.key);
    var target := map p | p in live && !Targeted(p, op.ns, op.key) :: live[p];
    var a, b := ViewAt(after, op.now), Expire(target, op.now);
    forall p: Key ensures p in a <==> p in b
      ensures p in a ==> a[p] == b[p]
    {
      InView(after, op.now, p);
      DeletedAt(pruned, op.ns, op.key, p);
    }
  }

  lemma PrunedShows(entries: Entries, v: View, now: int)
    requires Agree(entries, v, now)
    ensures Shows(Pruned(entries, now), Expire(v, now))
    ensures forall p :: p in Expire(v, now) ==> Live(Expire(v, now)[p], now)
  {
    forall p: Key
      ensures p in Expire(v, now) <==> At(Pruned(entries, now), p).Some?
      ensures p in Expire(v, now) ==> At(Pruned(entries, now), p) == Some(Expire(v, now)[p])
    {
      PrunedAt(entries, now, p);
      InView(entries, now, p);
    }
  }

  lemma StepAgrees(entries: Entries, v: View, op: Op)
    requires Agree(entries, v, op.now)
    ensures Agree(LazyStep(entries, op), EagerStep(v, op), op.now)
  {
    PrunedShows(entries, v, op.now);
    match op
    case SaveOp(_, _, _, _, _, _, _) => SaveAgrees(Pruned(entries, op.now), Expire(v, op.now), op);
    case DeleteOp(_, _, _) => DeleteAgrees(Pruned(entries, op.now), Expire(v, op.now), op);
    case RetrieveOp(_) => PruneKeepsView(entries, op.now, op.now);
  }

  function LazyRun(ops: seq<Op>): Entries {
    if ops == [] then map[] else LazyStep(LazyRun(ops[..|ops| - 1]), ops[|ops| - 1])
  }

  function EagerRun(ops: seq<Op>): View {
    if ops == [] then map[] else EagerStep(EagerRun(ops[..|ops| - 1]), ops[|ops| - 1])
  }

  predicate InOrder(ops: seq<Op>) { forall i, j :: 0 <= i <= j < |ops| ==> ops[i].now <= ops[j].now }

  /** After any sequence of calls at non-decreasing times a reader sees, at every later moment, exactly
      what the eager map holds, however much garbage the store still carries. */
  lemma {:induction false} LazyRefinesEager(ops: seq<Op>, now: int)
    requires InOrder(ops) && (ops != [] ==> ops[|ops| - 1].now <= now)
    ensures ViewAt(LazyRun(ops), now) == Expire(EagerRun(ops), now)
  {
    if ops == [] {
      assert Expire(EagerRun(ops), now) == map[];
    } else {
      var init, last := ops[..|ops| - 1], ops[|ops| - 1];
      LazyRefinesEager(init, last.now);
      StepAgrees(LazyRun(init), EagerRun(init), last);
      AgreementLasts(LazyRun(ops), EagerRun(ops), last.now, now);
    }
  }

  /** The eager map at a moment determines what `retrieve` returns: the first matches are unique. */
  lemma FirstMatchesAreUnique(v: View, q: Query, now: int, limit: nat, r: seq<Found>, s: seq<Found>)
    requires FirstMatches(v, q, now, limit, r) && FirstMatches(v, q, now, limit, s)
    ensures r == s
  {
    if |r| <= |s| {
      SameStart(v, q, now, limit, r, s, |r|);
      assert forall i :: 0 <= i < |r| ==> r[i] == r[..|r|][i] && s[i] == s[..|r|][i];
      NothingBeyond(v, q, now, limit, r, s);
    } else {
      SameStart(v, q, now, limit, s, r, |s|);
      assert forall i :: 0 <= i < |s| ==> s[i] == s[..|s|][i] && r[i] == r[..|s|][i];
      NothingBeyond(v, q, now, limit, s, r);
    }
  }

  lemma {:induction false} SameStart(v: View, q: Query, now: int, limit: nat, r: seq<Found>, s: seq<Found>, n: nat)
    requires FirstMatches(v, q, now, limit, r) && FirstMatches(v, q, now, limit, s) && n <= |r| && n <= |s|
    ensures r[..n] == s[..n]
  {
    if n > 0 {
      SameStart(v, q, now, limit, r, s, n - 1);
      assert forall i :: 0 <= i < n - 1 ==> r[i] == r[..n - 1][i] && s[i] == s[..n - 1][i];
      NthAgrees(v, q, now, limit, r, s, n - 1);
      assert r[..n] == r[..n - 1] + [r[n - 1]] && s[..n] == s[..n - 1] + [s[n - 1]];
    }
  }

  lemma NthAgrees(v: View, q: Query, now: int, limit: nat, r: seq<Found>, s: seq<Found>, n: nat)
    requires FirstMatches(v, q, now, limit, r) && FirstMatches(v, q, now, limit, s) && n < |r| && n < |s|
    requires forall i :: 0 <= i < n ==> r[i].key == s[i].key
    ensures r[n] == s[n]
  {
    NthIsNotBefore(v, q, now, limit, r, s, n);
    NthIsNotBefore(v, q, now, limit, s, r, n);
    if r[n].key != s[n].key {
      PairLessTransitive(r[n].key, s[n].key, r[n].key);
      PairLessIrreflexive(r[n].key);
    }
    assert IsMatch(v, q, now, r[n]) && IsMatch(v, q, now, s[n]);
  }

  lemma NothingBeyond(v: View, q: Query, now: int, limit: nat, r: seq<Found>, s: seq<Found>)
    requires FirstMatches(v, q, now, limit, r) && FirstMatches(v, q, now, limit, s) && |r| <= |s|
    requires forall i :: 0 <= i < |r| ==> r[i].key == s[i].key
    ensures |r| == |s|
  {
    if |r| < |s| {
      var p := s[|r|].key;
      assert IsMatch(v, q, now, s[|r|]);
      if Listed(r, p) {
        var i :| 0 <= i < |r| && r[i].key == p;
        assert PairLess(s[i].key, s[|r|].key);
        PairLessIrreflexive(p);
      }
    }
  }

  /** The n-th of `s` is the n-th of `r` or comes after it. */
  lemma NthIsNotBefore(v: View, q: Query, now: int, limit: nat, r: seq<Found>, s: seq<Found>, n: nat)
    requires FirstMatches(v, q, now, limit, r) && FirstMatches(v, q, now, limit, s) && n < |r| && n < |s|
    requires forall i :: 0 <= i < n ==> r[i].key == s[i].key
    ensures s[n].key == r[n].key || PairLess(r[n].key, s[n].key)
  {
    var p := s[n].key;
    if Listed(r, p) {
      var i :| 0 <= i < |r| && r[i].key == p;
      if i < n {
        assert PairLess(s[i].key, s[n].key);
        PairLessIrreflexive(p);
      }
    }
  }

  // ---- Time to live ----

  /** A saved entry is visible at once, for more than `ttl - 1` seconds, and never as long as
      `ttl` seconds and the fraction that the stored time stamp drops. */
  lemma SavedEntryLivesItsTime(previous: Option<Entry>, now: int, value: string, tags: set<string>,
                               actor: Option<string>, ttl: int, later: int)
    requires ttl > 0
    ensures var e := NewEntry(previous, now, value, tags, actor, Some(ttl));
      && Live(e, now)
      && (later <= now + (ttl - 1) * ISO_UNIT ==> Live(e, later))
      && (now + ttl * ISO_UNIT <= later ==> !Live(e, later))
      && (Live(e, later) <==> later < IsoSeconds(now + ttl * ISO_UNIT))
  {}

  /** Creation data survive an update of a live entry, and only that. */
  lemma CreationSurvivesUpdatesNotExpiry(v: View, op: Op)
    requires op.SaveOp?
    ensures var p := (op.ns, op.k);
      var after := EagerStep(v, op);
      && p in after && after[p].updatedAt == IsoSeconds(op.now) && after[p].updatedBy == op.actor
      && (p in v && Live(v[p], op.now) ==>
            after[p].createdAt == v[p].createdAt && after[p].createdBy == v[p].createdBy)
      && (p !in v || !Live(v[p], op.now) ==>
            after[p].createdAt == IsoSeconds(op.now) && after[p].createdBy == op.actor)
      && (forall o: Key :: o != p ==> (o in after <==> o in v && Live(v[o], op.now)))
      && forall o: Key :: o != p && o in after ==> after[o] == v[o]
  {}

  /** An entry is there to be updated when the i-th call is made. */
  predicate LiveAtCall(ops: seq<Op>, i: nat, p: Key)
    requires i < |ops|
  {
    p in EagerRun(ops[..i]) && Live(EagerRun(ops[..i])[p], ops[i].now)
  }

  /** After any sequence of calls the creation data of an entry are those of the first save of its key
      since the key was last absent or expired: it was not live then, and is at every later call. */
  lemma {:induction false} CreatedByTheFirstSave(ops: seq<Op>, p: Key) returns (i: nat)
    requires p in EagerRun(ops)
    ensures i < |ops| && ops[i].SaveOp? && (ops[i].ns, ops[i].k) == p && !LiveAtCall(ops, i, p)
    ensures forall j :: i < j < |ops| ==> LiveAtCall(ops, j, p)
    ensures EagerRun(ops)[p].createdAt == ops[i].now / 1_000_000 * 1_000_000
    ensures EagerRun(ops)[p].createdBy == ops[i].actor
  {
    var n := |ops| - 1;
    if LiveAtCall(ops, n, p) {
      i := CreatedByTheFirstSave(ops[..n], p);
      forall j | 0 <= j < n ensures LiveAtCall(ops[..n], j, p) <==> LiveAtCall(ops, j, p) {
        assert ops[..n][..j] == ops[..j];
      }
    } else {
      i := n;
    }
  }

  // ---- What a reader sees, from the calls alone ----

  predicate SavesKey(op: Op, p: Key) { op.SaveOp? && op.ns == p.0 && op.k == p.1 }

  predicate DeletesKey(op: Op, p: Key) { op.DeleteOp? && op.ns == p.0 && (op.key == None || op.key == Some(p.1)) }

  /** The deadline is cut to the second. */
  predicate InTime(save: Op, now: int)
    requires save.SaveOp?
  {
    save.ttl.Some? ==> now < (save.now + save.ttl.value * 1_000_000) / 1_000_000 * 1_000_000
  }

  /** The i-th call saved the key; no call since has saved or deleted it, and all came before the deadline. */
  predicate Stands(ops: seq<Op>, i: nat, p: Key) {
    && i < |ops| && SavesKey(ops[i], p)
    && forall j :: i < j < |ops| ==> !SavesKey(ops[j], p) && !DeletesKey(ops[j], p) && InTime(ops[i], ops[j].now)
  }

  /** The entry holds the arguments of that call. */
  predicate IsOf(e: Entry, save: Op)
    requires save.SaveOp?
  {
    && e.value == save.value && e.tags == save.tags && e.updatedBy == save.actor && e.ttl == save.ttl
    && e.updatedAt == save.now / 1_000_000 * 1_000_000
    && (e.expiresAt == if save.ttl.None? then None
                       else Some((save.now + save.ttl.value * 1_000_000) / 1_000_000 * 1_000_000))
  }

  lemma StandsInInit(ops: seq<Op>, i: nat, p: Key)
    requires ops != []
    ensures var n := |ops| - 1;
      Stands(ops, i, p) <==>
        (i == n && SavesKey(ops[n], p))
        || (i < n && Stands(ops[..n], i, p)
            && !SavesKey(ops[n], p) && !DeletesKey(ops[n], p) && InTime(ops[i], ops[n].now))
  {
    var n := |ops| - 1;
    assert forall j :: 0 <= j < n ==> ops[..n][j] == ops[j];
  }

  lemma InTimeIsLive(e: Entry, save: Op, now: int)
    requires save.SaveOp? && IsOf(e, save)
    ensures Live(e, now) <==> InTime(save, now)
  {}

  /** One more call, seen from one entry. */
  lemma OneMoreStep(v: View, op: Op, p: Key)
    ensures p in EagerStep(v, op) <==> SavesKey(op, p) || (p in v && Live(v[p], op.now) && !DeletesKey(op, p))
    ensures SavesKey(op, p) ==> IsOf(EagerStep(v, op)[p], op)
    ensures !SavesKey(op, p) && p in EagerStep(v, op) ==> EagerStep(v, op)[p] == v[p]
  {}

  lemma {:induction false} AStandingSaveIsHeld(ops: seq<Op>, i: nat, p: Key)
    requires Stands(ops, i, p)
    ensures p in EagerRun(ops) && IsOf(EagerRun(ops)[p], ops[i])
  {
    var n := |ops| - 1;
    OneMoreStep(EagerRun(ops[..n]), ops[n], p);
    StandsInInit(ops, i, p);
    if i < n {
      AStandingSaveIsHeld(ops[..n], i, p);
      InTimeIsLive(EagerRun(ops[..n])[p], ops[i], ops[n].now);
    }
  }

  lemma {:induction false} WhatIsHeldStands(ops: seq<Op>, p: Key) returns (i: nat)
    requires p in EagerRun(ops)
    ensures Stands(ops, i, p)
  {
    var n := |ops| - 1;
    OneMoreStep(EagerRun(ops[..n]), ops[n], p);
    i := n;
    if !SavesKey(ops[n], p) {
      i := WhatIsHeldStands(ops[..n], p);
      AStandingSaveIsHeld(ops[..n], i, p);
      InTimeIsLive(EagerRun(ops[..n])[p], ops[i], ops[n].now);
    }
    StandsInInit(ops, i, p);
  }

  ghost predicate SomeSaveStands(ops: seq<Op>, p: Key, now: int) {
    exists i: nat :: Stands(ops, i, p) && InTime(ops[i], now)
  }

  /** After any sequence of calls a reader of the store sees an entry exactly when a save of its key
      stands and its deadline has not come, and it holds what that save said. */
  lemma AReaderSeesTheLastSave(ops: seq<Op>, now: int, p: Key)
    requires InOrder(ops) && (ops != [] ==> ops[|ops| - 1].now <= now)
    ensures p in ViewAt(LazyRun(ops), now) <==> SomeSaveStands(ops, p, now)
    ensures forall i: nat :: Stands(ops, i, p) && InTime(ops[i], now) ==>
      p in ViewAt(LazyRun(ops), now) && IsOf(ViewAt(LazyRun(ops), now)[p], ops[i])
  {
    LazyRefinesEager(ops, now);
    var v := EagerRun(ops);
    if p in v {
      var i := WhatIsHeldStands(ops, p);
      AStandingSaveIsHeld(ops, i, p);
      InTimeIsLive(v[p], ops[i], now);
    }
    forall i: nat | Stands(ops, i, p) && InTime(ops[i], now) ensures p in Expire(v, now) && IsOf(v[p], ops[i]) {
      AStandingSaveIsHeld(ops, i, p);
      InTimeIsLive(v[p], ops[i], now);
    }
  }

  /** What `retrieve` returns, in the fields: each result is an entry the reader sees, under the asked
      namespace, key, prefix and tags, with the whole seconds it has left; and below the limit nothing
      that fits is missing. */
  lemma RetrievedInFields(v: View, q: Query, now: int, limit: nat, r: seq<Found>)
    requires FirstMatches(v, q, now, limit, r)
    ensures forall i :: 0 <= i < |r| ==>
      && r[i].key in v && r[i].entry == v[r[i].key] && Fits(q, r[i].key, r[i].entry)
      && (r[i].entry.expiresAt == None ==> r[i].ttlRemaining == None)
      && (forall t :: r[i].entry.expiresAt == Some(t) ==>
            r[i].ttlRemaining == Some(if now < t then (t - now) / 1_000_000 else 0))
    ensures |r| < limit ==> forall p :: p in v && Fits(q, p, v[p]) ==> exists i :: 0 <= i < |r| && r[i].key == p
  {
    forall i | 0 <= i < |r| ensures r[i].key in v && Fits(q, r[i].key, r[i].entry) {
      assert IsMatch(v, q, now, r[i]);
    }
    forall p | |r| < limit && p in v && Fits(q, p, v[p]) ensures exists i :: 0 <= i < |r| && r[i].key == p {
      assert Listed(r, p);
    }
  }

  predicate Fits(q: Query, p: Key, e: Entry) {
    && q.namespace in {None, Some(p.0)} && q.key in {None, Some(p.1)}
    && (q.prefix.Some? ==> q.prefix.value <= p.1)
    && forall t :: t in q.tags ==> t in e.tags
  }

  // ---- Revisions ----

  lemma {:induction false} PairsSize(ks: set<string>, ns: string)
    ensures |set k | k in ks :: (ns, k)| == |ks|
    decreases |ks|
  {
    if ks == {} {
      assert (set k | k in ks :: (ns, k)) == {};
    } else {
      var k :| k in ks;
      PairsSize(ks - {k}, ns);
      assert (set j | j in ks :: (ns, j)) == (set j | j in ks - {k} :: (ns, j)) + {(ns, k)};
    }
  }

  /** The live entries a `delete` is aimed at, as the eager map sees them. */
  function Targets(v: View, op: Op): set<Key>
    requires op.DeleteOp?
  {
    set p | p in Expire(v, op.now) && Targeted(p, op.ns, op.key)
  }

  /** `removed` counts the live targets: an entry that only waited to be pruned does not count. */
  lemma RemovedCountsLiveTargets(entries: Entries, v: View, op: Op)
    requires op.DeleteOp? && Agree(entries, v, op.now)
    ensures RemovedCount(Pruned(entries, op.now), op.ns, op.key) == |Targets(v, op)|
  {
    var pruned := Pruned(entries, op.now);
    PrunedShows(entries, v, op.now);
    CountTargets(pruned, Expire(v, op.now), op.ns, op.key, Targets(v, op));
  }

  lemma CountTargets(pruned: Entries, live: View, ns: string, key: Option<string>, targets: set<Key>)
    requires Shows(pruned, live) && forall p :: p in targets <==> p in live && Targeted(p, ns, key)
    ensures RemovedCount(pruned, ns, key) == |targets|
  {
    var shelf := Shelved(pruned, ns);
    forall k ensures (ns, k) in live <==> k in shelf {
      assert At(pruned, (ns, k)) == Lookup(shelf, k);
    }
    if key.None? {
      PairsSize(shelf.Keys, ns);
      assert targets == set k | k in shelf.Keys :: (ns, k);
      assert |shelf| == |shelf.Keys|;
    } else if key.value in shelf {
      assert targets == {(ns, key.value)};
    } else {
      assert targets == {};
    }
  }

  /** The entry is there for the call to remove: expired, or a target of the `delete`. */
  predicate Removes(v: View, op: Op, p: Key) {
    p in v && (!Live(v[p], op.now) || (op.DeleteOp? && Targeted(p, op.ns, op.key)))
  }

  /** Every `save` moves the revision, a `delete` when it removes something, a `retrieve` never. */
  predicate MovesRevision(v: View, op: Op) { op.SaveOp? || (op.DeleteOp? && exists p :: p in v && Removes(v, op, p)) }

  /** What the calls do to the revision. */
  function RevisionAfter(ops: seq<Op>): nat {
    if ops == [] then 0
    else
      var init, op := ops[..|ops| - 1], ops[|ops| - 1];
      RevisionAfter(init) + RevisionStep(LazyRun(init), op)
  }

  function RevisionStep(entries: Entries, op: Op): nat {
    match op
    case SaveOp(_, _, _, _, _, _, _) => 1
    case DeleteOp(now, ns, key) =>
      if RemovedCount(Pruned(entries, now), ns, key) > 0 || HasExpired(entries, now) then 1 else 0
    case RetrieveOp(_) => 0
  }

  lemma SaveShows(pruned: Entries, live: View, op: Op)
    requires op.SaveOp? && Shows(pruned, live)
    ensures Shows(Saved(pruned, op.now, op.ns, op.k, op.value, op.tags, op.actor, op.ttl),
                  live[(op.ns, op.k) := SavedEntry(live, op)])
  {
    var after := Saved(pruned, op.now, op.ns, op.k, op.value, op.tags, op.actor, op.ttl);
    forall p: Key ensures At(after, p) ==
      if p == (op.ns, op.k) then Some(NewEntry(At(pruned, p), op.now, op.value, op.tags, op.actor, op.ttl))
      else At(pruned, p)
    {
      SavedAt(pruned, op, p);
    }
  }

  lemma DeleteShows(pruned: Entries, live: View, op: Op)
    requires op.DeleteOp? && Shows(pruned, live)
    ensures Shows(Deleted(pruned, op.ns, op.key), map p | p in live && !Targeted(p, op.ns, op.key) :: live[p])
  {
    forall p: Key
      ensures At(Deleted(pruned, op.ns, op.key), p) == if Targeted(p, op.ns, op.key) then None else At(pruned, p)
    {
      DeletedAt(pruned, op.ns, op.key, p);
    }
  }

  lemma ShowingAgrees(entries: Entries, v: View, now: int)
    requires Shows(entries, v)
    ensures Agree(entries, v, now)
  {
    var a, b := ViewAt(entries, now), Expire(v, now);
    forall p: Key ensures p in a <==> p in b
      ensures p in a ==> a[p] == b[p]
    {
      InView(entries, now, p);
    }
  }

  /** Right after a call the store holds just what the eager map holds: garbage only comes with time. */
  lemma {:induction false} LazyShowsEager(ops: seq<Op>)
    ensures Shows(LazyRun(ops), EagerRun(ops))
  {
    if ops != [] {
      var init, op := ops[..|ops| - 1], ops[|ops| - 1];
      LazyShowsEager(init);
      ShowingAgrees(LazyRun(init), EagerRun(init), op.now);
      PrunedShows(LazyRun(init), EagerRun(init), op.now);
      match op
      case SaveOp(_, _, _, _, _, _, _) => SaveShows(Pruned(LazyRun(init), op.now), Expire(EagerRun(init), op.now), op);
      case DeleteOp(_, _, _) => DeleteShows(Pruned(LazyRun(init), op.now), Expire(EagerRun(init), op.now), op);
      case RetrieveOp(_) =>
    }
  }

  lemma GarbageIsExpired(entries: Entries, v: View, now: int)
    requires Shows(entries, v)
    ensures HasExpired(entries, now) <==> exists p :: p in v && !Live(v[p], now)
  {
    if HasExpired(entries, now) {
      var ns :| ns in entries && ShelfExpired(entries[ns], now);
      var k :| k in entries[ns] && !Live(entries[ns][k], now);
      assert At(entries, (ns, k)) == Some(entries[ns][k]);
      assert (ns, k) in v;
    }
    if p :| p in v && !Live(v[p], now) {
      assert At(entries, p) == Some(v[p]);
      assert ShelfExpired(entries[p.0], now);
    }
  }

  lemma StepMovesRevision(entries: Entries, v: View, op: Op)
    requires Shows(entries, v)
    ensures RevisionStep(entries, op) == if MovesRevision(v, op) then 1 else 0
  {
    if op.DeleteOp? {
      GarbageIsExpired(entries, v, op.now);
      ShowingAgrees(entries, v, op.now);
      RemovedCountsLiveTargets(entries, v, op);
      if p :| p in v && Removes(v, op, p) {
        if Live(v[p], op.now) { assert p in Targets(v, op); }
      }
      if Targets(v, op) != {} {
        var p :| p in Targets(v, op);
        assert Removes(v, op, p);
      }
      if p :| p in v && !Live(v[p], op.now) {
        assert Removes(v, op, p);
      }
    }
  }

  predicate Moves(ops: seq<Op>, i: nat)
    requires i < |ops|
  {
    MovesRevision(EagerRun(ops[..i]), ops[i])
  }

  function Where(n: nat, p: nat -> bool): set<nat> { set i: nat | i < n && p(i) }

  function MovingCalls(ops: seq<Op>): set<nat> { Where(|ops|, (i: nat) => i < |ops| && Moves(ops, i)) }

  lemma OneMoreWhere(n: nat, p: nat -> bool, q: nat -> bool)
    requires forall i: nat :: i < n ==> (p(i) <==> q(i))
    ensures Where(n + 1, q) == Where(n, p) + if q(n) then {n} else {}
    ensures |Where(n + 1, q)| == |Where(n, p)| + if q(n) then 1 else 0
  {
    assert Where(n + 1, q) == Where(n, p) + if q(n) then {n} else {};
  }

  lemma LastCallMoves(init: seq<Op>, op: Op)
    ensures |MovingCalls(init + [op])| == |MovingCalls(init)| + if MovesRevision(EagerRun(init), op) then 1 else 0
  {
    var ops := init + [op];
    forall i: nat | i < |init| ensures Moves(init, i) <==> Moves(ops, i) {
      assert ops[..i] == init[..i];
    }
    assert ops[..|init|] == init;
    OneMoreWhere(|init|, (i: nat) => i < |init| && Moves(init, i), (i: nat) => i < |ops| && Moves(ops, i));
  }

  lemma OneMoreCall(ops: seq<Op>, op: Op)
    ensures LazyRun(ops + [op]) == LazyStep(LazyRun(ops), op)
    ensures RevisionAfter(ops + [op]) == RevisionAfter(ops) + RevisionStep(LazyRun(ops), op)
  {
    assert (ops + [op])[..|ops|] == ops;
  }

  /** After any sequence of calls the revision is the number of saves and of deletes that found
      something to remove, a target or an entry that has expired since the call before. */
  lemma {:induction false} RevisionCountsChanges(ops: seq<Op>)
    ensures RevisionAfter(ops) == |MovingCalls(ops)|
  {
    if ops == [] {
      assert MovingCalls(ops) == {};
    } else {
      var init, op := ops[..|ops| - 1], ops[|ops| - 1];
      assert ops == init + [op];
      RevisionCountsChanges(init);
      LazyShowsEager(init);
      StepMovesRevision(LazyRun(init), EagerRun(init), op);
      OneMoreCall(init, op);
      LastCallMoves(init, op);
    }
  }

  /** The revision after a `delete` is not a function of what a reader sees. Two histories that look the
      same, one of them read since its entry expired: the same `delete`, which removes nothing in
      either, gives a new revision in the other only. */
  lemma DeleteRevisionShowsGarbage() returns (clean: seq<Op>, dirty: seq<Op>, delete: Op)
    ensures delete.DeleteOp? && InOrder(clean + [delete]) && InOrder(dirty + [delete])
    ensures ViewAt(LazyRun(clean), delete.now) == ViewAt(LazyRun(dirty), delete.now)
    ensures RemovedCount(Pruned(LazyRun(clean), delete.now), delete.ns, delete.key) == 0
    ensures RemovedCount(Pruned(LazyRun(dirty), delete.now), delete.ns, delete.key) == 0
    ensures RevisionAfter(clean) == RevisionAfter(dirty) == RevisionAfter(clean + [delete])
    ensures RevisionAfter(dirty + [delete]) == RevisionAfter(dirty) + 1
  {
    var later := 2 * ISO_UNIT;
    dirty := ExpiredHistory(later);
    delete := DeleteOp(later, "other", None);
    clean := dirty + [RetrieveOp(later)];
    ReadThenDelete(dirty, later);
    InOrderSnoc(dirty, delete);
    InOrderSnoc(dirty, RetrieveOp(later));
    InOrderSnoc(clean, delete);
  }

  lemma InOrderSnoc(ops: seq<Op>, op: Op)
    requires InOrder(ops) && (ops != [] ==> ops[|ops| - 1].now <= op.now)
    ensures InOrder(ops + [op])
  {}

  lemma ExpiredHistory(later: int) returns (dirty: seq<Op>)
    requires later >= ISO_UNIT
    ensures InOrder(dirty) && |dirty| == 1 && dirty[0].now == 0
    ensures Pruned(LazyRun(dirty), later) == map[] && ViewAt(LazyRun(dirty), later) == map[]
    ensures HasExpired(LazyRun(dirty), later)
  {
    var save := SaveOp(0, "n", "k", "", {}, None, Some(1));
    var e := NewEntry(None, 0, "", {}, None, Some(1));
    dirty := [save];
    SavedOnce(save, e);
    OneEntryExpires(e, later);
  }

  /** When all that is stored has expired, reading first saves a revision. */
  lemma ReadThenDelete(dirty: seq<Op>, now: int)
    requires Pruned(LazyRun(dirty), now) == map[] && ViewAt(LazyRun(dirty), now) == map[]
    requires HasExpired(LazyRun(dirty), now)
    ensures var clean, delete := dirty + [RetrieveOp(now)], DeleteOp(now, "other", None);
      && LazyRun(clean) == map[] && ViewAt(LazyRun(clean), now) == map[] && Pruned(LazyRun(clean), now) == map[]
      && RemovedCount(Pruned(LazyRun(clean), now), "other", None) == 0
      && RemovedCount(Pruned(LazyRun(dirty), now), "other", None) == 0
      && RevisionAfter(clean) == RevisionAfter(dirty) == RevisionAfter(clean + [delete])
      && RevisionAfter(dirty + [delete]) == RevisionAfter(dirty) + 1
  {
    var read, delete := RetrieveOp(now), DeleteOp(now, "other", None);
    OneMoreCall(dirty, read);
    OneMoreCall(dirty + [read], delete);
    OneMoreCall(dirty, delete);
    EmptyStore(now);
  }

  lemma SavedOnce(save: Op, e: Entry)
    requires save.SaveOp? && save.ns == "n" && save.k == "k"
    requires e == NewEntry(None, save.now, save.value, save.tags, save.actor, save.ttl)
    ensures LazyRun([save]) == map["n" := map["k" := e]] && RevisionAfter([save]) == 1
  {
    OneMoreCall([], save);
    assert [] + [save] == [save];
    EmptyStore(save.now);
  }

  lemma EmptyStore(now: int)
    ensures Pruned(map[], now) == map[] && ViewAt(map[], now) == map[] && !HasExpired(map[], now)
  {}

  lemma OneEntryExpires(e: Entry, now: int)
    requires !Live(e, now)
    ensures var store: Entries := map["n" := map["k" := e]];
      Pruned(store, now) == map[] && ViewAt(store, now) == map[] && HasExpired(store, now)
  {
    var store: Entries := map["n" := map["k" := e]];
    assert ShelfExpired(store["n"], now) by { assert "k" in store["n"]; }
    assert PruneShelf(store["n"], now) == map[];
    forall p: Key ensures p !in ViewAt(store, now) {
      InView(store, now, p);
    }
  }
}
