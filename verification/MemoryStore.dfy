/** The workspace memory: a two-level store whose expired entries are only removed in passing,
    against a flat map from which they disappear on time. */
module MemoryStore {
  import opened Options
  import opened Ordering
  import opened Text

  /** Times are microseconds; `ISO_UNIT` is the resolution of the stored time stamps. */
  const ISO_UNIT := 1_000_000
  const MAX_NAMESPACE_LEN := 64
  const MAX_KEY_LEN := 128
  const MAX_VALUE_BYTES := 32_000
  const DEFAULT_RESULTS := 50
  const MAX_RESULTS := 100

  /** `isoformat(timespec="seconds")` cuts the fraction of the second off. */
  function IsoSeconds(t: int): int { t - t % ISO_UNIT }

  /** `value` is the serialized value; tags are kept as a set. */
  datatype Entry = Entry(
    value: string,
    tags: set<string>,
    createdAt: int,
    createdBy: Option<string>,
    updatedAt: int,
    updatedBy: Option<string>,
    ttl: Option<int>,
    expiresAt: Option<int>)

  type Shelf = map<string, Entry>
  type Entries = map<string, Shelf>

  predicate Live(e: Entry, now: int) { e.expiresAt.Some? ==> e.expiresAt.value > now }

  // ---- Argument checks ----

  predicate TokenChar(c: char) {
    'a' <= c <= 'z' || 'A' <= c <= 'Z' || '0' <= c <= '9' || c in {'.', '_', ':', '-'}
  }

  function ValidateToken(raw: string, maxLen: nat): Option<string> {
    var text := Strip(raw);
    if text != "" && |text| <= maxLen && forall i :: 0 <= i < |text| ==> TokenChar(text[i]) then Some(text) else None
  }

  function ValidatePrefix(raw: string): Option<string> {
    var text := Strip(raw);
    if text != "" && forall i :: 0 <= i < |text| ==> TokenChar(text[i]) then Some(text) else None
  }

  /** `None` stands for the rejected argument. */
  function NormalizeLimit(limit: Option<int>): (n: Option<nat>)
    ensures n.Some? <==> limit.None? || limit.value > 0
    ensures n.Some? ==> 1 <= n.value <= 100 && (limit.None? ==> n.value == 50)
    ensures n.Some? && limit.Some? ==> n.value <= limit.value && (n.value == limit.value || n.value == 100)
  {
    if limit.None? then Some(DEFAULT_RESULTS)
    else if limit.value <= 0 then None
    else Some(if limit.value < MAX_RESULTS then limit.value else MAX_RESULTS)
  }

  /** Bytes of a text in UTF-8. */
  function Utf8Size(s: string): nat {
    if s == "" then 0
    else
      var c := s[|s| - 1];
      Utf8Size(s[..|s| - 1]) + if c < '\U{80}' then 1 else if c < '\U{800}' then 2 else if c < '\U{10000}' then 3 else 4
  }

  function NormalizeActor(actor: Option<string>): Option<string> {
    if actor.None? || Strip(actor.value) == "" then None else Some(Strip(actor.value))
  }

  predicate HasPath(text: string) { '/' in text || '\\' in text }

  predicate ValidTags(values: seq<string>) { forall i :: 0 <= i < |values| ==> !HasPath(Strip(values[i])) }

  function TagSet(values: seq<string>): set<string> {
    set i | 0 <= i < |values| && Strip(values[i]) != "" :: Strip(values[i])
  }

  /** Without a list of its own an entry takes the tags in its value (`valueTags`). */
  function GivenTags(valueTags: seq<string>, tags: Option<seq<string>>): seq<string> {
    if tags.None? then valueTags else tags.value
  }

  /** `_normalize_tags`; `None` when a tag is refused. */
  method NormalizeTags(values: seq<string>) returns (tags: Option<set<string>>)
    ensures tags == if ValidTags(values) then Some(TagSet(values)) else None
  {
    var normalized: set<string> := {};
    for i := 0 to |values|
      invariant normalized == TagSet(values[..i]) && ValidTags(values[..i])
    {
      var text := Strip(values[i]);
      assert values[..i + 1] == values[..i] + [values[i]];
      if text != "" {
        if HasPath(text) {
          return None;
        }
        normalized := normalized + {text};
      }
      TagSetGrows(values, i);
    }
    assert values[..|values|] == values;
    tags := Some(normalized);
  }

  lemma TagSetGrows(values: seq<string>, i: nat)
    requires i < |values|
    ensures TagSet(values[..i + 1]) == TagSet(values[..i]) + if Strip(values[i]) != "" then {Strip(values[i])} else {}
  {
    var a, b := values[..i], values[..i + 1];
    assert forall j :: 0 <= j < i ==> b[j] == a[j];
    assert b[i] == values[i];
    assert forall x :: x in TagSet(b) ==> x in TagSet(a) || x == Strip(values[i]);
  }

  predicate ValidQuery(namespace: Option<string>, key: Option<string>, prefix: Option<string>, tags: seq<string>) {
    && (namespace.Some? ==> ValidateToken(namespace.value, MAX_NAMESPACE_LEN).Some?)
    && (key.Some? ==> ValidateToken(key.value, MAX_KEY_LEN).Some?)
    && (prefix.Some? ==> ValidatePrefix(prefix.value).Some?)
    && ValidTags(tags)
  }

  function MakeQuery(namespace: Option<string>, key: Option<string>, prefix: Option<string>, tags: seq<string>): Query {
    Query(if namespace.Some? then ValidateToken(namespace.value, MAX_NAMESPACE_LEN) else None,
          if key.Some? then ValidateToken(key.value, MAX_KEY_LEN) else None,
          if prefix.Some? then ValidatePrefix(prefix.value) else None,
          TagSet(tags))
  }

  // ---- The flat view ----

  type Key = (string, string)
  type View = map<Key, Entry>

  /** What a reader at time `now` should see of the store. */
  function ViewAt(entries: Entries, now: int): View {
    map ns, k | ns in entries && k in entries[ns] && Live(entries[ns][k], now) :: (ns, k) := entries[ns][k]
  }

  function Expire(v: View, now: int): View { map p | p in v && Live(v[p], now) :: v[p] }

  datatype Query = Query(namespace: Option<string>, key: Option<string>, prefix: Option<string>, tags: set<string>)

  predicate Matches(q: Query, p: Key, e: Entry) {
    && (q.namespace.Some? ==> p.0 == q.namespace.value)
    && (q.key.Some? ==> p.1 == q.key.value)
    && (q.prefix.Some? ==> StartsWith(p.1, q.prefix.value))
    && q.tags <= e.tags
  }

  datatype Found = Found(key: Key, entry: Entry, ttlRemaining: Option<int>)

  /** `r` is the first `limit` matches of the view in (namespace, key) order. */
  ghost predicate FirstMatches(v: View, q: Query, now: int, limit: nat, r: seq<Found>) {
    && |r| <= limit
    && (forall i, j :: 0 <= i < j < |r| ==> PairLess(r[i].key, r[j].key))
    && (forall i :: 0 <= i < |r| ==> IsMatch(v, q, now, r[i]))
    && (forall p :: p in v && Matches(q, p, v[p]) && !Listed(r, p) ==>
          |r| == limit && forall i :: 0 <= i < |r| ==> PairLess(r[i].key, p))
  }

  predicate IsMatch(v: View, q: Query, now: int, f: Found) {
    && f.key in v && f.entry == v[f.key] && Matches(q, f.key, f.entry)
    && f.ttlRemaining == Remaining(f.entry, now)
  }

  predicate Listed(r: seq<Found>, p: Key) { exists i :: 0 <= i < |r| && r[i].key == p }

  function Remaining(e: Entry, now: int): Option<int> {
    if e.expiresAt.None? then None
    else Some(if e.expiresAt.value > now then (e.expiresAt.value - now) / ISO_UNIT else 0)
  }

  // ---- The store ----

  /** Expired entries of one namespace dropped. */
  function PruneShelf(shelf: Shelf, now: int): Shelf { map k | k in shelf && Live(shelf[k], now) :: shelf[k] }

  predicate ShelfExpired(shelf: Shelf, now: int) { exists k :: k in shelf && !Live(shelf[k], now) }

  predicate HasExpired(entries: Entries, now: int) {
    exists ns :: ns in entries && ShelfExpired(entries[ns], now)
  }

  function Pruned(entries: Entries, now: int): Entries {
    map ns | ns in entries && PruneShelf(entries[ns], now) != map[] :: PruneShelf(entries[ns], now)
  }

  /** Every namespace but those in `todo` has been pruned. */
  predicate PrunedExcept(before: Entries, entries: Entries, todo: set<string>, now: int) {
    && entries.Keys <= before.Keys
    && (forall ns :: ns in before && ns in todo ==> ns in entries && entries[ns] == before[ns])
    && (forall ns :: ns in before && ns !in todo ==> (ns in entries <==> PruneShelf(before[ns], now) != map[]))
    && (forall ns :: ns in entries && ns !in todo ==> entries[ns] == PruneShelf(before[ns], now))
  }

  lemma PruneOne(before: Entries, entries: Entries, todo: set<string>, name: string, now: int)
    requires PrunedExcept(before, entries, todo, now) && name in todo && name in before
    ensures name in entries && entries[name] == before[name]
    ensures var kept := PruneShelf(before[name], now);
      PrunedExcept(before, if kept == map[] then entries - {name} else entries[name := kept], todo - {name}, now)
  {}

  lemma PruneShelfChanges(shelf: Shelf, now: int)
    ensures PruneShelf(shelf, now) != shelf <==> ShelfExpired(shelf, now)
  {
    if ShelfExpired(shelf, now) {
      var k :| k in shelf && !Live(shelf[k], now);
      assert k !in PruneShelf(shelf, now);
    }
  }

  function NewEntry(previous: Option<Entry>, now: int, value: string, tags: set<string>, actor: Option<string>,
                    ttl: Option<int>): Entry {
    Entry(value, tags,
          if previous.Some? then previous.value.createdAt else IsoSeconds(now),
          if previous.Some? then previous.value.createdBy else actor,
          IsoSeconds(now), actor, ttl,
          if ttl.Some? then Some(IsoSeconds(now + ttl.value * ISO_UNIT)) else None)
  }

  function Shelved(entries: Entries, ns: string): Shelf { if ns in entries then entries[ns] else map[] }

  function Lookup(shelf: Shelf, k: string): Option<Entry> { if k in shelf then Some(shelf[k]) else None }

  class WorkspaceMemoryStore {
    var entries: Entries
    var revision: nat

    constructor ()
      ensures entries == map[] && revision == 0
    {
      entries, revision := map[], 0;
    }

    method PruneExpired(now: int) returns (changed: bool)
      modifies this`entries
      ensures entries == Pruned(old(entries), now)
      ensures changed == HasExpired(old(entries), now)
    {
      changed := false;
      ghost var before := entries;
      var todo := entries.Keys;
      while todo != {}
        invariant todo <= before.Keys
        invariant PrunedExcept(before, entries, todo, now)
        invariant changed <==> exists ns :: ns in before && ns !in todo && ShelfExpired(before[ns], now)
        decreases |todo|
      {
        var name :| name in todo;
        PruneShelfChanges(entries[name], now);
        PruneOne(before, entries, todo, name, now);
        var kept := PruneShelf(entries[name], now);
        if kept != entries[name] {
          changed := true;
        }
        entries := if kept == map[] then entries - {name} else entries[name := kept];
        todo := todo - {name};
      }
    }

    /** False when an argument is refused (`ValueError`): then nothing changed. */
    method Save(now: int, namespace: string, key: string, value: string, valueTags: seq<string>,
                tags: Option<seq<string>>, actor: Option<string>, ttl: Option<int>) returns (ok: bool)
      modifies this
      ensures ok <==>
        && ValidateToken(namespace, MAX_NAMESPACE_LEN).Some? && ValidateToken(key, MAX_KEY_LEN).Some?
        && Utf8Size(value) <= MAX_VALUE_BYTES && ValidTags(GivenTags(valueTags, tags))
        && (ttl.Some? ==> ttl.value > 0)
      ensures !ok ==> entries == old(entries) && revision == old(revision)
      ensures ok ==>
        var ns, k := ValidateToken(namespace, MAX_NAMESPACE_LEN).value, ValidateToken(key, MAX_KEY_LEN).value;
        && entries == Saved(Pruned(old(entries), now), now, ns, k, value, TagSet(GivenTags(valueTags, tags)),
                            NormalizeActor(actor), ttl)
        && revision == old(revision) + 1
    {
      var ns := ValidateToken(namespace, MAX_NAMESPACE_LEN);
      var k := ValidateToken(key, MAX_KEY_LEN);
      if ns.None? || k.None? || Utf8Size(value) > MAX_VALUE_BYTES {
        return false;
      }
      var entryTags := NormalizeTags(GivenTags(valueTags, tags));
      if entryTags.None? || (ttl.Some? && ttl.value <= 0) {
        return false;
      }
      var _ := PruneExpired(now);
      var shelf := Shelved(entries, ns.value);
      var entry := NewEntry(Lookup(shelf, k.value), now, value, entryTags.value, NormalizeActor(actor), ttl);
      entries := entries[ns.value := shelf[k.value := entry]];
      revision := revision + 1;
      ok := true;
    }

    /** `None` when an argument is refused. */
    method Delete(now: int, namespace: string, key: Option<string>) returns (removed: Option<nat>)
      modifies this
      ensures removed.Some? <==>
        && ValidateToken(namespace, MAX_NAMESPACE_LEN).Some?
        && (key.Some? ==> ValidateToken(key.value, MAX_KEY_LEN).Some?)
      ensures removed.None? ==> entries == old(entries) && revision == old(revision)
      ensures removed.Some? ==>
        var ns := ValidateToken(namespace, MAX_NAMESPACE_LEN).value;
        var k := if key.Some? then ValidateToken(key.value, MAX_KEY_LEN) else None;
        && entries == Deleted(Pruned(old(entries), now), ns, k)
        && removed.value == RemovedCount(Pruned(old(entries), now), ns, k)
        && revision == old(revision) + if removed.value > 0 || HasExpired(old(entries), now) then 1 else 0
    {
      var ns := ValidateToken(namespace, MAX_NAMESPACE_LEN);
      var k := if key.Some? then ValidateToken(key.value, MAX_KEY_LEN) else None;
      if ns.None? || (key.Some? && k.None?) {
        return None;
      }
      var changed := PruneExpired(now);
      ghost var pruned := entries;
      var count: nat := 0;
      if k.None? {
        if ns.value in entries {
          count := |entries[ns.value]|;
          entries := entries - {ns.value};
        }
      } else if ns.value in entries && k.value in entries[ns.value] {
        var shelf := entries[ns.value] - {k.value};
        count := 1;
        entries := if shelf == map[] then entries - {ns.value} else entries[ns.value := shelf];
      }
      assert entries == Deleted(pruned, ns.value, k) && count == RemovedCount(pruned, ns.value, k);
      if count > 0 || changed {
        revision := revision + 1;
      }
      removed := Some(count);
    }

    /** `None` when an argument is refused. The store is only pruned; its revision never moves. */
    method Retrieve(now: int, namespace: Option<string>, key: Option<string>, prefix: Option<string>,
                    tags: seq<string>, limit: Option<int>) returns (results: Option<seq<Found>>)
      modifies this`entries
      ensures results.Some? <==> ValidQuery(namespace, key, prefix, tags) && NormalizeLimit(limit).Some?
      ensures revision == old(revision)
      ensures results.None? ==> entries == old(entries)
      ensures results.Some? ==>
        && entries == Pruned(old(entries), now)
        && FirstMatches(ViewAt(old(entries), now), MakeQuery(namespace, key, prefix, tags), now,
                        NormalizeLimit(limit).value, results.value)
    {
      if !ValidQuery(namespace, key, prefix, tags) || NormalizeLimit(limit).None? {
        return None;
      }
      var _ := PruneExpired(now);
      var found := CollectEntries(entries, MakeQuery(namespace, key, prefix, tags), NormalizeLimit(limit).value, now);
      PruneKeepsView(old(entries), now, now);
      results := Some(found);
    }
  }

  function Saved(entries: Entries, now: int, ns: string, k: string, value: string, tags: set<string>,
                 actor: Option<string>, ttl: Option<int>): Entries {
    var shelf := Shelved(entries, ns);
    entries[ns := shelf[k := NewEntry(Lookup(shelf, k), now, value, tags, actor, ttl)]]
  }

  function Deleted(entries: Entries, ns: string, k: Option<string>): Entries {
    if ns !in entries then entries
    else if k.None? then entries - {ns}
    else if k.value !in entries[ns] then entries
    else if entries[ns] - {k.value} == map[] then entries - {ns}
    else entries[ns := entries[ns] - {k.value}]
  }

  function RemovedCount(entries: Entries, ns: string, k: Option<string>): nat {
    if ns !in entries then 0
    else if k.None? then |entries[ns]|
    else if k.value in entries[ns] then 1 else 0
  }

  function At(entries: Entries, p: Key): Option<Entry> { Lookup(Shelved(entries, p.0), p.1) }

  lemma InView(entries: Entries, now: int, p: Key)
    ensures p in ViewAt(entries, now) <==> At(entries, p).Some? && Live(At(entries, p).value, now)
    ensures p in ViewAt(entries, now) ==> ViewAt(entries, now)[p] == At(entries, p).value
  {}

  lemma PrunedAt(entries: Entries, now: int, p: Key)
    ensures At(Pruned(entries, now), p) ==
      if At(entries, p).Some? && Live(At(entries, p).value, now) then At(entries, p) else None
  {
    if At(entries, p).Some? && Live(At(entries, p).value, now) {
      assert p.1 in PruneShelf(entries[p.0], now);
    }
  }

  /** Pruning changes nothing a reader can see, now or later. */
  lemma PruneKeepsView(entries: Entries, now: int, later: int)
    requires now <= later
    ensures ViewAt(Pruned(entries, now), later) == ViewAt(entries, later)
  {
    var a, b := ViewAt(Pruned(entries, now), later), ViewAt(entries, later);
    forall p: Key ensures p in a <==> p in b
      ensures p in a ==> a[p] == b[p]
    {
      InView(Pruned(entries, now), later, p);
      InView(entries, later, p);
      PrunedAt(entries, now, p);
    }
  }

  // ---- The search ----

  /** Positions the nested loops have passed when they are at shelf `i`, key `j`. */
  predicate Visited(names: seq<string>, i: nat, keys: seq<string>, j: nat, p: Key)
    requires i <= |names| && j <= |keys|
  {
    p.0 in names[..i] || (i < |names| && p.0 == names[i] && p.1 in keys[..j])
  }

  /** The results so far: in order, and exactly the matches among the visited positions. */
  predicate Collected(v: View, q: Query, now: int, r: seq<Found>, names: seq<string>, i: nat, keys: seq<string>, j: nat)
    requires i <= |names| && j <= |keys|
  {
    && (forall a, b :: 0 <= a < b < |r| ==> PairLess(r[a].key, r[b].key))
    && (forall a :: 0 <= a < |r| ==> IsMatch(v, q, now, r[a]) && Visited(names, i, keys, j, r[a].key))
    && (forall p :: p in v && Matches(q, p, v[p]) && Visited(names, i, keys, j, p) ==> Listed(r, p))
  }

  /** What is visited comes before what is not. */
  lemma VisitedComeFirst(names: seq<string>, i: nat, keys: seq<string>, j: nat, a: Key, b: Key)
    requires i < |names| && j <= |keys| && Increasing(names) && Increasing(keys)
    requires Visited(names, i, keys, j, a) && !Visited(names, i, keys, j, b)
    requires b.0 in names && (b.0 == names[i] ==> b.1 in keys)
    ensures PairLess(a, b)
  {
    var m :| 0 <= m < |names| && names[m] == b.0;
    assert forall n :: 0 <= n < i ==> names[n] in names[..i];
    if a.0 in names[..i] {
      var n :| 0 <= n < i && names[n] == a.0;
    } else if m == i {
      var l :| 0 <= l < |keys| && keys[l] == b.1;
      assert forall n :: 0 <= n < j ==> keys[n] in keys[..j];
      var n :| 0 <= n < j && keys[n] == a.1;
    }
  }

  lemma NextIsUnvisited(names: seq<string>, i: nat, keys: seq<string>, j: nat)
    requires i < |names| && j < |keys| && Increasing(names) && Increasing(keys)
    ensures !Visited(names, i, keys, j, (names[i], keys[j]))
    ensures forall p :: Visited(names, i, keys, j + 1, p) <==>
      Visited(names, i, keys, j, p) || p == (names[i], keys[j])
  {
    if names[i] in names[..i] {
      var n :| 0 <= n < i && names[n] == names[i];
      LessIrreflexive(names[i]);
    }
    if keys[j] in keys[..j] {
      var n :| 0 <= n < j && keys[n] == keys[j];
      LessIrreflexive(keys[j]);
    }
    assert keys[..j + 1] == keys[..j] + [keys[j]];
  }

  lemma AppendMatch(v: View, q: Query, now: int, r: seq<Found>, names: seq<string>, i: nat, keys: seq<string>, j: nat, f: Found)
    requires i < |names| && j < |keys| && Increasing(names) && Increasing(keys)
    requires Collected(v, q, now, r, names, i, keys, j)
    requires f.key == (names[i], keys[j]) && IsMatch(v, q, now, f)
    ensures Collected(v, q, now, r + [f], names, i, keys, j + 1)
  {
    NextIsUnvisited(names, i, keys, j);
    var r' := r + [f];
    forall a | 0 <= a < |r| ensures PairLess(r[a].key, f.key) {
      VisitedComeFirst(names, i, keys, j, r[a].key, f.key);
    }
    forall p | p in v && Matches(q, p, v[p]) && Visited(names, i, keys, j + 1, p) ensures Listed(r', p) {
      if p == f.key {
        assert r'[|r|].key == p;
      } else {
        var a :| 0 <= a < |r| && r[a].key == p;
        assert r'[a].key == p;
      }
    }
  }

  lemma SkipNonMatch(v: View, q: Query, now: int, r: seq<Found>, names: seq<string>, i: nat, keys: seq<string>, j: nat)
    requires i < |names| && j < |keys| && Increasing(names) && Increasing(keys)
    requires Collected(v, q, now, r, names, i, keys, j)
    requires var p := (names[i], keys[j]); p !in v || !Matches(q, p, v[p])
    ensures Collected(v, q, now, r, names, i, keys, j + 1)
  {
    NextIsUnvisited(names, i, keys, j);
  }

  lemma ShelfDone(v: View, q: Query, now: int, r: seq<Found>, names: seq<string>, i: nat, keys: seq<string>)
    requires i < |names| && Collected(v, q, now, r, names, i, keys, |keys|)
    requires forall p :: p in v && p.0 == names[i] ==> p.1 in keys
    ensures Collected(v, q, now, r, names, i + 1, [], 0)
  {
    assert names[..i + 1] == names[..i] + [names[i]];
    assert keys[..|keys|] == keys;
    assert forall p :: p in v ==> (Visited(names, i + 1, [], 0, p) <==> Visited(names, i, keys, |keys|, p));
  }

  /** An early return at the limit has left out only later matches. */
  lemma FullIsFirst(v: View, q: Query, now: int, r: seq<Found>, names: seq<string>, i: nat, keys: seq<string>, j: nat)
    requires i < |names| && j <= |keys| && Increasing(names) && Increasing(keys)
    requires Collected(v, q, now, r, names, i, keys, j)
    requires forall p :: p in v && Matches(q, p, v[p]) ==> p.0 in names && (p.0 == names[i] ==> p.1 in keys)
    ensures FirstMatches(v, q, now, |r|, r)
  {
    forall p, a | p in v && Matches(q, p, v[p]) && !Listed(r, p) && 0 <= a < |r| ensures PairLess(r[a].key, p) {
      VisitedComeFirst(names, i, keys, j, r[a].key, p);
    }
  }

  /** The inner loop; `full` is the early return. */
  method CollectShelf(ghost v: View, q: Query, limit: nat, now: int, names: seq<string>, i: nat, shelf: Shelf,
                      found: seq<Found>) returns (results: seq<Found>, full: bool)
    requires i < |names| && Increasing(names) && |found| < limit
    requires forall k :: k in shelf && Live(shelf[k], now) ==> (names[i], k) in v && v[(names[i], k)] == shelf[k]
    requires forall p :: p in v && p.0 == names[i] ==> p.1 in shelf && Live(shelf[p.1], now)
    requires forall p :: p in v && Matches(q, p, v[p]) ==> p.0 in names
    requires Collected(v, q, now, found, names, i, [], 0)
    ensures full ==> FirstMatches(v, q, now, limit, results)
    ensures !full ==> |results| < limit && Collected(v, q, now, results, names, i + 1, [], 0)
  {
    results, full := found, false;
    var keys := Sorted(shelf.Keys);
    var j := 0;
    while j < |keys|
      invariant 0 <= j <= |keys| && |results| < limit
      invariant Collected(v, q, now, results, names, i, keys, j)
    {
      var p := (names[i], keys[j]);
      var e := shelf[keys[j]];
      if Matches(q, p, e) && Live(e, now) {
        AppendMatch(v, q, now, results, names, i, keys, j, Found(p, e, Remaining(e, now)));
        results := results + [Found(p, e, Remaining(e, now))];
        if |results| >= limit {
          FullIsFirst(v, q, now, results, names, i, keys, j + 1);
          return results, true;
        }
      } else {
        SkipNonMatch(v, q, now, results, names, i, keys, j);
      }
      j := j + 1;
    }
    ShelfDone(v, q, now, results, names, i, keys);
  }

  /** The search over the sorted namespaces, with its early return. */
  method CollectEntries(entries: Entries, q: Query, limit: nat, now: int) returns (results: seq<Found>)
    requires limit >= 1
    ensures FirstMatches(ViewAt(entries, now), q, now, limit, results)
  {
    results := [];
    var names: seq<string>;
    if q.namespace.Some? {
      names := [q.namespace.value];
    } else {
      names := Sorted(entries.Keys);
    }
    ghost var v := ViewAt(entries, now);
    var i := 0;
    while i < |names|
      invariant 0 <= i <= |names| && |results| < limit
      invariant Collected(v, q, now, results, names, i, [], 0)
    {
      var full: bool;
      results, full := CollectShelf(v, q, limit, now, names, i, Shelved(entries, names[i]), results);
      if full {
        return;
      }
      i := i + 1;
    }
    assert names[..|names|] == names;
  }
}
