/** The state agents share: merged updates, turn stamps and expiry of what nobody reaffirms. */
module SharedState {
  import opened Options
  import opened Text

  /** A JSON value; numbers, flags and objects are only told apart. */
  datatype Json = Null | Str(text: string) | List(items: seq<Json>) | Other(id: int)

  const LIST_KEYS := {"decisions", "acceptance_criteria", "allowed_scope", "non_goals", "out_of_scope_notes", "evidence"}
  const STRING_KEYS := {"goal", "goal_canonical", "current_step", "next_step"}
  const AGENT_KEYS := LIST_KEYS + STRING_KEYS
  const VOLATILE_KEYS := {"goal", "goal_canonical", "current_step", "next_step"}
  const MAX_STRING := 4000
  const MAX_ITEM := 2000
  const MAX_LIST := 50
  const MAX_AGE := 10

  /** The shared dictionary, with its entry `_current_turn` apart, and the stamps kept beside it. */
  datatype State = State(shared: map<string, Json>, turn: Option<int>, stamps: map<string, int>)

  function Turn(s: State): int { if s.turn.Some? then s.turn.value else 0 }

  function NormalizeKey(key: string): string {
    var t := Lower(Strip(key));
    seq(|t|, i requires 0 <= i < |t| => if t[i] == ' ' then '_' else t[i])
  }

  predicate ValidItem(item: Json) { item.Str? && |item.text| <= MAX_ITEM }

  predicate ValidValue(key: string, value: Json) {
    if value.Null? || value == Str("") then true
    else if key in LIST_KEYS then value.List? && forall i :: 0 <= i < |value.items| ==> ValidItem(value.items[i])
    else value.Str? && |value.text| <= MAX_STRING
  }

  function Get<V>(m: map<string, V>, key: string): Option<V> { if key in m then Some(m[key]) else None }

  // ---- Merging ----

  function Tail<T>(xs: seq<T>, n: nat): seq<T> { if |xs| <= n then xs else xs[|xs| - n..] }

  /** The items of `incoming` that are new, in order, behind `current`. */
  function AppendNew(current: seq<Json>, incoming: seq<Json>): seq<Json> {
    if incoming == [] then current
    else
      var before := AppendNew(current, incoming[..|incoming| - 1]);
      var item := incoming[|incoming| - 1];
      if item in before then before else before + [item]
  }

  /** `None`: the key is to be removed. */
  function Merge(current: Option<Json>, incoming: Json): Option<Json> {
    if incoming.Null? then
      if current.None? || current.value.Null? then None
      else if current.value.List? then Some(List(Tail(current.value.items, MAX_LIST))) else current
    else if incoming == Str("") then None
    else if current.Some? && current.value.List? && incoming.List?
    then Some(List(Tail(AppendNew(current.value.items, incoming.items), MAX_LIST)))
    else Some(incoming)
  }

  method MergeStateValue(current: Option<Json>, incoming: Json) returns (merged: Option<Json>)
    ensures merged == Merge(current, incoming)
  {
    if incoming.Null? {
      if current.None? || current.value.Null? {
        return None;
      }
      if !current.value.List? || |current.value.items| <= MAX_LIST {
        return current;
      }
      return Some(List(current.value.items[|current.value.items| - MAX_LIST..]));
    }
    if incoming == Str("") {
      return None;
    }
    if current.Some? && current.value.List? && incoming.List? {
      var items := current.value.items;
      for i := 0 to |incoming.items|
        invariant items == AppendNew(current.value.items, incoming.items[..i])
      {
        assert incoming.items[..i + 1][..i] == incoming.items[..i];
        if incoming.items[i] !in items {
          items := items + [incoming.items[i]];
        }
      }
      assert incoming.items[..|incoming.items|] == incoming.items;
      if |items| > MAX_LIST {
        items := items[|items| - MAX_LIST..];
      }
      return Some(List(items));
    }
    return Some(incoming);
  }

  // ---- Updates ----

  /** An update under way: `written` are the keys stored so far. */
  datatype Update = Update(shared: map<string, Json>, stamps: map<string, int>, written: set<string>)

  function ApplyItem(u: Update, rawKey: string, value: Json): Update {
    var key := NormalizeKey(rawKey);
    if key !in AGENT_KEYS || !ValidValue(key, value) then u
    else
      var merged := Merge(Get(u.shared, key), value);
      if merged.None? then Update(u.shared - {key}, u.stamps - {key}, u.written)
      else Update(u.shared[key := merged.value], u.stamps, u.written + {key})
  }

  function ApplyItems(u: Update, payload: seq<(string, Json)>): Update {
    if payload == [] then u
    else
      var last := payload[|payload| - 1];
      ApplyItem(ApplyItems(u, payload[..|payload| - 1]), last.0, last.1)
  }

  /** The effect of one payload, an ordered dictionary. */
  function Applied(s: State, payload: seq<(string, Json)>): State {
    var u := ApplyItems(Update(s.shared, s.stamps, {}), payload);
    State(u.shared, s.turn, Stamped(u.stamps, u.written, Turn(s)))
  }

  /** What the caller is told: false only for an empty payload, whatever was refused in another one. */
  predicate Answer(payload: seq<(string, Json)>) { payload != [] }

  function Stamped(stamps: map<string, int>, keys: set<string>, now: int): map<string, int> {
    stamps + map k | k in keys && k in AGENT_KEYS :: now
  }

  predicate Stale(stamps: map<string, int>, turn: int, key: string) {
    key in stamps && key in AGENT_KEYS && turn - stamps[key] > MAX_AGE
  }

  function Expired(s: State, turn: int): State {
    State(map k | k in s.shared && !Stale(s.stamps, turn, k) :: s.shared[k],
          s.turn,
          map k | k in s.stamps && k in AGENT_KEYS && !Stale(s.stamps, turn, k) :: s.stamps[k])
  }

  function Advanced(s: State): State { Expired(s.(turn := Some(Turn(s) + 1)), Turn(s) + 1) }

  /** The stamps of agent keys that have none. */
  function Bootstrapped(s: State): State {
    s.(stamps := s.stamps + map k | k in AGENT_KEYS && k in s.shared && k !in s.stamps :: Turn(s))
  }

  function ClearedForStart(s: State, historyRestored: bool): State {
    s.(shared := s.shared - if historyRestored then VOLATILE_KEYS else AGENT_KEYS,
       turn := if historyRestored then s.turn else None)
  }

  // ---- What the loops have done but for the keys in `todo` ----

  lemma SameMap<V>(a: map<string, V>, b: map<string, V>)
    requires forall k :: Get(a, k) == Get(b, k)
    ensures a == b
  {
    forall k ensures k in a <==> k in b
      ensures k in a ==> a[k] == b[k]
    {
      assert Get(a, k) == Get(b, k);
    }
  }

  ghost predicate StampedExcept(was: map<string, int>, stamps: map<string, int>, keys: set<string>, now: int) {
    forall k :: Get(stamps, k) == if k in keys && k in AGENT_KEYS then Some(now) else Get(was, k)
  }

  ghost predicate BootstrappedExcept(was: State, stamps: map<string, int>, todo: set<string>) {
    forall k :: Get(stamps, k) ==
      if k in AGENT_KEYS && k !in todo && k in was.shared && k !in was.stamps then Some(Turn(was)) else Get(was.stamps, k)
  }

  function ExpiredValue(was: State, now: int, k: string): Option<Json> {
    if Stale(was.stamps, now, k) then None else Get(was.shared, k)
  }

  function ExpiredStamp(was: State, now: int, k: string): Option<int> {
    if k !in AGENT_KEYS || Stale(was.stamps, now, k) then None else Get(was.stamps, k)
  }

  ghost predicate ExpiredExcept(was: State, s: State, todo: set<string>, now: int) {
    && (forall k :: Get(s.shared, k) == if k in todo then Get(was.shared, k) else ExpiredValue(was, now, k))
    && (forall k :: Get(s.stamps, k) == if k in todo then Get(was.stamps, k) else ExpiredStamp(was, now, k))
  }

  lemma ExpireOne(was: State, s: State, todo: set<string>, now: int, key: string)
    requires ExpiredExcept(was, s, todo, now) && key in todo && key in was.stamps
    ensures key in s.stamps && s.stamps[key] == was.stamps[key]
    ensures
      var shared := if Stale(was.stamps, now, key) then s.shared - {key} else s.shared;
      var stamps := if key !in AGENT_KEYS || Stale(was.stamps, now, key) then s.stamps - {key} else s.stamps;
      ExpiredExcept(was, State(shared, s.turn, stamps), todo - {key}, now)
  {
    assert Get(s.stamps, key) == Get(was.stamps, key);
  }

  lemma AllExpired(was: State, s: State, now: int)
    requires ExpiredExcept(was, s, {}, now)
    ensures s == Expired(was.(turn := s.turn), now)
  {
    var done := Expired(was.(turn := s.turn), now);
    forall k ensures Get(s.shared, k) == Get(done.shared, k) && Get(s.stamps, k) == Get(done.stamps, k) {}
    SameMap(s.shared, done.shared);
    SameMap(s.stamps, done.stamps);
  }

  lemma AllBootstrapped(was: State, stamps: map<string, int>)
    requires BootstrappedExcept(was, stamps, {})
    ensures stamps == Bootstrapped(was).stamps
  {
    SameMap(stamps, Bootstrapped(was).stamps);
  }

  lemma AllStamped(was: map<string, int>, stamps: map<string, int>, keys: set<string>, now: int)
    requires StampedExcept(was, stamps, keys, now)
    ensures stamps == Stamped(was, keys, now)
  {
    SameMap(stamps, Stamped(was, keys, now));
  }

  class SessionState {
    var shared: map<string, Json>
    var turn: Option<int>
    var stamps: map<string, int>

    function Model(): State
      reads this
    {
      State(shared, turn, stamps)
    }

    /** A session over a restored dictionary, as it is wired at the start. */
    constructor (restored: map<string, Json>, restoredTurn: Option<int>, historyRestored: bool)
      ensures Model() == Bootstrapped(ClearedForStart(State(restored, restoredTurn, map[]), historyRestored))
    {
      shared, turn, stamps := restored, restoredTurn, map[];
      new;
      ClearForSessionStart(historyRestored);
      BootstrapStamps();
    }

    method ClearForSessionStart(historyRestored: bool)
      modifies this
      ensures Model() == ClearedForStart(old(Model()), historyRestored)
      ensures stamps == old(stamps) && turn == (if historyRestored then old(turn) else None)
      ensures historyRestored ==> shared == old(shared) - {"goal", "goal_canonical", "current_step", "next_step"}
    {
      RemoveKeys(if historyRestored then VOLATILE_KEYS else AGENT_KEYS);
      if !historyRestored {
        turn := None;
      }
    }

    method RemoveKeys(keys: set<string>)
      modifies this`shared
      ensures shared == old(shared) - keys
    {
      ghost var was := shared;
      var todo := keys;
      while todo != {}
        invariant todo <= keys
        invariant forall k :: Get(shared, k) == if k in keys - todo then None else Get(was, k)
        decreases |todo|
      {
        var key :| key in todo;
        if key in shared {
          shared := shared - {key};
        }
        todo := todo - {key};
      }
      SameMap(shared, was - keys);
    }

    method BootstrapStamps()
      modifies this`stamps
      ensures Model() == Bootstrapped(old(Model()))
    {
      var todo := AGENT_KEYS;
      ghost var was := Model();
      while todo != {}
        invariant todo <= AGENT_KEYS && BootstrappedExcept(was, stamps, todo)
        decreases |todo|
      {
        var key :| key in todo;
        assert Get(stamps, key) == Get(was.stamps, key);
        if key in shared && key !in stamps {
          stamps := stamps[key := if turn.Some? then turn.value else 0];
        }
        todo := todo - {key};
      }
      AllBootstrapped(was, stamps);
    }

    method ApplyStateUpdate(payload: seq<(string, Json)>) returns (applied: bool)
      modifies this
      ensures applied == Answer(payload)
      ensures Model() == Applied(old(Model()), payload)
    {
      if payload == [] {
        return false;
      }
      ghost var start := Update(shared, stamps, {});
      var written: set<string> := {};
      for i := 0 to |payload|
        invariant Update(shared, stamps, written) == ApplyItems(start, payload[..i]) && turn == old(turn)
      {
        assert payload[..i + 1][..i] == payload[..i];
        var key, value := NormalizeKey(payload[i].0), payload[i].1;
        if key in AGENT_KEYS && ValidValue(key, value) {
          var merged := MergeStateValue(Get(shared, key), value);
          if merged.None? {
            shared := shared - {key};
            stamps := stamps - {key};
          } else {
            shared := shared[key := merged.value];
            written := written + {key};
          }
        }
      }
      assert payload[..|payload|] == payload;
      var now := if turn.Some? then turn.value else 0;
      StampKeys(written, now);
      applied := true;
    }

    method StampKeys(keys: set<string>, now: int)
      modifies this`stamps
      ensures stamps == Stamped(old(stamps), keys, now)
    {
      ghost var was := stamps;
      var todo := keys;
      while todo != {}
        invariant todo <= keys && StampedExcept(was, stamps, keys - todo, now)
        decreases |todo|
      {
        var key :| key in todo;
        if key in AGENT_KEYS {
          stamps := stamps[key := now];
        }
        todo := todo - {key};
      }
      AllStamped(was, stamps, keys, now);
    }

    method AdvanceTurn()
      modifies this
      ensures Model() == Advanced(old(Model()))
    {
      var now := (if turn.Some? then turn.value else 0) + 1;
      turn := Some(now);
      ExpireStaleKeys(now);
    }

    method ExpireStaleKeys(now: int)
      modifies this`shared, this`stamps
      ensures Model() == Expired(old(Model()), now)
    {
      ghost var was := Model();
      var todo := stamps.Keys;
      while todo != {}
        invariant todo <= was.stamps.Keys && ExpiredExcept(was, Model(), todo, now)
        decreases |todo|
      {
        var key :| key in todo;
        ExpireOne(was, Model(), todo, now, key);
        if key !in AGENT_KEYS {
          stamps := stamps - {key};
        } else if now - stamps[key] > MAX_AGE {
          shared := shared - {key};
          stamps := stamps - {key};
        }
        todo := todo - {key};
      }
      AllExpired(was, Model(), now);
    }

    /** `/reset state`. */
    method ResetState()
      modifies this
      ensures Model() == State(map[], None, map[])
    {
      shared, turn, stamps := map[], None, map[];
    }
  }
}
