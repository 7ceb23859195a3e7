/** The tracker of chat submissions: its records, watchdogs and eviction under the lock, and the
    changes it emits over a whole run. */
module SubmissionTrackers {
  import opened Options
  import opened Text

  const TERMINAL := {"completed", "failed", "cancelled"}
  const WATCHED := {"accepted", "queued", "starting"}

  /** `status` is normalised; times are clock readings. */
  datatype Record = Record(
    id: string,
    status: string,
    createdAt: real,
    updatedAt: real,
    revision: nat,
    message: string,
    queuePosition: Option<int>,
    agent: string)

  predicate Terminal(r: Record) { r.status in TERMINAL }
  predicate Watched(r: Record) { r.status in WATCHED }

  /** The ordered records and the ids with an armed watchdog. */
  datatype Tracker = Tracker(records: seq<Record>, watchdogs: set<string>)

  function Find(records: seq<Record>, id: string): (i: nat)
    ensures i <= |records|
    ensures i < |records| ==> records[i].id == id
    ensures forall j :: 0 <= j < i ==> records[j].id != id
  {
    if records == [] || records[0].id == id then 0 else 1 + Find(records[1..], id)
  }

  function FirstTerminal(records: seq<Record>): (i: nat)
    ensures i <= |records|
    ensures i < |records| ==> Terminal(records[i])
    ensures forall j :: 0 <= j < i ==> !Terminal(records[j])
  {
    if records == [] || Terminal(records[0]) then 0 else 1 + FirstTerminal(records[1..])
  }

  /** `_trim_locked`. */
  function Trim(t: Tracker, limit: nat): Tracker
    decreases |t.records|
  {
    var i := FirstTerminal(t.records);
    if |t.records| <= limit || i == |t.records| then t
    else Trim(Tracker(t.records[..i] + t.records[i + 1..], t.watchdogs - {t.records[i].id}), limit)
  }

  function NewRecord(id: string, now: real): Record { Record(id, "accepted", now, now, 0, "", None, "") }

  function Started(t: Tracker, id: string, now: real, arm: bool, limit: nat): Tracker {
    var trimmed := Trim(Tracker(t.records + [NewRecord(id, now)], t.watchdogs), limit);
    if arm then trimmed.(watchdogs := trimmed.watchdogs + {id}) else trimmed
  }

  /** The arguments of one `transition`; `expected` are the statuses it may start from. */
  datatype Change = Change(
    status: string,
    message: string,
    queuePosition: Option<int>,
    agent: string,
    expected: Option<set<string>>,
    now: real)

  function Normalized(c: Change): string { Lower(Strip(c.status)) }

  predicate Accepts(t: Tracker, id: string, c: Change) {
    var i := Find(t.records, id);
    && id != "" && Normalized(c) != "" && i < |t.records| && !Terminal(t.records[i])
    && (c.expected.Some? ==> t.records[i].status in c.expected.value)
  }

  function Updated(r: Record, c: Change): Record {
    Record(r.id, Normalized(c), r.createdAt, c.now, r.revision + 1, c.message, c.queuePosition,
           if c.agent != "" then c.agent else r.agent)
  }

  function Transitioned(t: Tracker, id: string, c: Change): Tracker {
    if !Accepts(t, id, c) then t
    else
      var i := Find(t.records, id);
      Tracker(t.records[i := Updated(t.records[i], c)],
              if Normalized(c) in WATCHED then t.watchdogs else t.watchdogs - {id})
  }

  function Known(t: Tracker, id: string): Option<Record> {
    if Find(t.records, id) < |t.records| then Some(t.records[Find(t.records, id)]) else None
  }

  function Unwatched(t: Tracker, id: string): Tracker { t.(watchdogs := t.watchdogs - {id}) }

  /** What the watchdog asks for once it has run out. */
  function Waiting(message: string, now: real): Change { Change("waiting", message, None, "", Some(WATCHED), now) }

  predicate StillWatched(t: Tracker, id: string) { Known(t, id).Some? && Watched(Known(t, id).value) }

  class SubmissionTracker {
    var records: seq<Record>
    var watchdogs: set<string>
    const watchdogSeconds: real
    const maxRecords: nat

    function Model(): Tracker
      reads this
    {
      Tracker(records, watchdogs)
    }

    constructor (seconds: real, max: int)
      ensures Model() == Tracker([], {})
      ensures watchdogSeconds == (if seconds > 0.0 then seconds else 0.0) && maxRecords == if max > 1 then max else 1
    {
      records, watchdogs := [], {};
      watchdogSeconds := if seconds > 0.0 then seconds else 0.0;
      maxRecords := if max > 1 then max else 1;
    }

    /** `id` is the fresh id of the submission. */
    method Start(id: string, now: real, watch: bool) returns (record: Record)
      modifies this
      ensures record == Record(id, "accepted", now, now, 0, "", None, "")
      ensures Model() == Started(old(Model()), id, now, watch && watchdogSeconds > 0.0, maxRecords)
      ensures |records| <= maxRecords || forall i :: 0 <= i < |records| ==> !Terminal(records[i])
      ensures watch && watchdogSeconds > 0.0 ==> id in watchdogs
      ensures !(watch && watchdogSeconds > 0.0) ==> watchdogs <= old(watchdogs)
    {
      record := NewRecord(id, now);
      records := records + [record];
      TrimLocked();
      if watch && watchdogSeconds > 0.0 {
        watchdogs := watchdogs + {id};
      }
    }

    method TrimLocked()
      modifies this
      ensures Model() == Trim(old(Model()), maxRecords)
      ensures |records| <= maxRecords || forall i :: 0 <= i < |records| ==> !Terminal(records[i])
      ensures watchdogs <= old(watchdogs)
    {
      while |records| > maxRecords
        invariant Trim(Model(), maxRecords) == Trim(old(Model()), maxRecords) && watchdogs <= old(watchdogs)
        decreases |records|
      {
        var i := FirstTerminal(records);
        if i == |records| {
          return;
        }
        watchdogs := watchdogs - {records[i].id};
        records := records[..i] + records[i + 1..];
      }
    }

    /** `emit` is the record to emit, if the change was accepted. */
    method Transition(id: string, c: Change) returns (result: Option<Record>, emit: Option<Record>)
      modifies this
      ensures Model() == Transitioned(old(Model()), id, c)
      ensures emit == if Accepts(old(Model()), id, c) then Known(Model(), id) else None
      ensures result == if id == "" || Normalized(c) == "" then None else Known(Model(), id)
      ensures var i, status := Find(old(records), id), Lower(Strip(c.status));
        var accepted := id != "" && status != "" && i < |old(records)|
          && old(records)[i].status !in {"completed", "failed", "cancelled"}
          && (c.expected.Some? ==> old(records)[i].status in c.expected.value);
        if accepted then
          var agent := if c.agent != "" then c.agent else old(records)[i].agent;
          && emit == result == Some(Record(id, status, old(records)[i].createdAt, c.now, old(records)[i].revision + 1,
                                           c.message, c.queuePosition, agent))
          && records == old(records)[i := emit.value]
          && watchdogs == old(watchdogs) - if status in {"accepted", "queued", "starting"} then {} else {id}
        else
          emit == None && records == old(records) && watchdogs == old(watchdogs)
    {
      if id == "" || Normalized(c) == "" {
        return None, None;
      }
      var i := Find(records, id);
      if i == |records| {
        return None, None;
      }
      var current := records[i];
      if Terminal(current) || (c.expected.Some? && current.status !in c.expected.value) {
        return Some(current), None;
      }
      var updated := Updated(current, c);
      records := records[i := updated];
      if Normalized(c) !in WATCHED {
        watchdogs := watchdogs - {id};
      }
      FindUpdated(old(records), id, updated);
      return Some(updated), Some(updated);
    }

    /** The first critical section of an expired watchdog. */
    method WatchdogExpired(id: string) returns (go: bool)
      modifies this`watchdogs
      ensures Model() == Unwatched(old(Model()), id) && go == StillWatched(Model(), id)
      ensures watchdogs == old(watchdogs) - {id}
      ensures go <==>
        && Find(records, id) < |records|
        && records[Find(records, id)].status in {"accepted", "queued", "starting"}
    {
      watchdogs := watchdogs - {id};
      var i := Find(records, id);
      go := i < |records| && Watched(records[i]);
    }

    method Close()
      modifies this`watchdogs
      ensures Model() == Tracker(old(records), {})
    {
      while watchdogs != {}
        decreases |watchdogs|
      {
        var id :| id in watchdogs;
        watchdogs := watchdogs - {id};
      }
    }
  }

  lemma {:induction false} FindUpdated(records: seq<Record>, id: string, r: Record)
    requires Find(records, id) < |records| && r.id == id
    ensures Find(records[Find(records, id) := r], id) == Find(records, id)
  {
    if records[0].id != id {
      FindUpdated(records[1..], id, r);
      assert records[Find(records, id) := r][1..] == records[1..][Find(records[1..], id) := r];
    }
  }

  // ---- Eviction ----

  function Terminals(records: seq<Record>): nat {
    if records == [] then 0 else (if Terminal(records[0]) then 1 else 0) + Terminals(records[1..])
  }

  /** The records without the first `n` terminal ones. */
  function WithoutOldest(records: seq<Record>, n: nat): seq<Record> {
    if records == [] || n == 0 then records
    else if Terminal(records[0]) then WithoutOldest(records[1..], n - 1)
    else [records[0]] + WithoutOldest(records[1..], n)
  }

  function Min(a: nat, b: nat): nat { if a < b then a else b }

  function Evicted(records: seq<Record>, limit: nat): nat {
    Min(if |records| > limit then |records| - limit else 0, Terminals(records))
  }

  /** As many records go as are too many, or as have ended, whichever is less; of those that have
      ended the oldest go, and the rest keep their order. */
  lemma {:induction false} TrimEvictsTheOldestTerminals(t: Tracker, limit: nat)
    ensures Trim(t, limit).records == WithoutOldest(t.records, Evicted(t.records, limit))
    decreases |t.records|
  {
    var i := FirstTerminal(t.records);
    if |t.records| > limit {
      if i < |t.records| {
        var next := Tracker(t.records[..i] + t.records[i + 1..], t.watchdogs - {t.records[i].id});
        calc {
          Trim(t, limit).records;
          Trim(next, limit).records;
          { TrimEvictsTheOldestTerminals(next, limit); }
          WithoutOldest(next.records, Evicted(next.records, limit));
          { OneLess(t.records, limit); }
          WithoutOldest(t.records, Evicted(t.records, limit));
        }
      } else {
        NoTerminals(t.records);
      }
    }
  }

  lemma OneLess(records: seq<Record>, limit: nat)
    requires |records| > limit && FirstTerminal(records) < |records|
    ensures var i := FirstTerminal(records);
      var rest := records[..i] + records[i + 1..];
      WithoutOldest(rest, Evicted(rest, limit)) == WithoutOldest(records, Evicted(records, limit))
  {
    RemoveFirst(records, Evicted(records, limit));
  }

  /** After every `start` the size is within the limit, or no submission that has ended is left. */
  lemma {:induction false} TrimIsDone(t: Tracker, limit: nat)
    ensures var u := Trim(t, limit);
      |u.records| <= limit ||
      forall i :: 0 <= i < |u.records| ==> u.records[i].status !in {"completed", "failed", "cancelled"}
    decreases |t.records|
  {
    var i := FirstTerminal(t.records);
    if |t.records| > limit && i < |t.records| {
      TrimIsDone(Tracker(t.records[..i] + t.records[i + 1..], t.watchdogs - {t.records[i].id}), limit);
    }
  }

  lemma {:induction false} NoTerminals(records: seq<Record>)
    requires FirstTerminal(records) == |records|
    ensures Terminals(records) == 0
  {
    if records != [] { NoTerminals(records[1..]); }
  }

  lemma {:induction false} RemoveFirst(records: seq<Record>, n: nat)
    requires FirstTerminal(records) < |records|
    ensures var i := FirstTerminal(records);
      && Terminals(records[..i] + records[i + 1..]) == Terminals(records) - 1
      && (n > 0 ==> WithoutOldest(records, n) == WithoutOldest(records[..i] + records[i + 1..], n - 1))
  {
    var i := FirstTerminal(records);
    var rest := records[..i] + records[i + 1..];
    if i == 0 {
      assert rest == records[1..];
    } else {
      RemoveFirst(records[1..], n);
      assert rest[1..] == records[1..][..i - 1] + records[1..][i..];
      assert rest[0] == records[0];
    }
  }
}
