/** Whole runs of the submission tracker: callers, watchdog timers and the emission of changes,
    which takes place outside the lock. */
module SubmissionRuns {
  import opened Options
  import opened SubmissionTrackers
  import opened Text

  /** An accepted change in the order of the lock; `wanted` says that its caller emits it. */
  datatype Entry = Entry(record: Record, wanted: bool)

  /** `timers` have not run yet (a cancelled one may still do); `firing` are between the two critical
      sections of an expired watchdog; `emitted` are positions of the log in the order of emission. */
  datatype State = State(
    tracker: Tracker,
    limit: nat,
    arms: bool,
    log: seq<Entry>,
    timers: set<string>,
    firing: set<string>,
    emitted: seq<nat>)

  datatype Step =
    | Start(id: string, now: real, emit: bool, watch: bool)
    | Alter(id: string, change: Change)
    | TimerFires(id: string) | TimerAsks(id: string, message: string, now: real)
    | Close
    | Emit(i: nat)

  function Initial(limit: nat, arms: bool): State { State(Tracker([], {}), limit, arms, [], {}, {}, []) }

  /** How often submission `id` was changed. */
  function Changes(log: seq<Entry>, id: string): nat {
    if log == [] then 0 else Changes(log[..|log| - 1], id) + if log[|log| - 1].record.id == id then 1 else 0
  }

  function Latest(log: seq<Entry>, id: string): Option<Record> {
    if log == [] then None
    else if log[|log| - 1].record.id == id then Some(log[|log| - 1].record)
    else Latest(log[..|log| - 1], id)
  }

  predicate Enabled(s: State, step: Step) {
    match step
    case Start(id, _, _, _) => id != "" && Changes(s.log, id) == 0
    case Alter(_, _) => true
    case TimerFires(id) => id in s.timers
    case TimerAsks(id, _, _) => id in s.firing
    case Close => true
    case Emit(i) => i < |s.log| && s.log[i].wanted && i !in s.emitted
  }

  function Altered(s: State, id: string, c: Change): State {
    var t := Transitioned(s.tracker, id, c);
    s.(tracker := t,
       log := if Accepts(s.tracker, id, c) then s.log + [Entry(t.records[Find(s.tracker.records, id)], true)] else s.log)
  }

  function Next(s: State, step: Step): State
    requires Enabled(s, step)
  {
    match step
    case Start(id, now, emit, watch) =>
      s.(tracker := Started(s.tracker, id, now, watch && s.arms, s.limit),
         log := s.log + [Entry(NewRecord(id, now), emit)],
         timers := if watch && s.arms then s.timers + {id} else s.timers)
    case Alter(id, c) => Altered(s, id, c)
    case TimerFires(id) =>
      s.(tracker := Unwatched(s.tracker, id), timers := s.timers - {id},
         firing := if StillWatched(s.tracker, id) then s.firing + {id} else s.firing)
    case TimerAsks(id, message, now) => Altered(s, id, Waiting(message, now)).(firing := s.firing - {id})
    case Close => s.(tracker := s.tracker.(watchdogs := {}))
    case Emit(i) => s.(emitted := s.emitted + [i])
  }

  // ---- Invariant ----

  predicate Distinct(records: seq<Record>) {
    forall i, j :: 0 <= i < j < |records| ==> records[i].id != records[j].id
  }

  predicate WatchOk(t: Tracker) { forall id :: id in t.watchdogs ==> StillWatched(t, id) }

  predicate TrackerOk(t: Tracker) { Distinct(t.records) && WatchOk(t) }

  /** The record of a submission is its latest change, numbered by the changes before it. */
  predicate RecordOk(log: seq<Entry>, r: Record) {
    Latest(log, r.id) == Some(r) && Changes(log, r.id) == r.revision + 1
  }

  predicate EntryOk(log: seq<Entry>, i: nat)
    requires i < |log|
  {
    && log[i].record.revision == Changes(log[..i], log[i].record.id)
    && forall j :: i < j < |log| && log[j].record.id == log[i].record.id ==> !Terminal(log[i].record)
  }

  ghost predicate LogOk(s: State) {
    && (forall r :: r in s.tracker.records ==> RecordOk(s.log, r))
    && (forall i :: 0 <= i < |s.log| ==> EntryOk(s.log, i))
    && forall id :: Changes(s.log, id) > 0 ==>
         Known(s.tracker, id).Some? || (Latest(s.log, id).Some? && Terminal(Latest(s.log, id).value))
  }

  predicate EmittedOk(s: State) {
    && (forall k :: 0 <= k < |s.emitted| ==> s.emitted[k] < |s.log| && s.log[s.emitted[k]].wanted)
    && forall k, l :: 0 <= k < l < |s.emitted| ==> s.emitted[k] != s.emitted[l]
  }

  ghost predicate Inv(s: State) { TrackerOk(s.tracker) && LogOk(s) && EmittedOk(s) }

  lemma FindIs(records: seq<Record>, i: nat)
    requires Distinct(records) && i < |records|
    ensures Find(records, records[i].id) == i
  {}

  lemma KnownIs(t: Tracker, r: Record)
    requires Distinct(t.records) && r in t.records
    ensures Known(t, r.id) == Some(r)
  {
    var i :| 0 <= i < |t.records| && t.records[i] == r;
    FindIs(t.records, i);
  }

  /** One record goes, with its watchdog. */
  lemma DropKeepsOk(t: Tracker, i: nat)
    requires TrackerOk(t) && i < |t.records|
    ensures var u := Tracker(t.records[..i] + t.records[i + 1..], t.watchdogs - {t.records[i].id});
      && TrackerOk(u)
      && (forall r :: r in u.records ==> r in t.records)
      && forall r :: r in t.records ==> r in u.records || r == t.records[i]
  {
    var u := Tracker(t.records[..i] + t.records[i + 1..], t.watchdogs - {t.records[i].id});
    forall r | r in t.records && r != t.records[i] ensures r in u.records {
      var j :| 0 <= j < |t.records| && t.records[j] == r;
      assert if j < i then u.records[j] == r else u.records[j - 1] == r;
    }
    forall id | id in u.watchdogs ensures StillWatched(u, id) {
      assert StillWatched(t, id);
      KnownIs(u, Known(t, id).value);
    }
  }

  /** Trimming drops terminal records with their watchdogs, and nothing else. */
  lemma {:induction false} TrimKeepsOk(t: Tracker, limit: nat)
    requires TrackerOk(t)
    ensures var u := Trim(t, limit);
      && TrackerOk(u)
      && (forall r :: r in u.records ==> r in t.records)
      && (forall r :: r in t.records ==> r in u.records || Terminal(r))
      && u.watchdogs == t.watchdogs
    decreases |t.records|
  {
    var i := FirstTerminal(t.records);
    if |t.records| > limit && i < |t.records| {
      DropKeepsOk(t, i);
      KnownIs(t, t.records[i]);
      assert t.records[i].id !in t.watchdogs;
      TrimKeepsOk(Tracker(t.records[..i] + t.records[i + 1..], t.watchdogs - {t.records[i].id}), limit);
    }
  }

  lemma StartKeepsTracker(t: Tracker, id: string, now: real, arm: bool, limit: nat)
    requires TrackerOk(t) && Known(t, id).None?
    ensures var u := Started(t, id, now, arm, limit);
      && TrackerOk(u)
      && NewRecord(id, now) in u.records
      && (forall r :: r in u.records ==> r in t.records || r == NewRecord(id, now))
      && (forall r :: r in t.records ==> r in u.records || Terminal(r))
      && u.watchdogs == t.watchdogs + if arm then {id} else {}
  {
    var r0 := NewRecord(id, now);
    var added := Tracker(t.records + [r0], t.watchdogs);
    forall w | w in added.watchdogs ensures StillWatched(added, w) {
      assert StillWatched(t, w);
      KnownIs(added, Known(t, w).value);
    }
    TrimKeepsOk(added, limit);
    var u := Started(t, id, now, arm, limit);
    assert r0 in added.records;
    KnownIs(u, r0);
  }

  lemma TransitionKeepsTracker(t: Tracker, id: string, c: Change)
    requires TrackerOk(t) && Accepts(t, id, c)
    ensures var u := Transitioned(t, id, c);
      && TrackerOk(u)
      && Known(u, id) == Some(Updated(Known(t, id).value, c))
      && (forall r :: r in u.records <==> (r in t.records && r.id != id) || r == Updated(Known(t, id).value, c))
  {
    var i, u := Find(t.records, id), Transitioned(t, id, c);
    var r0 := Updated(t.records[i], c);
    assert u.records[i] == r0;
    KnownIs(u, r0);
    forall r | r in t.records && r.id != id ensures r in u.records {
      var j :| 0 <= j < |t.records| && t.records[j] == r;
      assert u.records[j] == r;
    }
    forall w | w in u.watchdogs ensures StillWatched(u, w) {
      assert StillWatched(t, w);
      if w != id { KnownIs(u, Known(t, w).value); }
    }
  }

  lemma StepKeepsTracker(s: State, step: Step)
    requires Inv(s) && Enabled(s, step)
    ensures TrackerOk(Next(s, step).tracker)
  {
    match step
    case Start(id, now, emit, watch) =>
      FreshIsUnknown(s, id);
      StartKeepsTracker(s.tracker, id, now, watch && s.arms, s.limit);
    case Alter(id, c) => if Accepts(s.tracker, id, c) { TransitionKeepsTracker(s.tracker, id, c); }
    case TimerAsks(id, message, now) =>
      if Accepts(s.tracker, id, Waiting(message, now)) { TransitionKeepsTracker(s.tracker, id, Waiting(message, now)); }
    case TimerFires(id) =>
      forall w | w in s.tracker.watchdogs ensures StillWatched(s.tracker, w) {}
    case Close =>
    case Emit(_) =>
  }

  lemma FreshIsUnknown(s: State, id: string)
    requires LogOk(s) && Changes(s.log, id) == 0
    ensures Known(s.tracker, id).None?
  {
    assert forall r :: r in s.tracker.records ==> Changes(s.log, r.id) > 0 by {
      assert forall r :: r in s.tracker.records ==> RecordOk(s.log, r);
    }
  }

  lemma Appended(log: seq<Entry>, e: Entry, id: string)
    ensures Changes(log + [e], id) == Changes(log, id) + if e.record.id == id then 1 else 0
    ensures Latest(log + [e], id) == if e.record.id == id then Some(e.record) else Latest(log, id)
  {
    assert (log + [e])[..|log|] == log;
  }

  /** Where the latest change stands in the log. */
  lemma {:induction false} LatestAt(log: seq<Entry>, id: string) returns (k: nat)
    requires Latest(log, id).Some?
    ensures k < |log| && log[k].record == Latest(log, id).value && log[k].record.id == id
    ensures forall i :: k < i < |log| ==> log[i].record.id != id
  {
    k := |log| - 1;
    if log[k].record.id != id {
      k := LatestAt(log[..k], id);
    }
  }

  /** A submission whose latest change is not terminal never had a terminal one. */
  lemma LatestIsLogged(log: seq<Entry>, i: nat)
    requires i < |log| && Latest(log, log[i].record.id).Some?
    requires !Terminal(Latest(log, log[i].record.id).value)
    requires forall k :: 0 <= k < |log| ==> EntryOk(log, k)
    ensures !Terminal(log[i].record)
  {
    var k := LatestAt(log, log[i].record.id);
    assert EntryOk(log, i);
  }

  lemma EntryStaysOk(log: seq<Entry>, e: Entry, i: nat)
    requires i < |log| && EntryOk(log, i)
    requires log[i].record.id == e.record.id ==> !Terminal(log[i].record)
    ensures EntryOk(log + [e], i)
  {
    assert (log + [e])[..i] == log[..i];
  }

  /** A change of a submission whose last change is not terminal, or of a new one, fits the log. */
  lemma EntriesStayOk(log: seq<Entry>, e: Entry)
    requires forall i :: 0 <= i < |log| ==> EntryOk(log, i)
    requires e.record.revision == Changes(log, e.record.id)
    requires Changes(log, e.record.id) > 0 ==>
      Latest(log, e.record.id).Some? && !Terminal(Latest(log, e.record.id).value)
    ensures forall i :: 0 <= i < |log| + 1 ==> EntryOk(log + [e], i)
  {
    forall i: nat | i < |log| ensures EntryOk(log + [e], i) {
      if log[i].record.id == e.record.id {
        LoggedIsCounted(log, i);
        LatestIsLogged(log, i);
      }
      EntryStaysOk(log, e, i);
    }
    assert (log + [e])[..|log|] == log;
  }

  lemma {:induction false} LoggedIsCounted(log: seq<Entry>, i: nat)
    requires i < |log|
    ensures Changes(log, log[i].record.id) > 0
  {
    if i < |log| - 1 { LoggedIsCounted(log[..|log| - 1], i); }
  }

  /** One more entry, made by `start` or an accepted change, keeps the log in order. */
  lemma EntryKeepsLog(s: State, t: State, e: Entry)
    requires LogOk(s) && Distinct(t.tracker.records) && t.log == s.log + [e]
    requires e.record.revision == Changes(s.log, e.record.id)
    requires Changes(s.log, e.record.id) > 0 ==>
      Known(s.tracker, e.record.id).Some? && !Terminal(Known(s.tracker, e.record.id).value)
    requires e.record in t.tracker.records
    requires forall r :: r in t.tracker.records ==> r == e.record || (r in s.tracker.records && r.id != e.record.id)
    requires forall r :: r in s.tracker.records && r.id != e.record.id ==> r in t.tracker.records || Terminal(r)
    ensures LogOk(t)
  {
    if Changes(s.log, e.record.id) > 0 {
      assert RecordOk(s.log, Known(s.tracker, e.record.id).value);
    }
    EntriesStayOk(s.log, e);
    forall r | r in t.tracker.records ensures RecordOk(t.log, r) {
      Appended(s.log, e, r.id);
      if r != e.record { assert RecordOk(s.log, r); }
    }
    KnownIs(t.tracker, e.record);
    forall id | Changes(t.log, id) > 0
      ensures Known(t.tracker, id).Some? || (Latest(t.log, id).Some? && Terminal(Latest(t.log, id).value))
    {
      Appended(s.log, e, id);
      if id != e.record.id && Known(s.tracker, id).Some? {
        var r := Known(s.tracker, id).value;
        assert RecordOk(s.log, r);
        if r in t.tracker.records { KnownIs(t.tracker, r); }
      }
    }
  }

  lemma AlterKeepsLog(s: State, id: string, c: Change)
    requires Inv(s)
    ensures LogOk(Altered(s, id, c))
  {
    if Accepts(s.tracker, id, c) {
      TransitionKeepsTracker(s.tracker, id, c);
      var before := Known(s.tracker, id).value;
      assert RecordOk(s.log, before);
      EntryKeepsLog(s, Altered(s, id, c), Entry(Updated(before, c), true));
    }
  }

  lemma StepKeepsLog(s: State, step: Step)
    requires Inv(s) && Enabled(s, step)
    ensures LogOk(Next(s, step))
  {
    match step
    case Start(id, now, emit, watch) =>
      FreshIsUnknown(s, id);
      StartKeepsTracker(s.tracker, id, now, watch && s.arms, s.limit);
      EntryKeepsLog(s, Next(s, step), Entry(NewRecord(id, now), emit));
    case Alter(id, c) => AlterKeepsLog(s, id, c);
    case TimerAsks(id, message, now) => AlterKeepsLog(s, id, Waiting(message, now));
    case TimerFires(_) =>
    case Close =>
    case Emit(_) =>
  }

  lemma StepKeepsInv(s: State, step: Step)
    requires Inv(s) && Enabled(s, step)
    ensures Inv(Next(s, step))
  {
    StepKeepsTracker(s, step);
    StepKeepsLog(s, step);
  }

  ghost predicate Run(s: State, steps: seq<Step>, t: State)
    decreases |steps|
  {
    if steps == [] then t == s
    else Enabled(s, steps[0]) && Run(Next(s, steps[0]), steps[1..], t)
  }

  lemma {:induction false} RunKeepsInv(s: State, steps: seq<Step>, t: State)
    requires Inv(s) && Run(s, steps, t)
    ensures Inv(t)
    decreases |steps|
  {
    if steps != [] {
      StepKeepsInv(s, steps[0]);
      RunKeepsInv(Next(s, steps[0]), steps[1..], t);
    }
  }

  ghost predicate Reachable(t: State) { exists steps :: Run(Initial(t.limit, t.arms), steps, t) }

  lemma ReachableInv(t: State)
    requires Reachable(t)
    ensures Inv(t)
  {
    var steps :| Run(Initial(t.limit, t.arms), steps, t);
    RunKeepsInv(Initial(t.limit, t.arms), steps, t);
  }

  // ---- The steps in the fields ----

  /** A change of a known submission from one of the statuses `from` (from any, if none are named). */
  predicate Applies(s: State, id: string, from: Option<set<string>>) {
    exists i :: 0 <= i < |s.tracker.records| && s.tracker.records[i].id == id
      && s.tracker.records[i].status !in {"completed", "failed", "cancelled"}
      && (from.Some? ==> s.tracker.records[i].status in from.value)
  }

  /** The record `r` after the change. */
  predicate IsChanged(s: State, r: Record, status: string, message: string, position: Option<int>, agent: string,
                      now: real)
  {
    exists b :: b in s.tracker.records && b.id == r.id
      && r == Record(b.id, status, b.createdAt, now, b.revision + 1, message, position,
                     if agent != "" then agent else b.agent)
  }

  /** The change is logged, and is what the tracker then knows; or nothing is changed at all. */
  predicate LogsChange(s: State, t: State, id: string, from: Option<set<string>>, status: string, message: string,
                       position: Option<int>, agent: string, now: real)
  {
    if id != "" && status != "" && Applies(s, id, from) then
      && |t.log| == |s.log| + 1 && t.log[..|s.log|] == s.log
      && var entry := t.log[|s.log|];
      entry.wanted && entry.record.id == id && Known(t.tracker, id) == Some(entry.record)
      && IsChanged(s, entry.record, status, message, position, agent, now)
      && t.tracker.watchdogs == s.tracker.watchdogs - if status in {"accepted", "queued", "starting"} then {} else {id}
    else t.log == s.log && t.tracker == s.tracker
  }

  lemma AlteredInFields(s: State, id: string, c: Change)
    requires Inv(s)
    ensures LogsChange(s, Altered(s, id, c), id, c.expected, Lower(Strip(c.status)), c.message, c.queuePosition,
                       c.agent, c.now)
  {
    var i := Find(s.tracker.records, id);
    if Accepts(s.tracker, id, c) {
      TransitionKeepsTracker(s.tracker, id, c);
      assert s.tracker.records[i] in s.tracker.records;
    } else if Applies(s, id, c.expected) {
      var j :| 0 <= j < |s.tracker.records| && s.tracker.records[j].id == id;
      FindIs(s.tracker.records, j);
    }
  }

  /** What each step logs. A new submission is accepted with revision 0; `transition` changes one that has
      not ended, if its status is among the expected ones; an expired watchdog, when it has asked, sets
      to waiting one that is still accepted, queued or starting. */
  lemma StepsLogInFields(s: State, step: Step)
    requires Reachable(s) && Enabled(s, step)
    ensures var t := Next(s, step);
      match step
      case Start(id, now, emit, _) =>
        t.log == s.log + [Entry(Record(id, "accepted", now, now, 0, "", None, ""), emit)]
      case Alter(id, Change(status, message, position, agent, expected, now)) =>
        LogsChange(s, t, id, expected, Lower(Strip(status)), message, position, agent, now)
      case TimerAsks(id, message, now) =>
        LogsChange(s, t, id, Some({"accepted", "queued", "starting"}), "waiting", message, None, "", now)
      case _ => t.log == s.log && t.tracker.records == s.tracker.records
  {
    ReachableInv(s);
    match step
    case Alter(id, c) => AlteredInFields(s, id, c);
    case TimerAsks(id, message, now) =>
      WaitingIsNormal();
      AlteredInFields(s, id, Waiting(message, now));
    case _ =>
  }

  lemma WaitingIsNormal()
    ensures Lower(Strip("waiting")) == "waiting"
  {
    assert StripLeft("waiting") == "waiting" && StripRight("waiting") == "waiting";
  }

  /** The watchdogs: `start` arms one if it is asked to and they are in use, evicting submissions takes
      none away; a timer that fires takes its own away, the end of the tracker all. */
  lemma WatchdogsInFields(s: State, step: Step)
    requires Reachable(s) && Enabled(s, step)
    ensures var before, after := s.tracker.watchdogs, Next(s, step).tracker.watchdogs;
      match step
      case Start(id, _, _, watch) => after == before + if watch && s.arms then {id} else {}
      case TimerFires(id) => after == before - {id}
      case Close => after == {}
      case Emit(_) => after == before
      case _ => after <= before
  {
    ReachableInv(s);
    if step.Start? {
      FreshIsUnknown(s, step.id);
      StartKeepsTracker(s.tracker, step.id, step.now, step.watch && s.arms, s.limit);
    }
  }

  /** The timers: `start` arms one if it is asked to and watchdogs are in use; one that fires goes on to
      ask exactly if its submission is still accepted, queued or starting; each asks once. */
  lemma TimersInFields(s: State, step: Step)
    requires Reachable(s) && Enabled(s, step)
    ensures var t := Next(s, step);
      && t.timers == (match step
           case Start(id, _, _, watch) => if watch && s.arms then s.timers + {id} else s.timers
           case TimerFires(id) => s.timers - {id}
           case _ => s.timers)
      && (forall id :: id in t.firing <==>
            (id in s.firing && !(step.TimerAsks? && step.id == id))
            || (step == TimerFires(id) && Applies(s, id, Some({"accepted", "queued", "starting"}))))
  {
    ReachableInv(s);
    if step.TimerFires? {
      if Applies(s, step.id, Some({"accepted", "queued", "starting"})) {
        var i :| 0 <= i < |s.tracker.records| && s.tracker.records[i].id == step.id
          && s.tracker.records[i].status in {"accepted", "queued", "starting"};
        FindIs(s.tracker.records, i);
      }
    }
  }

  // ---- Main results ----

  /** The n-th change of a submission carries revision n, counted from 0. */
  lemma RevisionsCountChanges(t: State, i: nat)
    requires Reachable(t) && i < |t.log|
    ensures t.log[i].record.revision == Changes(t.log[..i], t.log[i].record.id)
  {
    ReachableInv(t);
    assert EntryOk(t.log, i);
  }

  /** Nothing follows a terminal change ... */
  lemma TerminalIsLast(t: State, i: nat, j: nat)
    requires Reachable(t) && i < j < |t.log| && t.log[i].record.id == t.log[j].record.id
    ensures !Terminal(t.log[i].record)
  {
    ReachableInv(t);
    assert EntryOk(t.log, i);
  }

  /** ... so a submission is announced as ended at most once, in whatever order threads emit. */
  lemma TerminalIsEmittedOnce(t: State, k: nat, l: nat)
    requires Reachable(t) && k < l < |t.emitted| && t.emitted[k] < |t.log| && t.emitted[l] < |t.log|
    requires Terminal(t.log[t.emitted[k]].record) && Terminal(t.log[t.emitted[l]].record)
    ensures t.log[t.emitted[k]].record.id != t.log[t.emitted[l]].record.id
  {
    ReachableInv(t);
    var i, j := t.emitted[k], t.emitted[l];
    assert i != j;
    if i < j { assert EntryOk(t.log, i); } else { assert EntryOk(t.log, j); }
  }

  /** An armed watchdog belongs to a submission that has not got beyond a watched status. */
  lemma WatchdogsWatch(t: State, id: string)
    requires Reachable(t) && id in t.tracker.watchdogs
    ensures Known(t.tracker, id).Some? && Watched(Known(t.tracker, id).value)
    ensures Latest(t.log, id) == Known(t.tracker, id)
  {
    ReachableInv(t);
    assert StillWatched(t.tracker, id);
    assert RecordOk(t.log, Known(t.tracker, id).value);
  }

  /** Only submissions that have ended are forgotten; of all others the tracker knows the latest change. */
  lemma OnlyTheEndedAreForgotten(t: State, i: nat)
    requires Reachable(t) && i < |t.log|
    ensures var id := t.log[i].record.id;
      && Latest(t.log, id).Some?
      && (Known(t.tracker, id) == Latest(t.log, id)
          || (Known(t.tracker, id).None? && Terminal(Latest(t.log, id).value)))
  {
    ReachableInv(t);
    var id := t.log[i].record.id;
    LoggedIsCounted(t.log, i);
    if Known(t.tracker, id).Some? { assert RecordOk(t.log, Known(t.tracker, id).value); }
  }

  /** A terminal submission stays as it is under every call until `start` evicts it. */
  lemma TerminalIsAbsorbing(t: State, step: Step, id: string)
    requires Reachable(t) && Enabled(t, step) && Known(t.tracker, id).Some? && Terminal(Known(t.tracker, id).value)
    ensures Known(Next(t, step).tracker, id) == Known(t.tracker, id)
      || (step.Start? && Known(Next(t, step).tracker, id).None? && |t.tracker.records| >= t.limit)
  {
    ReachableInv(t);
    var r := Known(t.tracker, id).value;
    match step
    case Start(other, now, emit, watch) =>
      FreshIsUnknown(t, other);
      StartKeepsTracker(t.tracker, other, now, watch && t.arms, t.limit);
      EndedStaysOrGoes(t.tracker, Next(t, step).tracker, r, NewRecord(other, now));
      if |t.tracker.records| < t.limit {
        assert Next(t, step).tracker.records == t.tracker.records + [NewRecord(other, now)];
        KnownIs(Next(t, step).tracker, r);
      }
    case Alter(other, c) => ChangeSparesTheEnded(t.tracker, other, c, r);
    case TimerAsks(other, message, now) => ChangeSparesTheEnded(t.tracker, other, Waiting(message, now), r);
    case _ =>
  }

  lemma EndedStaysOrGoes(t: Tracker, u: Tracker, r: Record, added: Record)
    requires Distinct(t.records) && Distinct(u.records) && r in t.records && added.id != r.id
    requires forall x :: x in u.records ==> x in t.records || x == added
    ensures Known(u, r.id) == Some(r) || Known(u, r.id).None?
  {
    KnownIs(t, r);
    if Known(u, r.id).Some? { KnownIs(t, Known(u, r.id).value); }
  }

  lemma ChangeSparesTheEnded(t: Tracker, id: string, c: Change, r: Record)
    requires TrackerOk(t) && r in t.records && Terminal(r)
    ensures Known(Transitioned(t, id, c), r.id) == Some(r)
  {
    KnownIs(t, r);
    if Accepts(t, id, c) {
      TransitionKeepsTracker(t, id, c);
      KnownIs(Transitioned(t, id, c), r);
    }
  }

  // ---- Progress ----

  function Emissions(steps: seq<Step>): seq<nat> {
    if steps == [] then [] else (if steps[0].Emit? then [steps[0].i] else []) + Emissions(steps[1..])
  }

  /** What was emitted is what the steps emitted, in their order. */
  lemma {:induction false} EmittedFollowsTheSteps(s: State, steps: seq<Step>, t: State)
    requires Run(s, steps, t)
    ensures t.emitted == s.emitted + Emissions(steps)
    decreases |steps|
  {
    if steps != [] { EmittedFollowsTheSteps(Next(s, steps[0]), steps[1..], t); }
  }

  /** From every reachable state the callers can emit all changes they announced, each exactly once. */
  lemma AllWantedCanBeEmitted(s: State) returns (steps: seq<Step>, t: State)
    requires Reachable(s)
    ensures Run(s, steps, t) && t.log == s.log && forall k :: 0 <= k < |steps| ==> steps[k].Emit?
    ensures forall i: nat :: i < |t.log| ==> multiset(t.emitted)[i] == if t.log[i].wanted then 1 else 0
  {
    ReachableInv(s);
    steps, t := EmitFrom(s, 0);
    RunKeepsInv(s, steps, t);
    forall i: nat | i < |t.log| ensures multiset(t.emitted)[i] == if t.log[i].wanted then 1 else 0 {
      OnceInDistinct(t.emitted, i);
    }
  }

  /** ... the ones from the i-th change on. */
  lemma {:induction false} EmitFrom(s: State, i: nat) returns (steps: seq<Step>, t: State)
    requires i <= |s.log| && forall j: nat :: j < i && s.log[j].wanted ==> j in s.emitted
    ensures Run(s, steps, t) && t.log == s.log && forall k :: 0 <= k < |steps| ==> steps[k].Emit?
    ensures forall j: nat :: j < |t.log| && t.log[j].wanted ==> j in t.emitted
    decreases |s.log| - i
  {
    if i == |s.log| {
      return [], s;
    } else if Enabled(s, Emit(i)) {
      var next := Next(s, Emit(i));
      assert next.emitted[|s.emitted|] == i;
      steps, t := EmitFrom(next, i + 1);
      assert ([Emit(i)] + steps)[1..] == steps;
      steps := [Emit(i)] + steps;
    } else {
      steps, t := EmitFrom(s, i + 1);
    }
  }

  lemma {:induction false} OnceInDistinct(xs: seq<nat>, x: nat)
    requires forall k, l :: 0 <= k < l < |xs| ==> xs[k] != xs[l]
    ensures multiset(xs)[x] == if x in xs then 1 else 0
  {
    if xs != [] {
      var n := |xs| - 1;
      OnceInDistinct(xs[..n], x);
      assert xs == xs[..n] + [xs[n]];
    }
  }

  /** A watchdog that has not run yet fires and finds its submission accepted, queued or starting: two
      steps later it is waiting, with one more revision, and the change is there to be emitted. */
  lemma AnExpiredWatchdogSetsToWaiting(s: State, id: string, message: string, now: real) returns (t: State)
    requires Reachable(s) && id in s.timers && id != "" && Applies(s, id, Some({"accepted", "queued", "starting"}))
    ensures Run(s, [TimerFires(id), TimerAsks(id, message, now)], t)
    ensures |t.log| == |s.log| + 1 && Enabled(t, Emit(|s.log|)) && id !in t.timers && id !in t.firing
    ensures Known(s.tracker, id).Some?
    ensures var before := Known(s.tracker, id).value;
      Known(t.tracker, id) == Some(t.log[|s.log|].record) ==
      Some(Record(id, "waiting", before.createdAt, now, before.revision + 1, message, None, before.agent))
  {
    ReachableInv(s);
    var fired := Next(s, TimerFires(id));
    FiresWhenWatched(s, id);
    StepKeepsInv(s, TimerFires(id));
    WaitingIsNormal();
    TransitionKeepsTracker(fired.tracker, id, Waiting(message, now));
    t := Next(fired, TimerAsks(id, message, now));
    assert [TimerFires(id), TimerAsks(id, message, now)][1..] == [TimerAsks(id, message, now)];
  }

  lemma FiresWhenWatched(s: State, id: string)
    requires Inv(s) && id in s.timers && Applies(s, id, Some({"accepted", "queued", "starting"}))
    ensures id in Next(s, TimerFires(id)).firing && |s.log| !in s.emitted
    ensures Known(s.tracker, id).Some? && Watched(Known(s.tracker, id).value)
  {
    var i :| 0 <= i < |s.tracker.records| && s.tracker.records[i].id == id
      && s.tracker.records[i].status in {"accepted", "queued", "starting"};
    FindIs(s.tracker.records, i);
  }

  /** A new submission can be started, and changed if "accepted" is expected; both changes can be emitted. */
  lemma ASubmissionTakesItsCourse(s: State, id: string, now: real, c: Change) returns (t: State)
    requires Reachable(s) && id != "" && Changes(s.log, id) == 0 && Lower(Strip(c.status)) != ""
    requires c.expected.Some? ==> "accepted" in c.expected.value
    ensures var n := |s.log|;
      && Run(s, [Start(id, now, true, false), Alter(id, c), Emit(n), Emit(n + 1)], t)
      && |t.log| == n + 2 && t.log[n].record == Record(id, "accepted", now, now, 0, "", None, "")
      && t.log[n + 1].record.status == Lower(Strip(c.status)) && t.log[n + 1].record.revision == 1
      && t.emitted == s.emitted + [n, n + 1]
  {
    ReachableInv(s);
    FreshIsUnknown(s, id);
    var n, started := |s.log|, Next(s, Start(id, now, true, false));
    StartKeepsTracker(s.tracker, id, now, false, s.limit);
    KnownIs(started.tracker, NewRecord(id, now));
    TransitionKeepsTracker(started.tracker, id, c);
    var changed := Next(started, Alter(id, c));
    t := changed.(emitted := s.emitted + [n, n + 1]);
    TwoEmissions(changed, n);
    FourSteps(s, Start(id, now, true, false), Alter(id, c), Emit(n), Emit(n + 1));
  }

  lemma TwoEmissions(s: State, n: nat)
    requires |s.log| == n + 2 && s.log[n].wanted && s.log[n + 1].wanted && forall i :: i in s.emitted ==> i < n
    ensures Enabled(s, Emit(n)) && Enabled(Next(s, Emit(n)), Emit(n + 1))
    ensures Next(Next(s, Emit(n)), Emit(n + 1)) == s.(emitted := s.emitted + [n, n + 1])
  {
    assert s.emitted + [n] + [n + 1] == s.emitted + [n, n + 1];
  }

  lemma FourSteps(s: State, a: Step, b: Step, c: Step, d: Step)
    requires Enabled(s, a) && Enabled(Next(s, a), b) && Enabled(Next(Next(s, a), b), c)
    requires Enabled(Next(Next(Next(s, a), b), c), d)
    ensures Run(s, [a, b, c, d], Next(Next(Next(Next(s, a), b), c), d))
  {
    var end := Next(Next(Next(Next(s, a), b), c), d);
    assert Run(Next(Next(s, a), b), [c, d], end) by {
      assert [c, d][1..] == [d] && [d][1..] == [];
    }
    assert [a, b, c, d][1..] == [b, c, d] && [b, c, d][1..] == [c, d];
  }
}
