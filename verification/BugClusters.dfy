/** Two sweeps over time stamps: the grouping of bug reports and the search for bursts of prints. */
module BugClusters {

  /** Times are seconds. */
  datatype Dated<T> = Dated(at: real, report: T)

  /** `BugCorrelator` never works with a smaller window. */
  const MIN_WINDOW := 5.0

  ghost predicate SortedByTime<T>(items: seq<Dated<T>>) {
    forall i, j :: 0 <= i <= j < |items| ==> items[i].at <= items[j].at
  }

  function Flatten<T>(groups: seq<seq<T>>): seq<T> {
    if groups == [] then [] else groups[0] + Flatten(groups[1..])
  }

  lemma {:induction false} FlattenSnoc<T>(groups: seq<seq<T>>, g: seq<T>)
    ensures Flatten(groups + [g]) == Flatten(groups) + g
  {
    if groups == [] {
      assert Flatten([g]) == g + Flatten([]);
    } else {
      FlattenSnoc(groups[1..], g);
      assert (groups + [g])[1..] == groups[1..] + [g];
    }
  }

  /** Nobody in a group comes more than `window` after its first member. */
  ghost predicate Spans<T>(groups: seq<seq<Dated<T>>>, window: real) {
    && (forall i :: 0 <= i < |groups| ==> groups[i] != [])
    && forall i, m :: 0 <= i < |groups| && 0 <= m < |groups[i]| ==> groups[i][m].at - groups[i][0].at <= window
  }

  /** A division of `items` into consecutive groups that fit the window. */
  ghost predicate Partitions<T>(groups: seq<seq<Dated<T>>>, items: seq<Dated<T>>, window: real) {
    Flatten(groups) == items && Spans(groups, window)
  }

  /** A group is only opened by an item the previous group cannot hold. */
  ghost predicate OpenedLate<T>(groups: seq<seq<Dated<T>>>, window: real)
    requires Spans(groups, window)
  {
    forall i :: 0 < i < |groups| ==> groups[i][0].at - groups[i - 1][0].at > window
  }

  function Reports<T>(group: seq<Dated<T>>): seq<T> {
    seq(|group|, i requires 0 <= i < |group| => group[i].report)
  }

  /** An item too late for the last group opens the next one. */
  lemma OpenGroup<T>(groups: seq<seq<Dated<T>>>, item: Dated<T>, items: seq<Dated<T>>, window: real)
    requires window >= 0.0 && Partitions(groups, items, window) && OpenedLate(groups, window)
    requires groups != [] ==> item.at - groups[|groups| - 1][0].at > window
    ensures Partitions(groups + [[item]], items + [item], window) && OpenedLate(groups + [[item]], window)
  {
    FlattenSnoc(groups, [item]);
  }

  lemma JoinGroup<T>(groups: seq<seq<Dated<T>>>, last: seq<Dated<T>>, item: Dated<T>, items: seq<Dated<T>>, window: real)
    requires Partitions(groups + [last], items, window) && OpenedLate(groups + [last], window)
    requires last != [] && item.at - last[0].at <= window
    ensures Partitions(groups + [last + [item]], items + [item], window) && OpenedLate(groups + [last + [item]], window)
  {
    var before: seq<seq<Dated<T>>>, after: seq<seq<Dated<T>>> := groups + [last], groups + [last + [item]];
    FlattenSnoc(groups, last);
    FlattenSnoc(groups, last + [item]);
    assert Flatten(after) == items + [item];
    assert before[|groups|] == last;
    assert forall i :: 0 <= i < |after| ==> after[i] != [] && after[i][0] == before[i][0] by {
      assert forall i :: 0 <= i < |groups| ==> after[i] == before[i];
    }
    forall i, m | 0 <= i < |after| && 0 <= m < |after[i]| ensures after[i][m].at - after[i][0].at <= window {
      if i < |groups| || m < |last| { assert after[i][m] == before[i][m]; }
    }
  }

  /** The groups with their times: an item joins the last group if that can hold it. */
  function Greedy<T>(items: seq<Dated<T>>, window: real): seq<seq<Dated<T>>> {
    if items == [] then []
    else
      var before, item := Greedy(items[..|items| - 1], window), items[|items| - 1];
      if before != [] && Last(before) != [] && item.at - Last(before)[0].at <= window
      then before[..|before| - 1] + [Last(before) + [item]] else before + [[item]]
  }

  function Last<T>(groups: seq<T>): T
    requires groups != []
  {
    groups[|groups| - 1]
  }

  /** The greedy groups divide the list in order, fit the window, and are opened late. */
  lemma {:induction false} GreedyDivides<T>(items: seq<Dated<T>>, window: real)
    requires window >= MIN_WINDOW
    ensures Partitions(Greedy(items, window), items, window) && OpenedLate(Greedy(items, window), window)
  {
    if items != [] {
      var init, item := items[..|items| - 1], items[|items| - 1];
      var before: seq<seq<Dated<T>>> := Greedy(init, window);
      GreedyDivides(init, window);
      assert items == init + [item];
      if before != [] && item.at - before[|before| - 1][0].at <= window {
        assert before == before[..|before| - 1] + [Last(before)];
        JoinGroup(before[..|before| - 1], Last(before), item, init, window);
      } else {
        OpenGroup(before, item, init, window);
      }
    }
  }

  lemma GreedyNext<T>(items: seq<Dated<T>>, item: Dated<T>, groups: seq<seq<Dated<T>>>, last: seq<Dated<T>>,
                      window: real)
    requires Greedy(items, window) == groups + [last] && last != []
    ensures Greedy(items + [item], window) ==
      if item.at - last[0].at <= window then groups + [last + [item]] else groups + [last] + [[item]]
  {
    assert (items + [item])[..|items|] == items;
    assert (groups + [last])[..|groups|] == groups && Last(groups + [last]) == last;
  }

  lemma GreedyFirst<T>(item: Dated<T>, window: real)
    ensures Greedy([item], window) == [[item]]
  {
    assert [item][..0] == [];
    assert [] + [[item]] == [[item]];
  }

  /** The clusters together are the reports, in order, none left out or repeated. */
  lemma {:induction false} ClustersAreAllReports<T>(groups: seq<seq<Dated<T>>>, clusters: seq<seq<T>>)
    requires |clusters| == |groups| && forall i :: 0 <= i < |clusters| ==> clusters[i] == Reports(groups[i])
    ensures |Flatten(clusters)| == |Flatten(groups)|
    ensures forall m :: 0 <= m < |Flatten(clusters)| ==> Flatten(clusters)[m] == Flatten(groups)[m].report
  {
    if groups != [] {
      ClustersAreAllReports(groups[1..], clusters[1..]);
    }
  }

  /** `_cluster`. */
  method Cluster<T>(valid: seq<Dated<T>>, window: real) returns (clusters: seq<seq<T>>)
    requires window >= MIN_WINDOW
    ensures |clusters| == |Greedy(valid, window)|
    ensures forall i :: 0 <= i < |clusters| ==> clusters[i] == Reports(Greedy(valid, window)[i])
    ensures forall i, m :: 0 <= i < |clusters| && 0 <= m < |Greedy(valid, window)[i]| ==>
      |clusters[i]| == |Greedy(valid, window)[i]| && clusters[i][m] == Greedy(valid, window)[i][m].report
  {
    clusters := [];
    ghost var groups: seq<seq<Dated<T>>> := [];
    var current: seq<Dated<T>> := [];
    for k := 0 to |valid|
      invariant |clusters| == |groups| && forall i :: 0 <= i < |groups| ==> clusters[i] == Reports(groups[i])
      invariant current == [] ==> k == 0 && groups == []
      invariant Greedy(valid[..k], window) == if current == [] then [] else groups + [current]
    {
      var item := valid[k];
      assert valid[..k + 1] == valid[..k] + [item];
      if current == [] {
        GreedyFirst(item, window);
        assert valid[..k + 1] == [item] && [] + [[item]] == [[item]];
        current := [item];
      } else if item.at - current[0].at <= window {
        GreedyNext(valid[..k], item, groups, current, window);
        current := current + [item];
      } else {
        GreedyNext(valid[..k], item, groups, current, window);
        clusters, groups, current := clusters + [Reports(current)], groups + [current], [item];
      }
    }
    if current != [] {
      clusters, groups := clusters + [Reports(current)], groups + [current];
    }
    assert valid[..|valid|] == valid;
  }

  /** Only the first of items more than a window apart can be in the first group. */
  lemma FarItemsLeaveTheFirstGroup<T>(other: seq<seq<Dated<T>>>, far: seq<Dated<T>>, window: real, j: nat)
    requires other != [] && SortedByTime(Flatten(other)) && Spans(other, window)
    requires 1 <= j < |far| && far[0] in Flatten(other) && far[j] in Flatten(other) && far[j].at - far[0].at > window
    ensures far[j] in Flatten(other[1..])
  {
    var all := Flatten(other);
    assert all[0] == other[0][0];
    assert all[0].at <= far[0].at;
    assert far[j] !in other[0];
  }

  /** Items more than a window apart need a group each. */
  lemma {:induction false} FarItemsNeedGroups<T>(other: seq<seq<Dated<T>>>, far: seq<Dated<T>>, window: real)
    requires SortedByTime(Flatten(other)) && Spans(other, window)
    requires forall i :: 0 <= i < |far| ==> far[i] in Flatten(other)
    requires forall i, j :: 0 <= i < j < |far| ==> far[j].at - far[i].at > window
    ensures |far| <= |other|
    decreases |other|
  {
    if far != [] {
      var rest := Flatten(other[1..]);
      forall j | 1 <= j < |far| ensures far[j] in rest {
        FarItemsLeaveTheFirstGroup(other, far, window, j);
      }
      assert SortedByTime(rest) by {
        assert rest == Flatten(other)[|other[0]|..];
      }
      FarItemsNeedGroups(other[1..], far[1..], window);
    }
  }

  lemma {:induction false} MembersAreFlattened<T>(groups: seq<seq<T>>, i: nat, x: T)
    requires i < |groups| && x in groups[i]
    ensures x in Flatten(groups)
  {
    if i > 0 { MembersAreFlattened(groups[1..], i - 1, x); }
  }

  lemma {:induction false} HeadsAreFar<T>(groups: seq<seq<Dated<T>>>, window: real, i: nat, j: nat)
    requires window >= 0.0 && Spans(groups, window) && OpenedLate(groups, window) && i < j < |groups|
    ensures groups[j][0].at - groups[i][0].at > window
    decreases j
  {
    if i < j - 1 { HeadsAreFar(groups, window, i, j - 1); }
  }

  /** On a list sorted by time no division into consecutive groups that fit the window has fewer
      groups than the one `Cluster` makes. */
  lemma GreedyIsOptimal<T>(items: seq<Dated<T>>, window: real, other: seq<seq<Dated<T>>>)
    requires window >= MIN_WINDOW && SortedByTime(items) && Partitions(other, items, window)
    ensures |Greedy(items, window)| <= |other|
  {
    var groups := Greedy(items, window);
    GreedyDivides(items, window);
    var heads := seq(|groups|, i requires 0 <= i < |groups| && groups[i] != [] => groups[i][0]);
    forall i | 0 <= i < |groups| ensures heads[i] in Flatten(other) {
      MembersAreFlattened(groups, i, groups[i][0]);
    }
    forall i, j | 0 <= i < j < |groups| ensures heads[j].at - heads[i].at > window {
      HeadsAreFar(groups, window, i, j);
    }
    FarItemsNeedGroups(other, heads, window);
  }

  // ---- Bursts ----

  const PRINT := "print"

  /** An event of the render log whose time stamp could be read; `line` is its line in the log. */
  datatype Event = Event(line: nat, kind: string, at: real)

  datatype Burst = Burst(line: nat, count: nat)

  /** `threshold` events from `k` on lie within `window` of event `k`. */
  predicate Fits(es: seq<Event>, window: real, threshold: nat, k: nat) {
    k + threshold <= |es| && forall m :: k < m < k + threshold ==> es[m].at - es[k].at <= window
  }

  /** First position past `i` that lies outside the window of event `i`, found from `j` on. */
  function WindowEnd(es: seq<Event>, window: real, i: nat, j: nat): (end: nat)
    requires i < j <= |es|
    ensures j <= end <= |es|
    decreases |es| - j
  {
    if j < |es| && es[j].at - es[i].at <= window then WindowEnd(es, window, i, j + 1) else j
  }

  lemma {:induction false} WindowHoldsAll(es: seq<Event>, window: real, i: nat, j: nat)
    requires i < j <= |es|
    ensures var end := WindowEnd(es, window, i, j);
      && (forall m :: j <= m < end ==> es[m].at - es[i].at <= window)
      && (end < |es| ==> es[end].at - es[i].at > window)
    decreases |es| - j
  {
    if j < |es| && es[j].at - es[i].at <= window { WindowHoldsAll(es, window, i, j + 1); }
  }

  function Max(a: int, b: int): int { if a < b then b else a }

  /** Where the scan looks after it looked at `i`. */
  function NextStart(es: seq<Event>, window: real, threshold: nat, i: nat): (next: nat)
    requires i < |es| && threshold >= 1
    ensures i < next <= |es|
  {
    Max(i + 1, WindowEnd(es, window, i, i + 1) - threshold + 1)
  }

  function Count(es: seq<Event>, window: real, i: nat): nat
    requires i < |es|
  {
    WindowEnd(es, window, i, i + 1) - i
  }

  function Here(es: seq<Event>, window: real, threshold: nat, i: nat): seq<nat>
    requires i < |es|
  {
    if Count(es, window, i) >= threshold then [i] else []
  }

  /** The positions from `i` on at which the scan finds a full window. */
  function FullStarts(es: seq<Event>, window: real, threshold: nat, i: nat): (starts: seq<nat>)
    requires i <= |es| && threshold >= 1
    ensures forall s :: s in starts ==> i <= s < |es|
    decreases |es| - i
  {
    if i == |es| then []
    else Here(es, window, threshold, i) + FullStarts(es, window, threshold, NextStart(es, window, threshold, i))
  }

  lemma {:induction false} FullStartsAreFull(es: seq<Event>, window: real, threshold: nat, i: nat, s: nat)
    requires i <= |es| && threshold >= 1 && s in FullStarts(es, window, threshold, i)
    ensures Count(es, window, s) >= threshold && Fits(es, window, threshold, s)
    decreases |es| - i
  {
    WindowHoldsAll(es, window, s, s + 1);
    if s > i { FullStartsAreFull(es, window, threshold, NextStart(es, window, threshold, i), s); }
  }

  /** `t` lies in the part of the log that the window of `s` covers, with room for a burst. */
  predicate Inside(es: seq<Event>, window: real, threshold: nat, s: nat, t: nat) {
    s < |es| && s <= t && t + threshold <= s + Count(es, window, s)
  }

  /** The jump loses nothing: every run that fits lies inside a full window the scan found. */
  lemma {:induction false} JumpLosesNothing(es: seq<Event>, window: real, threshold: nat, i: nat, k: nat) returns (s: nat)
    requires threshold >= 1 && i <= k && Fits(es, window, threshold, k)
    ensures s in FullStarts(es, window, threshold, i) && Inside(es, window, threshold, s, k)
    decreases |es| - i
  {
    WindowHoldsAll(es, window, i, i + 1);
    if k < NextStart(es, window, threshold, i) {
      s := i;
    } else {
      s := JumpLosesNothing(es, window, threshold, NextStart(es, window, threshold, i), k);
    }
  }

  /** A position the scan reaches after `s` starts no burst inside the window of `s`. */
  lemma {:induction false} LaterStartsAreOutside(es: seq<Event>, window: real, threshold: nat, i: nat, s: nat, t: nat)
    requires i <= |es| && threshold >= 1 && s < t
    requires s in FullStarts(es, window, threshold, i) && t in FullStarts(es, window, threshold, i)
    ensures !Inside(es, window, threshold, s, t)
    decreases |es| - i
  {
    var next := NextStart(es, window, threshold, i);
    FullStartsAreFull(es, window, threshold, i, s);
    if s == i {
      FullStartsAreFull(es, window, threshold, next, t);
    } else {
      FullStartsAreFull(es, window, threshold, next, s);
      LaterStartsAreOutside(es, window, threshold, next, s, t);
    }
  }

  /** `r` reports the window that starts at `s`. */
  predicate Reported(es: seq<Event>, window: real, r: Burst, s: nat) {
    s < |es| && es[s].kind == PRINT && r == Burst(es[s].line, Count(es, window, s))
  }

  function Lines(reports: seq<Burst>): set<nat> { set r | r in reports :: r.line }

  predicate FromStart(es: seq<Event>, window: real, r: Burst, starts: seq<nat>) {
    exists s :: s in starts && Reported(es, window, r, s)
  }

  /** The reports are the prints among the starts, one for each line. */
  ghost predicate ReportsStarts(es: seq<Event>, window: real, reports: seq<Burst>, starts: seq<nat>) {
    && (forall r :: r in reports ==> FromStart(es, window, r, starts))
    && (forall s :: s in starts && s < |es| && es[s].kind == PRINT ==> es[s].line in Lines(reports))
    && forall m, n :: 0 <= m < n < |reports| ==> reports[m].line != reports[n].line
  }

  lemma LinesOneMore(reports: seq<Burst>, r: Burst)
    ensures Lines(reports + [r]) == Lines(reports) + {r.line}
  {
    assert forall x :: x in reports + [r] <==> x in reports || x == r;
  }

  function Report(es: seq<Event>, window: real, reports: seq<Burst>, i: nat): seq<Burst> {
    if i < |es| && es[i].kind == PRINT && es[i].line !in Lines(reports)
    then reports + [Burst(es[i].line, Count(es, window, i))] else reports
  }

  function ReportsFor(es: seq<Event>, window: real, starts: seq<nat>): seq<Burst> {
    if starts == [] then []
    else Report(es, window, ReportsFor(es, window, starts[..|starts| - 1]), starts[|starts| - 1])
  }

  lemma AddStart(es: seq<Event>, window: real, starts: seq<nat>, i: nat)
    ensures ReportsFor(es, window, starts + [i]) == Report(es, window, ReportsFor(es, window, starts), i)
  {
    assert (starts + [i])[..|starts|] == starts;
  }

  lemma {:induction false} ReportsForStarts(es: seq<Event>, window: real, starts: seq<nat>)
    ensures ReportsStarts(es, window, ReportsFor(es, window, starts), starts)
  {
    if starts != [] {
      var init, i := starts[..|starts| - 1], starts[|starts| - 1];
      var before, after := ReportsFor(es, window, init), ReportsFor(es, window, starts);
      assert starts == init + [i];
      ReportsForStarts(es, window, init);
      forall r | r in after ensures FromStart(es, window, r, starts) {
        if r in before {
          var s :| s in init && Reported(es, window, r, s);
          assert s in starts;
        } else {
          assert i in starts && Reported(es, window, r, i);
        }
      }
    }
  }

  /** What the rest of the scan makes of the reports so far. */
  function Scan(es: seq<Event>, window: real, threshold: nat, i: nat, reports: seq<Burst>): seq<Burst>
    requires i <= |es| && threshold >= 1
    decreases |es| - i
  {
    if i == |es| then reports
    else
      var after := if Count(es, window, i) >= threshold then Report(es, window, reports, i) else reports;
      Scan(es, window, threshold, NextStart(es, window, threshold, i), after)
  }

  lemma {:induction false} ScanReportsFullStarts(es: seq<Event>, window: real, threshold: nat, i: nat, found: seq<nat>)
    requires i <= |es| && threshold >= 1
    ensures Scan(es, window, threshold, i, ReportsFor(es, window, found)) ==
      ReportsFor(es, window, found + FullStarts(es, window, threshold, i))
    decreases |es| - i
  {
    if i == |es| {
      assert found + [] == found;
    } else {
      var here, next := Here(es, window, threshold, i), NextStart(es, window, threshold, i);
      assert found + (here + FullStarts(es, window, threshold, next)) == (found + here) + FullStarts(es, window, threshold, next);
      AddStart(es, window, found, i);
      assert found + [] == found;
      ScanReportsFullStarts(es, window, threshold, next, found + here);
    }
  }

  /** The inner loop of the scan. */
  method FindWindowEnd(es: seq<Event>, window: real, i: nat) returns (j: nat)
    requires i < |es|
    ensures j == WindowEnd(es, window, i, i + 1)
  {
    j := i + 1;
    while j < |es| && es[j].at - es[i].at <= window
      invariant i < j <= |es| && WindowEnd(es, window, i, j) == WindowEnd(es, window, i, i + 1)
    {
      j := j + 1;
    }
  }

  /** `_detect_rapid_burst` on the events with a readable time. */
  method DetectRapidBurst(es: seq<Event>, window: real, threshold: nat) returns (reports: seq<Burst>)
    requires threshold >= 1
    ensures reports == ReportsFor(es, window, FullStarts(es, window, threshold, 0))
  {
    reports := [];
    ScanReportsFullStarts(es, window, threshold, 0, []);
    assert [] + FullStarts(es, window, threshold, 0) == FullStarts(es, window, threshold, 0);
    if |es| < threshold {
      TooFewEvents(es, window, threshold, 0);
      return;
    }
    var i := 0;
    var lines: set<nat> := {};
    while i < |es|
      invariant 0 <= i <= |es|
      invariant Scan(es, window, threshold, i, reports) == Scan(es, window, threshold, 0, [])
      invariant lines == Lines(reports)
      decreases |es| - i
    {
      var j := FindWindowEnd(es, window, i);
      var count := j - i;
      assert count == Count(es, window, i);
      if count >= threshold && es[i].kind == PRINT && es[i].line !in lines {
        LinesOneMore(reports, Burst(es[i].line, count));
        lines := lines + {es[i].line};
        reports := reports + [Burst(es[i].line, count)];
      }
      var next := Max(i + 1, j - threshold + 1);
      assert next == NextStart(es, window, threshold, i);
      i := next;
    }
  }

  lemma {:induction false} TooFewEvents(es: seq<Event>, window: real, threshold: nat, i: nat)
    requires i <= |es| < threshold
    ensures FullStarts(es, window, threshold, i) == []
    decreases |es| - i
  {
    if i < |es| { TooFewEvents(es, window, threshold, NextStart(es, window, threshold, i)); }
  }

  /** A full window is found exactly when some run of `threshold` events fits. */
  lemma WindowsAreFoundExactlyWhenRunsFit(es: seq<Event>, window: real, threshold: nat)
    requires threshold >= 1
    ensures FullStarts(es, window, threshold, 0) != [] <==> exists k :: Fits(es, window, threshold, k)
  {
    if FullStarts(es, window, threshold, 0) != [] {
      FullStartsAreFull(es, window, threshold, 0, FullStarts(es, window, threshold, 0)[0]);
    }
    if k :| Fits(es, window, threshold, k) {
      var s := JumpLosesNothing(es, window, threshold, 0, k);
    }
  }

  /** Run `k` lies inside a window that is reported. */
  ghost predicate Covered(es: seq<Event>, window: real, threshold: nat, k: nat)
    requires threshold >= 1
  {
    exists s :: s in FullStarts(es, window, threshold, 0) && Inside(es, window, threshold, s, k) && es[s].kind == PRINT
  }

  /** Every run that fits, of whatever events, lies inside a reported window exactly when every full
      window the scan stops at is opened by a print. */
  lemma EveryRunIsCoveredExactlyWhen(es: seq<Event>, window: real, threshold: nat)
    requires threshold >= 1
    ensures (forall k :: Fits(es, window, threshold, k) ==> Covered(es, window, threshold, k)) <==>
      (forall s :: s in FullStarts(es, window, threshold, 0) ==> es[s].kind == PRINT)
  {
    if forall k :: Fits(es, window, threshold, k) ==> Covered(es, window, threshold, k) {
      forall t | t in FullStarts(es, window, threshold, 0) ensures es[t].kind == PRINT {
        FullStartsAreFull(es, window, threshold, 0, t);
        var s :| s in FullStarts(es, window, threshold, 0) && Inside(es, window, threshold, s, t) && es[s].kind == PRINT;
        if s < t { LaterStartsAreOutside(es, window, threshold, 0, s, t); }
      }
    }
    if forall s :: s in FullStarts(es, window, threshold, 0) ==> es[s].kind == PRINT {
      forall k | Fits(es, window, threshold, k) ensures Covered(es, window, threshold, k) {
        var s := JumpLosesNothing(es, window, threshold, 0, k);
      }
    }
  }

  // ---- Bursts of prints ----

  /** `threshold` events from `k` on, all prints, within the window. */
  predicate PrintRun(es: seq<Event>, window: real, threshold: nat, k: nat) {
    Fits(es, window, threshold, k) && forall m :: k <= m < k + threshold ==> es[m].kind == PRINT
  }

  /** Prints among the events `a .. b`. */
  function PrintsIn(es: seq<Event>, a: nat, b: nat): nat
    requires a <= b <= |es|
  {
    if a == b then 0 else PrintsIn(es, a, b - 1) + if es[b - 1].kind == PRINT then 1 else 0
  }

  /** A print, and `threshold` prints with it before the first event more than a window later, whatever
      other events lie between them. */
  predicate IsPrintBurst(es: seq<Event>, window: real, threshold: nat, k: nat) {
    && k < |es| && es[k].kind == PRINT
    && exists e :: k < e <= |es| && EnoughUpTo(es, window, threshold, k, e)
  }

  predicate EnoughUpTo(es: seq<Event>, window: real, threshold: nat, k: nat, e: nat)
    requires k < e <= |es|
  {
    PrintsIn(es, k, e) >= threshold && forall m :: k < m < e ==> es[m].at - es[k].at <= window
  }

  lemma {:induction false} PrintsGrow(es: seq<Event>, a: nat, b: nat, c: nat)
    requires a <= b <= c <= |es|
    ensures PrintsIn(es, a, b) <= PrintsIn(es, a, c) && PrintsIn(es, a, c) <= c - a
    decreases c
  {
    if b < c {
      PrintsGrow(es, a, b, c - 1);
    } else if a < c {
      PrintsGrow(es, a, a, c - 1);
    }
  }

  lemma {:induction false} WindowReaches(es: seq<Event>, window: real, i: nat, j: nat, e: nat)
    requires i < j <= e <= |es| && forall m :: j <= m < e ==> es[m].at - es[i].at <= window
    ensures WindowEnd(es, window, i, j) >= e
    decreases e - j
  {
    if j < e { WindowReaches(es, window, i, j + 1, e); }
  }

  /** A burst of prints is one that the window of its first print holds. */
  lemma BurstIsInItsWindow(es: seq<Event>, window: real, threshold: nat, k: nat)
    requires k < |es| && es[k].kind == PRINT
    ensures IsPrintBurst(es, window, threshold, k) <==> PrintsIn(es, k, k + Count(es, window, k)) >= threshold
  {
    WindowHoldsAll(es, window, k, k + 1);
    var end := k + Count(es, window, k);
    if PrintsIn(es, k, end) >= threshold {
      assert EnoughUpTo(es, window, threshold, k, end);
    }
    if IsPrintBurst(es, window, threshold, k) {
      var e :| k < e <= |es| && EnoughUpTo(es, window, threshold, k, e);
      WindowReaches(es, window, k, k + 1, e);
      PrintsGrow(es, k, e, end);
    }
  }

  lemma BurstFits(es: seq<Event>, window: real, threshold: nat, k: nat)
    requires IsPrintBurst(es, window, threshold, k)
    ensures Fits(es, window, threshold, k)
  {
    BurstIsInItsWindow(es, window, threshold, k);
    WindowHoldsAll(es, window, k, k + 1);
    PrintsGrow(es, k, k, k + Count(es, window, k));
  }

  /** A run lies inside one window of the scan only. */
  lemma OneWindowHoldsARun(es: seq<Event>, window: real, threshold: nat, s: nat, t: nat, k: nat)
    requires threshold >= 1 && s in FullStarts(es, window, threshold, 0) && t in FullStarts(es, window, threshold, 0)
    requires Inside(es, window, threshold, s, k) && Inside(es, window, threshold, t, k)
    ensures s == t
  {
    if s < t { LaterStartsAreOutside(es, window, threshold, 0, s, t); }
    if t < s { LaterStartsAreOutside(es, window, threshold, 0, t, s); }
  }

  /** Runs of a kind all lie inside reported windows exactly when each window the scan finds around
      one is opened by a print. */
  lemma CoveredExactlyWhen(es: seq<Event>, window: real, threshold: nat, run: nat -> bool)
    requires threshold >= 1 && forall k :: run(k) ==> Fits(es, window, threshold, k)
    ensures (forall k :: run(k) ==> Covered(es, window, threshold, k)) <==>
      (forall s, k ::
         (s in FullStarts(es, window, threshold, 0) && run(k) && Inside(es, window, threshold, s, k)) ==>
           es[s].kind == PRINT)
  {
    if forall k :: run(k) ==> Covered(es, window, threshold, k) {
      forall s, k | s in FullStarts(es, window, threshold, 0) && run(k) && Inside(es, window, threshold, s, k)
        ensures es[s].kind == PRINT
      {
        var t :| t in FullStarts(es, window, threshold, 0) && Inside(es, window, threshold, t, k) && es[t].kind == PRINT;
        OneWindowHoldsARun(es, window, threshold, s, t, k);
      }
    }
    if forall s, k ::
      (s in FullStarts(es, window, threshold, 0) && run(k) && Inside(es, window, threshold, s, k)) ==>
        es[s].kind == PRINT
    {
      forall k | run(k) ensures Covered(es, window, threshold, k) {
        var s := JumpLosesNothing(es, window, threshold, 0, k);
      }
    }
  }

  lemma EveryPrintRunIsCoveredExactlyWhen(es: seq<Event>, window: real, threshold: nat)
    requires threshold >= 1
    ensures (forall k :: PrintRun(es, window, threshold, k) ==> Covered(es, window, threshold, k)) <==>
      (forall s, k ::
         (s in FullStarts(es, window, threshold, 0) && PrintRun(es, window, threshold, k)
          && Inside(es, window, threshold, s, k)) ==>
           es[s].kind == PRINT)
  {
    CoveredExactlyWhen(es, window, threshold, (k: nat) => PrintRun(es, window, threshold, k));
  }

  /** The events are not reduced to prints before the scan, so a burst of prints can be missed. The
      start of every one, with the `threshold` events from there on, lies inside a reported
      window exactly when each window the scan finds around one is opened by a print. */
  lemma EveryBurstIsCoveredExactlyWhen(es: seq<Event>, window: real, threshold: nat)
    requires threshold >= 1
    ensures (forall k :: IsPrintBurst(es, window, threshold, k) ==> Covered(es, window, threshold, k)) <==>
      (forall s, k ::
         (s in FullStarts(es, window, threshold, 0) && IsPrintBurst(es, window, threshold, k)
          && Inside(es, window, threshold, s, k)) ==>
           es[s].kind == PRINT)
  {
    forall k | IsPrintBurst(es, window, threshold, k) ensures Fits(es, window, threshold, k) {
      BurstFits(es, window, threshold, k);
    }
    CoveredExactlyWhen(es, window, threshold, (k: nat) => IsPrintBurst(es, window, threshold, k));
  }

  /** The window at `s` holds `threshold` prints from `k` on. */
  predicate HoldsFrom(es: seq<Event>, window: real, threshold: nat, s: nat, k: nat) {
    s < |es| && s <= k <= s + Count(es, window, s) && PrintsIn(es, k, s + Count(es, window, s)) >= threshold
  }

  /** `threshold` prints of burst `k` lie inside a window that is reported. */
  ghost predicate Held(es: seq<Event>, window: real, threshold: nat, k: nat)
    requires threshold >= 1
  {
    exists s :: s in FullStarts(es, window, threshold, 0) && HoldsFrom(es, window, threshold, s, k) && es[s].kind == PRINT
  }

  lemma HoldingIsAround(es: seq<Event>, window: real, threshold: nat, s: nat, k: nat)
    requires HoldsFrom(es, window, threshold, s, k)
    ensures Inside(es, window, threshold, s, k)
  {
    PrintsGrow(es, k, k, s + Count(es, window, s));
  }

  /** `threshold` prints of every burst lie inside a reported window exactly when each window the scan
      finds around the start of one is opened by a print and reaches that far. */
  lemma EveryBurstIsHeldExactlyWhen(es: seq<Event>, window: real, threshold: nat)
    requires threshold >= 1
    ensures (forall k :: IsPrintBurst(es, window, threshold, k) ==> Held(es, window, threshold, k)) <==>
      (forall s, k ::
         (s in FullStarts(es, window, threshold, 0) && IsPrintBurst(es, window, threshold, k)
          && Inside(es, window, threshold, s, k)) ==>
           es[s].kind == PRINT && HoldsFrom(es, window, threshold, s, k))
  {
    if forall k :: IsPrintBurst(es, window, threshold, k) ==> Held(es, window, threshold, k) {
      forall s, k | s in FullStarts(es, window, threshold, 0) && IsPrintBurst(es, window, threshold, k)
        && Inside(es, window, threshold, s, k)
        ensures es[s].kind == PRINT && HoldsFrom(es, window, threshold, s, k)
      {
        var t :| t in FullStarts(es, window, threshold, 0) && HoldsFrom(es, window, threshold, t, k) && es[t].kind == PRINT;
        HoldingIsAround(es, window, threshold, t, k);
        OneWindowHoldsARun(es, window, threshold, s, t, k);
      }
    }
    if forall s, k ::
      (s in FullStarts(es, window, threshold, 0) && IsPrintBurst(es, window, threshold, k)
       && Inside(es, window, threshold, s, k)) ==>
        es[s].kind == PRINT && HoldsFrom(es, window, threshold, s, k)
    {
      forall k | IsPrintBurst(es, window, threshold, k) ensures Held(es, window, threshold, k) {
        BurstFits(es, window, threshold, k);
        var s := JumpLosesNothing(es, window, threshold, 0, k);
      }
    }
  }

  predicate PrintsInOrder(es: seq<Event>) {
    && (forall m :: 0 <= m < |es| ==> es[m].kind == PRINT)
    && forall m, n :: 0 <= m <= n < |es| ==> es[m].at <= es[n].at
  }

  /** `threshold` consecutive events, the last no more than `window` after the first; one event
      is a burst of one. */
  predicate IsBurst(es: seq<Event>, window: real, threshold: nat, k: nat)
    requires threshold >= 1
  {
    k + threshold <= |es| && (threshold == 1 || es[k + threshold - 1].at - es[k].at <= window)
  }

  /** With prints only, and times in order, no burst is lost ... */
  lemma PrintsOnlyLoseNoBurst(es: seq<Event>, window: real, threshold: nat, k: nat)
    requires threshold >= 1 && PrintsInOrder(es) && IsBurst(es, window, threshold, k)
    ensures Covered(es, window, threshold, k)
  {
    assert Fits(es, window, threshold, k);
    EveryRunIsCoveredExactlyWhen(es, window, threshold);
  }

  /** ... so something is reported exactly when the log holds a burst. */
  lemma ReportedExactlyWhenABurstExists(es: seq<Event>, window: real, threshold: nat, reports: seq<Burst>)
    requires threshold >= 1 && PrintsInOrder(es)
    requires ReportsStarts(es, window, reports, FullStarts(es, window, threshold, 0))
    ensures reports != [] <==> exists k :: IsBurst(es, window, threshold, k)
  {
    if k :| IsBurst(es, window, threshold, k) {
      PrintsOnlyLoseNoBurst(es, window, threshold, k);
    }
    if reports != [] {
      assert FromStart(es, window, reports[0], FullStarts(es, window, threshold, 0));
      var s :| s in FullStarts(es, window, threshold, 0) && Reported(es, window, reports[0], s);
      FullStartsAreFull(es, window, threshold, 0, s);
      assert IsBurst(es, window, threshold, s);
    }
  }

  /** Two prints within the window go unreported when another event comes just before them. */
  lemma MixedKindsHideABurst() returns (es: seq<Event>)
    ensures PrintRun(es, 2.0, 2, 1) && IsPrintBurst(es, 2.0, 2, 1)
    ensures ReportsFor(es, 2.0, FullStarts(es, 2.0, 2, 0)) == []
  {
    es := [Event(1, "ansi", 0.0), Event(2, PRINT, 0.1), Event(3, PRINT, 0.2)];
    assert PrintsIn(es, 1, 2) == 1 && EnoughUpTo(es, 2.0, 2, 1, 3);
    assert WindowEnd(es, 2.0, 0, 1) == 3 by { assert WindowEnd(es, 2.0, 0, 2) == 3; }
    assert NextStart(es, 2.0, 2, 0) == 2 && NextStart(es, 2.0, 2, 2) == 3;
    assert FullStarts(es, 2.0, 2, 3) == [];
    assert FullStarts(es, 2.0, 2, 2) == [];
    assert FullStarts(es, 2.0, 2, 0) == [0];
    assert [0][..0] == [];
    assert ReportsFor(es, 2.0, []) == [];
  }

  /** Nor do prints with another event between them have to be a run of prints to be missed. */
  lemma OtherEventsHideABurst() returns (es: seq<Event>)
    ensures IsPrintBurst(es, 2.0, 2, 1) && forall k :: !PrintRun(es, 2.0, 2, k)
    ensures ReportsFor(es, 2.0, FullStarts(es, 2.0, 2, 0)) == []
  {
    es := [Event(1, "ansi", 0.0), Event(2, PRINT, 0.1), Event(3, "ansi", 0.15), Event(4, PRINT, 0.2)];
    assert PrintsIn(es, 1, 2) == 1 && PrintsIn(es, 1, 3) == 1;
    assert EnoughUpTo(es, 2.0, 2, 1, 4);
    HiddenScan(es);
  }

  lemma HiddenScan(es: seq<Event>)
    requires es == [Event(1, "ansi", 0.0), Event(2, PRINT, 0.1), Event(3, "ansi", 0.15), Event(4, PRINT, 0.2)]
    ensures ReportsFor(es, 2.0, FullStarts(es, 2.0, 2, 0)) == []
  {
    assert WindowEnd(es, 2.0, 0, 2) == 4 by { assert WindowEnd(es, 2.0, 0, 3) == 4; }
    assert NextStart(es, 2.0, 2, 0) == 3 && NextStart(es, 2.0, 2, 3) == 4;
    assert FullStarts(es, 2.0, 2, 4) == [];
    assert FullStarts(es, 2.0, 2, 3) == [];
    assert FullStarts(es, 2.0, 2, 0) == [0];
    assert [0][..0] == [];
    assert ReportsFor(es, 2.0, []) == [];
  }

  /** And a burst whose start a report covers may end behind it, where nothing is reported. */
  lemma ABurstMayBeCutOff() returns (es: seq<Event>)
    ensures IsPrintBurst(es, 2.0, 2, 1) && Covered(es, 2.0, 2, 1) && !Held(es, 2.0, 2, 1)
  {
    es := [Event(1, PRINT, 0.0), Event(2, PRINT, 1.9), Event(3, "ansi", 1.95), Event(4, PRINT, 3.0)];
    assert PrintsIn(es, 1, 2) == 1 && PrintsIn(es, 1, 3) == 1;
    assert EnoughUpTo(es, 2.0, 2, 1, 4);
    assert WindowEnd(es, 2.0, 0, 1) == 3 by { assert WindowEnd(es, 2.0, 0, 2) == 3; }
    assert NextStart(es, 2.0, 2, 0) == 2;
    assert 0 in FullStarts(es, 2.0, 2, 0) && Inside(es, 2.0, 2, 0, 1);
    assert !HoldsFrom(es, 2.0, 2, 0, 1);
  }

  // ---- What a report counts ----

  function OthersIn(es: seq<Event>, a: nat, b: nat): nat
    requires a <= b <= |es|
  {
    if a == b then 0 else OthersIn(es, a, b - 1) + if es[b - 1].kind == PRINT then 0 else 1
  }

  lemma {:induction false} PrintsAndOthers(es: seq<Event>, a: nat, b: nat)
    requires a <= b <= |es|
    ensures PrintsIn(es, a, b) + OthersIn(es, a, b) == b - a
    ensures OthersIn(es, a, b) == 0 <==> forall m :: a <= m < b ==> es[m].kind == PRINT
    decreases b
  {
    if a < b { PrintsAndOthers(es, a, b - 1); }
  }

  /** Events are numbered by their lines in the log. */
  predicate DistinctLines(es: seq<Event>) { forall i, j :: 0 <= i < j < |es| ==> es[i].line != es[j].line }

  /** The report of the window at `s` claims at least `threshold` prints, or all its `count`, rightly. */
  predicate HoldsEnough(es: seq<Event>, window: real, threshold: nat, s: nat)
    requires s < |es|
  {
    PrintsIn(es, s, s + Count(es, window, s)) >= threshold
  }

  predicate CountsPrints(es: seq<Event>, window: real, r: Burst, s: nat)
    requires s < |es|
  {
    PrintsIn(es, s, s + Count(es, window, s)) == r.count
  }

  /** The reports are one to one with the full windows opened by a print. */
  lemma ReportsAreTheFullPrintStarts(es: seq<Event>, window: real, threshold: nat, s: nat) returns (r: Burst)
    requires threshold >= 1 && DistinctLines(es) && s in FullStarts(es, window, threshold, 0) && es[s].kind == PRINT
    ensures r in ReportsFor(es, window, FullStarts(es, window, threshold, 0)) && Reported(es, window, r, s)
  {
    var starts := FullStarts(es, window, threshold, 0);
    ReportsForStarts(es, window, starts);
    r :| r in ReportsFor(es, window, starts) && r.line == es[s].line;
    assert FromStart(es, window, r, starts);
  }

  /** Every report is of at least `threshold` prints exactly when each print that opens a full window
      starts a burst of prints; and its count is the number of prints exactly when those windows
      hold prints only. */
  lemma ReportsCountPrintsExactlyWhen(es: seq<Event>, window: real, threshold: nat)
    requires threshold >= 1 && DistinctLines(es)
    ensures var starts := FullStarts(es, window, threshold, 0);
      var reports := ReportsFor(es, window, starts);
      && ((forall r, s :: r in reports && s in starts && Reported(es, window, r, s) ==> HoldsEnough(es, window, threshold, s))
          <==> forall s :: s in starts && es[s].kind == PRINT ==> IsPrintBurst(es, window, threshold, s))
      && ((forall r, s :: r in reports && s in starts && Reported(es, window, r, s) ==> CountsPrints(es, window, r, s))
          <==> forall s, m :: s in starts && es[s].kind == PRINT && s <= m < s + Count(es, window, s) ==>
                 es[m].kind == PRINT)
  {
    var starts := FullStarts(es, window, threshold, 0);
    forall s | s in starts && es[s].kind == PRINT
      ensures exists r :: r in ReportsFor(es, window, starts) && Reported(es, window, r, s)
      ensures HoldsEnough(es, window, threshold, s) <==> IsPrintBurst(es, window, threshold, s)
      ensures var end := s + Count(es, window, s);
        && PrintsIn(es, s, end) + OthersIn(es, s, end) == end - s
        && (OthersIn(es, s, end) == 0 <==> forall m :: s <= m < end ==> es[m].kind == PRINT)
    {
      var r := ReportsAreTheFullPrintStarts(es, window, threshold, s);
      BurstIsInItsWindow(es, window, threshold, s);
      PrintsAndOthers(es, s, s + Count(es, window, s));
    }
  }

  /** One print and another event right behind it are reported as a burst of two. */
  lemma AnotherEventCountsAsAPrint() returns (es: seq<Event>)
    ensures ReportsFor(es, 2.0, FullStarts(es, 2.0, 2, 0)) == [Burst(1, 2)]
    ensures |es| == 2 && PrintsIn(es, 0, 2) == 1
  {
    es := [Event(1, PRINT, 0.0), Event(2, "ansi", 0.1)];
    assert WindowEnd(es, 2.0, 0, 1) == 2 by { assert WindowEnd(es, 2.0, 0, 2) == 2; }
    assert NextStart(es, 2.0, 2, 0) == 1 && NextStart(es, 2.0, 2, 1) == 2;
    assert FullStarts(es, 2.0, 2, 2) == [];
    assert FullStarts(es, 2.0, 2, 1) == [];
    assert FullStarts(es, 2.0, 2, 0) == [0];
    assert [0][..0] == [];
    assert ReportsFor(es, 2.0, []) == [];
    assert PrintsIn(es, 0, 1) == 1;
  }
}
