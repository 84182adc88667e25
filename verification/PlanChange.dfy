/** The plan-change view: before and after segments grouped by overlap, and what became of a trip. */
module PlanChange {
  import opened Prelude
  import opened Sorting
  import opened Intervals
  import opened Domain
  import opened SupervisedDay
  import opened PlanInvalidation
  import opened Materialization
  import opened SegmentViews

  // ---------------------------------------------------------------- overlap components

  /** Nothing that started earlier is still going on when entry k starts. */
  predicate Cut(ws: seq<Window>, k: nat)
    requires k < |ws|
  {
    forall i :: 0 <= i < k ==> ws[i].end <= ws[k].start
  }

  /** The group entry k belongs to: the number of cuts since the first entry. */
  function GroupOf(ws: seq<Window>, k: nat): nat
    requires k < |ws|
  {
    if k == 0 then 0 else GroupOf(ws, k - 1) + (if Cut(ws, k) then 1 else 0)
  }

  predicate Steps(ws: seq<Window>, path: seq<nat>) {
    && path != [] && (forall i :: 0 <= i < |path| ==> path[i] < |ws|)
    && forall i :: 0 < i < |path| ==> Overlap(ws[path[i-1]], ws[path[i]])
  }

  /** Entries i and j are linked by a chain of overlapping entries. */
  ghost predicate Connected(ws: seq<Window>, i: nat, j: nat) {
    exists path :: Steps(ws, path) && path[0] == i && path[|path|-1] == j
  }

  lemma ConnectedStep(ws: seq<Window>, i: nat, j: nat, k: nat)
    requires Connected(ws, i, j) && j < |ws| && k < |ws| && Overlap(ws[j], ws[k])
    ensures Connected(ws, i, k)
  {
    var path :| Steps(ws, path) && path[0] == i && path[|path|-1] == j;
    assert Steps(ws, path + [k]);
  }

  lemma {:induction false} GroupsGrow(ws: seq<Window>, i: nat, j: nat)
    requires i <= j < |ws|
    ensures GroupOf(ws, i) <= GroupOf(ws, j)
    decreases j
  {
    if i < j {
      GroupsGrow(ws, i, j - 1);
    }
  }

  /** An entry that starts before i ends is not separated from i by any cut. */
  lemma {:induction false} OverlapStaysTogether(ws: seq<Window>, i: nat, j: nat)
    requires StartsAscend(ws) && i <= j < |ws| && ws[j].start < ws[i].end
    ensures GroupOf(ws, i) == GroupOf(ws, j)
    decreases j
  {
    if i < j {
      assert !Cut(ws, j);
      OverlapStaysTogether(ws, i, j - 1);
    }
  }

  lemma {:induction false} PathStaysTogether(ws: seq<Window>, path: seq<nat>)
    requires StartsAscend(ws) && Steps(ws, path)
    ensures GroupOf(ws, path[0]) == GroupOf(ws, path[|path|-1])
  {
    hide GroupOf;
    if |path| > 1 {
      var a, b := path[|path|-2], path[|path|-1];
      PathStaysTogether(ws, path[..|path|-1]);
      assert Overlap(ws[path[|path|-2]], ws[path[|path|-1]]);
      if a <= b { OverlapStaysTogether(ws, a, b); } else { OverlapStaysTogether(ws, b, a); }
    }
  }

  lemma {:induction false} ConnectedBack(ws: seq<Window>, path: seq<nat>)
    requires Steps(ws, path)
    ensures Connected(ws, path[|path|-1], path[0])
  {
    if |path| == 1 {
      assert Steps(ws, path);
    } else {
      ConnectedBack(ws, path[1..]);
      ConnectedStep(ws, path[|path|-1], path[1], path[0]);
    }
  }

  lemma {:induction false} GroupIsConnected(ws: seq<Window>, i: nat, j: nat)
    requires StartsAscend(ws) && i <= j < |ws| && GroupOf(ws, i) == GroupOf(ws, j)
    ensures Connected(ws, i, j)
    decreases j
  {
    if i == j {
      assert Steps(ws, [i]);
    } else {
      GroupsGrow(ws, i, j - 1);
      assert !Cut(ws, j);
      var m: nat :| m < j && ws[m].end > ws[j].start;
      OverlapStaysTogether(ws, m, j);
      if i <= m {
        GroupIsConnected(ws, i, m);
      } else {
        GroupIsConnected(ws, m, i);
        var path :| Steps(ws, path) && path[0] == m && path[|path|-1] == i;
        ConnectedBack(ws, path);
      }
      ConnectedStep(ws, i, m, j);
    }
  }

  /** The groups are exactly the components of the overlap relation. */
  lemma GroupsAreComponents(ws: seq<Window>, i: nat, j: nat)
    requires StartsAscend(ws) && i < |ws| && j < |ws|
    ensures GroupOf(ws, i) == GroupOf(ws, j) <==> Connected(ws, i, j)
  {
    hide GroupOf;
    if GroupOf(ws, i) == GroupOf(ws, j) {
      if i <= j {
        GroupIsConnected(ws, i, j);
      } else {
        GroupIsConnected(ws, j, i);
        var path :| Steps(ws, path) && path[0] == j && path[|path|-1] == i;
        ConnectedBack(ws, path);
      }
    }
    if Connected(ws, i, j) {
      var path :| Steps(ws, path) && path[0] == i && path[|path|-1] == j;
      PathStaysTogether(ws, path);
    }
  }

  // ---------------------------------------------------------------- the groups of the view

  datatype Side = Before | After

  datatype Entry = Entry(segment: Segment, side: Side)

  datatype Group = Group(start: int, end: int, before: seq<Segment>, after: seq<Segment>)

  predicate EntryLeq(a: Entry, b: Entry) {
    StartLeq(a.segment, b.segment)
  }

  function Entries(before: seq<Segment>, after: seq<Segment>): (r: seq<Entry>)
    ensures |r| == |before| + |after|
  {
    SortPermutes(EntryLeq, Map(before, (s: Segment) => Entry(s, Before)) + Map(after, (s: Segment) => Entry(s, After)));
    Sort(EntryLeq, Map(before, (s: Segment) => Entry(s, Before)) + Map(after, (s: Segment) => Entry(s, After)))
  }

  function EntryWindows(entries: seq<Entry>): seq<Window> {
    Map(entries, (e: Entry) => e.segment.window)
  }

  /** What group g holds of the given side, in order of start. */
  function Members(entries: seq<Entry>, n: nat, g: nat, side: Side): seq<Segment>
    requires n <= |entries|
  {
    if n == 0 then []
    else
      var e := entries[n-1];
      Members(entries, n - 1, g, side)
      + (if e.side == side && GroupOf(EntryWindows(entries), n - 1) == g then [e.segment] else [])
  }

  /** After looking at n entries: one group per component so far, holding exactly its members. */
  ghost predicate Grouped(entries: seq<Entry>, n: nat, groups: seq<Group>)
    requires n <= |entries|
  {
    var ws := EntryWindows(entries);
    && |groups| == (if n == 0 then 0 else GroupOf(ws, n - 1) + 1)
    && (forall g :: 0 <= g < |groups| ==>
          groups[g].before == Members(entries, n, g, Before) && groups[g].after == Members(entries, n, g, After))
    && (n > 0 ==> LatestEnd(ws, n, groups[|groups|-1].end))
  }

  predicate LatestEnd(ws: seq<Window>, n: nat, end: int)
    requires n <= |ws|
  {
    (exists i :: 0 <= i < n && ws[i].end == end) && forall i :: 0 <= i < n ==> ws[i].end <= end
  }

  function Extended(g: Group, e: Entry): Group {
    var end := if g.end >= e.segment.window.end then g.end else e.segment.window.end;
    if e.side.Before? then g.(end := end, before := g.before + [e.segment])
    else g.(end := end, after := g.after + [e.segment])
  }

  function PlaceEntry(groups: seq<Group>, e: Entry): seq<Group> {
    var w := e.segment.window;
    var current := if groups == [] || w.start >= groups[|groups|-1].end
                  then groups + [Group(w.start, w.end, [], [])] else groups;
    current[|current|-1 := Extended(current[|current|-1], e)]
  }

  lemma {:induction false} NoLaterGroupYet(entries: seq<Entry>, n: nat, g: nat, side: Side)
    requires n <= |entries| && (n > 0 ==> g > GroupOf(EntryWindows(entries), n - 1))
    ensures Members(entries, n, g, side) == []
  {
    if n > 0 {
      NoLaterGroupYet(entries, n - 1, g, side);
    }
  }

  /** The view opens a group exactly at a cut. */
  lemma OpensAtCuts(ws: seq<Window>, n: nat, end: int)
    requires 0 < n < |ws| && LatestEnd(ws, n, end)
    ensures ws[n].start >= end <==> Cut(ws, n)
  {
  }

  lemma LatestEndStep(ws: seq<Window>, n: nat, end: int)
    requires n < |ws| && (n > 0 ==> LatestEnd(ws, n, end)) && (n == 0 ==> end == ws[0].end)
    ensures LatestEnd(ws, n + 1, if end >= ws[n].end then end else ws[n].end)
  {
  }

  lemma PlaceStep(entries: seq<Entry>, n: nat, groups: seq<Group>)
    requires n < |entries| && Grouped(entries, n, groups)
    ensures Grouped(entries, n + 1, PlaceEntry(groups, entries[n]))
  {
    var ws, e := EntryWindows(entries), entries[n];
    assert ws[n] == e.segment.window;
    if n > 0 {
      OpensAtCuts(ws, n, groups[|groups|-1].end);
      LatestEndStep(ws, n, groups[|groups|-1].end);
      if Cut(ws, n) { EndsAtNew(ws, n); }
    } else {
      LatestEndStep(ws, n, ws[0].end);
    }
    NoLaterGroupYet(entries, n, |groups|, Before);
    NoLaterGroupYet(entries, n, |groups|, After);
    hide Cut, LatestEnd, EntryWindows;
    assert |PlaceEntry(groups, e)| == GroupOf(ws, n) + 1;
  }

  lemma EndsAtNew(ws: seq<Window>, n: nat)
    requires n < |ws| && Cut(ws, n)
    ensures LatestEnd(ws, n + 1, ws[n].end)
  {
  }

  function OnSide(g: Group, side: Side): seq<Segment> {
    if side.Before? then g.before else g.after
  }

  function SideOf(entries: seq<Entry>, side: Side): seq<Segment> {
    FlatMap(entries, (e: Entry) => if e.side == side then [e.segment] else [])
  }

  function Shown(groups: seq<Group>, side: Side): seq<Segment> {
    FlatMap(groups, (g: Group) => OnSide(g, side))
  }

  lemma ShownSplit(groups: seq<Group>, side: Side)
    requires groups != []
    ensures Shown(groups, side) == Shown(groups[..|groups|-1], side) + OnSide(groups[|groups|-1], side)
  {
  }

  lemma ExtendedShowsOne(g: Group, e: Entry, side: Side)
    ensures OnSide(Extended(g, e), side) == OnSide(g, side) + (if e.side == side then [e.segment] else [])
  {
  }

  /** Placing an entry shows it once, at the end of its side. */
  lemma PlaceShowsOne(groups: seq<Group>, e: Entry, side: Side)
    ensures Shown(PlaceEntry(groups, e), side) == Shown(groups, side) + (if e.side == side then [e.segment] else [])
  {
    hide Shown, Extended;
    var w := e.segment.window;
    var empty := Group(w.start, w.end, [], []);
    var current := if groups == [] || w.start >= groups[|groups|-1].end then groups + [empty] else groups;
    var init, last := current[..|current|-1], current[|current|-1];
    var placed := PlaceEntry(groups, e);
    assert placed[..|placed|-1] == init && placed[|placed|-1] == Extended(last, e);
    ShownSplit(placed, side);
    ShownSplit(current, side);
    ExtendedShowsOne(last, e, side);
    if current != groups {
      assert init == groups && OnSide(empty, side) == [];
    }
  }

  lemma {:induction false} SideOfMapped(segments: seq<Segment>, tag: Side, side: Side)
    ensures SideOf(Map(segments, (s: Segment) => Entry(s, tag)), side) == if tag == side then segments else []
  {
    var f := (s: Segment) => Entry(s, tag);
    if segments != [] {
      var init, last := segments[..|segments|-1], segments[|segments|-1];
      SideOfMapped(init, tag, side);
      assert Map(segments, f)[..|segments|-1] == Map(init, f);
      assert segments == init + [last];
    }
  }

  lemma {:induction false} SideOfPermutes(a: seq<Entry>, b: seq<Entry>, side: Side)
    requires multiset(a) == multiset(b)
    ensures multiset(SideOf(a, side)) == multiset(SideOf(b, side))
    decreases |a|
  {
    var f := (e: Entry) => if e.side == side then [e.segment] else [];
    if a == [] {
      assert b == [] by { SameElements(a, b); }
    } else {
      var before, after := SplitAround(a, b);
      SideOfPermutes(a[1..], before + after, side);
      assert a == [a[0]] + a[1..];
      FlatMapConcat([a[0]], a[1..], f);
      FlatMapConcat(before, after, f);
      FlatMapConcat(before + [a[0]], after, f);
      FlatMapConcat(before, [a[0]], f);
    }
  }

  /** Sorting by start loses and repeats nothing on either side. */
  lemma EntriesKeepSides(before: seq<Segment>, after: seq<Segment>)
    ensures multiset(SideOf(Entries(before, after), Before)) == multiset(before)
    ensures multiset(SideOf(Entries(before, after), After)) == multiset(after)
    ensures StartsAscend(EntryWindows(Entries(before, after)))
  {
    var x, y := Map(before, (s: Segment) => Entry(s, Before)), Map(after, (s: Segment) => Entry(s, After));
    SortPermutes(EntryLeq, x + y);
    assert Preorder(EntryLeq);
    SortOrders(EntryLeq, x + y);
    forall side | true
      ensures multiset(SideOf(Entries(before, after), side)) == multiset(if side.Before? then before else after)
    {
      SideOfPermutes(Entries(before, after), x + y, side);
      FlatMapConcat(x, y, (e: Entry) => if e.side == side then [e.segment] else []);
      SideOfMapped(before, Before, side);
      SideOfMapped(after, After, side);
      assert SideOf(x + y, side) == if side.Before? then before else after;
    }
  }

  datatype Change = Change(group: Group, kept: bool)

  predicate IsKept(g: Group) {
    |g.before| == 1 && |g.after| == 1 && MateriallyMatch(g.before[0], g.after[0])
  }

  /** One segment before and one after, and both are the work of one primitive. */
  ghost predicate IsOneUnchanged(g: Group) {
    |g.before| == 1 && |g.after| == 1 && exists p :: SameWork(g.before[0], p) && SameWork(g.after[0], p)
  }

  lemma KeptMeansUnchanged(g: Group)
    ensures IsKept(g) <==> IsOneUnchanged(g)
  {
    if |g.before| == 1 && |g.after| == 1 {
      MatchingIsOneWork(g.before[0], g.after[0]);
    }
  }

  /** Walk the entries in order of start, opening a group at every cut and extending the last one
      otherwise. One group per overlap component, each segment shown in exactly one of them. */
  method GroupChanges(before: seq<Segment>, after: seq<Segment>) returns (changes: seq<Change>)
    ensures Grouped(Entries(before, after), |before| + |after|, Map(changes, (c: Change) => c.group))
    ensures multiset(Shown(Map(changes, (c: Change) => c.group), Before)) == multiset(before)
    ensures multiset(Shown(Map(changes, (c: Change) => c.group), After)) == multiset(after)
    ensures forall c :: c in changes ==> (c.kept <==> IsOneUnchanged(c.group))
  {
    forall g ensures IsKept(g) <==> IsOneUnchanged(g) {
      KeptMeansUnchanged(g);
    }
    var entries := Entries(before, after);
    EntriesKeepSides(before, after);
    var groups := GroupEntries(entries);
    changes := Map(groups, (g: Group) => Change(g, IsKept(g)));
    assert Map(changes, (c: Change) => c.group) == groups;
  }

  method GroupEntries(entries: seq<Entry>) returns (groups: seq<Group>)
    ensures Grouped(entries, |entries|, groups)
    ensures Shown(groups, Before) == SideOf(entries, Before) && Shown(groups, After) == SideOf(entries, After)
  {
    hide Grouped, Shown, SideOf;
    groups := [];
    NothingGrouped(entries);
    for k := 0 to |entries|
      invariant Grouped(entries, k, groups)
      invariant Shown(groups, Before) == SideOf(entries[..k], Before)
      invariant Shown(groups, After) == SideOf(entries[..k], After)
    {
      var entry := entries[k];
      PlaceStep(entries, k, groups);
      PlaceShowsOne(groups, entry, Before);
      PlaceShowsOne(groups, entry, After);
      SideOfStep(entries, k);
      var window := entry.segment.window;
      if groups == [] || window.start >= groups[|groups|-1].end {
        groups := groups + [Group(window.start, window.end, [], [])];
      }
      var last := groups[|groups|-1];
      last := last.(end := if last.end >= window.end then last.end else window.end);
      last := if entry.side.Before? then last.(before := last.before + [entry.segment])
              else last.(after := last.after + [entry.segment]);
      groups := groups[|groups|-1 := last];
    }
    assert entries[..|entries|] == entries;
  }

  lemma NothingGrouped(entries: seq<Entry>)
    ensures Grouped(entries, 0, [])
    ensures Shown([], Before) == SideOf(entries[..0], Before) && Shown([], After) == SideOf(entries[..0], After)
  {
  }

  lemma SideOfStep(entries: seq<Entry>, k: nat)
    requires k < |entries|
    ensures SideOf(entries[..k+1], Before) ==
      SideOf(entries[..k], Before) + (if entries[k].side.Before? then [entries[k].segment] else [])
    ensures SideOf(entries[..k+1], After) ==
      SideOf(entries[..k], After) + (if entries[k].side.After? then [entries[k].segment] else [])
  {
    assert entries[..k+1][..k] == entries[..k];
  }

  // ---------------------------------------------------------------- what became of a segment

  datatype Class = Unavailable | Changed | TransportNoLongerNeeded

  predicate HitBy(s: Segment, a: Assumption) {
    && (a.subject == s.person || s.transporter == Some(a.subject))
    && a.window.Some? && Overlap(s.window, a.window.value)
  }

  predicate IsAffected(s: Segment, prior: seq<Segment>, invalidated: seq<Assumption>) {
    s in prior && exists a :: a in invalidated && HitBy(s, a)
  }

  /** An invalidated assumption is about who does or drives the segment, at some instant of it. */
  ghost predicate IsAbout(a: Assumption, s: Segment) {
    && (a.subject == s.person || s.transporter == Some(a.subject))
    && a.window.Some? && exists t :: Holds(s.window, t) && Holds(a.window.value, t)
  }

  ghost predicate LosesItsPerson(s: Segment, prior: seq<Segment>, invalidated: seq<Assumption>) {
    s in prior && exists a :: a in invalidated && IsAbout(a, s)
  }

  lemma AffectedMeansLosing(s: Segment, prior: seq<Segment>, invalidated: seq<Assumption>)
    ensures IsAffected(s, prior, invalidated) <==> LosesItsPerson(s, prior, invalidated)
  {
    forall a: Assumption ensures HitBy(s, a) <==> IsAbout(a, s) {
      if a.window.Some? {
        WindowsAreInstants(s.window, a.window.value);
      }
    }
    hide HitBy, IsAbout;
  }

  function Overlapping(s: Segment, segments: seq<Segment>): seq<Segment> {
    ByStart(Filter(segments, (o: Segment) => Overlap(o.window, s.window)))
  }

  /** Only care overlaps the trip, and that care covers all of it. */
  ghost predicate CareTakesOver(s: Segment, segments: seq<Segment>) {
    && (forall o :: o in segments && Overlap(o.window, s.window) ==> o.kind.Care?)
    && (forall t :: Holds(s.window, t) ==> Supervised(segments, t))
  }

  /** The covered-until sweep: the trip is no longer needed exactly when it is an unaffected trip, the
      active plan is valid, and nothing but care overlaps it and covers it completely. */
  method Classify(s: Segment, prior: seq<Segment>, invalidated: seq<Assumption>, active: Option<Plan>)
    returns (verdict: Class)
    ensures verdict.Unavailable? <==> LosesItsPerson(s, prior, invalidated)
    ensures verdict.TransportNoLongerNeeded? <==>
      (!LosesItsPerson(s, prior, invalidated) && s.kind.Transport? && active.Some? && active.value.state.Valid?
       && CareTakesOver(s, active.value.segments))
  {
    AffectedMeansLosing(s, prior, invalidated);
    if IsAffected(s, prior, invalidated) {
      return Unavailable;
    }
    if !s.kind.Transport? || active.None? || !active.value.state.Valid? {
      return Changed;
    }
    var taken := SweepCover(s, active.value.segments);
    verdict := if taken then TransportNoLongerNeeded else Changed;
  }

  method SweepCover(s: Segment, segments: seq<Segment>) returns (taken: bool)
    ensures taken <==> CareTakesOver(s, segments)
  {
    var overlapping := Overlapping(s, segments);
    OverlappingMeaning(s, segments);
    var coveredUntil := s.window.start;
    for i := 0 to |overlapping|
      invariant s.window.start <= coveredUntil
      invariant forall j :: 0 <= j < i ==> overlapping[j].kind.Care? && overlapping[j].window.end <= coveredUntil
      invariant forall t :: s.window.start <= t < coveredUntil ==> Supervised(overlapping, t)
    {
      var other := overlapping[i];
      assert other in overlapping;
      if other.kind.Transport? {
        assert other in segments && Overlap(other.window, s.window);
        return false;
      }
      if other.window.start > coveredUntil {
        UncoveredGap(s, segments, overlapping, i, coveredUntil);
        return false;
      }
      coveredUntil := if coveredUntil >= other.window.end then coveredUntil else other.window.end;
    }
    taken := coveredUntil >= s.window.end;
    if !taken {
      UncoveredPoint(s, segments, coveredUntil);
    } else {
      forall t | Holds(s.window, t) ensures Supervised(segments, t) {
        assert Supervised(overlapping, t);
        var o :| o in overlapping && Holds(o.window, t);
        assert o in segments;
      }
    }
  }

  lemma OverlappingMeaning(s: Segment, segments: seq<Segment>)
    ensures forall o :: o in Overlapping(s, segments) <==> o in segments && Overlap(o.window, s.window)
    ensures StartsAscend(WindowsOf(Overlapping(s, segments)))
  {
    var hit := (o: Segment) => Overlap(o.window, s.window);
    FilterMember(segments, hit);
    ByStartAscends(Filter(segments, hit));
  }

  lemma UncoveredGap(s: Segment, segments: seq<Segment>, overlapping: seq<Segment>, i: nat, coveredUntil: int)
    requires overlapping == Overlapping(s, segments) && i < |overlapping|
    requires s.window.start <= coveredUntil < overlapping[i].window.start
    requires forall j :: 0 <= j < i ==> overlapping[j].window.end <= coveredUntil
    ensures !CareTakesOver(s, segments)
  {
    OverlappingMeaning(s, segments);
    assert overlapping[i] in overlapping;
    forall j | 0 <= j < |overlapping| ensures !Holds(overlapping[j].window, coveredUntil) {
      if j > i {
        assert WindowsOf(overlapping)[i].start <= WindowsOf(overlapping)[j].start;
      }
    }
    UncoveredPoint(s, segments, coveredUntil);
  }

  lemma UncoveredPoint(s: Segment, segments: seq<Segment>, t: int)
    requires Holds(s.window, t)
    requires forall j :: 0 <= j < |Overlapping(s, segments)| ==> !Holds(Overlapping(s, segments)[j].window, t)
    ensures !CareTakesOver(s, segments)
  {
    var overlapping := Overlapping(s, segments);
    OverlappingMeaning(s, segments);
    forall o | o in segments ensures !Holds(o.window, t) {
      if o in overlapping {
        var j :| 0 <= j < |overlapping| && overlapping[j] == o;
      }
    }
  }
}
