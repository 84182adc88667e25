/** The rejected-day view: what was preserved of the prior plan, and the gaps between. */
module RejectedDay {
  import opened Prelude
  import opened Intervals
  import opened Domain
  import opened SupervisedDay
  import opened PlanInvalidation
  import opened SegmentViews

  datatype Entry = Unresolved(window: Window) | Covered(segment: Segment)

  function UnresolvedOf(entries: seq<Entry>): seq<Window> {
    FlatMap(entries, (e: Entry) => if e.Unresolved? then [e.window] else [])
  }

  function CoveredOf(entries: seq<Entry>): seq<Segment> {
    FlatMap(entries, (e: Entry) => if e.Covered? then [e.segment] else [])
  }

  predicate SpansFrom(segments: seq<Segment>, start: int) {
    (exists s :: s in segments && s.window.start == start) && forall s :: s in segments ==> start <= s.window.start
  }

  predicate SpansTo(segments: seq<Segment>, end: int) {
    (exists s :: s in segments && s.window.end == end) && forall s :: s in segments ==> s.window.end <= end
  }

  /** From the earliest start to the latest end of the prior plan. */
  method Span(prior: seq<Segment>) returns (span: Window)
    requires prior != []
    ensures SpansFrom(prior, span.start) && SpansTo(prior, span.end)
  {
    var start, end := prior[0].window.start, prior[0].window.end;
    for i := 0 to |prior|
      invariant exists s :: s in prior && s.window.start == start
      invariant exists s :: s in prior && s.window.end == end
      invariant forall j :: 0 <= j < i ==> start <= prior[j].window.start && prior[j].window.end <= end
      invariant start < end
    {
      if prior[i].window.start < start {
        start := prior[i].window.start;
        assert prior[i] in prior;
      }
      if prior[i].window.end > end {
        end := prior[i].window.end;
        assert prior[i] in prior;
      }
    }
    span := Window(start, end);
  }

  function Preserved(prior: seq<Segment>, proposed: seq<Segment>): seq<Segment> {
    ByStart(Filter(prior, (s: Segment) => exists c :: c in proposed && MateriallyMatch(s, c)))
  }

  /** Everything before the cursor is accounted for: covered by what was seen, or recorded as a gap. */
  ghost predicate SweptTo(start: int, cursor: int, seen: seq<Segment>, entries: seq<Entry>) {
    && CoveredOf(entries) == seen && start <= cursor
    && Separated(UnresolvedOf(entries))
    && (forall s :: s in seen ==> s.window.end <= cursor)
    && (forall w :: w in UnresolvedOf(entries) ==> seen != [] && w.end <= seen[|seen|-1].window.start)
    && (forall t :: Covers(UnresolvedOf(entries), t) <==> start <= t < cursor && !Supervised(seen, t))
  }

  lemma SupervisedSnoc(seen: seq<Segment>, s: Segment, t: int)
    ensures Supervised(seen + [s], t) <==> Supervised(seen, t) || Holds(s.window, t)
  {
    assert s in seen + [s];
    if x :| x in seen && Holds(x.window, t) { assert x in seen + [s]; }
  }

  function WithGap(entries: seq<Entry>, cursor: int, next: int): seq<Entry> {
    if next > cursor then entries + [Unresolved(Window(cursor, next))] else entries
  }

  lemma GapPoints(entries: seq<Entry>, cursor: int, next: int)
    requires forall w :: w in UnresolvedOf(entries) ==> w.end < cursor
    requires Separated(UnresolvedOf(entries))
    ensures var after := WithGap(entries, cursor, next);
      && CoveredOf(after) == CoveredOf(entries) && Separated(UnresolvedOf(after))
      && (forall w :: w in UnresolvedOf(after) ==> w in UnresolvedOf(entries) || w.end == next)
      && (forall t :: Covers(UnresolvedOf(after), t) <==> Covers(UnresolvedOf(entries), t) || cursor <= t < next)
  {
    if next > cursor {
      var gap: Window := Window(cursor, next);
      var before := UnresolvedOf(entries);
      assert (entries + [Unresolved(gap)])[..|entries|] == entries;
      assert UnresolvedOf(WithGap(entries, cursor, next)) == before + [gap];
      assert CoveredOf(WithGap(entries, cursor, next)) == CoveredOf(entries) + [];
      OneWindow(gap);
      forall t ensures Covers(before + [gap], t) <==> Covers(before, t) || cursor <= t < next {
        CoversConcat(before, [gap], t);
      }
      forall i | 0 <= i < |before| ensures before[i].end < gap.start {
        assert before[i] in before;
      }
    }
  }

  lemma CoveredStep(entries: seq<Entry>, s: Segment)
    ensures CoveredOf(entries + [Covered(s)]) == CoveredOf(entries) + [s]
    ensures UnresolvedOf(entries + [Covered(s)]) == UnresolvedOf(entries)
  {
    assert (entries + [Covered(s)])[..|entries|] == entries;
    assert UnresolvedOf(entries + [Covered(s)]) == UnresolvedOf(entries) + [];
  }

  function Later(a: int, b: int): int {
    if a >= b then a else b
  }

  lemma SweepStep(start: int, cursor: int, seen: seq<Segment>, entries: seq<Entry>, s: Segment)
    requires SweptTo(start, cursor, seen, entries) && start <= s.window.start
    requires seen != [] ==> seen[|seen|-1].window.start <= s.window.start
    ensures SweptTo(start, Later(cursor, s.window.end), seen + [s],
                    WithGap(entries, cursor, s.window.start) + [Covered(s)])
  {
    var gapped := WithGap(entries, cursor, s.window.start);
    forall w | w in UnresolvedOf(entries) ensures w.end < cursor {
      assert seen[|seen|-1] in seen;
    }
    GapPoints(entries, cursor, s.window.start);
    CoveredStep(gapped, s);
    hide UnresolvedOf, CoveredOf, Separated;
    forall t ensures Covers(UnresolvedOf(gapped), t)
      <==> start <= t < Later(cursor, s.window.end) && !Supervised(seen + [s], t)
    {
      SupervisedSnoc(seen, s, t);
      if Covers(UnresolvedOf(entries), t) {
        var w :| w in UnresolvedOf(entries) && Holds(w, t);
      }
      if Supervised(seen, t) {
        var x :| x in seen && Holds(x.window, t);
      }
    }
  }

  /** Fill the gap before each preserved segment, step past it, and fill what is left at the end. */
  method SweepGaps(span: Window, preserved: seq<Segment>) returns (entries: seq<Entry>)
    requires StartsAscend(WindowsOf(preserved))
    requires forall s :: s in preserved ==> Within(s.window, span)
    ensures CoveredOf(entries) == preserved
    ensures UnresolvedOf(entries) == Subtract(span, WindowsOf(preserved))
  {
    hide UnresolvedOf, CoveredOf, SweptTo, Subtract;
    entries := [];
    var cursor := span.start;
    NothingSwept(cursor);
    for i := 0 to |preserved|
      invariant span.start <= cursor <= span.end
      invariant SweptTo(span.start, cursor, preserved[..i], entries)
    {
      var segment := preserved[i];
      assert segment in preserved;
      assert i > 0 ==> WindowsOf(preserved)[i-1].start <= WindowsOf(preserved)[i].start;
      SweepStep(span.start, cursor, preserved[..i], entries, segment);
      assert preserved[..i+1] == preserved[..i] + [segment];
      if segment.window.start > cursor {
        entries := entries + [Unresolved(Window(cursor, segment.window.start))];
      }
      entries := entries + [Covered(segment)];
      if segment.window.end > cursor {
        cursor := segment.window.end;
      }
    }
    assert preserved[..|preserved|] == preserved;
    SweepEnds(span, cursor, preserved, entries);
    if cursor < span.end {
      entries := entries + [Unresolved(Window(cursor, span.end))];
    }
  }

  lemma NothingSwept(start: int)
    ensures SweptTo(start, start, [], [])
  {
  }

  lemma SweepEnds(span: Window, cursor: int, preserved: seq<Segment>, entries: seq<Entry>)
    requires SweptTo(span.start, cursor, preserved, entries) && cursor <= span.end
    requires forall s :: s in preserved ==> Within(s.window, span)
    ensures CoveredOf(WithGap(entries, cursor, span.end)) == preserved
    ensures UnresolvedOf(WithGap(entries, cursor, span.end)) == Subtract(span, WindowsOf(preserved))
  {
    var gapped := WithGap(entries, cursor, span.end);
    forall w | w in UnresolvedOf(entries) ensures w.end < cursor {
      assert preserved[|preserved|-1] in preserved;
    }
    GapPoints(entries, cursor, span.end);
    SubtractMeaning(span, WindowsOf(preserved));
    hide UnresolvedOf, CoveredOf, Subtract;
    forall t ensures Covers(UnresolvedOf(gapped), t) <==> Covers(Subtract(span, WindowsOf(preserved)), t) {
      CoversWindowsOf(preserved, t);
      if Supervised(preserved, t) {
        var x :| x in preserved && Holds(x.window, t);
      }
    }
    CanonicalIsUnique(UnresolvedOf(gapped), Subtract(span, WindowsOf(preserved)));
  }

  datatype View = View(span: Window, entries: seq<Entry>)

  ghost predicate ShowsGapAt(view: View, t: int) {
    Covers(UnresolvedOf(view.entries), t)
  }

  /** The whole view: its unresolved entries are exactly what subtracting the preserved segments from
      the prior plan's span leaves, and its covered entries are the preserved segments by start. */
  method ViewRejectedDay(prior: seq<Segment>, proposed: seq<Segment>) returns (view: Option<View>)
    ensures view.None? <==> prior == []
    ensures view.Some? ==> SpansFrom(prior, view.value.span.start) && SpansTo(prior, view.value.span.end)
    ensures view.Some? ==> CoveredOf(view.value.entries) == Preserved(prior, proposed)
    ensures view.Some? ==>
      UnresolvedOf(view.value.entries) == Subtract(view.value.span, WindowsOf(Preserved(prior, proposed)))
    ensures view.Some? ==> forall t :: ShowsGapAt(view.value, t) <==>
      (Holds(view.value.span, t) && !Supervised(Preserved(prior, proposed), t))
  {
    if prior == [] {
      return None;
    }
    var span := Span(prior);
    var preserved := Preserved(prior, proposed);
    var kept := (s: Segment) => exists c :: c in proposed && MateriallyMatch(s, c);
    ByStartAscends(Filter(prior, kept));
    FilterMember(prior, kept);
    hide UnresolvedOf, CoveredOf, Subtract, Preserved, MateriallyMatch;
    assert forall s :: s in preserved ==> Within(s.window, span);
    var entries := SweepGaps(span, preserved);
    SubtractMeaning(span, WindowsOf(preserved));
    forall t ensures Covers(UnresolvedOf(entries), t) <==> Holds(span, t) && !Supervised(preserved, t) {
      CoversWindowsOf(preserved, t);
    }
    view := Some(View(span, entries));
  }
}
