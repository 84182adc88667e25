/** The repair-zone view: the stretches of the day a person is involved in, merged in place. */
module RepairZone {
  import opened Prelude
  import opened Intervals
  import opened Domain
  import opened PlanInvalidation
  import opened SegmentViews

  predicate Involves(s: Segment, person: string) {
    s.person == person || s.transporter == Some(person)
  }

  function Affected(segments: seq<Segment>, person: string): seq<Segment> {
    Filter(ByStart(segments), (s: Segment) => Involves(s, person))
  }

  lemma SameWindowPoints(a: seq<Segment>, b: seq<Segment>)
    requires forall s :: s in a <==> s in b
    ensures SamePoints(WindowsOf(a), WindowsOf(b))
  {
    forall t ensures Covers(WindowsOf(a), t) <==> Covers(WindowsOf(b), t) {
      CoversWindowsOf(a, t);
      CoversWindowsOf(b, t);
    }
  }

  /** The view's loop: start a new window or overwrite the end of the last one. */
  method JoinInPlace(ordered: seq<Window>) returns (windows: seq<Window>)
    ensures windows == JoinAll(ordered)
  {
    windows := [];
    for i := 0 to |ordered|
      invariant windows == JoinAll(ordered[..i])
    {
      assert ordered[..i+1][..i] == ordered[..i];
      var window := ordered[i];
      if windows != [] && window.start <= windows[|windows|-1].end {
        var last := windows[|windows|-1];
        if window.end > last.end {
          windows := windows[|windows|-1 := Window(last.start, window.end)];
        }
      } else {
        windows := windows + [window];
      }
    }
    assert ordered[..|ordered|] == ordered;
  }

  /** Sorted by start only and joined in place, the windows are still the very list the impact
      analysis computes from the same windows in any order. */
  method AffectedWindows(segments: seq<Segment>, person: string) returns (windows: seq<Window>)
    ensures windows == Merge(WindowsOf(Filter(segments, (s: Segment) => Involves(s, person))))
    ensures Separated(windows)
    ensures forall t :: Covers(windows, t) <==> IsInvolvedAt(segments, person, t)
  {
    hide JoinAll, Merge;
    windows := JoinInPlace(WindowsOf(Affected(segments, person)));
    MergedInOrderOfStart(segments, person);
    forall t ensures IsInvolvedAt(segments, person, t) <==>
      exists s :: s in segments && Involves(s, person) && Holds(s.window, t)
    {
    }
  }

  /** The person looks after or drives the child at t. */
  ghost predicate IsInvolvedAt(segments: seq<Segment>, person: string, t: int) {
    exists s :: s in segments && Holds(s.window, t) && (s.person == person || s.transporter == Some(person))
  }

  lemma MergedInOrderOfStart(segments: seq<Segment>, person: string)
    ensures var windows := JoinAll(WindowsOf(Affected(segments, person)));
      && windows == Merge(WindowsOf(Filter(segments, (s: Segment) => Involves(s, person))))
      && Separated(windows)
      && forall t :: Covers(windows, t) <==> exists s :: s in segments && Involves(s, person) && Holds(s.window, t)
  {
    hide JoinAll, Merge;
    var keep := (s: Segment) => Involves(s, person);
    var affected, unsorted := Affected(segments, person), Filter(segments, keep);
    ByStartAscends(segments);
    FilterAscends(ByStart(segments), keep);
    JoinAllMeaning(WindowsOf(affected));
    MergeMeaning(WindowsOf(unsorted));
    FilterMember(ByStart(segments), keep);
    FilterMember(segments, keep);
    SameWindowPoints(affected, unsorted);
    CanonicalIsUnique(JoinAll(WindowsOf(affected)), Merge(WindowsOf(unsorted)));
    forall t ensures Covers(WindowsOf(unsorted), t) <==>
      exists s :: s in segments && Involves(s, person) && Holds(s.window, t)
    {
      CoversWindowsOf(unsorted, t);
    }
  }
}
