/** What the day views share: segments by start, and when two segments are the same for a parent. */
module SegmentViews {
  import opened Prelude
  import opened Sorting
  import opened Intervals
  import opened Domain
  import opened FeasibilityGraph
  import opened Materialization
  import opened PlanInvalidation

  predicate StartLeq(a: Segment, b: Segment) {
    a.window.start <= b.window.start
  }

  function ByStart(segments: seq<Segment>): seq<Segment> {
    Sort(StartLeq, segments)
  }

  lemma ByStartAscends(segments: seq<Segment>)
    ensures StartsAscend(WindowsOf(ByStart(segments)))
    ensures forall s :: s in ByStart(segments) <==> s in segments
    ensures |ByStart(segments)| == |segments|
  {
    assert Preorder(StartLeq);
    SortOrders(StartLeq, segments);
    SortPermutes(StartLeq, segments);
  }

  lemma {:induction false} FilterAscends(segments: seq<Segment>, keep: Segment -> bool)
    requires StartsAscend(WindowsOf(segments))
    ensures StartsAscend(WindowsOf(Filter(segments, keep)))
  {
    if segments != [] {
      var init, last := segments[..|segments|-1], segments[|segments|-1];
      assert WindowsOf(init) == WindowsOf(segments)[..|init|];
      FilterAscends(init, keep);
      FilterMember(init, keep);
      var kept := Filter(init, keep);
      forall i | 0 <= i < |kept| ensures kept[i].window.start <= last.window.start {
        assert kept[i] in init;
        var j :| 0 <= j < |init| && init[j] == kept[i];
        assert WindowsOf(segments)[j].start <= WindowsOf(segments)[|init|].start;
      }
    }
  }

  predicate MateriallyMatch(a: Segment, b: Segment) {
    && a.window == b.window && a.person == b.person && a.source == b.source
    && a.kind == b.kind && a.location == b.location
    && (a.kind.Transport? ==> a.destination == b.destination && a.transporter == b.transporter)
  }

  /** Two segments match exactly when they are the work of one primitive: who, when, from where, to where. */
  lemma MatchingIsOneWork(a: Segment, b: Segment)
    ensures MateriallyMatch(a, b) <==> exists p :: SameWork(a, p) && SameWork(b, p)
  {
    if MateriallyMatch(a, b) {
      var p := if a.kind.Care? then CarePrimitive(a.id, a.person, a.source, a.window, a.location, true)
               else TransportPrimitive(a.id, a.person, a.source, a.transporter.value, a.window, a.location,
                                       a.destination.value, 0, true);
      assert SameWork(a, p) && SameWork(b, p);
    }
  }
}
