/** What a valid plan promises the family: somebody is with the child throughout the required
    window, and the child only changes place on trips that are long enough. */
module SupervisedDay {
  import opened Prelude
  import opened Intervals
  import opened Domain
  import opened ValidationRules
  import opened PlanValidator

  ghost predicate Supervised(segments: seq<Segment>, t: int) {
    exists s :: s in segments && Holds(s.window, t)
  }

  /** No two different segments overlap. */
  predicate NoOverlaps(segments: seq<Segment>) {
    forall s, t :: s in segments && t in segments && s != t ==> !Overlap(s.window, t.window)
  }

  lemma NeighboursTouch(sc: Scenario, segments: seq<Segment>, changes: seq<CalendarEvent>, i: nat)
    requires SafeDay(sc, segments, changes) && i + 1 < |segments|
    ensures segments[i+1].window.start <= segments[i].window.end
  {
    assert HandoffOk(sc, segments[i], segments[i+1]);
  }

  /** Walk forward from a segment that has started until one still runs at t. */
  lemma {:induction false} SomeoneIsThere(
    sc: Scenario, segments: seq<Segment>, changes: seq<CalendarEvent>, i: nat, t: int)
    returns (k: nat)
    requires SafeDay(sc, segments, changes) && i < |segments|
    requires segments[i].window.start <= t < sc.required.end
    ensures k < |segments| && Holds(segments[k].window, t)
    decreases |segments| - i
  {
    if t < segments[i].window.end {
      k := i;
    } else {
      NeighboursTouch(sc, segments, changes, i);
      k := SomeoneIsThere(sc, segments, changes, i + 1, t);
    }
  }

  /** The instants some segment covers are exactly the instants of the required window. */
  lemma ValidPlanSupervises(sc: Scenario, plan: Plan, t: int)
    requires Validation(sc, plan).valid
    ensures Supervised(plan.segments, t) <==> Holds(sc.required, t)
  {
    var segments := InOrder(plan.segments);
    ValidMeansSafe(sc, plan);
    InOrderOrders(plan.segments);
    if Holds(sc.required, t) {
      var k := SomeoneIsThere(sc, segments, plan.changes, 0, t);
      assert segments[k] in plan.segments;
    }
    if s :| s in plan.segments && Holds(s.window, t) {
      assert s in segments;
      assert SegmentOk(sc, s, plan.changes);
    }
  }

  /** Handoffs between different people overlap by the required buffer, give or take seconds
      that do not add up to another minute. */
  lemma ValidPlanHandsOver(sc: Scenario, plan: Plan, i: nat)
    requires Validation(sc, plan).valid && i + 1 < |plan.segments|
    ensures |InOrder(plan.segments)| == |plan.segments|
    ensures var before, after := InOrder(plan.segments)[i], InOrder(plan.segments)[i+1];
      var overlap := before.window.end - after.window.start;
      if before.person == after.person then overlap == 0
      else 60 * RequiredBuffer(sc, after) <= overlap < 60 * RequiredBuffer(sc, after) + 60
  {
    ValidMeansSafe(sc, plan);
    InOrderOrders(plan.segments);
    assert HandoffOk(sc, InOrder(plan.segments)[i], InOrder(plan.segments)[i+1]);
  }

  lemma {:induction false} CareStaysPut(
    sc: Scenario, segments: seq<Segment>, changes: seq<CalendarEvent>, i: nat, j: nat)
    requires SafeDay(sc, segments, changes) && i <= j < |segments|
    requires forall k :: i <= k < j ==> segments[k].kind.Care?
    ensures segments[j].location == segments[i].location
  {
    if i < j {
      CareStaysPut(sc, segments, changes, i, j - 1);
      assert EndPlace(segments[j-1]) == segments[j].location;
    }
  }

  /** Between two segments in different places there is a trip, and every trip lasts at least
      the authoritative travel time between two known, different places. */
  lemma ValidPlanMovesOnlyByTransport(sc: Scenario, plan: Plan, i: nat, j: nat)
    requires Validation(sc, plan).valid && i <= j < |plan.segments|
    ensures |InOrder(plan.segments)| == |plan.segments|
    ensures var day := InOrder(plan.segments);
      day[i].location != day[j].location ==> exists k :: i <= k < j && day[k].kind.Transport?
    ensures forall s :: s in plan.segments && s.kind.Transport? ==>
      && s.destination.value != s.location
      && TravelMinutes(sc, s.location, s.destination.value).Some?
      && s.window.end - s.window.start >= 60 * TravelMinutes(sc, s.location, s.destination.value).value
  {
    var day := InOrder(plan.segments);
    ValidMeansSafe(sc, plan);
    InOrderOrders(plan.segments);
    if forall k :: i <= k < j ==> day[k].kind.Care? {
      CareStaysPut(sc, day, plan.changes, i, j);
    }
    forall s | s in plan.segments && s.kind.Transport? ensures PlaceOk(sc, s) {
      assert s in day;
      assert SegmentOk(sc, s, plan.changes);
    }
  }

  /** The overlap is the family's buffer or, if it is longer, that of the caregiver who takes over, and less
      than one minute more. */
  predicate HonoursBuffers(sc: Scenario, after: Segment, overlap: int) {
    var family := sc.policy.handoffMinutes;
    if after.source.ByCaregiver? then
      && Find(sc, after.person).Some?
      && var own := Find(sc, after.person).value.handoffMinutes;
         60 * family <= overlap && 60 * own <= overlap && (overlap < 60 * family + 60 || overlap < 60 * own + 60)
    else 60 * family <= overlap < 60 * family + 60
  }

  lemma BufferMeans(sc: Scenario, after: Segment, overlap: int)
    requires after.source.ByCaregiver? ==> Find(sc, after.person).Some?
    requires 60 * RequiredBuffer(sc, after) <= overlap < 60 * RequiredBuffer(sc, after) + 60
    ensures HonoursBuffers(sc, after, overlap)
  {
  }

  /** Handing over to another person honours the buffers of both sides. */
  lemma ValidPlanHonoursBuffers(sc: Scenario, plan: Plan, i: nat)
    requires Validation(sc, plan).valid && i + 1 < |plan.segments|
    ensures |InOrder(plan.segments)| == |plan.segments|
    ensures var before, after := InOrder(plan.segments)[i], InOrder(plan.segments)[i+1];
      before.person != after.person ==> HonoursBuffers(sc, after, before.window.end - after.window.start)
  {
    hide Validation, InOrder, Find, HonoursBuffers, RequiredBuffer;
    ValidPlanHandsOver(sc, plan, i);
    var before, after := InOrder(plan.segments)[i], InOrder(plan.segments)[i+1];
    CaregiversAreKnown(sc, plan, after);
    if before.person != after.person {
      BufferMeans(sc, after, before.window.end - after.window.start);
    }
  }

  lemma CaregiversAreKnown(sc: Scenario, plan: Plan, s: Segment)
    requires Validation(sc, plan).valid && s in InOrder(plan.segments)
    ensures s.source.ByCaregiver? ==> Find(sc, s.person).Some?
  {
    ValidMeansSafe(sc, plan);
    hide Validation, InOrder;
    assert SegmentOk(sc, s, plan.changes);
  }

  /** In a valid plan no parent's segment, and no trip that somebody drives, shares an instant with an event
      of theirs that is critical or cannot be moved. */
  lemma ValidPlanKeepsProtectedEvents(sc: Scenario, plan: Plan, s: Segment, e: CalendarEvent, t: int)
    requires Validation(sc, plan).valid && s in plan.segments && e in sc.events && (e.critical || !e.movable)
    requires Holds(s.window, t) && Holds(e.window, t)
    ensures s.source.ByParent? ==> e.owner != s.person
    ensures s.kind.Transport? ==> e.owner != s.transporter.value
  {
    ValidMeansSafe(sc, plan);
    InOrderOrders(plan.segments);
    WindowsAreInstants(s.window, e.window);
    hide Validation;
    assert SegmentOk(sc, s, plan.changes);
  }

  /** The caregiver whose travel time counts for a place: the last one listed there. */
  predicate SetsTravelTime(sc: Scenario, i: nat, place: string)
    requires i < |Reachable(sc)|
  {
    Reachable(sc)[i].location == place && forall j :: i < j < |Reachable(sc)| ==> Reachable(sc)[j].location != place
  }

  lemma {:induction false} LastAtThePlace(cs: seq<Caregiver>, home: string, place: string) returns (i: nat)
    requires place != home
    requires Get(ByKey(Filter(cs, (c: Caregiver) => c.location != home), (c: Caregiver) => c.location), place).Some?
    ensures i < |cs| && cs[i].location == place && forall j :: i < j < |cs| ==> cs[j].location != place
    ensures Get(ByKey(Filter(cs, (c: Caregiver) => c.location != home), (c: Caregiver) => c.location), place)
      == Some(cs[i])
  {
    i := 0;
    if cs == [] {
      assert false;
    } else {
      var init, last := cs[..|cs|-1], cs[|cs|-1];
      var away, key := Filter(init, (c: Caregiver) => c.location != home), (c: Caregiver) => c.location;
      if last.location != home {
        assert (away + [last])[..|away|] == away;
        GetPut(ByKey(away, key), last.location, last, place);
      } else {
        assert away + [] == away;
      }
      if last.location == place {
        i := |init|;
      } else {
        i := LastAtThePlace(init, home, place);
      }
    }
  }

  /** Every trip of a valid plan runs between home and a place where a caregiver is, in either direction, and
      lasts at least the travel minutes of the last caregiver listed there. */
  lemma ValidTripsTakeTheirTime(sc: Scenario, plan: Plan, s: Segment) returns (i: nat)
    requires Validation(sc, plan).valid && s in plan.segments && s.kind.Transport?
    ensures s.location == sc.home || s.destination.value == sc.home
    ensures var away := if s.location == sc.home then s.destination.value else s.location;
      && away != sc.home && i < |Reachable(sc)| && SetsTravelTime(sc, i, away)
      && s.window.end - s.window.start >= 60 * Reachable(sc)[i].travelMinutes
  {
    ValidMeansSafe(sc, plan);
    InOrderOrders(plan.segments);
    hide Validation;
    assert SegmentOk(sc, s, plan.changes) && PlaceOk(sc, s);
    i := LastAtThePlace(Reachable(sc), sc.home, if s.location == sc.home then s.destination.value else s.location);
  }
}
