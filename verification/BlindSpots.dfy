/** What the checks leave open, and exactly where: moved events, the child's place at the start of the
    day, and calendar changes that a selection of primitives cannot express. */
module BlindSpots {
  import opened Prelude
  import opened Intervals
  import opened Domain
  import opened ValidationRules
  import opened PlanValidator
  import opened FeasibilityGraph
  import opened AssignmentMatrix
  import opened Materialization
  import opened MatrixSoundness
  import opened MatrixCompleteness
  import opened Cases
  import opened PlanInvalidation
  import opened PreservedWork
  import opened PlannableDays

  // ---------------------------------------------------------------- moved events

  /** Segment s is a parent's, e is an event of that parent, and the plan moves e to a new time. */
  ghost predicate MovedFor(sc: Scenario, plan: Plan, s: Segment, e: CalendarEvent, to: CalendarEvent) {
    s in plan.segments && s.source.ByParent? && e in sc.events && e.owner == s.person
    && Get(EventsById(plan.changes), e.id) == Some(to)
  }

  /** No parent is with the child during the new time of an event the plan moved. */
  ghost predicate HonoursMoves(sc: Scenario, plan: Plan) {
    forall s, e, to :: MovedFor(sc, plan, s, e, to) ==> !Overlap(s.window, to.window)
  }

  /** A valid plan honours its moves exactly when every segment that missed an event's old time also
      misses its new time: those segments are the ones the validator does not look at. */
  lemma MovesAreCheckedAtTheOldTime(sc: Scenario, plan: Plan)
    requires Validation(sc, plan).valid
    ensures HonoursMoves(sc, plan) <==>
      forall s, e, to :: MovedFor(sc, plan, s, e, to) && !Overlap(s.window, e.window) ==> !Overlap(s.window, to.window)
  {
    ValidMeansSafe(sc, plan);
    InOrderOrders(plan.segments);
    forall s, e, to | MovedFor(sc, plan, s, e, to) && Overlap(s.window, e.window)
      ensures !Overlap(s.window, to.window)
    {
      assert s in InOrder(plan.segments);
      assert CalendarOk(sc, s, plan.changes);
    }
  }

  /** A day one parent covers alone, with an evening event of theirs moved into it. */
  function EveningEvent(): CalendarEvent {
    CalendarEvent("evening", "parent", Window(9000, 10800), true, false)
  }

  function ParentAlone(): Scenario {
    Scenario(Window(0, 7200), [], ["parent"], [EveningEvent()], [], LENIENT, "home", [], 5, [])
  }

  function MovedIntoTheDay(): Plan {
    var s: Segment := Segment("all-day", Window(0, 7200), "parent", ByParent, Care, "home", None, None, 0.0);
    Plan(Proposed("p"), [s], [EveningEvent().(window := Window(3600, 5400))], 0.0, [], NotValidated, [])
  }

  /** The plan is valid although the parent is due elsewhere in the middle of it. */
  lemma AMoveMayCollide()
    ensures Validation(ParentAlone(), MovedIntoTheDay()).valid
    ensures !HonoursMoves(ParentAlone(), MovedIntoTheDay())
  {
    var sc, plan := ParentAlone(), MovedIntoTheDay();
    var s, e, to := plan.segments[0], EveningEvent(), plan.changes[0];
    OneInOrder(s);
    ValidMeansSafe(sc, plan);
    hide Validation, InOrder;
    assert EventsById(plan.changes) == [("evening", to)] by { assert plan.changes[..0] == []; }
    assert EventsById(sc.events) == [("evening", e)] by { assert sc.events[..0] == []; }
    assert Find(sc, "parent").None?;
    assert MovedFor(sc, plan, s, e, to);
  }

  // ---------------------------------------------------------------- where the child is

  function RemoteSitter(): Caregiver {
    Caregiver("sitter", true, [Window(0, 7200)], Unpriced, 0, true, false, "elsewhere", 30, false)
  }

  function SitterAlone(): Scenario {
    Scenario(Window(0, 7200), [], [], [], [RemoteSitter()], LENIENT, "home", [], 5, [])
  }

  function StartsElsewhere(): Plan {
    var s: Segment := Segment("all-day", Window(0, 7200), "sitter", ByCaregiver, Care, "elsewhere", None, None, 0.0);
    Plan(Proposed("p"), [s], [], 0.0, [], NotValidated, [])
  }

  /** A valid plan may start the day away from home, with no trip there; the planner, whose days start
      at home, offers nothing at all. */
  lemma AValidDayMayStartAnywhere()
    ensures Validation(SitterAlone(), StartsElsewhere()).valid
    ensures InOrder(StartsElsewhere().segments)[0].location != SitterAlone().home
    ensures MatrixOf(SitterAlone(), None).Ok?
    ensures MatrixOf(SitterAlone(), None).value.care == [] && MatrixOf(SitterAlone(), None).value.transport == []
  {
    StartsElsewhereIsValid();
    hide Validation, Offered, MatrixOf, HasFullDay;
    NothingStartsAtHome();
    NoDayNoClash(SitterAlone(), None);
  }

  lemma StartsElsewhereIsValid()
    ensures Validation(SitterAlone(), StartsElsewhere()).valid
    ensures InOrder(StartsElsewhere().segments) == StartsElsewhere().segments
  {
    var sc, plan := SitterAlone(), StartsElsewhere();
    OneInOrder(plan.segments[0]);
    ValidMeansSafe(sc, plan);
    hide Validation, InOrder;
    SitterIsKnown();
    hide Find, Reachable, Driver;
    assert sc.caregivers[0].availability[0] in RemoteSitter().availability;
  }

  lemma SitterIsKnown()
    ensures Find(SitterAlone(), "sitter") == Some(RemoteSitter()) && Reachable(SitterAlone()) == [RemoteSitter()]
  {
    assert SitterAlone().caregivers[..0] == [];
    assert CaregiversById(SitterAlone()) == [("sitter", RemoteSitter())];
  }

  lemma NothingStartsAtHome()
    ensures !HasFullDay(Offered(SitterAlone(), None), SitterAlone().required, SitterAlone().home)
  {
    var sc := SitterAlone();
    hide Offered;
    var ps := Offered(sc, None);
    if HasFullDay(ps, sc.required, sc.home) {
      var path: seq<Primitive> :| FullDay(ps, sc.required, sc.home, path);
      FullDayNonempty(ps, sc.required, sc.home, path);
      var c := WholeWindowsWithoutDrivers(sc, path[0]);
      assert false;
    }
  }

  /** Where the facts place the beginning of a segment at home: care by somebody on record as a caregiver
      is where that caregiver is, other care is at a place without a travel time from home, and of the
      two places of a trip one is home. */
  predicate BeginsAtHome(sc: Scenario, s: Segment) {
    if s.kind.Transport? then s.destination != Some(sc.home)
    else if Find(sc, s.person).Some? then Find(sc, s.person).value.location == sc.home
    else MinutesFromHome(sc, s.location).None?
  }

  lemma HomeHasNoTravelTime(sc: Scenario)
    ensures MinutesFromHome(sc, sc.home).None?
  {
    var away := Filter(Reachable(sc), (x: Caregiver) => x.location != sc.home);
    FilterMember(Reachable(sc), (x: Caregiver) => x.location != sc.home);
    ByKeyLookup(away, (x: Caregiver) => x.location, sc.home);
  }

  lemma SegmentBeginsAtHome(sc: Scenario, s: Segment)
    requires PlaceOk(sc, s)
    ensures s.location == sc.home <==> BeginsAtHome(sc, s)
  {
    HomeHasNoTravelTime(sc);
    if s.location != sc.home {
      KnownPlaceHasTravelTime(sc, s.location);
    }
  }

  /** A valid plan starts the day at home exactly when its first segment is care by a caregiver who is
      there, care by somebody else at a place no travel time is known for, or a trip that leads away. */
  lemma ValidDayStartsAtHome(sc: Scenario, plan: Plan)
    requires Validation(sc, plan).valid
    ensures InOrder(plan.segments) != []
    ensures InOrder(plan.segments)[0].location == sc.home <==> BeginsAtHome(sc, InOrder(plan.segments)[0])
  {
    ValidMeansSafe(sc, plan);
    hide Validation;
    assert SegmentOk(sc, InOrder(plan.segments)[0], plan.changes);
    hide PlaceOk, BeginsAtHome;
    SegmentBeginsAtHome(sc, InOrder(plan.segments)[0]);
  }

  /** Everyone a lookup can reach is at home. */
  ghost predicate EveryoneIsAtHome(sc: Scenario) {
    forall c :: c in Reachable(sc) ==> c.location == sc.home
  }

  /** Then no valid plan takes the child anywhere. */
  lemma ValidDayStaysAtHome(sc: Scenario, plan: Plan, s: Segment)
    requires Validation(sc, plan).valid && EveryoneIsAtHome(sc) && s in plan.segments
    ensures s.location == sc.home && s.kind.Care?
  {
    ValidMeansSafe(sc, plan);
    InOrderOrders(plan.segments);
    hide Validation;
    assert SegmentOk(sc, s, plan.changes);
  }

  // ---------------------------------------------------------------- changes a selection cannot express

  /** The planner is restricted to selecting primitives unless parent care meets a movable event. */
  predicate HasUnmaterializedCalendarChanges(sc: Scenario, m: Matrix) {
    exists p, e :: p in m.care && e in sc.events
      && p.source.ByParent? && e.owner == p.person && !Protected(e) && Overlap(p.window, e.window)
  }

  /** The guard steps in exactly when some parent's care in the matrix fails validation for an event that
      could be moved. */
  lemma GuardMeansUnpassableCare(sc: Scenario, m: Matrix)
    ensures HasUnmaterializedCalendarChanges(sc, m) <==> exists p :: p in m.care && !ClearOfMovable(sc, p)
  {
    if HasUnmaterializedCalendarChanges(sc, m) {
      var p, e :| p in m.care && e in sc.events
        && p.source.ByParent? && e.owner == p.person && !Protected(e) && Overlap(p.window, e.window);
      assert !ClearOfMovable(sc, p);
    }
  }

  /** The trips and the kept work of the day meet no movable event, and every trip is long enough. */
  ghost predicate TripsPass(sc: Scenario, m: Matrix, path: seq<Primitive>) {
    forall p :: p in path && (p in m.transport || p.immutable) ==> ClearOfMovable(sc, p) && LongEnough(sc, p)
  }

  /** With that guard satisfied, a day replanned after a decline repairs the plan exactly when its trips
      and its kept work, which the guard does not vouch for, meet no movable event and are long enough,
      no kept trip needs the decliner's driving, no change of person needs a buffer, and no kept care
      carries trip fields. */
  lemma GuardOverlooksTrips(c: Case, sc: Scenario, d: Decline, o: Outcome, after: Scenario,
                            m: Matrix, path: seq<Primitive>, digest: seq<string> -> string)
    requires c.plan.Some? && Validation(sc, c.plan.value).valid && DeclineOutcome(c, sc, d) == Ok(o)
    requires Evolves(sc, d, after) && UniquePeople(after)
    requires Apart(after.required, Scope(o.uncovered, o.preserved))
    requires MatrixOf(after, Some(Scope(o.uncovered, o.preserved))) == Ok(m)
    requires !HasUnmaterializedCalendarChanges(after, m)
    requires FullDay(m.care + m.transport, after.required, after.home, path)
    ensures Distinct(Ids(path)) && Ids(path) != []
    ensures Materialized(Ids(path), m, digest).Ok?
    ensures RepairValidation(after, Materialized(Ids(path), m, digest).value, o.preserved).valid <==>
      && TripsPass(after, m, path) && (forall s :: s in o.preserved ==> FreeOfDecliner(s, d))
      && NoBuffersNeeded(after, path) && NoStrayTripFields(o.preserved)
  {
    hide MatrixOf, Materialized, RepairValidation, Validation, DeclineOutcome, NoBuffersNeeded, SegmentOk, Justified,
         OfferedCare, OfferedTrips, Evolves, FreeOfDecliner, ClearOfMovable, LongEnough, Apart, UniquePeople,
         HasUnmaterializedCalendarChanges, FullDay;
    var scope := Scope(o.uncovered, o.preserved);
    ReplanAgreesWithValidator(after, scope, m, path, digest);
    MatrixDayIsOffered(after, scope, m, path);
    FullDayNonempty(m.care + m.transport, after.required, after.home, path);
    forall p | p in path ensures SegmentOk(after, SegmentOf(p), []) <==> PassesAfter(after, m, o.preserved, d, p) {
      StepAfterDecline(c, sc, d, o, after, m, p);
    }
    forall s | s in o.preserved ensures PreservedPrimitive(s) in path {
      PreservedWorkIsUnavoidable(after, scope, path, s);
    }
    PassesTogether(after, m, o.preserved, d, path);
  }

  ghost predicate PassesAfter(after: Scenario, m: Matrix, preserved: seq<Segment>, d: Decline, p: Primitive) {
    && (p in m.transport || p.immutable ==> ClearOfMovable(after, p) && LongEnough(after, p))
    && (forall s :: s in preserved && p == PreservedPrimitive(s) ==> FreeOfDecliner(s, d))
  }

  lemma PassesTogether(after: Scenario, m: Matrix, preserved: seq<Segment>, d: Decline, path: seq<Primitive>)
    requires forall s :: s in preserved ==> PreservedPrimitive(s) in path
    ensures (forall p :: p in path ==> PassesAfter(after, m, preserved, d, p)) <==>
      (TripsPass(after, m, path) && forall s :: s in preserved ==> FreeOfDecliner(s, d))
  {
    hide ClearOfMovable, LongEnough, FreeOfDecliner, PreservedPrimitive;
    if forall p :: p in path ==> PassesAfter(after, m, preserved, d, p) {
      forall s | s in preserved ensures FreeOfDecliner(s, d) {
        assert PassesAfter(after, m, preserved, d, PreservedPrimitive(s));
      }
      assert TripsPass(after, m, path);
    }
  }

  lemma StepAfterDecline(c: Case, sc: Scenario, d: Decline, o: Outcome, after: Scenario, m: Matrix, p: Primitive)
    requires c.plan.Some? && Validation(sc, c.plan.value).valid && DeclineOutcome(c, sc, d) == Ok(o)
    requires Evolves(sc, d, after) && UniquePeople(after)
    requires MatrixOf(after, Some(Scope(o.uncovered, o.preserved))) == Ok(m)
    requires !HasUnmaterializedCalendarChanges(after, m) && p in m.care + m.transport
    ensures SegmentOk(after, SegmentOf(p), []) <==> PassesAfter(after, m, o.preserved, d, p)
  {
    hide MatrixOf, Validation, DeclineOutcome, SegmentOk, Justified, OfferedCare, OfferedTrips, Evolves,
         FreeOfDecliner, ClearOfMovable, LongEnough, UniquePeople, HasUnmaterializedCalendarChanges;
    var scope := Scope(o.uncovered, o.preserved);
    MatrixIsExact(after, Some(scope), m, p);
    ScopedOrigin(after, scope, p);
    if Fresh(after, scope, p) {
      JustifiedIsMutable(after, p);
      JustifiedPasses(after, p);
      if p !in m.transport {
        FreshCarePasses(after, scope, m, p);
      }
    } else {
      forall s | s in o.preserved && p == PreservedPrimitive(s)
        ensures SegmentOk(after, SegmentOf(p), []) <==>
          FreeOfDecliner(s, d) && ClearOfMovable(after, p) && LongEnough(after, p)
      {
        KeptStepAfterDecline(c, sc, d, o, after, s);
      }
      var s :| Kept(scope, p, s);
      assert s in o.preserved && p == PreservedPrimitive(s);
    }
  }

  lemma KeptStepAfterDecline(c: Case, sc: Scenario, d: Decline, o: Outcome, after: Scenario, s: Segment)
    requires c.plan.Some? && Validation(sc, c.plan.value).valid && DeclineOutcome(c, sc, d) == Ok(o)
    requires Evolves(sc, d, after) && UniquePeople(after) && s in o.preserved
    ensures SegmentOk(after, AsKept(s), []) <==>
      FreeOfDecliner(s, d) && ClearOfMovable(after, PreservedPrimitive(s)) && LongEnough(after, PreservedPrimitive(s))
  {
    PreservedIsNotHit(c, sc, d, o, s);
    DeclinerIsFound(c, sc, d, o);
    ValidMeansSafe(sc, c.plan.value);
    InOrderOrders(c.plan.value.segments);
    hide Validation, DeclineOutcome, Evolves, UniquePeople, FreeOfDecliner, ClearOfMovable, LongEnough;
    KeptWorkPassesExactly(sc, d, after, s, c.plan.value.changes);
  }

  lemma UniqueAfterDecline(sc: Scenario, d: Decline)
    requires UniquePeople(sc)
    ensures UniquePeople(AfterDecline(sc, d))
  {
    var after := AfterDecline(sc, d);
    forall c | c in after.caregivers ensures exists b :: b in sc.caregivers && c == DeclinedBy(b, d) {
      var i :| 0 <= i < |after.caregivers| && after.caregivers[i] == c;
      assert sc.caregivers[i] in sc.caregivers;
    }
  }

  /** The same at the day the decline leaves, for conditions on the day before it. */
  lemma GuardAfterDecline(c: Case, sc: Scenario, d: Decline, o: Outcome, m: Matrix, path: seq<Primitive>,
                          digest: seq<string> -> string)
    requires UniquePeople(sc) && c.plan.Some? && Validation(sc, c.plan.value).valid && DeclineOutcome(c, sc, d) == Ok(o)
    requires Apart(sc.required, Scope(o.uncovered, o.preserved))
    requires MatrixOf(o.scenario, Some(Scope(o.uncovered, o.preserved))) == Ok(m)
    requires !HasUnmaterializedCalendarChanges(o.scenario, m)
    requires FullDay(m.care + m.transport, sc.required, sc.home, path)
    ensures Distinct(Ids(path)) && Ids(path) != []
    ensures Materialized(Ids(path), m, digest).Ok?
    ensures RepairValidation(o.scenario, Materialized(Ids(path), m, digest).value, o.preserved).valid <==>
      && TripsPass(o.scenario, m, path) && (forall s :: s in o.preserved ==> FreeOfDecliner(s, d))
      && NoBuffersNeeded(o.scenario, path) && NoStrayTripFields(o.preserved)
  {
    DeclinerIsFound(c, sc, d, o);
    EvolvesByDecline(sc, d);
    UniqueAfterDecline(sc, d);
    hide MatrixOf, Materialized, RepairValidation, Validation, DeclineOutcome, NoBuffersNeeded, Evolves, Apart,
         HasUnmaterializedCalendarChanges, FullDay, UniquePeople, FreeOfDecliner;
    GuardOverlooksTrips(c, sc, d, o, o.scenario, m, path, digest);
  }

  lemma FreshCarePasses(sc: Scenario, scope: Scope, m: Matrix, p: Primitive)
    requires UniquePeople(sc) && !HasUnmaterializedCalendarChanges(sc, m) && p in m.care && !p.immutable
    requires Fresh(sc, scope, p) || exists s :: Kept(scope, p, s)
    requires MatrixOf(sc, Some(scope)) == Ok(m)
    ensures SegmentOk(sc, SegmentOf(p), [])
  {
    MatrixCareIsCare(sc, scope, m);
    JustifiedPasses(sc, p);
    assert ClearOfMovable(sc, p);
  }
}
