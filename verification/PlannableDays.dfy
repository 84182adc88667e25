/** Which safe days the planner can find. Its primitives join only where one window ends and the next
    begins, so the validator accepts days that no selection of primitives makes; here is exactly which
    valid plans are complete days of primitives, and one that is not. */
module PlannableDays {
  import opened Prelude
  import opened Sorting
  import opened Intervals
  import opened Domain
  import opened ValidationRules
  import opened PlanValidator
  import opened SupervisedDay
  import opened FeasibilityGraph
  import opened AssignmentMatrix
  import opened Materialization
  import opened MatrixSoundness
  import opened MatrixCompleteness
  import opened BackupCare
  import RecoveryService

  // ---------------------------------------------------------------- tracing a plan

  /** The segments are the work of the primitives, one by one. */
  predicate Traces(day: seq<Segment>, path: seq<Primitive>) {
    |day| == |path| && forall i :: 0 <= i < |day| ==> SameWork(day[i], path[i])
  }

  ghost predicate IsDayOf(ps: seq<Primitive>, sc: Scenario, plan: Plan) {
    exists path :: FullDay(ps, sc.required, sc.home, path) && Traces(InOrder(plan.segments), path)
  }

  ghost predicate HasPrimitive(ps: seq<Primitive>, s: Segment) {
    exists p :: p in ps && SameWork(s, p)
  }

  ghost function PrimitiveFor(ps: seq<Primitive>, s: Segment): (p: Primitive)
    requires HasPrimitive(ps, s)
    ensures p in ps && SameWork(s, p)
  {
    var p :| p in ps && SameWork(s, p);
    p
  }

  lemma {:induction false} StepsMakeChain(path: seq<Primitive>, origin: State)
    requires path != [] && Departure(path[0]) == origin
    requires forall i :: 0 <= i < |path| - 1 ==> Arrival(path[i]) == Departure(path[i+1])
    ensures Chain(path, origin, Arrival(path[|path|-1]))
  {
    if |path| > 1 {
      var rest := path[1..];
      forall i | 0 <= i < |rest| - 1 ensures Arrival(rest[i]) == Departure(rest[i+1]) {
        assert rest[i] == path[i+1] && rest[i+1] == path[i+2];
      }
      StepsMakeChain(rest, Arrival(path[0]));
    }
  }

  lemma SameEnds(s: Segment, p: Primitive)
    requires SameWork(s, p)
    ensures Departure(p) == State(s.window.start, s.location) && Arrival(p) == State(s.window.end, EndPlace(s))
  {
  }

  /** The second segment begins when and where the first one ends. */
  predicate Meet(a: Segment, b: Segment) {
    a.window.end == b.window.start && EndPlace(a) == b.location
  }

  /** Neighbours in a valid plan meet exactly when they do not overlap. */
  lemma NeighboursMeet(sc: Scenario, plan: Plan, i: nat)
    requires Validation(sc, plan).valid && NoOverlaps(plan.segments) && i + 1 < |InOrder(plan.segments)|
    ensures Meet(InOrder(plan.segments)[i], InOrder(plan.segments)[i+1])
  {
    var day := InOrder(plan.segments);
    ValidMeansSafe(sc, plan);
    InOrderOrders(plan.segments);
    assert HandoffOk(sc, day[i], day[i+1]) && SegmentLeq(day[i], day[i+1]);
    assert day[i] in plan.segments && day[i+1] in plan.segments && day[i].id != day[i+1].id;
    assert !Overlap(day[i].window, day[i+1].window);
  }

  lemma TracedPlanStartsAtHome(sc: Scenario, plan: Plan, ps: seq<Primitive>)
    requires Validation(sc, plan).valid && IsDayOf(ps, sc, plan)
    ensures InOrder(plan.segments) != [] && InOrder(plan.segments)[0].location == sc.home
    ensures NoOverlaps(plan.segments) && forall s :: s in plan.segments ==> HasPrimitive(ps, s)
  {
    var day := InOrder(plan.segments);
    InOrderOrders(plan.segments);
    hide Validation, InOrder;
    var path :| FullDay(ps, sc.required, sc.home, path) && Traces(day, path);
    FullDayNonempty(ps, sc.required, sc.home, path);
    ChainSteps(path, DayStart(sc.required, sc.home), Arrival(path[|path|-1]));
    SameEnds(day[0], path[0]);
    forall s | s in plan.segments ensures HasPrimitive(ps, s) {
      var i :| 0 <= i < |day| && day[i] == s;
      assert path[i] in path && SameWork(day[i], path[i]);
    }
    forall s, t | s in plan.segments && t in plan.segments && s != t ensures !Overlap(s.window, t.window) {
      var i :| 0 <= i < |day| && day[i] == s;
      var j :| 0 <= j < |day| && day[j] == t;
      assert SameWork(day[i], path[i]) && SameWork(day[j], path[j]);
    }
  }

  lemma TracedStepsMakeADay(sc: Scenario, day: seq<Segment>, ps: seq<Primitive>, path: seq<Primitive>)
    requires day != [] && Traces(day, path) && forall p :: p in path ==> p in ps
    requires State(day[0].window.start, day[0].location) == DayStart(sc.required, sc.home)
    requires day[|day|-1].window.end == sc.required.end
    requires forall i :: 0 <= i < |day| - 1 ==> Meet(day[i], day[i+1])
    ensures FullDay(ps, sc.required, sc.home, path)
  {
    forall i | 0 <= i < |path| - 1 ensures Arrival(path[i]) == Departure(path[i+1]) {
      SameEnds(day[i], path[i]);
      SameEnds(day[i+1], path[i+1]);
    }
    SameEnds(day[0], path[0]);
    SameEnds(day[|day|-1], path[|day|-1]);
    StepsMakeChain(path, DayStart(sc.required, sc.home));
    assert Connects(ps, path, DayStart(sc.required, sc.home), Arrival(path[|path|-1]));
  }

  /** One primitive for each segment. */
  lemma TracedBySomePath(ps: seq<Primitive>, day: seq<Segment>) returns (path: seq<Primitive>)
    requires forall s :: s in day ==> HasPrimitive(ps, s)
    ensures Traces(day, path) && forall p :: p in path ==> p in ps
  {
    path := seq(|day|, i requires 0 <= i < |day| => PrimitiveFor(ps, day[i]));
  }

  lemma OfferedPlanIsADay(sc: Scenario, plan: Plan, ps: seq<Primitive>)
    requires Validation(sc, plan).valid && InOrder(plan.segments) != []
    requires InOrder(plan.segments)[0].location == sc.home
    requires NoOverlaps(plan.segments) && forall s :: s in plan.segments ==> HasPrimitive(ps, s)
    ensures IsDayOf(ps, sc, plan)
  {
    var day := InOrder(plan.segments);
    ValidMeansSafe(sc, plan);
    InOrderOrders(plan.segments);
    forall i | 0 <= i < |day| - 1 ensures Meet(day[i], day[i+1]) {
      NeighboursMeet(sc, plan, i);
    }
    hide Validation, InOrder, HandoffOk, SegmentOk, HasPrimitive, NoOverlaps;
    var path := TracedBySomePath(ps, day);
    TracedStepsMakeADay(sc, day, ps, path);
  }

  /** The converse of the soundness theorem: a valid plan is a complete day of the offered primitives if
      and only if it starts at home, no two of its segments overlap, and every segment coincides in
      person, time and places with an offered primitive. */
  lemma ValidPlanIsAnOfferedDay(sc: Scenario, scope: Option<Scope>, plan: Plan)
    requires Validation(sc, plan).valid
    ensures InOrder(plan.segments) != []
    ensures IsDayOf(Offered(sc, scope), sc, plan) <==>
      && InOrder(plan.segments)[0].location == sc.home && NoOverlaps(plan.segments)
      && forall s :: s in plan.segments ==> HasPrimitive(Offered(sc, scope), s)
  {
    ValidMeansSafe(sc, plan);
    hide Validation, InOrder, NoOverlaps, HasPrimitive, Offered, IsDayOf;
    if IsDayOf(Offered(sc, scope), sc, plan) {
      TracedPlanStartsAtHome(sc, plan, Offered(sc, scope));
    } else if InOrder(plan.segments)[0].location == sc.home && NoOverlaps(plan.segments)
              && forall s :: s in plan.segments ==> HasPrimitive(Offered(sc, scope), s) {
      OfferedPlanIsADay(sc, plan, Offered(sc, scope));
    }
  }

  /** A valid plan of that shape means the matrix is not empty: known options are enough. */
  lemma OfferedPlanSuffices(sc: Scenario, scope: Option<Scope>, plan: Plan)
    requires Validation(sc, plan).valid && InOrder(plan.segments) != []
    requires InOrder(plan.segments)[0].location == sc.home && NoOverlaps(plan.segments)
    requires forall s :: s in plan.segments ==> HasPrimitive(Offered(sc, scope), s)
    ensures HasFullDay(Offered(sc, scope), sc.required, sc.home)
    ensures NeedOf(sc, scope).Ok? ==> !NeedOf(sc, scope).value.insufficient
  {
    hide Validation, InOrder, NoOverlaps, HasPrimitive, Offered, NeedOf;
    OfferedPlanIsADay(sc, plan, Offered(sc, scope));
    if NeedOf(sc, scope).Ok? {
      NeedMeansNoFullDay(sc, scope, NeedOf(sc, scope).value);
    }
  }

  // ---------------------------------------------------------------- days of one or two parts

  lemma OneInOrder(s: Segment)
    ensures InOrder([s]) == [s]
  {
    assert Sort(SegmentLeq, [s][1..]) == [];
  }

  lemma TwoInOrder(a: Segment, b: Segment)
    requires SegmentLeq(a, b)
    ensures InOrder([a, b]) == [a, b]
  {
    SegmentOrder();
    SortFixesOrdered(SegmentLeq, [a, b]);
  }

  lemma OnePrimitiveIsADay(ps: seq<Primitive>, p: Primitive, required: Window, home: string)
    requires p in ps && p.window == required && p.location == home
    ensures FullDay(ps, required, home, [p])
  {
    assert [p][1..] == [];
    assert Connects(ps, [p], DayStart(required, home), Arrival(p));
  }

  lemma OnePartIsSafe(sc: Scenario, s: Segment)
    requires SegmentOk(sc, s, []) && s.window == sc.required
    ensures SafeDay(sc, [s], [])
  {
    hide SegmentOk;
  }

  lemma TwoPartsAreSafe(sc: Scenario, a: Segment, b: Segment)
    requires SegmentOk(sc, a, []) && SegmentOk(sc, b, []) && a.id != b.id
    requires HandoffOk(sc, a, b) && EndPlace(a) == b.location
    requires a.window.start == sc.required.start && b.window.end == sc.required.end
    ensures SafeDay(sc, [a, b], [])
  {
    hide SegmentOk, HandoffOk;
  }

  // ---------------------------------------------------------------- a safe day the planner cannot find

  /** Nobody drives, or nobody needs to be driven to. */
  ghost predicate NoDriving(sc: Scenario) {
    sc.parents == [] && forall c :: c in sc.caregivers ==> !c.drives || c.location == sc.home
  }

  lemma NoTripsWithoutDrivers(sc: Scenario)
    requires NoDriving(sc)
    ensures TransportPrimitives(sc) == []
  {
    SortPermutes(CaregiverLeq, sc.caregivers);
    forall c | c in FeasibleCaregivers(sc) ensures TripsFor(sc, c) == [] {
      FeasibleIsEligible(sc, c);
    }
    FlatMapEmpty(FeasibleCaregivers(sc), (c: Caregiver) => TripsFor(sc, c));
  }

  /** Without driving every caregiver is offered at their own place for whole windows, never a part. */
  lemma WholeWindowsWithoutDrivers(sc: Scenario, p: Primitive) returns (c: Caregiver)
    requires NoDriving(sc) && p in Offered(sc, None)
    ensures c in sc.caregivers && p.CarePrimitive? && p.person == c.id && p.location == c.location
    ensures p.window in CareWindows(sc, c)
  {
    NoTripsWithoutDrivers(sc);
    var trips := TransportPrimitives(sc);
    var byCaregiver := FlatMap(FeasibleCaregivers(sc), (x: Caregiver) => CaregiverCare(sc, trips, x));
    SortPermutes(CareLeq, byCaregiver + FlatMap(Parents(sc), (parent: string) => ParentCare(sc, trips, parent)));
    FlatMapMember(FeasibleCaregivers(sc), (x: Caregiver) => CaregiverCare(sc, trips, x), p);
    c :| c in FeasibleCaregivers(sc) && p in CaregiverCare(sc, trips, c);
    FeasibleIsEligible(sc, c);
    FlatMapMember(CareWindows(sc, c), (w: Window) => CaregiverCareIn(sc, trips, c, w), p);
  }

  /** Two sitters whose hours overlap for half an hour in the middle of the day. */
  function EarlySitter(): Caregiver {
    Caregiver("early", true, [Window(0, 5400)], Unpriced, 0, true, false, "home", 0, false)
  }

  function LateSitter(): Caregiver {
    Caregiver("late", true, [Window(3600, 7200)], Unpriced, 0, true, false, "home", 0, false)
  }

  function TwoSitters(): Scenario {
    Scenario(Window(0, 7200), [], [], [], [EarlySitter(), LateSitter()], LENIENT, "home", [], 5, [])
  }

  function HandOverHalfway(): Plan {
    var early: Segment := Segment("early", Window(0, 4500), "early", ByCaregiver, Care, "home", None, None, 0.0);
    var late: Segment := Segment("late", Window(4500, 7200), "late", ByCaregiver, Care, "home", None, None, 0.0);
    Plan(Proposed("p"), [early, late], [], 0.0, [], NotValidated, [])
  }

  lemma SittersAreKnown()
    ensures Find(TwoSitters(), "early") == Some(EarlySitter()) && Find(TwoSitters(), "late") == Some(LateSitter())
  {
    assert UniquePeople(TwoSitters());
    UniqueFind(TwoSitters(), EarlySitter());
    UniqueFind(TwoSitters(), LateSitter());
  }

  lemma ShiftPasses(s: Segment, c: Caregiver)
    requires c == EarlySitter() || c == LateSitter()
    requires s.source.ByCaregiver? && s.kind.Care? && s.person == c.id && s.location == "home"
    requires Within(s.window, c.availability[0])
    ensures SegmentOk(TwoSitters(), s, [])
    ensures RequiredBuffer(TwoSitters(), s) == 0
  {
    SittersAreKnown();
    hide Find, Reachable, Driver;
    assert c.availability[0] in c.availability;
  }

  lemma HandOverHalfwayIsValid()
    ensures Validation(TwoSitters(), HandOverHalfway()).valid
  {
    var sc, plan := TwoSitters(), HandOverHalfway();
    var early, late := plan.segments[0], plan.segments[1];
    TwoInOrder(early, late);
    ShiftPasses(early, EarlySitter());
    ShiftPasses(late, LateSitter());
    hide Validation, InOrder, SegmentOk, RequiredBuffer, SafeDay;
    ValidMeansSafe(sc, plan);
    TwoPartsAreSafe(sc, early, late);
  }

  lemma SitterWindows()
    ensures CareWindows(TwoSitters(), EarlySitter()) == [Window(0, 5400)]
    ensures CareWindows(TwoSitters(), LateSitter()) == [Window(3600, 7200)]
  {
    assert EarlySitter().availability[..0] == [] && LateSitter().availability[..0] == [];
  }

  lemma SittersCannotBeChained()
    ensures !HasFullDay(Offered(TwoSitters(), None), TwoSitters().required, TwoSitters().home)
  {
    var sc := TwoSitters();
    hide Offered, CareWindows;
    SitterWindows();
    var ps := Offered(sc, None);
    if HasFullDay(ps, sc.required, sc.home) {
      var path: seq<Primitive> :| FullDay(ps, sc.required, sc.home, path);
      FullDayNonempty(ps, sc.required, sc.home, path);
      ChainSteps(path, DayStart(sc.required, sc.home), Arrival(path[|path|-1]));
      var first := WholeWindowsWithoutDrivers(sc, path[0]);
      assert path[0].window == Window(0, 5400);
      var second := WholeWindowsWithoutDrivers(sc, path[1]);
      assert false;
    }
  }

  /** The validator accepts handing over halfway through the overlap, but the planner, which only joins
      whole windows, is left with an empty matrix: the day is recorded as having no recovery option. */
  lemma ASafeDayMayBeOverlooked()
    ensures Validation(TwoSitters(), HandOverHalfway()).valid
    ensures !HasFullDay(Offered(TwoSitters(), None), TwoSitters().required, TwoSitters().home)
    ensures NeedOf(TwoSitters(), None).Ok?
    ensures !RecoveryService.Recoverable(TwoSitters(), None, NeedOf(TwoSitters(), None).value)
  {
    HandOverHalfwayIsValid();
    SittersCannotBeChained();
    hide Validation, Offered, HasFullDay, MatrixOf;
    NoDayNoClash(TwoSitters(), None);
  }
}
