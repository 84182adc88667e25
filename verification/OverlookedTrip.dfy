/** A day on which only the trip to the caregiver meets a movable event: the guard on calendar changes
    looks at care alone, lets the planner select primitives, and every selection fails validation. */
module OverlookedTrip {
  import opened Prelude
  import opened Sorting
  import opened Intervals
  import opened Domain
  import opened ValidationRules
  import opened PlanValidator
  import opened FeasibilityGraph
  import opened AssignmentMatrix
  import opened Materialization
  import opened MatrixSoundness
  import opened MatrixCompleteness
  import opened PreservedWork
  import opened BlindSpots

  function Nanny(): Caregiver {
    Caregiver("nanny", true, [Window(1800, 7200)], Unpriced, 0, true, false, "elsewhere", 30, false)
  }

  function Breakfast(): CalendarEvent {
    CalendarEvent("breakfast", "parent", Window(0, 1800), true, false)
  }

  /** The parent drives all day and has a movable breakfast until the nanny, half an hour away, is free. */
  function BreakfastDay(): Scenario {
    Scenario(Window(0, 7200), [], ["parent"], [Breakfast()], [Nanny()], LENIENT, "home",
             [ParentTransport("parent", true, [Window(0, 7200)])], 5, [])
  }

  function WholeDay(): Scope {
    Scope([Window(0, 7200)], [])
  }

  function TripThere(): Primitive {
    TransportPrimitive(TransportId("parent", 0, "home", "elsewhere"), "parent", ByParent, "parent",
                       Window(0, 1800), "home", "elsewhere", 30, false)
  }

  function TripBack(): Primitive {
    TransportPrimitive(TransportId("parent", 5400, "elsewhere", "home"), "parent", ByParent, "parent",
                       Window(5400, 7200), "elsewhere", "home", 30, false)
  }

  function NannyCare(): Primitive {
    CarePrimitive(CareId("nanny", 1800), "nanny", ByCaregiver, Window(1800, 5400), "elsewhere", false)
  }

  function CareAtHome(): Primitive {
    CarePrimitive(CareId("parent", 1800), "parent", ByParent, Window(1800, 5400), "home", false)
  }

  // ---------------------------------------------------------------- what the planner offers

  lemma NannyWindows()
    ensures CareWindows(BreakfastDay(), Nanny()) == [Window(1800, 7200)]
  {
    var sc := BreakfastDay();
    FlatMapOne<Window, Window>(Window(1800, 7200), (w: Window) => Clipped(w, sc.required));
    assert Clipped(Window(1800, 7200), sc.required) == [Window(1800, 7200)];
  }

  lemma NannyIsFeasible()
    ensures FeasibleCaregivers(BreakfastDay()) == [Nanny()] && Parents(BreakfastDay()) == ["parent"]
  {
    var sc := BreakfastDay();
    NannyWindows();
    SortOne(CaregiverLeq, Nanny());
    SortOne(TextLeq, "parent");
    hide CareWindows, Sort, TextLeq, CaregiverLeq;
    assert Eligible(sc, Nanny());
    assert [Nanny()][..0] == [];
  }

  lemma ParentMayDriveAllDay()
    ensures Blocked(BreakfastDay(), "parent") == []
    ensures DrivingWindows(BreakfastDay(), "parent") == [Window(0, 7200)]
  {
    var sc := BreakfastDay();
    assert sc.events[..0] == [];
    assert Blocked(sc, "parent") == [];
    assert sc.transport[..0] == [];
    assert Driver(sc, "parent") == Some(sc.transport[0]);
    FlatMapOne<Window, Window>(Window(0, 7200), (raw: Window) => DrivingIn(sc, "parent", raw));
    assert Subtract(Window(0, 7200), []) == [Window(0, 7200)];
  }

  lemma TwoTrips()
    ensures AllTrips(BreakfastDay()) == [TripThere(), TripBack()]
    ensures TransportPrimitives(BreakfastDay()) == [TripThere(), TripBack()]
  {
    var sc := BreakfastDay();
    NannyWindows();
    NannyIsFeasible();
    ParentMayDriveAllDay();
    hide DrivingWindows, CareWindows, FeasibleCaregivers, Parents;
    FlatMapOne<Window, Primitive>(Window(1800, 7200), (w: Window) =>
      ParentTrip(sc, "parent", 30, sc.home, "elsewhere", w.start)
      + ParentTrip(sc, "parent", 30, "elsewhere", sc.home, w.end));
    assert Within(Window(0, 1800), Window(0, 7200)) && Window(0, 7200) in DrivingWindows(sc, "parent");
    assert ParentTrip(sc, "parent", 30, sc.home, "elsewhere", 1800) == [TripThere()];
    assert ParentTrip(sc, "parent", 30, "elsewhere", sc.home, 7200) == [TripBack()];
    assert ParentTrips(sc, Nanny(), "parent") == [TripThere(), TripBack()];
    FlatMapOne("parent", (parent: string) => ParentTrips(sc, Nanny(), parent));
    FlatMapOne(Nanny(), (c: Caregiver) => TripsFor(sc, c));
    TwoKeyed(TripThere(), TripBack(), InitialTripKey);
    SortTwo(TransportLeq, TripThere(), TripBack());
  }

  lemma TwoCares()
    ensures CarePrimitives(BreakfastDay(), [TripThere(), TripBack()]) == [NannyCare(), CareAtHome()]
  {
    var sc, trips := BreakfastDay(), [TripThere(), TripBack()];
    NannyIsFeasible();
    NannyUntilFetched();
    ParentBetweenTrips();
    hide CaregiverCare, ParentCare, FeasibleCaregivers, Parents;
    FlatMapOne(Nanny(), (c: Caregiver) => CaregiverCare(sc, trips, c));
    FlatMapOne("parent", (parent: string) => ParentCare(sc, trips, parent));
    assert [NannyCare()] + [CareAtHome()] == [NannyCare(), CareAtHome()];
    TwoKeyed(NannyCare(), CareAtHome(), CareKeyOf);
    SortTwo(CareLeq, NannyCare(), CareAtHome());
    assert [NannyCare(), CareAtHome()][1..] == [CareAtHome()] && [CareAtHome()][1..] == [];
    assert Sort(CareLeq, [CareAtHome()]) == [CareAtHome()];
  }

  lemma NannyUntilFetched()
    ensures CaregiverCare(BreakfastDay(), [TripThere(), TripBack()], Nanny()) == [NannyCare()]
  {
    var sc, trips := BreakfastDay(), [TripThere(), TripBack()];
    NannyWindows();
    hide CareWindows;
    assert trips[..1] == [TripThere()] && trips[..1][..0] == [];
    assert CareEnd([TripThere()], "elsewhere", "home", 7200) == 7200;
    assert CareEnd(trips, "elsewhere", "home", 7200) == 5400;
    FlatMapOne<Window, Primitive>(Window(1800, 7200), (w: Window) => CaregiverCareIn(sc, trips, Nanny(), w));
  }

  lemma ParentsTrips()
    ensures TripsBy([TripThere(), TripBack()], "parent") == [Window(0, 1800), Window(5400, 7200)]
  {
    var trips := [TripThere(), TripBack()];
    hide TransportId;
    assert trips[..1] == [TripThere()] && trips[..1][..0] == [];
    assert Filter([TripThere()], (t: Primitive) => Transporter(t) == "parent") == [TripThere()];
    assert Filter(trips, (t: Primitive) => Transporter(t) == "parent") == trips;
  }

  lemma ParentBetweenTrips()
    ensures ParentCare(BreakfastDay(), [TripThere(), TripBack()], "parent") == [CareAtHome()]
  {
    var sc, trips := BreakfastDay(), [TripThere(), TripBack()];
    ParentMayDriveAllDay();
    ParentsTrips();
    BetweenTwoTrips();
    hide Blocked, TripsBy, TransportId, CareId;
    assert ParentCareWindows(sc, "parent") == [Window(0, 7200)] by {
      assert Subtract(Window(0, 7200), []) == [Window(0, 7200)];
    }
    hide Subtract;
    FlatMapOne<Window, Primitive>(Window(0, 7200), (w: Window) =>
      Map(Subtract(w, TripsBy(trips, "parent")), (piece: Window) => ParentCareAt(sc, "parent", piece)));
  }

  lemma BetweenTwoTrips()
    ensures Subtract(Window(0, 7200), [Window(0, 1800), Window(5400, 7200)]) == [Window(1800, 5400)]
  {
    var whole: Window, first: Window, last: Window, left: Window :=
      Window(0, 7200), Window(0, 1800), Window(5400, 7200), Window(1800, 5400);
    SubtractMeaning(whole, [first, last]);
    hide Subtract;
    forall t ensures Covers([left], t) <==> Holds(whole, t) && !Covers([first, last], t) {
      OneWindow(left);
      assert first in [first, last] && last in [first, last];
    }
    CanonicalIsUnique(Subtract(whole, [first, last]), [left]);
  }

  // ---------------------------------------------------------------- what the replan offers

  lemma ClippedToTheDay(p: Primitive)
    requires p == NannyCare() || p == CareAtHome()
    ensures FlatMap(WholeDay().affected, (a: Window) => ClipTo(p, a)) == [p]
  {
    FlatMapOne<Window, Primitive>(Window(0, 7200), (a: Window) => ClipTo(p, a));
  }

  lemma CareItemsAreTheSame()
    ensures ScopedCareItems([NannyCare(), CareAtHome()], WholeDay()) == [NannyCare(), CareAtHome()]
  {
    var scope := WholeDay();
    NothingPreserved();
    ClippedToTheDay(NannyCare());
    ClippedToTheDay(CareAtHome());
    hide ClipTo, PreservedOf, NannyCare, CareAtHome, FlatMap;
    FlatMapTwo(NannyCare(), CareAtHome(), (p: Primitive) => FlatMap(scope.affected, (a: Window) => ClipTo(p, a)));
  }

  lemma ScopedCareIsTheSame()
    ensures ScopedCare([NannyCare(), CareAtHome()], WholeDay()) == [NannyCare(), CareAtHome()]
  {
    CareItemsAreTheSame();
    TwoKeyed(NannyCare(), CareAtHome(), CareKeyOf);
    SortTwo(CareLeq, NannyCare(), CareAtHome());
    hide CareId, ScopedCareItems, ByKey, Sort, CareLeq;
  }

  lemma TripItemsAreTheSame()
    ensures ScopedTripItems([TripThere(), TripBack()], WholeDay()) == [TripThere(), TripBack()]
  {
    var scope := WholeDay();
    NothingPreserved();
    hide TransportId, PreservedOf;
    assert Window(0, 7200) in scope.affected;
    FilterTwo(TripThere(), TripBack(), (t: Primitive) => FitsOne(t.window, scope.affected));
    assert [TripThere()] + [TripBack()] == [TripThere(), TripBack()];
  }

  lemma ScopedTripsAreTheSame()
    ensures ScopedTrips([TripThere(), TripBack()], WholeDay()) == [TripThere(), TripBack()]
  {
    TripItemsAreTheSame();
    hide TransportId, ScopedTripItems;
    TwoKeyed(TripThere(), TripBack(), ScopedTripKey);
    SortTwo(TransportLeq, TripThere(), TripBack());
    hide ByKey, Values, Sort, TransportLeq;
  }

  lemma ReplanOffersTheSame()
    ensures Offered(BreakfastDay(), Some(WholeDay())) == [NannyCare(), CareAtHome(), TripThere(), TripBack()]
    ensures OfferedCare(BreakfastDay(), Some(WholeDay())) == [NannyCare(), CareAtHome()]
  {
    TwoTrips();
    TwoCares();
    ScopedCareIsTheSame();
    ScopedTripsAreTheSame();
    hide CarePrimitives, TransportPrimitives, ScopedCare, ScopedTrips, CareId, TransportId;
  }

  lemma StampsDiffer()
    ensures |Stamp(0)| > 0 && |Stamp(5400)| > 0 && Stamp(0)[0] != Stamp(5400)[0]
  {
    assert Digits(0) == "0";
    assert Digits(5400) == Digits(540) + ['0'] && Digits(540) == Digits(54) + ['0'];
    assert Digits(54) == Digits(5) + ['4'] && Digits(5) == "5";
  }

  lemma StampInTripId(person: string, start: int, origin: string, destination: string)
    requires |Stamp(start)| > 0
    ensures |TransportId(person, start, origin, destination)| > 11 + |person|
    ensures TransportId(person, start, origin, destination)[11 + |person|] == Stamp(start)[0]
  {
    hide Stamp;
    var before := "transport:" + person + ":";
    assert |before| == 11 + |person|;
    assert (before + Stamp(start))[|before|] == Stamp(start)[0];
  }

  lemma TripIdsDiffer()
    ensures TransportId("parent", 0, "home", "elsewhere") != TransportId("parent", 5400, "elsewhere", "home")
  {
    StampsDiffer();
    hide Stamp, TransportId;
    StampInTripId("parent", 0, "home", "elsewhere");
    StampInTripId("parent", 5400, "elsewhere", "home");
  }

  lemma CareIdsDiffer()
    ensures CareId("nanny", 1800) != CareId("parent", 1800)
  {
    hide Stamp;
    assert CareId("nanny", 1800)[5] == 'n' && CareId("parent", 1800)[5] == 'p';
  }

  lemma KindsDiffer(person: string, start: int, who: string, when: int, origin: string, destination: string)
    ensures CareId(person, start) != TransportId(who, when, origin, destination)
  {
    hide Stamp;
    assert CareId(person, start)[0] == 'c' && TransportId(who, when, origin, destination)[0] == 't';
  }

  lemma IdsDiffer()
    ensures Distinct(Ids([NannyCare(), CareAtHome(), TripThere(), TripBack()]))
  {
    TripIdsDiffer();
    CareIdsDiffer();
    forall person, start, who, when, origin, destination
      ensures CareId(person, start) != TransportId(who, when, origin, destination)
    {
      KindsDiffer(person, start, who, when, origin, destination);
    }
    hide CareId, TransportId;
  }

  // ---------------------------------------------------------------- the guard passes, the day does not

  function TheOnlyWay(): seq<Primitive> {
    [TripThere(), NannyCare(), TripBack()]
  }

  lemma TheOnlyWayIsADay()
    ensures var sc := BreakfastDay();
      FullDay(Offered(sc, Some(WholeDay())), sc.required, sc.home, TheOnlyWay())
  {
    ReplanOffersTheSame();
    var sc := BreakfastDay();
    assert Departure(TripThere()) == DayStart(sc.required, sc.home) && Arrival(TripThere()) == Departure(NannyCare())
        && Arrival(NannyCare()) == Departure(TripBack()) && Arrival(TripBack()) == State(7200, "home");
    hide Offered, TripThere, NannyCare, TripBack, Chain;
    var ps, path := Offered(sc, Some(WholeDay())), TheOnlyWay();
    ThreeInARow(TripThere(), NannyCare(), TripBack());
    assert TripThere() in ps && NannyCare() in ps && TripBack() in ps;
    assert Connects(ps, path, DayStart(sc.required, sc.home), State(7200, "home"));
  }

  lemma ThreeInARow(a: Primitive, b: Primitive, c: Primitive)
    requires Arrival(a) == Departure(b) && Arrival(b) == Departure(c)
    ensures Chain([a, b, c], Departure(a), Arrival(c))
  {
    var path := [a, b, c];
    assert path[1..] == [b, c] && [b, c][1..] == [c] && [c][1..] == [];
    assert Chain([c], Departure(c), Arrival(c)) && Chain([b, c], Departure(b), Arrival(c));
  }

  /** The guard raises no objection, yet the one way through the day is no valid repair. */
  lemma GuardPassesAFailingDay(digest: seq<string> -> string) returns (m: Matrix)
    ensures MatrixOf(BreakfastDay(), Some(WholeDay())) == Ok(m)
    ensures !HasUnmaterializedCalendarChanges(BreakfastDay(), m)
    ensures FullDay(m.care + m.transport, BreakfastDay().required, BreakfastDay().home, TheOnlyWay())
    ensures Distinct(Ids(TheOnlyWay())) && Materialized(Ids(TheOnlyWay()), m, digest).Ok?
    ensures !RepairValidation(BreakfastDay(), Materialized(Ids(TheOnlyWay()), m, digest).value, []).valid
  {
    var sc, scope, path := BreakfastDay(), WholeDay(), TheOnlyWay();
    TheOnlyWayIsADay();
    ReplanOffersTheSame();
    IdsDiffer();
    hide Offered, OfferedCare, MatrixOf, Materialized, RepairValidation, SegmentOk, FullDay;
    DistinctOffersDoNotClash(sc, Some(scope));
    m := MatrixOf(sc, Some(scope)).value;
    OfferedDayIsInMatrix(sc, scope, m, path);
    forall p, e | p in m.care && e in sc.events && p.source.ByParent? && e.owner == p.person && !Protected(e)
      ensures !Overlap(p.window, e.window)
    {
      MatrixIsExact(sc, Some(scope), m, p);
      assert p == CareAtHome();
    }
    ReplanAgreesWithValidator(sc, scope, m, path, digest);
    BreakfastIsInTheWay();
    assert TripThere() == path[0];
  }

  lemma BreakfastIsInTheWay()
    ensures !SegmentOk(BreakfastDay(), SegmentOf(TripThere()), [])
  {
    NoChanges("breakfast");
    assert Breakfast() in BreakfastDay().events && Overlap(Window(0, 1800), Breakfast().window);
    assert !CalendarOk(BreakfastDay(), SegmentOf(TripThere()), []);
  }
}
