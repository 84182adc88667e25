/** One day repaired around a morning that is kept: the sitter declines the evening, the parent's morning
    stays, and somebody else takes the evening. It meets the conditions of the theorems about repairs, and
    with a destination on the parent's care it shows the one thing about kept care that makes one fail. */
module KeptMorning {
  import opened Prelude
  import opened Sorting
  import opened Intervals
  import opened Domain
  import opened ValidationRules
  import opened Costs
  import opened PlanValidator
  import opened FeasibilityGraph
  import opened AssignmentMatrix
  import opened Materialization
  import opened MatrixSoundness
  import opened PlannableDays
  import opened Cases
  import opened PlanInvalidation
  import opened BackupCare
  import opened PreservedWork
  import opened BlindSpots
  import opened Workflow
  import opened RecoveryProtocol
  import opened PaidDay
  import opened SecondResearch

  // ---------------------------------------------------------------- the day before the decline

  /** The parent has a meeting in the evening that cannot be moved. */
  function Meeting(): CalendarEvent {
    CalendarEvent("meeting", "parent", EVENING, false, true)
  }

  function Family(helpers: seq<Caregiver>): Scenario {
    Scenario(ALL_DAY, [], ["parent"], [Meeting()], [Sitter(EVENING)] + helpers, NobodyKnown().policy, "home", [], 5,
             [Found("ann"), Found("bea")])
  }

  /** Bea may be known from the beginning, or be found only after the decline. */
  predicate Before(sc: Scenario) {
    sc == Family([]) || sc == Family([Hired("bea")])
  }

  function MorningCare(destination: Option<string>): Segment {
    ParentFor(MORNING).(destination := destination)
  }

  function TwoHalves(destination: Option<string>): Plan {
    PlanOf([MorningCare(destination), SitterFor(EVENING)])
  }

  lemma PeopleOfTheFamily(sc: Scenario)
    requires Before(sc)
    ensures UniquePeople(sc) && Find(sc, "sitter") == Some(Sitter(EVENING)) && Find(sc, "parent").None?
  {
    assert UniquePeople(sc);
    assert sc.caregivers[0] == Sitter(EVENING);
    UniqueFind(sc, Sitter(EVENING));
    FindMeaning(sc, "parent");
  }

  lemma MorningPasses(sc: Scenario, destination: Option<string>)
    requires Before(sc)
    ensures SegmentOk(sc, MorningCare(destination), [])
  {
    var k := MorningCare(destination);
    var p := PreservedPrimitive(k);
    PeopleOfTheFamily(sc);
    assert sc.events == [Meeting()] && sc.parents == ["parent"] && sc.home == "home" && sc.required == ALL_DAY;
    assert ParentCares(sc, p) && ClearOfMovable(sc, p);
    hide Find, UniquePeople, SegmentOk, Before, ParentCares, ClearOfMovable;
    ParentCarePasses(sc, p);
    AsKeptKeepsFindings(sc, k, []);
  }

  lemma EveningPasses(sc: Scenario)
    requires Before(sc)
    ensures SegmentOk(sc, SitterFor(EVENING), []) && RequiredBuffer(sc, SitterFor(EVENING)) == 0
  {
    PeopleOfTheFamily(sc);
    hide Find, Reachable, Driver, UniquePeople;
    assert EVENING in Sitter(EVENING).availability;
  }

  lemma HalvesPass(sc: Scenario, destination: Option<string>)
    requires Before(sc)
    ensures SegmentOk(sc, MorningCare(destination), []) && SegmentOk(sc, SitterFor(EVENING), [])
    ensures HandoffOk(sc, MorningCare(destination), SitterFor(EVENING))
  {
    MorningPasses(sc, destination);
    EveningPasses(sc);
    hide SegmentOk, RequiredBuffer, Before;
  }

  /** The validated plan is the two halves, with their prices. */
  lemma TwoHalvesAreValid(sc: Scenario, destination: Option<string>) returns (k: Segment, s: Segment)
    requires Before(sc)
    ensures var v := Validation(sc, TwoHalves(destination));
      v.valid && v.plan.state.Valid? && v.plan.assumptions == [] && v.plan.segments == [k, s]
    ensures k == MorningCare(destination).(cost := k.cost) && s == SitterFor(EVENING).(cost := s.cost)
  {
    HalvesAreSafe(sc, destination);
    hide SafeDay, Before, Validation;
    k, s := SafePlanOfTwo(sc, MorningCare(destination), SitterFor(EVENING));
  }

  lemma SafePlanOfTwo(sc: Scenario, a: Segment, b: Segment) returns (k: Segment, s: Segment)
    requires SafeDay(sc, [a, b], []) && SegmentLeq(a, b)
    ensures var v := Validation(sc, PlanOf([a, b]));
      v.valid && v.plan.state.Valid? && v.plan.assumptions == [] && v.plan.segments == [k, s]
    ensures k == a.(cost := k.cost) && s == b.(cost := s.cost)
  {
    TwoInOrder(a, b);
    ValidMeansSafe(sc, PlanOf([a, b]));
    hide SafeDay, Findings, InOrder, SegmentPrice, ChargedAfter, TotalCost, ApprovalReasons, SegmentLeq;
    PricedLength(sc, [a, b], {});
    var priced := Priced(sc, [a, b], {});
    k, s := priced[0], priced[1];
    assert priced == [k, s];
  }

  lemma HalvesAreSafe(sc: Scenario, destination: Option<string>)
    requires Before(sc)
    ensures SafeDay(sc, [MorningCare(destination), SitterFor(EVENING)], [])
  {
    HalvesPass(sc, destination);
    assert sc.required == ALL_DAY;
    hide SafeDay, SegmentOk, HandoffOk, Before;
    TwoPartsAreSafe(sc, MorningCare(destination), SitterFor(EVENING));
  }

  function TheCase(sc: Scenario, destination: Option<string>): Case {
    Stored(StartedCase("case", "grandmother", sc, Validation(sc, TwoHalves(destination)).plan, None), 0)
  }

  /** What the stored case says about the day. */
  ghost predicate Halved(c: Case, sc: Scenario, k: Segment, s: Segment) {
    && c.plan.Some? && c.plan.value.state.Valid? && c.plan.value.segments == [k, s]
    && Validation(sc, c.plan.value).valid
    && c.assumptions == [AvailabilityAssumption(c.plan.value.id, s)] && Named("decline") !in EventIds(c.events)
    && k == MorningCare(k.destination).(cost := k.cost) && s == SitterFor(EVENING).(cost := s.cost)
  }

  lemma OnlyTheSitterIsAssumed(plan: Plan, k: Segment, s: Segment)
    requires plan.segments == [k, s] && k.source.ByParent? && s.source.ByCaregiver?
    ensures AvailabilityAssumptions(plan) == [AvailabilityAssumption(plan.id, s)]
  {
    FilterTwo(k, s, (x: Segment) => x.source.ByCaregiver?);
    assert [] + [s] == [s];
  }

  lemma AcceptedHalvesAreValid(sc: Scenario, destination: Option<string>, plan: Plan)
    requires Validation(sc, TwoHalves(destination)).valid
    requires plan == Validation(sc, TwoHalves(destination)).plan.(id := plan.id, assumptions := plan.assumptions)
    ensures Validation(sc, plan).valid
  {
    hide Validation;
    ValidationIsStable(sc, TwoHalves(destination), plan);
  }

  lemma TheCaseKeepsThePlan(sc: Scenario, destination: Option<string>)
    requires Validation(sc, TwoHalves(destination)).plan.assumptions == []
    ensures var plan, c := Validation(sc, TwoHalves(destination)).plan, TheCase(sc, destination);
      && c.plan.Some? && c.plan.value == plan.(id := c.plan.value.id, assumptions := c.assumptions)
      && c.assumptions == AvailabilityAssumptions(c.plan.value) && Named("decline") !in EventIds(c.events)
  {
    hide Validation, StartedCase, TwoHalves, AvailabilityAssumptions, EventIds;
    StartRecordsAvailability("case", "grandmother", sc, Validation(sc, TwoHalves(destination)).plan, None);
  }

  lemma TheCaseIsHalved(sc: Scenario, destination: Option<string>) returns (k: Segment, s: Segment)
    requires Before(sc)
    ensures Halved(TheCase(sc, destination), sc, k, s) && k.destination == destination
  {
    k, s := TwoHalvesAreValid(sc, destination);
    var c := TheCase(sc, destination);
    TheCaseKeepsThePlan(sc, destination);
    hide Validation, TheCase, Before, TwoHalves, EventIds, AvailabilityAssumptions, AvailabilityAssumption;
    OnlyTheSitterIsAssumed(c.plan.value, k, s);
    AcceptedHalvesAreValid(sc, destination, c.plan.value);
  }

  // ---------------------------------------------------------------- the decline

  const SITTER_LEAVES := Decline(Named("decline"), "sitter", EVENING)

  lemma SecondHalfIsHit(k: Segment, s: Segment, place: string)
    requires SegmentLeq(k, s) && k.id != s.id && k.kind.Care? && s.kind.Care?
    requires DirectlyHit(s, SITTER_LEAVES) && !DirectlyHit(k, SITTER_LEAVES)
    ensures Reasons([k, s], SITTER_LEAVES, place).Keys == {s.id}
    ensures Impacted([k, s], {s.id}) == [s] && Preserved([k, s], {s.id}) == [k]
  {
    var d := SITTER_LEAVES;
    TwoInOrder(k, s);
    hide InOrder, DirectlyHit;
    var direct, seeds := DirectIds([k, s], d), DirectReasons([k, s], d);
    assert k in [k, s] && s in [k, s];
    assert direct == {s.id};
    assert Visit([k, s], 0, place, direct, seeds) == seeds && Visit([k, s], 1, place, direct, seeds) == seeds;
    assert VisitFrom([k, s], 2, place, direct, seeds) == seeds;
    assert VisitFrom([k, s], 1, place, direct, seeds) == seeds;
    PartsOfTwo(k, s, {s.id});
  }

  lemma PartsOfTwo(k: Segment, s: Segment, ids: set<string>)
    requires SegmentLeq(k, s) && s.id in ids && k.id !in ids
    ensures Impacted([k, s], ids) == [s] && Preserved([k, s], ids) == [k]
  {
    TwoInOrder(k, s);
    hide InOrder;
    FilterTwo(k, s, (x: Segment) => x.id in ids);
    FilterTwo(k, s, (x: Segment) => x.id !in ids);
    assert [] + [s] == [s] && [k] + [] == [k];
  }

  lemma SecondHalfDeclined(c: Case, sc: Scenario, k: Segment, s: Segment, a: Assumption) returns (o: Outcome)
    requires c.plan.Some? && c.plan.value.state.Valid? && c.plan.value.segments == [k, s] && Knows(sc, "sitter")
    requires SegmentLeq(k, s) && k.id != s.id && k.kind.Care? && s.kind.Care?
    requires DirectlyHit(s, SITTER_LEAVES) && !DirectlyHit(k, SITTER_LEAVES)
    requires Named("decline") !in EventIds(c.events) && a in c.assumptions && DependsOn(a, SITTER_LEAVES)
    ensures DeclineOutcome(c, sc, SITTER_LEAVES) == Ok(o)
  {
    FirstWithIdMeaning(sc.caregivers, "sitter");
    SecondHalfIsHit(k, s, FirstWithId(sc.caregivers, "sitter").value.location);
    hide Reasons, Impacted, Preserved, Merge, EventIds;
    o := DeclineOutcome(c, sc, SITTER_LEAVES).value;
  }

  lemma SecondHalfIsUncovered(c: Case, sc: Scenario, k: Segment, s: Segment, o: Outcome)
    requires DeclineOutcome(c, sc, SITTER_LEAVES) == Ok(o) && c.plan.value.segments == [k, s]
    requires SegmentLeq(k, s) && k.id != s.id && k.kind.Care? && s.kind.Care?
    requires DirectlyHit(s, SITTER_LEAVES) && !DirectlyHit(k, SITTER_LEAVES)
    ensures o.preserved == [k] && o.uncovered == [s.window] && o.scenario == AfterDecline(sc, SITTER_LEAVES)
  {
    var reasons, place := OutcomeParts(c, sc, SITTER_LEAVES, o);
    SecondHalfIsHit(k, s, place);
    OneMerged(s.window);
    hide DeclineOutcome, Reasons, Impacted, Preserved, Merge, DirectlyHit;
    assert WindowsOf([s]) == [s.window];
  }

  lemma SitterIsThere(sc: Scenario)
    requires Before(sc)
    ensures Knows(sc, "sitter")
  {
    assert sc.caregivers[0] == Sitter(EVENING);
  }

  lemma HalvesAreHit(k: Segment, s: Segment)
    requires k == MorningCare(k.destination).(cost := k.cost) && s == SitterFor(EVENING).(cost := s.cost)
    ensures SegmentLeq(k, s) && k.id != s.id && k.kind.Care? && s.kind.Care?
    ensures s.window == EVENING && s.person == "sitter"
    ensures DirectlyHit(s, SITTER_LEAVES) && !DirectlyHit(k, SITTER_LEAVES)
  {
  }

  lemma AvailabilityIsTouched(planId: PlanId, s: Segment)
    requires s.person == "sitter" && s.window == EVENING
    ensures DependsOn(AvailabilityAssumption(planId, s), SITTER_LEAVES)
  {
  }

  lemma SitterDeclinesTheEvening(c: Case, sc: Scenario, k: Segment, s: Segment) returns (o: Outcome)
    requires Before(sc) && Halved(c, sc, k, s)
    ensures DeclineOutcome(c, sc, SITTER_LEAVES) == Ok(o)
    ensures o.preserved == [k] && o.uncovered == [EVENING] && o.scenario == AfterDecline(sc, SITTER_LEAVES)
  {
    SitterIsThere(sc);
    HalvesAreHit(k, s);
    AvailabilityIsTouched(c.plan.value.id, s);
    hide DeclineOutcome, Validation, EventIds, Before, Knows, AfterDecline, DirectlyHit, MorningCare, SitterFor,
         SegmentLeq, AvailabilityAssumption, DependsOn;
    o := SecondHalfDeclined(c, sc, k, s, AvailabilityAssumption(c.plan.value.id, s));
    SecondHalfIsUncovered(c, sc, k, s, o);
  }

  // ---------------------------------------------------------------- the day after it

  /** However Bea came to be known, this is the day she may help on. */
  function After(): Scenario {
    Family([Hired("bea")]).(caregivers := [Left(), Hired("bea")])
  }

  function Left(): Caregiver {
    Sitter(EVENING).(availability := [])
  }

  lemma BothLeadToIt()
    ensures AfterDecline(Family([Hired("bea")]), SITTER_LEAVES) == After()
    ensures WithCaregiver(AfterDecline(Family([]), SITTER_LEAVES), Hired("bea")) == After()
  {
    CarveFromOne(EVENING, EVENING);
    assert CarveAll([EVENING], EVENING) == [];
    hide CarveAll;
    assert DeclinedBy(Sitter(EVENING), SITTER_LEAVES) == Left();
    assert DeclinedBy(Hired("bea"), SITTER_LEAVES) == Hired("bea");
    assert AfterDecline(Family([Hired("bea")]), SITTER_LEAVES).caregivers == [Left(), Hired("bea")];
    assert AfterDecline(Family([]), SITTER_LEAVES).caregivers == [Left()];
  }

  lemma BeaMayHelp()
    ensures CareWindows(After(), Hired("bea")) == [ALL_DAY] && FeasibleCaregivers(After()) == [Hired("bea")]
  {
    var sc := After();
    FullHours(sc, Hired("bea"));
    NoHours(sc, Left());
    assert Eligible(sc, Hired("bea"));
    hide CareWindows, CaregiverLeq, Sort, Eligible, Hired, Left;
    OnlyOnePasses(CaregiverLeq, Left(), Hired("bea"), (c: Caregiver) => Eligible(sc, c) && CareWindows(sc, c) != []);
  }

  lemma NobodyDrives()
    ensures TransportPrimitives(After()) == []
  {
    BeaMayHelp();
    hide FeasibleCaregivers, CareWindows;
    FlatMapOne(Hired("bea"), (c: Caregiver) => TripsFor(After(), c));
  }

  function ParentsMorning(): Primitive {
    ParentCareAt(After(), "parent", MORNING)
  }

  lemma MeetingBlocksTheEvening()
    ensures Blocked(After(), "parent") == [EVENING]
  {
    assert After().events[..0] == [];
  }

  lemma ParentIsFreeInTheMorning()
    ensures ParentCare(After(), [], "parent") == [ParentsMorning()] && Parents(After()) == ["parent"]
  {
    var sc := After();
    SortOne(TextLeq, "parent");
    MeetingBlocksTheEvening();
    MorningIsLeft();
    NothingToCarve(MORNING);
    hide Blocked, Subtract, CareId;
    assert TripsBy([], "parent") == [];
    FlatMapOne<Window, Primitive>(MORNING, (w: Window) =>
      Map(Subtract(w, TripsBy([], "parent")), (piece: Window) => ParentCareAt(sc, "parent", piece)));
  }

  lemma NothingToCarve(w: Window)
    ensures Subtract(w, []) == [w]
  {
  }

  lemma MorningIsLeft()
    ensures Subtract(ALL_DAY, [EVENING]) == [MORNING]
  {
    SubtractMeaning(ALL_DAY, [EVENING]);
    hide Subtract;
    forall t ensures Covers([MORNING], t) <==> Holds(ALL_DAY, t) && !Covers([EVENING], t) {
      OneWindow(MORNING);
      OneWindow(EVENING);
    }
    CanonicalIsUnique(Subtract(ALL_DAY, [EVENING]), [MORNING]);
  }

  lemma TwoCares()
    ensures CarePrimitives(After(), []) == [ParentsMorning(), AllDayBy(Hired("bea"))]
  {
    var sc, bea, p := After(), Hired("bea"), ParentsMorning();
    BeaMayHelp();
    BeaCaresAllDay();
    ParentIsFreeInTheMorning();
    MorningComesFirst();
    hide CaregiverCare, FeasibleCaregivers, ParentCare, Parents, AllDayBy, ParentsMorning, After, Hired, CareLeq, Sort;
    FlatMapOne(bea, (c: Caregiver) => CaregiverCare(sc, [], c));
    FlatMapOne("parent", (parent: string) => ParentCare(sc, [], parent));
    assert [AllDayBy(bea)] + [p] == [AllDayBy(bea), p];
    SortTwo(CareLeq, AllDayBy(bea), p);
  }

  lemma BeaCaresAllDay()
    ensures CaregiverCare(After(), [], Hired("bea")) == [AllDayBy(Hired("bea"))]
  {
    var sc, bea := After(), Hired("bea");
    BeaMayHelp();
    assert CareEnd([], bea.location, sc.home, 7200) == 7200;
    hide CareWindows, FeasibleCaregivers, CareId;
    FlatMapOne<Window, Primitive>(ALL_DAY, (w: Window) => CaregiverCareIn(sc, [], bea, w));
  }

  lemma MorningComesFirst()
    ensures !CareLeq(AllDayBy(Hired("bea")), ParentsMorning())
  {
    hide CareId;
  }

  // ---------------------------------------------------------------- what the replan offers

  function Keep(k: Segment): Scope {
    Scope([EVENING], [k])
  }

  function BeasEvening(): Primitive {
    ClippedCare(AllDayBy(Hired("bea")), EVENING)
  }

  predicate IsMorning(k: Segment) {
    k == MorningCare(k.destination).(cost := k.cost)
  }

  lemma CareItems(k: Segment)
    requires IsMorning(k)
    ensures ScopedCareItems([ParentsMorning(), AllDayBy(Hired("bea"))], Keep(k)) ==
      [BeasEvening(), PreservedPrimitive(k)]
  {
    var p, b, scope := ParentsMorning(), AllDayBy(Hired("bea")), Keep(k);
    hide CareId;
    FlatMapOne<Window, Primitive>(EVENING, (a: Window) => ClipTo(p, a));
    FlatMapOne<Window, Primitive>(EVENING, (a: Window) => ClipTo(b, a));
    FlatMapTwo(p, b, (q: Primitive) => FlatMap(scope.affected, (a: Window) => ClipTo(q, a)));
    assert ClipTo(p, EVENING) == [] && ClipTo(b, EVENING) == [BeasEvening()];
    assert [] + [BeasEvening()] == [BeasEvening()];
    OneKept(k);
  }

  lemma OneKept(k: Segment)
    requires k.kind.Care?
    ensures PreservedOf([k], Care) == [PreservedPrimitive(k)] && PreservedOf([k], Transport) == []
  {
    assert [k][..0] == [];
    assert Filter([k], (s: Segment) => s.kind == Care) == [k];
    assert Filter([k], (s: Segment) => s.kind == Transport) == [];
  }

  lemma KeptAndClipped(k: Segment)
    requires IsMorning(k)
    ensures ScopedCare([ParentsMorning(), AllDayBy(Hired("bea"))], Keep(k)) == [PreservedPrimitive(k), BeasEvening()]
  {
    CareItems(k);
    var kept, b := PreservedPrimitive(k), BeasEvening();
    hide CareId, ScopedCareItems, Hired;
    TwoKeyed(b, kept, CareKeyOf);
    SortTwo(CareLeq, b, kept);
    hide ByKey, Values, Sort;
  }

  lemma NoTripsKept(k: Segment)
    requires IsMorning(k)
    ensures ScopedTrips([], Keep(k)) == []
  {
    OneKept(k);
    hide PreservedOf;
    assert ScopedTripItems([], Keep(k)) == [];
  }

  lemma ReplanOffers(k: Segment)
    requires IsMorning(k)
    ensures Offered(After(), Some(Keep(k))) == [PreservedPrimitive(k), BeasEvening()]
    ensures OfferedCare(After(), Some(Keep(k))) == [PreservedPrimitive(k), BeasEvening()]
  {
    NobodyDrives();
    TwoCares();
    KeptAndClipped(k);
    NoTripsKept(k);
    hide TransportPrimitives, CarePrimitives, ScopedCare, ScopedTrips, After, Hired, ParentsMorning, AllDayBy,
         PreservedPrimitive, BeasEvening, IsMorning, Offered, OfferedCare;
    var care, scoped := [ParentsMorning(), AllDayBy(Hired("bea"))], [PreservedPrimitive(k), BeasEvening()];
    OffersWithoutTrips(After(), Keep(k), care, scoped);
  }

  lemma OffersWithoutTrips(sc: Scenario, scope: Scope, care: seq<Primitive>, scoped: seq<Primitive>)
    requires TransportPrimitives(sc) == [] && ScopedTrips([], scope) == []
    requires CarePrimitives(sc, []) == care && ScopedCare(care, scope) == scoped
    ensures Offered(sc, Some(scope)) == OfferedCare(sc, Some(scope)) == scoped
  {
    hide TransportPrimitives, CarePrimitives, ScopedCare, ScopedTrips;
  }

  // ---------------------------------------------------------------- the day repaired

  function Repaired(k: Segment): seq<Primitive> {
    [PreservedPrimitive(k), BeasEvening()]
  }

  lemma RepairedIsADay(k: Segment)
    requires IsMorning(k)
    ensures FullDay(Repaired(k), ALL_DAY, "home", Repaired(k))
  {
    var path := Repaired(k);
    hide CareId;
    assert path[1..] == [BeasEvening()] && path[1..][1..] == [];
    assert Chain(path[1..], State(3600, "home"), State(7200, "home"));
    assert Chain(path, DayStart(ALL_DAY, "home"), State(7200, "home"));
    assert Connects(path, path, DayStart(ALL_DAY, "home"), State(7200, "home"));
  }

  lemma RepairedIdsDiffer(k: Segment)
    requires IsMorning(k)
    ensures Distinct(Ids(Repaired(k)))
  {
    hide Stamp;
    assert PreservedPrimitive(k).id[0] == 'b' && BeasEvening().id[0] == 'c';
  }

  /** The matrix is the kept morning and Bea's evening, and its one day is both of them. */
  lemma TheMatrix(k: Segment) returns (m: Matrix)
    requires IsMorning(k)
    ensures MatrixOf(After(), Some(Keep(k))) == Ok(m)
    ensures FullDay(m.care + m.transport, ALL_DAY, "home", Repaired(k))
    ensures forall p :: p in m.care + m.transport <==> p in Repaired(k)
    ensures forall p :: p in m.care <==> p in Repaired(k)
  {
    ReplanOffers(k);
    RepairedIdsDiffer(k);
    RepairedIsADay(k);
    var sc, scope := After(), Some(Keep(k));
    assert sc.required == ALL_DAY && sc.home == "home";
    hide After, Offered, OfferedCare, MatrixOf, FullDay, PreservedPrimitive, BeasEvening;
    DistinctOffersDoNotClash(sc, scope);
    m := MatrixOf(sc, scope).value;
    OfferedDayIsInMatrix(sc, Keep(k), m, Repaired(k));
    forall p ensures p in m.care + m.transport <==> p in Repaired(k) {
      MatrixIsExact(sc, scope, m, p);
      assert p in Repaired(k) ==> OnFullDay(Repaired(k), sc.required, sc.home, p);
    }
    forall p ensures p in m.care <==> p in Repaired(k) {
      MatrixIsExact(sc, scope, m, p);
    }
  }

  lemma NothingMovable(m: Matrix, k: Segment)
    requires IsMorning(k) && forall p :: p in m.care + m.transport <==> p in Repaired(k)
    ensures forall p :: p in m.care + m.transport ==> ClearOfMovable(After(), p)
    ensures !HasUnmaterializedCalendarChanges(After(), m)
  {
    assert After().events == [Meeting()];
  }

  lemma KeptApart(k: Segment)
    requires IsMorning(k)
    ensures Apart(ALL_DAY, Scope([EVENING], [k]))
  {
  }

  lemma TripsDoPass(m: Matrix, k: Segment)
    requires IsMorning(k) && forall p :: p in m.care + m.transport ==> ClearOfMovable(After(), p)
    requires forall p :: p in m.care + m.transport <==> p in Repaired(k)
    ensures TripsPass(After(), m, Repaired(k))
  {
    hide ClearOfMovable;
    forall p | p in Repaired(k) ensures LongEnough(After(), p) {
      CareIsLongEnough(After(), p);
    }
  }

  lemma NoBuffersAfter(path: seq<Primitive>)
    ensures NoHandoffBuffers(After()) && NoBuffersNeeded(After(), path)
  {
    assert NoHandoffBuffers(After());
    forall s ensures RequiredBuffer(After(), s) == 0 {
      ZeroBuffers(After(), s);
    }
  }

  // ---------------------------------------------------------------- the theorems at this day

  /** Everything GuardAfterDecline asks for, with work that is kept. */
  ghost predicate GuardIsSatisfied(c: Case, sc: Scenario, o: Outcome, m: Matrix, path: seq<Primitive>) {
    && UniquePeople(sc) && c.plan.Some? && Validation(sc, c.plan.value).valid
    && DeclineOutcome(c, sc, SITTER_LEAVES) == Ok(o) && o.preserved != []
    && Apart(sc.required, Scope(o.uncovered, o.preserved))
    && MatrixOf(o.scenario, Some(Scope(o.uncovered, o.preserved))) == Ok(m)
    && !HasUnmaterializedCalendarChanges(o.scenario, m)
    && FullDay(m.care + m.transport, sc.required, sc.home, path)
  }

  lemma EveningIsRepaired(c: Case, sc: Scenario, k: Segment, s: Segment)
    returns (o: Outcome, m: Matrix, path: seq<Primitive>)
    requires Before(sc) && Halved(c, sc, k, s) && AfterDecline(sc, SITTER_LEAVES) == After()
    ensures GuardIsSatisfied(c, sc, o, m, path) && o.preserved == [k] && o.scenario == After()
    ensures path == Repaired(k) && TripsPass(After(), m, path) && NoBuffersNeeded(After(), path)
  {
    PeopleOfTheFamily(sc);
    o := SitterDeclinesTheEvening(c, sc, k, s);
    m := TheMatrix(k);
    path := Repaired(k);
    NothingMovable(m, k);
    KeptApart(k);
    TripsDoPass(m, k);
    NoBuffersAfter(path);
    assert sc.required == ALL_DAY && sc.home == "home";
    hide After, Before, AfterDecline, Validation, MatrixOf, FullDay, DeclineOutcome, Apart, Find,
         HasUnmaterializedCalendarChanges, TripsPass, NoBuffersNeeded, UniquePeople, ClearOfMovable;
  }

  lemma MorningParts(k: Segment)
    requires IsMorning(k)
    ensures NoStrayTripFields([k]) <==> k.destination.None?
    ensures forall x :: x in [k] ==> FreeOfDecliner(x, SITTER_LEAVES)
  {
    assert k in [k];
  }

  lemma RepairedIffNoDestination(c: Case, sc: Scenario, o: Outcome, m: Matrix, k: Segment, path: seq<Primitive>,
                                 digest: seq<string> -> string)
    requires GuardIsSatisfied(c, sc, o, m, path) && o.preserved == [k] && IsMorning(k)
    requires TripsPass(o.scenario, m, path) && NoBuffersNeeded(o.scenario, path)
    ensures Distinct(Ids(path)) && Ids(path) != [] && Materialized(Ids(path), m, digest).Ok?
    ensures RepairValidation(o.scenario, Materialized(Ids(path), m, digest).value, o.preserved).valid <==>
      k.destination.None?
  {
    MorningParts(k);
    hide Validation, MatrixOf, FullDay, Materialized, RepairValidation, DeclineOutcome, Apart, NoStrayTripFields,
         HasUnmaterializedCalendarChanges, TripsPass, NoBuffersNeeded, UniquePeople, FreeOfDecliner, IsMorning;
    GuardAfterDecline(c, sc, SITTER_LEAVES, o, m, path, digest);
  }

  /** Bea has been known all along. After the decline the one way through the matrix keeps the morning, and
      it repairs the plan if and only if the kept care names no destination. */
  lemma KeptCareMustNotNameADestination(destination: Option<string>, digest: seq<string> -> string)
    returns (c: Case, o: Outcome, m: Matrix, path: seq<Primitive>)
    ensures c == TheCase(Family([Hired("bea")]), destination)
    ensures GuardIsSatisfied(c, Family([Hired("bea")]), o, m, path)
    ensures Distinct(Ids(path)) && Ids(path) != [] && Materialized(Ids(path), m, digest).Ok?
    ensures RepairValidation(o.scenario, Materialized(Ids(path), m, digest).value, o.preserved).valid <==>
      destination.None?
  {
    var sc := Family([Hired("bea")]);
    BothLeadToIt();
    c := TheCase(sc, destination);
    var k, s := TheCaseIsHalved(sc, destination);
    hide After, Family, TheCase, Materialized, RepairValidation, TripsPass, NoBuffersNeeded, GuardIsSatisfied,
         Validation, AfterDecline;
    o, m, path := EveningIsRepaired(c, sc, k, s);
    RepairedIffNoDestination(c, sc, o, m, k, path, digest);
  }

  /** The conditions on the day after, the kept work and the matrix. */
  ghost predicate RepairsByCandidate(after: Scenario, o: Outcome, candidateId: string, m: Matrix) {
    && UniquePeople(after) && OneTravelTimePerPlace(after) && NoHandoffBuffers(after)
    && Apart(o.scenario.required, Scope(o.uncovered, o.preserved))
    && MatrixOf(after, Some(Scope(o.uncovered, o.preserved))) == Ok(m) && GateAccepts(m, candidateId, o.preserved)
    && (forall p :: p in m.care + m.transport ==> ClearOfMovable(after, p))
    && (forall s :: s in o.preserved ==> FreeOfDecliner(s, SITTER_LEAVES)) && NoStrayTripFields(o.preserved)
  }

  /** Everything AcceptedCandidateRepairsThePlan asks for, with work that is kept. */
  ghost predicate CandidateIsAccepted(c: Case, sc: Scenario, o: Outcome, candidate: Caregiver, m: Matrix) {
    && c.plan.Some? && Validation(sc, c.plan.value).valid
    && DeclineOutcome(c, sc, SITTER_LEAVES) == Ok(o) && o.preserved != [] && !Knows(sc, candidate.id)
    && RepairsByCandidate(WithCaregiver(o.scenario, candidate), o, candidate.id, m)
  }

  lemma AcceptedAfter(o: Outcome, k: Segment) returns (m: Matrix)
    requires IsMorning(k) && k.destination.None?
    requires o.preserved == [k] && o.uncovered == [EVENING] && o.scenario.required == ALL_DAY
    ensures RepairsByCandidate(After(), o, "bea", m)
  {
    hide IsMorning, Repaired, NoBuffersNeeded, HasUnmaterializedCalendarChanges, After, MatrixOf, Apart, UniquePeople,
         ClearOfMovable, GateAccepts, OneTravelTimePerPlace, NoHandoffBuffers, FreeOfDecliner, NoStrayTripFields,
         FullDay;
    m := TheMatrix(k);
    MorningParts(k);
    NothingMovable(m, k);
    KeptApart(k);
    NoBuffersAfter([]);
    PeopleAfter();
    GateTakesBea(m, k);
  }

  lemma BeaIsAccepted(c: Case, sc: Scenario, k: Segment, s: Segment) returns (o: Outcome, m: Matrix)
    requires Before(sc) && !Knows(sc, "bea") && Halved(c, sc, k, s) && k.destination.None?
    requires WithCaregiver(AfterDecline(sc, SITTER_LEAVES), Hired("bea")) == After()
    ensures CandidateIsAccepted(c, sc, o, Hired("bea"), m)
  {
    TheDayStaysAsLong(sc);
    hide After, Before, Validation, DeclineOutcome, Hired, AfterDecline, WithCaregiver, Knows, EventIds, MorningCare,
         SitterFor, AvailabilityAssumption, RepairsByCandidate;
    o := SitterDeclinesTheEvening(c, sc, k, s);
    m := AcceptedAfter(o, k);
  }

  lemma TheDayStaysAsLong(sc: Scenario)
    requires Before(sc)
    ensures AfterDecline(sc, SITTER_LEAVES).required == ALL_DAY && Hired("bea").id == "bea"
  {
  }

  /** Bea is found only after the decline: the conditions hold together. */
  lemma CandidateMeetsTheConditions() returns (c: Case, o: Outcome, m: Matrix)
    ensures c == TheCase(Family([]), None) && CandidateIsAccepted(c, Family([]), o, Hired("bea"), m)
  {
    var sc := Family([]);
    BothLeadToIt();
    BeaIsUnknown();
    c := TheCase(sc, None);
    var k, s := TheCaseIsHalved(sc, None);
    hide After, Family, TheCase, Validation, CandidateIsAccepted, AfterDecline, WithCaregiver, Knows, Halved;
    o, m := BeaIsAccepted(c, sc, k, s);
  }

  lemma PeopleAfter()
    ensures UniquePeople(After()) && OneTravelTimePerPlace(After())
  {
  }

  lemma BeaIsUnknown()
    ensures !Knows(Family([]), "bea")
  {
  }

  lemma GateTakesBea(m: Matrix, k: Segment)
    requires IsMorning(k)
    requires forall p :: p in m.care + m.transport <==> p in Repaired(k)
    requires forall p :: p in m.care <==> p in Repaired(k)
    ensures GateAccepts(m, "bea", [k])
  {
    hide CareId;
    assert PreservedPrimitive(k) in Repaired(k) && BeasEvening() in Repaired(k);
    assert BeasEvening().person == "bea" && PreservedPrimitive(k).immutable && PreservedPrimitive(k).id == k.id;
    assert BeasEvening() in m.care && PreservedPrimitive(k) in m.care + m.transport;
    assert m.care + m.transport != [];
  }
}
