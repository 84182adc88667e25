/** What the matrix always offers: somebody for every free instant of an eligible person, every trip just
    in time for the start or the end of a care window, and in a replan every clip and every preserved
    segment. Days that need anything else are beyond it, however safe. */
module MatrixCompleteness {
  import opened Prelude
  import opened Sorting
  import opened Intervals
  import opened Domain
  import opened ValidationRules
  import opened FeasibilityGraph
  import opened AssignmentMatrix
  import opened MatrixSoundness

  // ---------------------------------------------------------------- people

  ghost predicate FreeAt(sc: Scenario, parent: string, t: int) {
    forall e :: e in sc.events && e.owner == parent && Protected(e) ==> !Holds(e.window, t)
  }

  /** Some offered primitive has this person looking after or driving the child at t. */
  ghost predicate EngagedAt(ps: seq<Primitive>, person: string, t: int) {
    exists p :: p in ps && Transporter(p) == person && Holds(p.window, t)
  }

  lemma BlockedInstants(sc: Scenario, parent: string, t: int)
    requires FreeAt(sc, parent, t)
    ensures !Covers(Blocked(sc, parent), t)
  {
    var mine := Filter(sc.events, (e: CalendarEvent) => e.owner == parent && Protected(e));
    FilterMember(sc.events, (e: CalendarEvent) => e.owner == parent && Protected(e));
    forall b | b in Blocked(sc, parent) ensures !Holds(b, t) {
      var i :| 0 <= i < |mine| && mine[i].window == b;
      assert mine[i] in mine;
    }
  }

  lemma DrivingInstant(trips: seq<Primitive>, person: string, t: int)
    requires Covers(TripsBy(trips, person), t)
    ensures EngagedAt(trips, person, t)
  {
    var mine := Filter(trips, (x: Primitive) => Transporter(x) == person);
    FilterMember(trips, (x: Primitive) => Transporter(x) == person);
    var w :| w in TripsBy(trips, person) && Holds(w, t);
    var i :| 0 <= i < |mine| && mine[i].window == w;
    assert mine[i] in mine;
  }

  lemma ParentCareMember(sc: Scenario, trips: seq<Primitive>, parent: string, w: Window, piece: Window)
    requires parent in sc.parents && w in ParentCareWindows(sc, parent)
    requires piece in Subtract(w, TripsBy(trips, parent))
    ensures ParentCareAt(sc, parent, piece) in CarePrimitives(sc, trips)
  {
    var p := ParentCareAt(sc, parent, piece);
    var pieces := (x: Window) => Map(Subtract(x, TripsBy(trips, parent)), (y: Window) => ParentCareAt(sc, parent, y));
    var parts := Subtract(w, TripsBy(trips, parent));
    var i :| 0 <= i < |parts| && parts[i] == piece;
    assert pieces(w)[i] == p;
    FlatMapMember(ParentCareWindows(sc, parent), pieces, p);
    SortPermutes(TextLeq, sc.parents);
    FlatMapMember(Parents(sc), (x: string) => ParentCare(sc, trips, x), p);
    CareMember(sc, trips, p);
  }

  lemma CareMember(sc: Scenario, trips: seq<Primitive>, p: Primitive)
    ensures p in CarePrimitives(sc, trips) <==>
      p in FlatMap(FeasibleCaregivers(sc), (c: Caregiver) => CaregiverCare(sc, trips, c))
      || p in FlatMap(Parents(sc), (parent: string) => ParentCare(sc, trips, parent))
  {
    SortPermutes(CareLeq, FlatMap(FeasibleCaregivers(sc), (c: Caregiver) => CaregiverCare(sc, trips, c))
                          + FlatMap(Parents(sc), (parent: string) => ParentCare(sc, trips, parent)));
  }

  /** Every instant of the required window at which a parent has no protected event is offered: with
      the parent at home, or with the parent driving. */
  lemma FreeParentsAreOffered(sc: Scenario, parent: string, t: int)
    requires parent in sc.parents && Holds(sc.required, t) && FreeAt(sc, parent, t)
    ensures EngagedAt(Offered(sc, None), parent, t)
  {
    hide CarePrimitives, TransportPrimitives, Subtract, TripsBy;
    var trips := TransportPrimitives(sc);
    BlockedInstants(sc, parent, t);
    SubtractMeaning(sc.required, Blocked(sc, parent));
    var w :| w in ParentCareWindows(sc, parent) && Holds(w, t);
    if Covers(TripsBy(trips, parent), t) {
      DrivingInstant(trips, parent, t);
      var p :| p in trips && Transporter(p) == parent && Holds(p.window, t);
      assert p in Offered(sc, None);
    } else {
      SubtractMeaning(w, TripsBy(trips, parent));
      var piece :| piece in Subtract(w, TripsBy(trips, parent)) && Holds(piece, t);
      ParentCareMember(sc, trips, parent, w, piece);
      assert ParentCareAt(sc, parent, piece) in Offered(sc, None);
    }
  }

  // ---------------------------------------------------------------- caregivers

  /** A caregiver is eligible exactly when the validator would accept them for care in their own hours. */
  lemma EligibleAgreesWithValidator(sc: Scenario, c: Caregiver, s: Segment, a: Window)
    requires UniquePeople(sc) && c in sc.caregivers && s.source.ByCaregiver? && s.person == c.id
    requires a in c.availability && Within(s.window, a)
    ensures Eligible(sc, c) <==> AssignmentOk(sc, s)
  {
    UniqueFind(sc, c);
  }

  /** An eligible caregiver is offered for their own trips exactly when the validator lets them drive. */
  lemma DrivingAgreesWithValidator(sc: Scenario, c: Caregiver, trip: Window, a: Window)
    requires UniquePeople(sc) && c in sc.caregivers && Eligible(sc, c) && a in c.availability && Within(trip, a)
    ensures DriverOk(sc, c.id, trip) <==> c.drives && (c.external ==> sc.policy.allowProviderTransport)
  {
    UniqueFind(sc, c);
    CaregiverHasNoDriverEntry(sc, c);
  }

  lemma FeasibleCaregiver(sc: Scenario, c: Caregiver, a: Window)
    requires c in sc.caregivers && Eligible(sc, c) && a in c.availability && Overlap(a, sc.required)
    ensures c in FeasibleCaregivers(sc) && Intersection(a, sc.required).value in CareWindows(sc, c)
  {
    var w := Intersection(a, sc.required).value;
    FlatMapMember(c.availability, (x: Window) => Clipped(x, sc.required), w);
    assert w in Clipped(a, sc.required);
    SortPermutes(CaregiverLeq, sc.caregivers);
    FilterMember(Sort(CaregiverLeq, sc.caregivers),
                 (x: Caregiver) => Eligible(sc, x) && CareWindows(sc, x) != []);
  }

  /** When care stops before the window does, a trip home starts at that moment and ends with it. */
  lemma {:induction false} CareStopsForATrip(trips: seq<Primitive>, place: string, home: string, end: int)
    ensures CareEnd(trips, place, home, end) <= end
    ensures CareEnd(trips, place, home, end) < end ==>
      exists t :: t in trips && t.TransportPrimitive? && t.location == place && t.destination == home
        && t.window.start == CareEnd(trips, place, home, end) && t.window.end == end
  {
    if trips != [] {
      CareStopsForATrip(trips[..|trips|-1], place, home, end);
      var last := trips[|trips|-1];
      assert last in trips;
    }
  }

  /** The child can be at a caregiver's place, or on the way home from it, at t. */
  ghost predicate ServedAt(ps: seq<Primitive>, c: Caregiver, home: string, t: int) {
    exists p :: p in ps && p.location == c.location && Holds(p.window, t)
      && (if p.CarePrimitive? then p.person == c.id else p.destination == home)
  }

  /** Every available instant of an eligible caregiver inside the required window is offered: as care,
      or as the trip home for which that care ends early. */
  lemma AvailableCaregiversAreOffered(sc: Scenario, c: Caregiver, t: int)
    requires c in sc.caregivers && Eligible(sc, c) && Covers(c.availability, t) && Holds(sc.required, t)
    ensures ServedAt(Offered(sc, None), c, sc.home, t)
  {
    var a :| a in c.availability && Holds(a, t);
    FeasibleCaregiver(sc, c, a);
    var w := Intersection(a, sc.required).value;
    var trips := TransportPrimitives(sc);
    var end := CareEnd(trips, c.location, sc.home, w.end);
    CareStopsForATrip(trips, c.location, sc.home, w.end);
    if t < end {
      CaregiverCareMember(sc, trips, c, w);
      hide CarePrimitives, TransportPrimitives, CareEnd, FeasibleCaregivers, CareWindows;
      var p := CarePrimitive(CareId(c.id, w.start), c.id, ByCaregiver, Window(w.start, end), c.location, false);
      assert p in Offered(sc, None);
    } else {
      hide CarePrimitives, TransportPrimitives, CareEnd, FeasibleCaregivers, CareWindows;
      var trip :| trip in trips && trip.TransportPrimitive? && trip.location == c.location
        && trip.destination == sc.home && trip.window.start == end && trip.window.end == w.end;
      assert trip in Offered(sc, None);
    }
  }

  lemma CaregiverCareMember(sc: Scenario, trips: seq<Primitive>, c: Caregiver, w: Window)
    requires c in FeasibleCaregivers(sc) && w in CareWindows(sc, c)
    requires w.start < CareEnd(trips, c.location, sc.home, w.end)
    ensures CarePrimitive(CareId(c.id, w.start), c.id, ByCaregiver,
                          Window(w.start, CareEnd(trips, c.location, sc.home, w.end)), c.location, false)
      in CarePrimitives(sc, trips)
  {
    hide CarePrimitives, CareEnd, FeasibleCaregivers, CareWindows;
    var p := CarePrimitive(CareId(c.id, w.start), c.id, ByCaregiver,
                           Window(w.start, CareEnd(trips, c.location, sc.home, w.end)), c.location, false);
    assert p in CaregiverCareIn(sc, trips, c, w);
    FlatMapMember(CareWindows(sc, c), (x: Window) => CaregiverCareIn(sc, trips, c, x), p);
    FlatMapMember(FeasibleCaregivers(sc), (x: Caregiver) => CaregiverCare(sc, trips, x), p);
    CareMember(sc, trips, p);
  }

  /** A trip home from the place that ends at this moment. */
  predicate FetchesAt(t: Primitive, place: string, home: string, end: int) {
    t.TransportPrimitive? && t.location == place && t.destination == home && t.window.end == end
  }

  lemma {:induction false} CareEndIsEarliest(trips: seq<Primitive>, place: string, home: string, end: int)
    ensures forall t :: t in trips && FetchesAt(t, place, home, end) ==>
      CareEnd(trips, place, home, end) <= t.window.start
  {
    if trips != [] {
      var init, last := trips[..|trips|-1], trips[|trips|-1];
      CareEndIsEarliest(init, place, home, end);
      assert trips == init + [last];
    }
  }

  /** The care ends with its window, or when the earliest offered trip home that ends with it departs. */
  ghost predicate EndsForTheTrip(ps: seq<Primitive>, p: Primitive, home: string, end: int) {
    && (forall t :: t in ps && FetchesAt(t, p.location, home, end) ==> p.window.end <= t.window.start)
    && (p.window.end == end
        || exists t :: t in ps && FetchesAt(t, p.location, home, end) && t.window.start == p.window.end)
  }

  /** An eligible caregiver's care is offered from the start of each window up to the earliest trip home that
      ends with the window, if there is time for any before it. */
  lemma CareLeavesTimeForTheTrip(sc: Scenario, c: Caregiver, a: Window)
    requires c in sc.caregivers && Eligible(sc, c) && a in c.availability && Overlap(a, sc.required)
    ensures var w, trips := Inside(sc, a), OfferedTrips(sc, None);
      (forall t :: t in trips && FetchesAt(t, c.location, sc.home, w.end) ==> w.start < t.window.start) ==>
        exists p :: p in OfferedCare(sc, None) && p.person == c.id && p.location == c.location
                    && p.window.start == w.start && EndsForTheTrip(trips, p, sc.home, w.end)
  {
    var w, trips := Inside(sc, a), TransportPrimitives(sc);
    var end := CareEnd(trips, c.location, sc.home, w.end);
    FeasibleCaregiver(sc, c, a);
    CareStopsForATrip(trips, c.location, sc.home, w.end);
    CareEndIsEarliest(trips, c.location, sc.home, w.end);
    hide CarePrimitives, TransportPrimitives, CareEnd, FeasibleCaregivers, CareWindows;
    if forall t :: t in trips && FetchesAt(t, c.location, sc.home, w.end) ==> w.start < t.window.start {
      CaregiverCareMember(sc, trips, c, w);
      var p := CarePrimitive(CareId(c.id, w.start), c.id, ByCaregiver, Window(w.start, end), c.location, false);
      assert p in OfferedCare(sc, None) && EndsForTheTrip(trips, p, sc.home, w.end);
    }
  }

  /** No parent is offered for care while they are offered as a driver. */
  lemma DrivingParentsDoNotCare(sc: Scenario, p: Primitive, t: Primitive)
    requires p in OfferedCare(sc, None) && p.source.ByParent? && t in OfferedTrips(sc, None)
    requires Transporter(t) == p.person
    ensures !Overlap(p.window, t.window)
  {
    var trips := TransportPrimitives(sc);
    ParentCareComesFrom(sc, trips, p);
    hide CarePrimitives, TransportPrimitives, ParentCare;
    PieceAvoidsTrips(sc, trips, p.person, p, t);
  }

  lemma CaregiverCareIsTheirs(sc: Scenario, trips: seq<Primitive>, c: Caregiver, p: Primitive)
    requires p in CaregiverCare(sc, trips, c)
    ensures p.source.ByCaregiver?
  {
    FlatMapMember(CareWindows(sc, c), (w: Window) => CaregiverCareIn(sc, trips, c, w), p);
  }

  lemma ParentCareIsTheirs(sc: Scenario, trips: seq<Primitive>, parent: string, p: Primitive)
    requires p in ParentCare(sc, trips, parent)
    ensures p.person == parent
  {
    var pieces := (w: Window) =>
      Map(Subtract(w, TripsBy(trips, parent)), (piece: Window) => ParentCareAt(sc, parent, piece));
    FlatMapMember(ParentCareWindows(sc, parent), pieces, p);
  }

  lemma ParentCareComesFrom(sc: Scenario, trips: seq<Primitive>, p: Primitive)
    requires p in CarePrimitives(sc, trips) && p.source.ByParent?
    ensures p in ParentCare(sc, trips, p.person)
  {
    CareMember(sc, trips, p);
    FlatMapMember(FeasibleCaregivers(sc), (c: Caregiver) => CaregiverCare(sc, trips, c), p);
    FlatMapMember(Parents(sc), (parent: string) => ParentCare(sc, trips, parent), p);
    hide CarePrimitives, FeasibleCaregivers, Parents, CaregiverCare, ParentCare;
    if c :| c in FeasibleCaregivers(sc) && p in CaregiverCare(sc, trips, c) {
      CaregiverCareIsTheirs(sc, trips, c, p);
    } else {
      var parent :| parent in Parents(sc) && p in ParentCare(sc, trips, parent);
      ParentCareIsTheirs(sc, trips, parent, p);
    }
  }

  lemma PieceAvoidsTrips(sc: Scenario, trips: seq<Primitive>, parent: string, p: Primitive, t: Primitive)
    requires p in ParentCare(sc, trips, parent) && t in trips && Transporter(t) == parent
    ensures !Overlap(p.window, t.window)
  {
    var pieces := (w: Window) =>
      Map(Subtract(w, TripsBy(trips, parent)), (piece: Window) => ParentCareAt(sc, parent, piece));
    FlatMapMember(ParentCareWindows(sc, parent), pieces, p);
    var w :| w in ParentCareWindows(sc, parent) && p in pieces(w);
    var parts := Subtract(w, TripsBy(trips, parent));
    var i :| 0 <= i < |parts| && p == ParentCareAt(sc, parent, parts[i]);
    var mine := Filter(trips, (x: Primitive) => Transporter(x) == parent);
    FilterMember(trips, (x: Primitive) => Transporter(x) == parent);
    var j :| 0 <= j < |mine| && mine[j] == t;
    assert TripsBy(trips, parent)[j] == t.window;
    SubtractMeaning(w, TripsBy(trips, parent));
    assert parts[i] in parts;
  }

  // ---------------------------------------------------------------- trips

  ghost predicate IsTrip(p: Primitive, driver: string, w: Window, origin: string, destination: string) {
    && p.TransportPrimitive? && p.transporter == driver && p.window == w
    && p.location == origin && p.destination == destination
  }

  /** A deduplicated list still has a trip with this driver, time and route. */
  lemma TripSurvives(sc: Scenario, p: Primitive)
    requires p in AllTrips(sc) && p.TransportPrimitive?
    ensures exists q :: q in TransportPrimitives(sc) && IsTrip(q, p.transporter, p.window, p.location, p.destination)
  {
    var all, key := AllTrips(sc), InitialTripKey(p);
    ByKeyLookup(all, InitialTripKey, key);
    assert Get(ByKey(all, InitialTripKey), key).Some?;
    var q := Get(ByKey(all, InitialTripKey), key).value;
    GetMember(ByKey(all, InitialTripKey), key);
    ValuesMember(ByKey(all, InitialTripKey), q);
    SortPermutes(TransportLeq, Values(ByKey(all, InitialTripKey)));
    TripsAreTransport(sc, q);
    assert IsTrip(q, p.transporter, p.window, p.location, p.destination);
  }

  ghost predicate MayDriveDuring(sc: Scenario, parent: string, trip: Window) {
    && Driver(sc, parent).Some? && Driver(sc, parent).value.drives
    && FitsOne(trip, Driver(sc, parent).value.availability) && Within(trip, sc.required)
    && FreeOf(sc, parent, trip)
  }

  lemma EndIsUncovered(pieces: seq<Window>, i: nat)
    requires Separated(pieces) && i < |pieces|
    ensures !Covers(pieces, pieces[i].end)
  {
    forall p | p in pieces ensures !Holds(p, pieces[i].end) {
      var j :| 0 <= j < |pieces| && pieces[j] == p;
    }
  }

  lemma WithinOnePiece(w: Window, pieces: seq<Window>)
    requires Separated(pieces) && forall t :: Holds(w, t) ==> Covers(pieces, t)
    ensures FitsOne(w, pieces)
  {
    assert Holds(w, w.start);
    var i :| 0 <= i < |pieces| && Holds(pieces[i], w.start);
    EndIsUncovered(pieces, i);
    assert !Holds(w, pieces[i].end);
  }

  lemma ParentMayDrive(sc: Scenario, parent: string, trip: Window)
    requires MayDriveDuring(sc, parent, trip)
    ensures FitsOne(trip, DrivingWindows(sc, parent))
  {
    var driver := Driver(sc, parent).value;
    var a :| a in driver.availability && Within(trip, a);
    var x := Intersection(a, sc.required).value;
    var free := Subtract(x, Blocked(sc, parent));
    SubtractMeaning(x, Blocked(sc, parent));
    forall t | Holds(trip, t) ensures Covers(free, t) {
      forall e | e in sc.events && e.owner == parent && Protected(e) && Holds(e.window, t)
        ensures Overlap(trip, e.window)
      {
      }
      BlockedInstants(sc, parent, t);
    }
    hide Subtract, Separated, FreeOf;
    WithinOnePiece(trip, free);
    var w :| w in free && Within(trip, w);
    FlatMapMember(driver.availability, (raw: Window) => DrivingIn(sc, parent, raw), w);
  }

  /** A caregiver away from home, with one of their availability windows inside the day. */
  ghost predicate AwayFor(sc: Scenario, c: Caregiver, a: Window) {
    && c in sc.caregivers && Eligible(sc, c) && c.location != sc.home && c.travelMinutes > 0
    && a in c.availability && Overlap(a, sc.required)
  }

  function Inside(sc: Scenario, a: Window): Window
    requires Overlap(a, sc.required)
  {
    Intersection(a, sc.required).value
  }

  ghost predicate TripOffered(sc: Scenario, driver: string, w: Window, origin: string, destination: string) {
    exists p :: p in Offered(sc, None) && IsTrip(p, driver, w, origin, destination)
  }

  lemma TripForCaregiver(sc: Scenario, c: Caregiver, a: Window, p: Primitive)
    requires AwayFor(sc, c, a) && p in TripsFor(sc, c) && p.TransportPrimitive?
    ensures TripOffered(sc, p.transporter, p.window, p.location, p.destination)
  {
    FeasibleCaregiver(sc, c, a);
    hide TripsFor, TransportPrimitives;
    FlatMapMember(FeasibleCaregivers(sc), (x: Caregiver) => TripsFor(sc, x), p);
    TripSurvives(sc, p);
    var q :| q in TransportPrimitives(sc) && IsTrip(q, p.transporter, p.window, p.location, p.destination);
    assert q in Offered(sc, None);
  }

  /** A parent who may drive is offered for the trip that brings the child just in time and for the
      trip that leaves just in time, for every such caregiver and window. */
  lemma ParentTripsAreOffered(sc: Scenario, c: Caregiver, a: Window, parent: string)
    requires AwayFor(sc, c, a) && parent in sc.parents
    ensures MayDriveDuring(sc, parent, JustInTime(sc, c, a, true)) ==>
      TripOffered(sc, parent, JustInTime(sc, c, a, true), sc.home, c.location)
    ensures MayDriveDuring(sc, parent, JustInTime(sc, c, a, false)) ==>
      TripOffered(sc, parent, JustInTime(sc, c, a, false), c.location, sc.home)
  {
    hide TripOffered, MayDriveDuring, Eligible, Inside;
    if MayDriveDuring(sc, parent, JustInTime(sc, c, a, true)) {
      ParentTripIsOffered(sc, c, a, parent, true);
    }
    if MayDriveDuring(sc, parent, JustInTime(sc, c, a, false)) {
      ParentTripIsOffered(sc, c, a, parent, false);
    }
  }

  /** The trip that arrives as care starts, or the one that arrives home as the window ends. */
  function JustInTime(sc: Scenario, c: Caregiver, a: Window, toCare: bool): Window
    requires Overlap(a, sc.required) && c.travelMinutes > 0
  {
    var arrival := if toCare then Inside(sc, a).start else Inside(sc, a).end;
    Window(arrival - 60 * c.travelMinutes, arrival)
  }

  lemma ParentTripIsOffered(sc: Scenario, c: Caregiver, a: Window, parent: string, toCare: bool)
    requires AwayFor(sc, c, a) && parent in sc.parents
    requires MayDriveDuring(sc, parent, JustInTime(sc, c, a, toCare))
    ensures TripOffered(sc, parent, JustInTime(sc, c, a, toCare),
                        if toCare then sc.home else c.location, if toCare then c.location else sc.home)
  {
    var p := ParentTripIn(sc, c, a, parent, toCare);
    hide TripOffered, MayDriveDuring, TripsFor, JustInTime;
    TripForCaregiver(sc, c, a, p);
  }

  lemma ParentTripListed(sc: Scenario, c: Caregiver, parent: string, w: Window, toCare: bool, p: Primitive)
    requires c.location != sc.home && c.travelMinutes > 0 && parent in sc.parents && w in CareWindows(sc, c)
    requires p in ParentTrip(sc, parent, c.travelMinutes, if toCare then sc.home else c.location,
                             if toCare then c.location else sc.home, if toCare then w.start else w.end)
    ensures p in TripsFor(sc, c)
  {
    hide ParentTrip, CareWindows, OwnTrip;
    FlatMapMember(CareWindows(sc, c), (x: Window) =>
      ParentTrip(sc, parent, c.travelMinutes, sc.home, c.location, x.start)
      + ParentTrip(sc, parent, c.travelMinutes, c.location, sc.home, x.end), p);
    SortPermutes(TextLeq, sc.parents);
    FlatMapMember(Parents(sc), (x: string) => ParentTrips(sc, c, x), p);
  }

  lemma ParentTripIn(sc: Scenario, c: Caregiver, a: Window, parent: string, toCare: bool) returns (p: Primitive)
    requires AwayFor(sc, c, a) && parent in sc.parents
    requires MayDriveDuring(sc, parent, JustInTime(sc, c, a, toCare))
    ensures p in TripsFor(sc, c)
    ensures IsTrip(p, parent, JustInTime(sc, c, a, toCare),
                   if toCare then sc.home else c.location, if toCare then c.location else sc.home)
  {
    var w, trip := Inside(sc, a), JustInTime(sc, c, a, toCare);
    var origin, destination := if toCare then sc.home else c.location, if toCare then c.location else sc.home;
    ParentMayDrive(sc, parent, trip);
    FeasibleCaregiver(sc, c, a);
    hide DrivingWindows, MayDriveDuring, CareWindows, TripsFor, FeasibleCaregivers;
    p := TransportPrimitive(TransportId(parent, trip.start, origin, destination), parent, ByParent,
                            parent, trip, origin, destination, c.travelMinutes, false);
    assert p in ParentTrip(sc, parent, c.travelMinutes, origin, destination, trip.end);
    ParentTripListed(sc, c, parent, w, toCare, p);
  }

  /** A caregiver who may drive the child is offered for the trip home at the end of a window that is
      long enough for it. */
  lemma OwnTripsAreOffered(sc: Scenario, c: Caregiver, a: Window)
    requires AwayFor(sc, c, a) && c.drives && (c.external ==> sc.policy.allowProviderTransport)
    requires Inside(sc, a).end - Inside(sc, a).start >= 60 * c.travelMinutes
    ensures TripOffered(sc, c.id, JustInTime(sc, c, a, false), c.location, sc.home)
  {
    var w, trip := Inside(sc, a), JustInTime(sc, c, a, false);
    FeasibleCaregiver(sc, c, a);
    var p := TransportPrimitive(TransportId(c.id, trip.start, c.location, sc.home), c.id, ByCaregiver,
                                c.id, trip, c.location, sc.home, c.travelMinutes, false);
    assert p in OwnTrip(sc, c, w);
    FlatMapMember(CareWindows(sc, c), (x: Window) => OwnTrip(sc, c, x), p);
    hide OwnTrip, TripOffered;
    TripForCaregiver(sc, c, a, p);
  }

  // ---------------------------------------------------------------- replanning

  /** In a dictionary comprehension over two lists the later list wins. */
  lemma {:induction false} LaterWins<K>(a: seq<Primitive>, b: seq<Primitive>, key: Primitive -> K, k: K)
    ensures Get(ByKey(a + b, key), k) ==
      if exists y :: y in b && key(y) == k then Get(ByKey(b, key), k) else Get(ByKey(a, key), k)
  {
    if b == [] {
      assert a + b == a;
    } else {
      var init, last := b[..|b|-1], b[|b|-1];
      assert (a + b)[..|a + b| - 1] == a + init;
      LaterWins(a, init, key, k);
      GetPut(ByKey(a + init, key), key(last), last, k);
      GetPut(ByKey(init, key), key(last), last, k);
      assert b == init + [last];
    }
  }

  /** The slot a segment takes in the replanner's dictionaries: who, when and where. */
  predicate SameSlot(s: Segment, t: Segment) {
    if s.kind.Care? then t.kind.Care? && CareKeyOf(PreservedPrimitive(s)) == CareKeyOf(PreservedPrimitive(t))
    else t.kind.Transport? && ScopedTripKey(PreservedPrimitive(s)) == ScopedTripKey(PreservedPrimitive(t))
  }

  /** Segment i is the last preserved one in its slot. */
  ghost predicate LastInSlot(preserved: seq<Segment>, i: nat)
    requires i < |preserved|
  {
    forall j :: i < j < |preserved| ==> !SameSlot(preserved[i], preserved[j])
  }

  /** Every preserved segment that is the last of its slot is offered as it is, also where a feasible
      primitive coincides with it. */
  lemma PreservedWorkIsOffered(sc: Scenario, scope: Scope, i: nat)
    requires i < |scope.preserved| && LastInSlot(scope.preserved, i)
    ensures PreservedPrimitive(scope.preserved[i]) in Offered(sc, Some(scope))
  {
    if scope.preserved[i].kind.Care? {
      KeptCare(CarePrimitives(sc, TransportPrimitives(sc)), scope, i);
    } else {
      KeptTrip(TransportPrimitives(sc), scope, i);
    }
  }

  lemma {:induction false} LastOneIsKept<K>(preserved: seq<Segment>, i: nat, key: Primitive -> K)
    requires i < |preserved|
    requires forall j :: i < j < |preserved| && preserved[j].kind == preserved[i].kind ==>
      key(PreservedPrimitive(preserved[j])) != key(PreservedPrimitive(preserved[i]))
    ensures var p := PreservedPrimitive(preserved[i]);
      Get(ByKey(PreservedOf(preserved, preserved[i].kind), key), key(p)) == Some(p)
  {
    var init, last, kind := preserved[..|preserved|-1], preserved[|preserved|-1], preserved[i].kind;
    var p, q := PreservedPrimitive(preserved[i]), PreservedPrimitive(last);
    if i < |init| {
      LastOneIsKept(init, i, key);
    }
    PreservedSnoc(init, last, kind);
    assert preserved == init + [last];
    hide PreservedOf, PreservedPrimitive, ByKey;
    if last.kind == kind {
      ByKeySnoc(PreservedOf(init, kind), q, key);
      GetPut(ByKey(PreservedOf(init, kind), key), key(q), q, key(p));
    }
  }

  lemma PreservedSnoc(init: seq<Segment>, last: Segment, kind: Kind)
    ensures PreservedOf(init + [last], kind) ==
      if last.kind == kind then PreservedOf(init, kind) + [PreservedPrimitive(last)] else PreservedOf(init, kind)
  {
    assert (init + [last])[..|init|+1] == init + [last] && (init + [last])[..|init|] == init;
    FilterStep(init + [last], |init|, (s: Segment) => s.kind == kind);
  }

  lemma KeptInSlot<K>(items: seq<Primitive>, preserved: seq<Segment>, i: nat, key: Primitive -> K)
    requires i < |preserved|
    requires forall j :: i < j < |preserved| && preserved[j].kind == preserved[i].kind ==>
      key(PreservedPrimitive(preserved[j])) != key(PreservedPrimitive(preserved[i]))
    ensures PreservedPrimitive(preserved[i]) in Values(ByKey(items + PreservedOf(preserved, preserved[i].kind), key))
  {
    var p, mine := PreservedPrimitive(preserved[i]), PreservedOf(preserved, preserved[i].kind);
    LastOneIsKept(preserved, i, key);
    ByKeyLookup(mine, key, key(p));
    LaterWins(items, mine, key, key(p));
    GetMember(ByKey(items + mine, key), key(p));
    ValuesMember(ByKey(items + mine, key), p);
  }

  lemma KeptCare(care: seq<Primitive>, scope: Scope, i: nat)
    requires i < |scope.preserved| && scope.preserved[i].kind.Care? && LastInSlot(scope.preserved, i)
    ensures PreservedPrimitive(scope.preserved[i]) in ScopedCare(care, scope)
  {
    KeptInSlot(ClippedItems(care, scope.affected), scope.preserved, i, CareKeyOf);
    SortPermutes(CareLeq, Values(ByKey(ScopedCareItems(care, scope), CareKeyOf)));
  }

  lemma KeptTrip(trips: seq<Primitive>, scope: Scope, i: nat)
    requires i < |scope.preserved| && scope.preserved[i].kind.Transport? && LastInSlot(scope.preserved, i)
    ensures PreservedPrimitive(scope.preserved[i]) in ScopedTrips(trips, scope)
  {
    KeptInSlot(Filter(trips, (t: Primitive) => FitsOne(t.window, scope.affected)), scope.preserved, i, ScopedTripKey);
    SortPermutes(TransportLeq, Values(ByKey(ScopedTripItems(trips, scope), ScopedTripKey)));
  }

  /** Whoever was offered at an instant of an affected window is offered there again, by a primitive
      that stays inside that window. */
  lemma AffectedCareIsOffered(sc: Scenario, scope: Scope, p: Primitive, a: Window)
    requires p in OfferedCare(sc, None) && a in scope.affected && Overlap(p.window, a)
    ensures var clip := ClippedCare(p, Intersection(p.window, a).value);
      exists q :: q in OfferedCare(sc, Some(scope)) && SameCare(q, clip)
  {
    hide CarePrimitives, TransportPrimitives, ScopedCare;
    ScopedCareMeaning(CarePrimitives(sc, TransportPrimitives(sc)), scope);
  }

  /** Every trip that was offered and lies inside an affected window is offered again, whoever drives. */
  lemma AffectedTripsAreOffered(sc: Scenario, scope: Scope, t: Primitive, a: Window)
    requires t in OfferedTrips(sc, None) && a in scope.affected && Within(t.window, a)
    ensures t.TransportPrimitive?
    ensures exists q :: q in OfferedTrips(sc, Some(scope)) && q.source == t.source
                        && IsTrip(q, t.transporter, t.window, t.location, t.destination)
  {
    var trips := TransportPrimitives(sc);
    TransportJustified(sc, t);
    ScopedTripsMeaning(trips, scope);
    hide TransportPrimitives, ScopedTrips, Justified;
    assert HasTrip(ScopedTrips(trips, scope), t);
    var q :| q in ScopedTrips(trips, scope) && SameTrip(q, t);
    if q in trips {
      TransportJustified(sc, q);
    }
    assert q.TransportPrimitive?;
  }

  // ---------------------------------------------------------------- a day that can be planned

  const LENIENT := Policy(false, true, 0.0, 0, false, false, false, false, false)

  /** One parent, at home and free all day. */
  function QuietDay(): Scenario {
    Scenario(Window(0, 7200), [], ["parent"], [], [], LENIENT, "home", [], 5, [])
  }

  function AllDayCare(): Primitive {
    ParentCareAt(QuietDay(), "parent", Window(0, 7200))
  }

  lemma QuietDayOffers()
    ensures Offered(QuietDay(), None) == [AllDayCare()]
  {
    var sc := QuietDay();
    assert AllTrips(sc) == [] && TransportPrimitives(sc) == [];
    assert Blocked(sc, "parent") == [];
    assert TripsBy([], "parent") == [];
    assert ParentCareWindows(sc, "parent") == [Window(0, 7200)];
    assert Subtract(Window(0, 7200), TripsBy([], "parent")) == [Window(0, 7200)];
    assert [Window(0, 7200)][..0] == [];
    assert ParentCare(sc, [], "parent") == [AllDayCare()];
    assert Sort(TextLeq, sc.parents[1..]) == [];
    assert Parents(sc) == ["parent"];
    assert ["parent"][..0] == [];
    assert FeasibleCaregivers(sc) == [];
    var byParent := FlatMap(Parents(sc), (parent: string) => ParentCare(sc, [], parent));
    assert byParent == FlatMap(["parent"][..0], (parent: string) => ParentCare(sc, [], parent)) + [AllDayCare()];
    assert byParent == [AllDayCare()];
    assert [] + byParent == byParent;
    assert Sort(CareLeq, [AllDayCare()][1..]) == [];
  }

  /** The conditions of the soundness theorem are met together, by a matrix that offers a day. */
  lemma QuietDayIsPlannable() returns (m: Matrix, path: seq<Primitive>)
    ensures MatrixOf(QuietDay(), None) == Ok(m) && path == [AllDayCare()]
    ensures FullDay(m.care + m.transport, QuietDay().required, QuietDay().home, path)
    ensures UniquePeople(QuietDay()) && OneTravelTimePerPlace(QuietDay()) && NoHandoffBuffers(QuietDay())
    ensures forall p :: p in m.care + m.transport ==> ClearOfMovable(QuietDay(), p)
  {
    var sc, p := QuietDay(), AllDayCare();
    QuietDayOffers();
    path := [p];
    m := PrunedMatrix(sc, None);
    assert Arrival(p) == State(7200, "home") && Departure(p) == DayStart(sc.required, sc.home);
    assert FullDay(Offered(sc, None), sc.required, sc.home, path) by {
      ReachesByOne(Offered(sc, None), p);
      assert Connects(Offered(sc, None), path, DayStart(sc.required, sc.home), Arrival(p));
    }
    assert OnFullDay(Offered(sc, None), sc.required, sc.home, p);
  }
}
