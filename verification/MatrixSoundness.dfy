/** The planner's matrix and the plan validator were written apart. Here they are shown to agree:
    a complete day through the matrix is a valid plan exactly when three things the matrix does not
    look at are in order - handoff buffers, movable events and places with two travel times. */
module MatrixSoundness {
  import opened Prelude
  import opened Sorting
  import opened Intervals
  import opened Domain
  import opened ValidationRules
  import opened PlanValidator
  import opened FeasibilityGraph
  import opened AssignmentMatrix
  import opened Materialization

  // ---------------------------------------------------------------- why a primitive was offered

  ghost predicate FreeOf(sc: Scenario, person: string, w: Window) {
    forall e :: e in sc.events && e.owner == person && Protected(e) ==> !Overlap(w, e.window)
  }

  ghost predicate CaregiverCares(sc: Scenario, p: Primitive, c: Caregiver) {
    && p.CarePrimitive? && p.source.ByCaregiver? && p.person == c.id && p.location == c.location
    && c in sc.caregivers && Eligible(sc, c) && FitsOne(p.window, c.availability)
  }

  ghost predicate ParentCares(sc: Scenario, p: Primitive) {
    && p.CarePrimitive? && p.source.ByParent? && p.person in sc.parents && p.location == sc.home
    && FreeOf(sc, p.person, p.window)
  }

  /** A trip between home and a caregiver's place that lasts that caregiver's travel time. */
  ghost predicate TripTo(sc: Scenario, p: Primitive, c: Caregiver) {
    && p.TransportPrimitive? && p.transporter == p.person
    && c in sc.caregivers && Eligible(sc, c) && c.location != sc.home
    && p.window.end - p.window.start == 60 * c.travelMinutes && p.requiredMinutes == c.travelMinutes
    && ((p.location == sc.home && p.destination == c.location)
        || (p.location == c.location && p.destination == sc.home))
  }

  ghost predicate ParentDrives(sc: Scenario, p: Primitive, c: Caregiver) {
    && TripTo(sc, p, c) && p.source.ByParent? && p.person in sc.parents && FreeOf(sc, p.person, p.window)
    && Driver(sc, p.person).Some? && Driver(sc, p.person).value.drives
    && FitsOne(p.window, Driver(sc, p.person).value.availability)
  }

  ghost predicate CaregiverDrives(sc: Scenario, p: Primitive, c: Caregiver) {
    && TripTo(sc, p, c) && p.source.ByCaregiver? && p.person == c.id && p.location == c.location
    && c.drives && (c.external ==> sc.policy.allowProviderTransport)
    && FitsOne(p.window, c.availability)
  }

  ghost predicate Justified(sc: Scenario, p: Primitive) {
    && Within(p.window, sc.required)
    && !p.immutable
    && (ParentCares(sc, p)
        || exists c :: CaregiverCares(sc, p, c) || ParentDrives(sc, p, c) || CaregiverDrives(sc, p, c))
  }

  lemma FeasibleIsEligible(sc: Scenario, c: Caregiver)
    requires c in FeasibleCaregivers(sc)
    ensures c in sc.caregivers && Eligible(sc, c)
  {
    FilterMember(Sort(CaregiverLeq, sc.caregivers),
                 (x: Caregiver) => Eligible(sc, x) && CareWindows(sc, x) != []);
    SortPermutes(CaregiverLeq, sc.caregivers);
  }

  lemma CareWindowFits(sc: Scenario, c: Caregiver, w: Window)
    requires w in CareWindows(sc, c)
    ensures Within(w, sc.required) && FitsOne(w, c.availability)
  {
    FlatMapMember(c.availability, (a: Window) => Clipped(a, sc.required), w);
    var a :| a in c.availability && w in Clipped(a, sc.required);
    assert Within(w, a);
  }

  lemma BlockedMeaning(sc: Scenario, parent: string, w: Window)
    requires forall b :: b in Blocked(sc, parent) ==> !Overlap(w, b)
    ensures FreeOf(sc, parent, w)
  {
    var mine := Filter(sc.events, (e: CalendarEvent) => e.owner == parent && Protected(e));
    FilterMember(sc.events, (e: CalendarEvent) => e.owner == parent && Protected(e));
    forall e | e in sc.events && e.owner == parent && Protected(e) ensures !Overlap(w, e.window) {
      assert e in mine;
      var i :| 0 <= i < |mine| && mine[i] == e;
      assert Blocked(sc, parent)[i] == e.window;
    }
  }

  lemma DrivingWindowFits(sc: Scenario, parent: string, w: Window)
    requires w in DrivingWindows(sc, parent)
    ensures Within(w, sc.required) && FreeOf(sc, parent, w)
    ensures Driver(sc, parent).Some? && Driver(sc, parent).value.drives
    ensures FitsOne(w, Driver(sc, parent).value.availability)
  {
    var t := Driver(sc, parent).value;
    FlatMapMember(t.availability, (raw: Window) => DrivingIn(sc, parent, raw), w);
    var raw :| raw in t.availability && w in DrivingIn(sc, parent, raw);
    var x := Intersection(raw, sc.required).value;
    SubtractMeaning(x, Blocked(sc, parent));
    BlockedMeaning(sc, parent, w);
    assert Within(w, raw);
  }

  lemma FreeInside(sc: Scenario, person: string, inner: Window, outer: Window)
    requires Within(inner, outer) && FreeOf(sc, person, outer)
    ensures FreeOf(sc, person, inner)
  {
  }

  lemma ParentTripJustified(sc: Scenario, c: Caregiver, parent: string, toCare: bool, arrival: int, t: Primitive)
    requires c in sc.caregivers && Eligible(sc, c) && c.location != sc.home && c.travelMinutes > 0
    requires parent in sc.parents
    requires t in ParentTrip(sc, parent, c.travelMinutes, if toCare then sc.home else c.location,
                             if toCare then c.location else sc.home, arrival)
    ensures Justified(sc, t)
  {
    var w :| w in DrivingWindows(sc, parent) && Within(t.window, w);
    DrivingWindowFits(sc, parent, w);
    FreeInside(sc, parent, t.window, w);
    var a :| a in Driver(sc, parent).value.availability && Within(w, a);
    assert Within(t.window, a);
    assert ParentDrives(sc, t, c);
  }

  lemma OwnTripJustified(sc: Scenario, c: Caregiver, w: Window, t: Primitive)
    requires c in sc.caregivers && Eligible(sc, c) && c.location != sc.home && c.travelMinutes > 0
    requires c.drives && (c.external ==> sc.policy.allowProviderTransport)
    requires w in CareWindows(sc, c) && t in OwnTrip(sc, c, w)
    ensures Justified(sc, t)
  {
    CareWindowFits(sc, c, w);
    var a :| a in c.availability && Within(w, a);
    assert Within(t.window, a);
    assert CaregiverDrives(sc, t, c);
  }

  lemma ParentTripsJustified(sc: Scenario, c: Caregiver, t: Primitive)
    requires c in FeasibleCaregivers(sc) && c.location != sc.home && c.travelMinutes > 0
    requires t in FlatMap(Parents(sc), (parent: string) => ParentTrips(sc, c, parent))
    ensures Justified(sc, t)
  {
    FeasibleIsEligible(sc, c);
    FlatMapMember(Parents(sc), (parent: string) => ParentTrips(sc, c, parent), t);
    var parent :| parent in Parents(sc) && t in ParentTrips(sc, c, parent);
    SortPermutes(TextLeq, sc.parents);
    FlatMapMember(CareWindows(sc, c), (w: Window) =>
      ParentTrip(sc, parent, c.travelMinutes, sc.home, c.location, w.start)
      + ParentTrip(sc, parent, c.travelMinutes, c.location, sc.home, w.end), t);
    var w :| w in CareWindows(sc, c) && t in
      ParentTrip(sc, parent, c.travelMinutes, sc.home, c.location, w.start)
      + ParentTrip(sc, parent, c.travelMinutes, c.location, sc.home, w.end);
    if t in ParentTrip(sc, parent, c.travelMinutes, sc.home, c.location, w.start) {
      ParentTripJustified(sc, c, parent, true, w.start, t);
    } else {
      ParentTripJustified(sc, c, parent, false, w.end, t);
    }
  }

  lemma TripsJustified(sc: Scenario, t: Primitive)
    requires t in AllTrips(sc)
    ensures Justified(sc, t)
  {
    FlatMapMember(FeasibleCaregivers(sc), (c: Caregiver) => TripsFor(sc, c), t);
    var c :| c in FeasibleCaregivers(sc) && t in TripsFor(sc, c);
    FeasibleIsEligible(sc, c);
    if t in FlatMap(Parents(sc), (parent: string) => ParentTrips(sc, c, parent)) {
      ParentTripsJustified(sc, c, t);
    } else {
      FlatMapMember(CareWindows(sc, c), (w: Window) => OwnTrip(sc, c, w), t);
      var w :| w in CareWindows(sc, c) && t in OwnTrip(sc, c, w);
      OwnTripJustified(sc, c, w, t);
    }
  }

  lemma ByKeyValues<K>(items: seq<Primitive>, key: Primitive -> K, p: Primitive)
    requires p in Values(ByKey(items, key))
    ensures p in items
  {
    ValuesMember(ByKey(items, key), p);
    var e :| e in ByKey(items, key) && e.1 == p;
    ByKeyLookup(items, key, e.0);
  }

  lemma TransportJustified(sc: Scenario, t: Primitive)
    requires t in TransportPrimitives(sc)
    ensures Justified(sc, t) && t.TransportPrimitive?
  {
    SortPermutes(TransportLeq, Values(ByKey(AllTrips(sc), InitialTripKey)));
    ByKeyValues(AllTrips(sc), InitialTripKey, t);
    TripsJustified(sc, t);
    TripsAreTransport(sc, t);
  }

  lemma ParentTripsAreTransport(sc: Scenario, c: Caregiver, parent: string, t: Primitive)
    requires c.travelMinutes > 0 && t in ParentTrips(sc, c, parent)
    ensures t.TransportPrimitive?
  {
    FlatMapMember(CareWindows(sc, c), (w: Window) =>
      ParentTrip(sc, parent, c.travelMinutes, sc.home, c.location, w.start)
      + ParentTrip(sc, parent, c.travelMinutes, c.location, sc.home, w.end), t);
  }

  lemma OwnTripsAreTransport(sc: Scenario, c: Caregiver, t: Primitive)
    requires c.travelMinutes > 0 && t in FlatMap(CareWindows(sc, c), (w: Window) => OwnTrip(sc, c, w))
    ensures t.TransportPrimitive?
  {
    FlatMapMember(CareWindows(sc, c), (w: Window) => OwnTrip(sc, c, w), t);
  }

  lemma TripsAreTransport(sc: Scenario, t: Primitive)
    requires t in AllTrips(sc)
    ensures t.TransportPrimitive?
  {
    hide FeasibleCaregivers, ParentTrips, OwnTrip, CareWindows, Parents;
    FlatMapMember(FeasibleCaregivers(sc), (c: Caregiver) => TripsFor(sc, c), t);
    var c :| c in FeasibleCaregivers(sc) && t in TripsFor(sc, c);
    if t in FlatMap(Parents(sc), (parent: string) => ParentTrips(sc, c, parent)) {
      FlatMapMember(Parents(sc), (parent: string) => ParentTrips(sc, c, parent), t);
      var parent :| parent in Parents(sc) && t in ParentTrips(sc, c, parent);
      ParentTripsAreTransport(sc, c, parent, t);
    } else {
      OwnTripsAreTransport(sc, c, t);
    }
  }

  lemma {:induction false} CareEndIsEarlier(trips: seq<Primitive>, place: string, home: string, end: int)
    ensures CareEnd(trips, place, home, end) <= end
  {
    if trips != [] {
      CareEndIsEarlier(trips[..|trips|-1], place, home, end);
    }
  }

  lemma CaregiverCareJustified(sc: Scenario, trips: seq<Primitive>, c: Caregiver, p: Primitive)
    requires c in FeasibleCaregivers(sc) && p in CaregiverCare(sc, trips, c)
    ensures Justified(sc, p) && p.CarePrimitive?
  {
    FeasibleIsEligible(sc, c);
    FlatMapMember(CareWindows(sc, c), (w: Window) => CaregiverCareIn(sc, trips, c, w), p);
    var w :| w in CareWindows(sc, c) && p in CaregiverCareIn(sc, trips, c, w);
    CareEndIsEarlier(trips, c.location, sc.home, w.end);
    CareWindowFits(sc, c, w);
    var a :| a in c.availability && Within(w, a);
    assert Within(p.window, a);
    assert CaregiverCares(sc, p, c);
  }

  lemma ParentCareJustified(sc: Scenario, trips: seq<Primitive>, parent: string, p: Primitive)
    requires parent in sc.parents && p in ParentCare(sc, trips, parent)
    ensures Justified(sc, p) && p.CarePrimitive?
  {
    var pieces := (w: Window) =>
      Map(Subtract(w, TripsBy(trips, parent)), (piece: Window) => ParentCareAt(sc, parent, piece));
    FlatMapMember(ParentCareWindows(sc, parent), pieces, p);
    var w :| w in ParentCareWindows(sc, parent) && p in pieces(w);
    var parts := Subtract(w, TripsBy(trips, parent));
    var i :| 0 <= i < |parts| && p == ParentCareAt(sc, parent, parts[i]);
    SubtractMeaning(w, TripsBy(trips, parent));
    SubtractMeaning(sc.required, Blocked(sc, parent));
    hide Subtract, Separated, Covers, TripsBy;
    BlockedMeaning(sc, parent, w);
    assert parts[i] in parts;
    FreeInside(sc, parent, p.window, w);
    assert ParentCares(sc, p);
  }

  lemma CareJustified(sc: Scenario, p: Primitive)
    requires p in CarePrimitives(sc, TransportPrimitives(sc))
    ensures Justified(sc, p) && p.CarePrimitive?
  {
    hide CaregiverCare, ParentCare, TransportPrimitives, FeasibleCaregivers, Justified;
    var trips := TransportPrimitives(sc);
    var byCaregiver := FlatMap(FeasibleCaregivers(sc), (c: Caregiver) => CaregiverCare(sc, trips, c));
    var byParent := FlatMap(Parents(sc), (parent: string) => ParentCare(sc, trips, parent));
    SortPermutes(CareLeq, byCaregiver + byParent);
    if p in byCaregiver {
      FlatMapMember(FeasibleCaregivers(sc), (c: Caregiver) => CaregiverCare(sc, trips, c), p);
      var c :| c in FeasibleCaregivers(sc) && p in CaregiverCare(sc, trips, c);
      CaregiverCareJustified(sc, trips, c, p);
    } else {
      FlatMapMember(Parents(sc), (parent: string) => ParentCare(sc, trips, parent), p);
      var parent :| parent in Parents(sc) && p in ParentCare(sc, trips, parent);
      SortPermutes(TextLeq, sc.parents);
      ParentCareJustified(sc, trips, parent, p);
    }
  }

  lemma OfferedIsJustified(sc: Scenario, p: Primitive)
    requires p in Offered(sc, None)
    ensures Justified(sc, p)
  {
    if p in OfferedCare(sc, None) {
      CareJustified(sc, p);
    } else {
      TransportJustified(sc, p);
    }
  }

  // ---------------------------------------------------------------- what the matrix does not look at

  /** The parent has no movable event then. */
  ghost predicate ClearOfMovable(sc: Scenario, p: Primitive) {
    p.source.ByParent? ==>
      forall e :: e in sc.events && e.owner == p.person && Overlap(p.window, e.window) ==> Protected(e)
  }

  /** The validator's travel time for the trip's places is no longer than the trip. */
  predicate LongEnough(sc: Scenario, p: Primitive) {
    p.TransportPrimitive? ==>
      match TravelMinutes(sc, p.location, p.destination)
      case Some(minutes) => 60 * minutes <= p.window.end - p.window.start
      case None => true
  }

  lemma KnownPlaces(sc: Scenario, c: Caregiver)
    requires UniquePeople(sc) && c in sc.caregivers
    ensures KnownPlace(sc, c.location)
    ensures c.location != sc.home ==> MinutesFromHome(sc, c.location).Some?
  {
    UniqueFind(sc, c);
    var away := Filter(Reachable(sc), (x: Caregiver) => x.location != sc.home);
    FilterMember(Reachable(sc), (x: Caregiver) => x.location != sc.home);
    if c.location != sc.home {
      assert c in away;
      ByKeyLookup(away, (x: Caregiver) => x.location, c.location);
    }
  }

  lemma CaregiverHasNoDriverEntry(sc: Scenario, c: Caregiver)
    requires UniquePeople(sc) && c in sc.caregivers
    ensures Driver(sc, c.id).None?
  {
    ByKeyLookup(sc.transport, (t: ParentTransport) => t.parent, c.id);
  }

  lemma ParentIsNoCaregiver(sc: Scenario, parent: string)
    requires UniquePeople(sc) && parent in sc.parents
    ensures Find(sc, parent).None?
  {
    FindMeaning(sc, parent);
  }

  lemma NoChanges(id: string)
    ensures Get(EventsById([]), id).None?
  {
  }

  lemma CaregiverCarePasses(sc: Scenario, p: Primitive, c: Caregiver)
    requires UniquePeople(sc) && Within(p.window, sc.required) && CaregiverCares(sc, p, c)
    ensures SegmentOk(sc, SegmentOf(p), [])
  {
    UniqueFind(sc, c);
    KnownPlaces(sc, c);
  }

  lemma ParentCarePasses(sc: Scenario, p: Primitive)
    requires UniquePeople(sc) && Within(p.window, sc.required) && ParentCares(sc, p)
    ensures SegmentOk(sc, SegmentOf(p), []) <==> ClearOfMovable(sc, p)
  {
    ParentIsNoCaregiver(sc, p.person);
    forall id ensures Get(EventsById([]), id).None? { NoChanges(id); }
  }

  lemma ParentTripPasses(sc: Scenario, p: Primitive, c: Caregiver)
    requires UniquePeople(sc) && Within(p.window, sc.required) && ParentDrives(sc, p, c)
    ensures SegmentOk(sc, SegmentOf(p), []) <==> ClearOfMovable(sc, p) && LongEnough(sc, p)
  {
    KnownPlaces(sc, c);
    forall id ensures Get(EventsById([]), id).None? { NoChanges(id); }
  }

  lemma CaregiverTripPasses(sc: Scenario, p: Primitive, c: Caregiver)
    requires UniquePeople(sc) && Within(p.window, sc.required) && CaregiverDrives(sc, p, c)
    ensures SegmentOk(sc, SegmentOf(p), []) <==> LongEnough(sc, p)
  {
    UniqueFind(sc, c);
    KnownPlaces(sc, c);
    CaregiverHasNoDriverEntry(sc, c);
  }

  /** One offered primitive passes every single-segment check exactly when no movable event of the
      parent is in the way and no other caregiver's travel time to the same place is longer. */
  lemma JustifiedPasses(sc: Scenario, p: Primitive)
    requires UniquePeople(sc) && Justified(sc, p)
    ensures SegmentOk(sc, SegmentOf(p), []) <==> ClearOfMovable(sc, p) && LongEnough(sc, p)
  {
    hide SegmentOk, ClearOfMovable, LongEnough;
    if ParentCares(sc, p) {
      ParentCarePasses(sc, p);
      assert LongEnough(sc, p) by { CareIsLongEnough(sc, p); }
    } else if c :| CaregiverCares(sc, p, c) {
      CaregiverCarePasses(sc, p, c);
      assert LongEnough(sc, p) by { CareIsLongEnough(sc, p); }
      assert ClearOfMovable(sc, p) by { CaregiverIsClear(sc, p); }
    } else if c :| ParentDrives(sc, p, c) {
      ParentTripPasses(sc, p, c);
    } else {
      var c :| CaregiverDrives(sc, p, c);
      CaregiverTripPasses(sc, p, c);
      assert ClearOfMovable(sc, p) by { CaregiverIsClear(sc, p); }
    }
  }

  lemma CareIsLongEnough(sc: Scenario, p: Primitive)
    requires p.CarePrimitive?
    ensures LongEnough(sc, p)
  {
  }

  lemma CaregiverIsClear(sc: Scenario, p: Primitive)
    requires p.source.ByCaregiver?
    ensures ClearOfMovable(sc, p)
  {
  }

  // ---------------------------------------------------------------- whole days

  /** Back-to-back primitives leave no overlap, so a change of person must not need one. */
  ghost predicate NoBuffersNeeded(sc: Scenario, path: seq<Primitive>) {
    forall i :: 0 <= i < |path| - 1 && path[i].person != path[i+1].person ==>
      RequiredBuffer(sc, SegmentOf(path[i+1])) == 0
  }

  ghost predicate EachPasses(sc: Scenario, path: seq<Primitive>) {
    forall p :: p in path ==> SegmentOk(sc, SegmentOf(p), [])
  }

  lemma PathHandoffs(sc: Scenario, path: seq<Primitive>, origin: State, goal: State)
    requires Chain(path, origin, goal)
    ensures (forall i :: 0 <= i < |path| - 1 ==>
               HandoffOk(sc, SegmentOf(path[i]), SegmentOf(path[i+1]))) <==> NoBuffersNeeded(sc, path)
    ensures forall i :: 0 <= i < |path| - 1 ==>
      EndPlace(SegmentOf(path[i])) == SegmentOf(path[i+1]).location
  {
    ChainSteps(path, origin, goal);
    forall i | 0 <= i < |path| - 1
      ensures HandoffOk(sc, SegmentOf(path[i]), SegmentOf(path[i+1])) <==>
        (path[i].person != path[i+1].person ==> RequiredBuffer(sc, SegmentOf(path[i+1])) == 0)
    {
      assert path[i].window.end == path[i+1].window.start;
    }
  }

  lemma EachPassesInTheDay(sc: Scenario, path: seq<Primitive>)
    ensures EachPasses(sc, path) <==> forall s :: s in Segments(path) ==> SegmentOk(sc, s, [])
  {
    hide SegmentOk;
    var day := Segments(path);
    forall p | p in path ensures SegmentOf(p) in day {
      var i :| 0 <= i < |path| && path[i] == p;
      assert day[i] == SegmentOf(p);
    }
    forall s | s in day ensures exists p :: p in path && SegmentOf(p) == s {
      var i :| 0 <= i < |day| && day[i] == s;
      assert path[i] in path;
    }
  }

  lemma DayHasDistinctIds(path: seq<Primitive>)
    ensures Distinct(Ids(path)) <==> DistinctIds(Segments(path))
  {
    forall i | 0 <= i < |path| ensures Ids(path)[i] == Segments(path)[i].id {
    }
  }

  /** A chain across the required window is a safe day exactly when each of its primitives passes
      on its own and no change of person needs a buffer. */
  lemma PathIsSafe(sc: Scenario, ps: seq<Primitive>, path: seq<Primitive>)
    requires FullDay(ps, sc.required, sc.home, path) && Distinct(Ids(path))
    ensures SafeDay(sc, Segments(path), []) <==> EachPasses(sc, path) && NoBuffersNeeded(sc, path)
  {
    hide SegmentOk, HandoffOk, EndPlace, EachPasses, NoBuffersNeeded, DistinctIds, FullDay;
    FullDayNonempty(ps, sc.required, sc.home, path);
    var goal := Arrival(path[|path|-1]);
    PathHandoffs(sc, path, DayStart(sc.required, sc.home), goal);
    ChainSteps(path, DayStart(sc.required, sc.home), goal);
    EachPassesInTheDay(sc, path);
    DayHasDistinctIds(path);
    var day := Segments(path);
    assert day[0].window.start == sc.required.start && day[|day|-1].window.end == sc.required.end;
  }

  lemma PlanOfPath(sc: Scenario, ps: seq<Primitive>, m: Matrix, path: seq<Primitive>,
                   digest: seq<string> -> string)
    requires Distinct(Ids(m.care + m.transport))
    requires FullDay(ps, sc.required, sc.home, path)
    requires forall p :: p in path ==> p in m.care + m.transport
    requires forall p :: p in m.care + m.transport && p.immutable ==> p in path
    ensures Distinct(Ids(path)) && Ids(path) != []
    ensures Materialized(Ids(path), m, digest).Ok?
    ensures Materialized(Ids(path), m, digest).value.segments == Segments(path)
    ensures Validation(sc, Materialized(Ids(path), m, digest).value).valid
      <==> EachPasses(sc, path) && NoBuffersNeeded(sc, path)
  {
    hide SafeDay, EachPasses, NoBuffersNeeded, Findings, Materialized;
    FullDayNonempty(ps, sc.required, sc.home, path);
    var origin, goal := DayStart(sc.required, sc.home), Arrival(path[|path|-1]);
    PathMaterializes(path, m, origin, goal, digest);
    PathIsOrdered(path, origin, goal);
    var plan := Materialized(Ids(path), m, digest).value;
    SortFixesOrdered(SegmentLeq, plan.segments);
    ValidMeansSafe(sc, plan);
    PathIsSafe(sc, ps, path);
  }

  /** Every complete day through the initial matrix materialises, and the validator accepts the plan
      if and only if no parent's primitive meets a movable event, every trip is as long as the
      validator's travel time, and no change of person needs a handoff buffer. */
  lemma MatrixAgreesWithValidator(sc: Scenario, m: Matrix, path: seq<Primitive>,
                                  digest: seq<string> -> string)
    requires UniquePeople(sc) && MatrixOf(sc, None) == Ok(m)
    requires FullDay(m.care + m.transport, sc.required, sc.home, path)
    ensures Distinct(Ids(path)) && Ids(path) != []
    ensures Materialized(Ids(path), m, digest).Ok?
    ensures Validation(sc, Materialized(Ids(path), m, digest).value).valid <==>
      && (forall p :: p in path ==> ClearOfMovable(sc, p) && LongEnough(sc, p))
      && NoBuffersNeeded(sc, path)
  {
    hide SegmentOk, ClearOfMovable, LongEnough, Justified, OfferedCare, OfferedTrips, NoBuffersNeeded;
    var all := m.care + m.transport;
    FullDayNonempty(all, sc.required, sc.home, path);
    forall p | p in all ensures Justified(sc, p) && !p.immutable {
      MatrixIsExact(sc, None, m, p);
      OfferedIsJustified(sc, p);
      assert !p.immutable by { JustifiedIsMutable(sc, p); }
    }
    PlanOfPath(sc, all, m, path, digest);
    forall p | p in path
      ensures SegmentOk(sc, SegmentOf(p), []) <==> ClearOfMovable(sc, p) && LongEnough(sc, p)
    {
      JustifiedPasses(sc, p);
    }
  }

  lemma JustifiedIsMutable(sc: Scenario, p: Primitive)
    requires Justified(sc, p)
    ensures !p.immutable
  {
  }

  // ---------------------------------------------------------------- facts a family can check first

  /** Travel time is a fact about a place, not about who is looked up there. */
  ghost predicate OneTravelTimePerPlace(sc: Scenario) {
    forall c, d :: c in sc.caregivers && d in sc.caregivers && c.location == d.location != sc.home ==>
      c.travelMinutes == d.travelMinutes
  }

  ghost predicate NoHandoffBuffers(sc: Scenario) {
    sc.policy.handoffMinutes == 0 && forall c :: c in sc.caregivers ==> c.handoffMinutes == 0
  }

  lemma TravelTimeOf(sc: Scenario, c: Caregiver)
    requires UniquePeople(sc) && OneTravelTimePerPlace(sc) && c in sc.caregivers && c.location != sc.home
    ensures MinutesFromHome(sc, c.location) == Some(c.travelMinutes)
  {
    KnownPlaces(sc, c);
    var away := Filter(Reachable(sc), (x: Caregiver) => x.location != sc.home);
    FilterMember(Reachable(sc), (x: Caregiver) => x.location != sc.home);
    ByKeyLookup(away, (x: Caregiver) => x.location, c.location);
    FindMeaning(sc, c.id);
  }

  lemma JustifiedIsLongEnough(sc: Scenario, p: Primitive)
    requires UniquePeople(sc) && OneTravelTimePerPlace(sc) && Justified(sc, p)
    ensures LongEnough(sc, p)
  {
    if p.TransportPrimitive? {
      var c :| ParentDrives(sc, p, c) || CaregiverDrives(sc, p, c);
      TravelTimeOf(sc, c);
    }
  }

  lemma ZeroBuffers(sc: Scenario, s: Segment)
    requires NoHandoffBuffers(sc)
    ensures RequiredBuffer(sc, s) == 0
  {
    FindMeaning(sc, s.person);
  }

  /** With one travel time per place, no handoff buffers and no parent primitive over a movable
      event, every complete day through the matrix is a valid plan. */
  lemma MatrixSoundness(sc: Scenario, m: Matrix, path: seq<Primitive>, digest: seq<string> -> string)
    requires UniquePeople(sc) && OneTravelTimePerPlace(sc) && NoHandoffBuffers(sc)
    requires MatrixOf(sc, None) == Ok(m)
    requires forall p :: p in m.care + m.transport ==> ClearOfMovable(sc, p)
    requires FullDay(m.care + m.transport, sc.required, sc.home, path)
    ensures Distinct(Ids(path)) && Ids(path) != []
    ensures Materialized(Ids(path), m, digest).Ok?
    ensures Validation(sc, Materialized(Ids(path), m, digest).value).valid
  {
    hide ClearOfMovable, LongEnough, Justified, OfferedCare, OfferedTrips;
    MatrixAgreesWithValidator(sc, m, path, digest);
    FullDayNonempty(m.care + m.transport, sc.required, sc.home, path);
    forall p | p in path ensures LongEnough(sc, p) {
      MatrixIsExact(sc, None, m, p);
      OfferedIsJustified(sc, p);
      JustifiedIsLongEnough(sc, p);
    }
    forall s ensures RequiredBuffer(sc, s) == 0 {
      ZeroBuffers(sc, s);
    }
  }
}
