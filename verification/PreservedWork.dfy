/** Replanning around preserved work: no complete day can avoid it, so what the planability gate
    accepts can be selected, and the selection is a repair the validator accepts. */
module PreservedWork {
  import opened Prelude
  import opened Sorting
  import opened Intervals
  import opened Domain
  import opened ValidationRules
  import opened PlanValidator
  import opened FeasibilityGraph
  import opened AssignmentMatrix
  import opened Materialization
  import opened MatrixSoundness
  import opened Cases
  import opened SupervisedDay
  import opened PlanInvalidation
  import opened BackupCare

  // ---------------------------------------------------------------- what a replan offers

  ghost predicate Fresh(sc: Scenario, scope: Scope, p: Primitive) {
    Justified(sc, p) && exists a :: a in scope.affected && Within(p.window, a)
  }

  ghost predicate Kept(scope: Scope, p: Primitive, s: Segment) {
    s in scope.preserved && p == PreservedPrimitive(s)
  }

  lemma JustifiedInside(sc: Scenario, p: Primitive, w: Window)
    requires Justified(sc, p) && p.CarePrimitive? && Within(w, p.window)
    ensures Justified(sc, ClippedCare(p, w))
  {
    var q := ClippedCare(p, w);
    if ParentCares(sc, p) {
      FreeInside(sc, p.person, w, p.window);
      assert ParentCares(sc, q);
    } else {
      var c :| CaregiverCares(sc, p, c);
      var a :| a in c.availability && Within(p.window, a);
      assert Within(w, a);
      assert CaregiverCares(sc, q, c);
    }
  }

  lemma KeptIsPreserved(scope: Scope, kind: Kind, p: Primitive)
    requires p in PreservedOf(scope.preserved, kind)
    ensures exists s :: Kept(scope, p, s)
  {
    var mine := Filter(scope.preserved, (s: Segment) => s.kind == kind);
    FilterMember(scope.preserved, (s: Segment) => s.kind == kind);
    var i :| 0 <= i < |mine| && PreservedPrimitive(mine[i]) == p;
    assert mine[i] in mine;
    assert Kept(scope, p, mine[i]);
  }

  lemma ScopedCareOrigin(sc: Scenario, scope: Scope, p: Primitive)
    requires p in ScopedCareItems(CarePrimitives(sc, TransportPrimitives(sc)), scope)
    ensures Fresh(sc, scope, p) || exists s :: Kept(scope, p, s)
  {
    hide CarePrimitives, TransportPrimitives, Justified;
    var care := CarePrimitives(sc, TransportPrimitives(sc));
    var clip := (q: Primitive) => FlatMap(scope.affected, (a: Window) => ClipTo(q, a));
    if p in PreservedOf(scope.preserved, Care) {
      KeptIsPreserved(scope, Care, p);
    } else {
      FlatMapMember(care, clip, p);
      var q :| q in care && p in clip(q);
      FlatMapMember(scope.affected, (a: Window) => ClipTo(q, a), p);
      var a :| a in scope.affected && p in ClipTo(q, a);
      CareJustified(sc, q);
      var w := Intersection(q.window, a).value;
      IntersectionIsInside(q.window, a);
      JustifiedInside(sc, q, w);
    }
  }

  lemma IntersectionIsInside(a: Window, b: Window)
    requires Overlap(a, b)
    ensures Within(Intersection(a, b).value, a) && Within(Intersection(a, b).value, b)
  {
  }

  lemma ScopedTripOrigin(sc: Scenario, scope: Scope, p: Primitive)
    requires p in ScopedTripItems(TransportPrimitives(sc), scope)
    ensures Fresh(sc, scope, p) || exists s :: Kept(scope, p, s)
  {
    hide TransportPrimitives, Justified;
    var trips := TransportPrimitives(sc);
    if p in PreservedOf(scope.preserved, Transport) {
      KeptIsPreserved(scope, Transport, p);
    } else {
      FilterMember(trips, (t: Primitive) => FitsOne(t.window, scope.affected));
      TransportJustified(sc, p);
    }
  }

  /** Every primitive a replan offers is either feasible work inside an affected window or exactly
      one preserved segment. */
  lemma ScopedOrigin(sc: Scenario, scope: Scope, p: Primitive)
    requires p in Offered(sc, Some(scope))
    ensures Fresh(sc, scope, p) || exists s :: Kept(scope, p, s)
  {
    var care := CarePrimitives(sc, TransportPrimitives(sc));
    if p in OfferedCare(sc, Some(scope)) {
      var items := ScopedCareItems(care, scope);
      SortPermutes(CareLeq, Values(ByKey(items, CareKeyOf)));
      ByKeyValues(items, CareKeyOf, p);
      ScopedCareOrigin(sc, scope, p);
    } else {
      var items := ScopedTripItems(TransportPrimitives(sc), scope);
      SortPermutes(TransportLeq, Values(ByKey(items, ScopedTripKey)));
      ByKeyValues(items, ScopedTripKey, p);
      ScopedTripOrigin(sc, scope, p);
    }
  }

  // ---------------------------------------------------------------- preserved work is unavoidable

  /** Preserved segments lie in the required window, apart from each other and from what is affected. */
  ghost predicate Apart(required: Window, scope: Scope) {
    && (forall s :: s in scope.preserved ==> Within(s.window, required))
    && (forall s, t :: s in scope.preserved && t in scope.preserved && s != t ==> !Overlap(s.window, t.window))
    && (forall s, a :: s in scope.preserved && a in scope.affected ==> !Overlap(s.window, a))
  }

  /** Whatever a replan offers at the first instant of a preserved segment is that segment. */
  lemma OnlyKeptFits(sc: Scenario, scope: Scope, s: Segment, p: Primitive)
    requires Apart(sc.required, scope) && s in scope.preserved
    requires p in Offered(sc, Some(scope)) && Holds(p.window, s.window.start)
    ensures p == PreservedPrimitive(s)
  {
    hide Offered;
    ScopedOrigin(sc, scope, p);
    if t :| Kept(scope, p, t) {
      assert t.window == p.window;
      assert Overlap(s.window, t.window);
    }
  }

  /** Every complete day through the replanning primitives uses every preserved segment. */
  lemma PreservedWorkIsUnavoidable(sc: Scenario, scope: Scope, path: seq<Primitive>, s: Segment)
    requires Apart(sc.required, scope) && s in scope.preserved
    requires FullDay(Offered(sc, Some(scope)), sc.required, sc.home, path)
    ensures PreservedPrimitive(s) in path
  {
    hide Offered;
    var ps := Offered(sc, Some(scope));
    FullDayNonempty(ps, sc.required, sc.home, path);
    var goal := Arrival(path[|path|-1]);
    var k := ChainCovers(path, DayStart(sc.required, sc.home), goal, s.window.start);
    assert path[k] in path;
    OnlyKeptFits(sc, scope, s, path[k]);
  }

  // ---------------------------------------------------------------- a selection exists

  ghost predicate CompleteSelection(sc: Scenario, m: Matrix, path: seq<Primitive>) {
    && FullDay(m.care + m.transport, sc.required, sc.home, path)
    && forall p :: p in m.care + m.transport && p.immutable ==> p in path
  }

  lemma OfferedDayIsInMatrix(sc: Scenario, scope: Scope, m: Matrix, path: seq<Primitive>)
    requires MatrixOf(sc, Some(scope)) == Ok(m)
    requires FullDay(Offered(sc, Some(scope)), sc.required, sc.home, path)
    ensures FullDay(m.care + m.transport, sc.required, sc.home, path)
  {
    hide Offered, MatrixOf;
    var ps := Offered(sc, Some(scope));
    var goal: State :| goal.moment == sc.required.end && Connects(ps, path, DayStart(sc.required, sc.home), goal);
    forall p | p in path ensures p in m.care + m.transport {
      assert OnFullDay(ps, sc.required, sc.home, p);
      MatrixIsExact(sc, Some(scope), m, p);
    }
    assert Connects(m.care + m.transport, path, DayStart(sc.required, sc.home), goal);
  }

  lemma MatrixDayIsOffered(sc: Scenario, scope: Scope, m: Matrix, path: seq<Primitive>)
    requires MatrixOf(sc, Some(scope)) == Ok(m)
    requires FullDay(m.care + m.transport, sc.required, sc.home, path)
    ensures FullDay(Offered(sc, Some(scope)), sc.required, sc.home, path)
  {
    hide Offered, MatrixOf;
    var all := m.care + m.transport;
    var goal: State :| goal.moment == sc.required.end && Connects(all, path, DayStart(sc.required, sc.home), goal);
    forall p | p in path ensures p in Offered(sc, Some(scope)) {
      MatrixIsExact(sc, Some(scope), m, p);
    }
    assert Connects(Offered(sc, Some(scope)), path, DayStart(sc.required, sc.home), goal);
  }

  lemma ImmutableIsOnThePath(sc: Scenario, scope: Scope, m: Matrix, path: seq<Primitive>, p: Primitive)
    requires Apart(sc.required, scope) && MatrixOf(sc, Some(scope)) == Ok(m)
    requires FullDay(Offered(sc, Some(scope)), sc.required, sc.home, path)
    requires p in m.care + m.transport && p.immutable
    ensures p in path
  {
    hide Offered, MatrixOf;
    MatrixIsExact(sc, Some(scope), m, p);
    ScopedOrigin(sc, scope, p);
    if Fresh(sc, scope, p) {
      JustifiedIsMutable(sc, p);
    }
    var s :| Kept(scope, p, s);
    PreservedWorkIsUnavoidable(sc, scope, path, s);
  }

  /** Every complete day through a replanning matrix selects all immutable primitives. */
  lemma EveryDayIsCompleteSelection(sc: Scenario, scope: Scope, m: Matrix, path: seq<Primitive>)
    requires Apart(sc.required, scope) && MatrixOf(sc, Some(scope)) == Ok(m)
    requires FullDay(m.care + m.transport, sc.required, sc.home, path)
    ensures CompleteSelection(sc, m, path)
  {
    hide Offered, MatrixOf;
    MatrixDayIsOffered(sc, scope, m, path);
    forall p | p in m.care + m.transport && p.immutable ensures p in path {
      ImmutableIsOnThePath(sc, scope, m, path, p);
    }
  }

  /** What the gate accepts can be selected: one complete day holds the candidate's care together
      with every immutable primitive. */
  lemma GateFindsSelection(sc: Scenario, scope: Scope, m: Matrix, candidateId: string)
    returns (path: seq<Primitive>)
    requires Apart(sc.required, scope) && MatrixOf(sc, Some(scope)) == Ok(m)
    requires GateAccepts(m, candidateId, scope.preserved)
    ensures CompleteSelection(sc, m, path)
    ensures exists p :: p in path && p in m.care && p.person == candidateId
  {
    hide Offered, MatrixOf;
    var p :| p in m.care && p.person == candidateId;
    MatrixIsExact(sc, Some(scope), m, p);
    path :| FullDay(Offered(sc, Some(scope)), sc.required, sc.home, path) && p in path;
    OfferedDayIsInMatrix(sc, scope, m, path);
    EveryDayIsCompleteSelection(sc, scope, m, path);
  }

  /** In terms of the matrix: something is left, the preserved ids are among the immutable ones, and the
      candidate looks after the child in something of it. */
  lemma GateChecksTheMatrix(m: Matrix, candidateId: string, preserved: seq<Segment>)
    ensures GateAccepts(m, candidateId, preserved) <==>
      && |m.care| + |m.transport| > 0
      && (set s | s in preserved :: s.id) <= Immutable(m)
      && candidateId in (set p | p in m.care :: p.person)
  {
    if (set s | s in preserved :: s.id) <= Immutable(m) {
      forall s | s in preserved ensures exists p :: p in m.care + m.transport && p.immutable && p.id == s.id {
        assert s.id in Immutable(m);
      }
    }
  }

  /** The gate accepts a candidate exactly when one complete day holds care by the candidate together with
      every immutable primitive. */
  lemma GateIsExact(sc: Scenario, scope: Scope, m: Matrix, candidateId: string)
    requires Apart(sc.required, scope) && MatrixOf(sc, Some(scope)) == Ok(m)
    ensures GateAccepts(m, candidateId, scope.preserved) <==>
      exists path :: CompleteSelection(sc, m, path) && LooksAfter(path, candidateId)
  {
    hide Offered, MatrixOf;
    if GateAccepts(m, candidateId, scope.preserved) {
      var path := GateFindsSelection(sc, scope, m, candidateId);
      MatrixCareIsCare(sc, scope, m);
      assert LooksAfter(path, candidateId);
    }
    if path :| CompleteSelection(sc, m, path) && LooksAfter(path, candidateId) {
      MatrixDayIsOffered(sc, scope, m, path);
      FullDayNonempty(m.care + m.transport, sc.required, sc.home, path);
      forall s | s in scope.preserved
        ensures exists p :: p in m.care + m.transport && p.immutable && p.id == s.id
      {
        PreservedWorkIsUnavoidable(sc, scope, path, s);
        assert PreservedPrimitive(s).immutable && PreservedPrimitive(s).id == s.id;
      }
      var p: Primitive :| p in path && p.CarePrimitive? && p.person == candidateId;
      CareIsInCare(sc, scope, m, p);
    }
  }

  ghost predicate LooksAfter(path: seq<Primitive>, person: string) {
    exists p :: p in path && p.CarePrimitive? && p.person == person
  }

  lemma MatrixCareIsCare(sc: Scenario, scope: Scope, m: Matrix)
    requires MatrixOf(sc, Some(scope)) == Ok(m)
    ensures forall p :: p in m.care ==> p.CarePrimitive?
  {
    hide MatrixOf, CarePrimitives, TransportPrimitives, ScopedCare;
    forall p | p in m.care ensures p.CarePrimitive? {
      MatrixIsExact(sc, Some(scope), m, p);
      ScopedCareMeaning(CarePrimitives(sc, TransportPrimitives(sc)), scope);
    }
  }

  lemma CareIsInCare(sc: Scenario, scope: Scope, m: Matrix, p: Primitive)
    requires MatrixOf(sc, Some(scope)) == Ok(m) && p in m.care + m.transport && p.CarePrimitive?
    ensures p in m.care
  {
    hide MatrixOf, CarePrimitives, TransportPrimitives, ScopedCare, ScopedTrips, Justified;
    MatrixIsExact(sc, Some(scope), m, p);
    ScopedTripsMeaning(TransportPrimitives(sc), scope);
    if p in TransportPrimitives(sc) {
      TransportJustified(sc, p);
    }
  }

  // ---------------------------------------------------------------- the selection as a repair

  /** A primitive cannot carry trip fields that a care segment happens to have. */
  predicate NoStrayTripFields(preserved: seq<Segment>) {
    forall s :: s in preserved && s.kind.Care? ==> s.destination.None? && s.transporter.None?
  }

  lemma KeptSegmentSurvives(s: Segment)
    ensures Survives(s, SegmentOf(PreservedPrimitive(s))) <==>
      (s.kind.Care? ==> s.destination.None? && s.transporter.None?)
  {
  }

  /** A kept trip is required to last the whole minutes it lasts. */
  lemma KeptTripMinutes(s: Segment)
    requires s.kind.Transport?
    ensures var p, seconds := PreservedPrimitive(s), s.window.end - s.window.start;
      p.TransportPrimitive? && 60 * p.requiredMinutes <= seconds < 60 * p.requiredMinutes + 60
  {
  }

  lemma SurvivorIsTheKeptOne(sc: Scenario, scope: Scope, m: Matrix, path: seq<Primitive>, s: Segment, t: Segment)
    requires Apart(sc.required, scope) && MatrixOf(sc, Some(scope)) == Ok(m)
    requires FullDay(m.care + m.transport, sc.required, sc.home, path)
    requires s in scope.preserved && t in Segments(path) && Survives(s, t)
    ensures t == SegmentOf(PreservedPrimitive(s))
  {
    hide Offered, MatrixOf;
    var i :| 0 <= i < |path| && Segments(path)[i] == t;
    MatrixDayIsOffered(sc, scope, m, path);
    FullDayNonempty(Offered(sc, Some(scope)), sc.required, sc.home, path);
    assert path[i] in path && Holds(path[i].window, s.window.start);
    OnlyKeptFits(sc, scope, s, path[i]);
  }

  lemma PreservationHolds(sc: Scenario, scope: Scope, m: Matrix, path: seq<Primitive>)
    requires Apart(sc.required, scope) && MatrixOf(sc, Some(scope)) == Ok(m)
    requires FullDay(m.care + m.transport, sc.required, sc.home, path)
    ensures (forall s :: s in scope.preserved ==> exists t :: t in Segments(path) && Survives(s, t))
      <==> NoStrayTripFields(scope.preserved)
  {
    hide Offered, MatrixOf, Survives;
    MatrixDayIsOffered(sc, scope, m, path);
    forall s | s in scope.preserved
      ensures (exists t :: t in Segments(path) && Survives(s, t)) <==>
        (s.kind.Care? ==> s.destination.None? && s.transporter.None?)
    {
      KeptSegmentSurvives(s);
      PreservedWorkIsUnavoidable(sc, scope, path, s);
      var i :| 0 <= i < |path| && path[i] == PreservedPrimitive(s);
      assert Segments(path)[i] == SegmentOf(PreservedPrimitive(s));
      if t :| t in Segments(path) && Survives(s, t) {
        SurvivorIsTheKeptOne(sc, scope, m, path, s, t);
      }
    }
  }

  /** Any complete day through a replanning matrix materialises, and passes the repair validation
      exactly when its segments pass one by one, no change of person needs a buffer, and no preserved
      care segment carries trip fields. */
  lemma ReplanAgreesWithValidator(sc: Scenario, scope: Scope, m: Matrix, path: seq<Primitive>,
                                  digest: seq<string> -> string)
    requires Apart(sc.required, scope) && MatrixOf(sc, Some(scope)) == Ok(m)
    requires FullDay(m.care + m.transport, sc.required, sc.home, path)
    ensures Distinct(Ids(path)) && Ids(path) != []
    ensures Materialized(Ids(path), m, digest).Ok?
    ensures RepairValidation(sc, Materialized(Ids(path), m, digest).value, scope.preserved).valid <==>
      EachPasses(sc, path) && NoBuffersNeeded(sc, path) && NoStrayTripFields(scope.preserved)
  {
    hide Offered, Materialized, EachPasses, NoBuffersNeeded, NoStrayTripFields, Validation, SafeDay, Survives;
    EveryDayIsCompleteSelection(sc, scope, m, path);
    PlanOfPath(sc, m.care + m.transport, m, path, digest);
    PreservationHolds(sc, scope, m, path);
    var plan := Materialized(Ids(path), m, digest).value;
    ValidMeansSafe(sc, plan);
    ValidRepairMeansSafe(sc, plan, scope.preserved);
  }

  // ---------------------------------------------------------------- when preserved work still passes

  /** A preserved trip that needs the declined caregiver keeps clear of the declined window. */
  predicate FreeOfDecliner(s: Segment, d: Decline) {
    var needed := s.transporter == Some(d.caregiver) || (s.source.ByCaregiver? && s.person == d.caregiver);
    s.kind.Transport? && needed ==> !Overlap(s.window, d.window)
  }

  /** The scenario afterwards: the same facts, the declined availability carved, people added. */
  ghost predicate Evolves(before: Scenario, d: Decline, after: Scenario) {
    && after == before.(caregivers := after.caregivers)
    && forall id :: Find(before, id).Some? ==>
         Find(after, id) == Some(DeclinedBy(Find(before, id).value, d))
  }

  lemma EvolvesByDecline(sc: Scenario, d: Decline)
    ensures Evolves(sc, d, AfterDecline(sc, d))
  {
    forall id | Find(sc, id).Some? ensures Find(AfterDecline(sc, d), id) == Some(DeclinedBy(Find(sc, id).value, d)) {
      FindDeclined(sc, d, id);
    }
  }

  lemma EvolvesByAdding(sc: Scenario, d: Decline, c: Caregiver)
    requires UniquePeople(WithCaregiver(AfterDecline(sc, d), c)) && !Knows(sc, c.id)
    ensures Evolves(sc, d, WithCaregiver(AfterDecline(sc, d), c))
  {
    var declined, after := AfterDecline(sc, d), WithCaregiver(AfterDecline(sc, d), c);
    forall id | Find(sc, id).Some? ensures Find(after, id) == Some(DeclinedBy(Find(sc, id).value, d)) {
      FindMeaning(sc, id);
      FindDeclined(sc, d, id);
      assert after.caregivers[..|after.caregivers|-1] == declined.caregivers;
      GetPut(CaregiversById(declined), c.id, c, id);
    }
  }

  lemma PlaceStaysKnown(before: Scenario, d: Decline, after: Scenario, place: string)
    requires Evolves(before, d, after) && KnownPlace(before, place)
    ensures KnownPlace(after, place)
  {
    if place != before.home {
      var c :| c in Reachable(before) && c.location == place;
      FindMeaning(before, c.id);
      FindMeaning(after, c.id);
    }
  }

  lemma TravelStaysTheSame(before: Scenario, d: Decline, after: Scenario, place: string)
    requires Evolves(before, d, after) && UniquePeople(after) && OneTravelTimePerPlace(after)
    requires MinutesFromHome(before, place).Some?
    ensures MinutesFromHome(after, place) == MinutesFromHome(before, place)
  {
    var away := Filter(Reachable(before), (x: Caregiver) => x.location != before.home);
    FilterMember(Reachable(before), (x: Caregiver) => x.location != before.home);
    ByKeyLookup(away, (x: Caregiver) => x.location, place);
    var c := Get(TravelFromHome(before), place).value;
    FindMeaning(before, c.id);
    FindMeaning(after, c.id);
    TravelTimeOf(after, DeclinedBy(c, d));
  }

  lemma KnownPlaceHasTravelTime(sc: Scenario, place: string)
    requires KnownPlace(sc, place) && place != sc.home
    ensures MinutesFromHome(sc, place).Some?
  {
    FilterMember(Reachable(sc), (x: Caregiver) => x.location != sc.home);
    ByKeyLookup(Filter(Reachable(sc), (x: Caregiver) => x.location != sc.home), (x: Caregiver) => x.location, place);
  }

  /** A window that fitted still fits unless it is the decliner's and meets the declined window. */
  lemma FitsAfterDecline(before: Scenario, d: Decline, after: Scenario, id: string, w: Window)
    requires Evolves(before, d, after) && Find(before, id).Some?
    requires FitsOne(w, Find(before, id).value.availability)
    ensures Find(after, id).Some?
    ensures FitsOne(w, Find(after, id).value.availability) <==> (id == d.caregiver ==> !Overlap(w, d.window))
  {
    FindMeaning(before, id);
    if id == d.caregiver {
      var availability := Find(before, id).value.availability;
      if Overlap(w, d.window) {
        if FitsOne(w, CarveAll(availability, d.window)) {
          CarveOnlyShrinks(w, availability, d.window);
        }
      } else {
        CarveKeeps(w, availability, d.window);
      }
    }
  }

  lemma DriverAfterDecline(before: Scenario, d: Decline, after: Scenario, driver: string, trip: Window)
    requires Evolves(before, d, after) && UniquePeople(after) && Find(before, d.caregiver).Some?
    requires DriverOk(before, driver, trip)
    ensures DriverOk(after, driver, trip) <==> (driver == d.caregiver ==> !Overlap(trip, d.window))
  {
    FindMeaning(after, driver);
    if Driver(before, driver).Some? {
      ByKeyLookup(after.transport, (t: ParentTransport) => t.parent, driver);
      assert Find(after, driver).None? && Find(before, driver).None?;
    } else {
      FitsAfterDecline(before, d, after, driver, trip);
    }
  }

  lemma AssignmentAfterDecline(before: Scenario, d: Decline, after: Scenario, s: Segment)
    requires Evolves(before, d, after) && AssignmentOk(before, s)
    ensures AssignmentOk(after, s) <==>
      (s.source.ByCaregiver? && s.person == d.caregiver ==> !Overlap(s.window, d.window))
  {
    if s.source.ByCaregiver? {
      FitsAfterDecline(before, d, after, s.person, s.window);
      FindMeaning(before, s.person);
    }
  }

  lemma TravelTimeStaysKnown(before: Scenario, d: Decline, after: Scenario, s: Segment)
    requires Evolves(before, d, after) && PlaceOk(before, s) && s.kind.Transport?
    ensures TravelMinutes(after, s.location, s.destination.value).Some?
  {
    PlaceStaysKnown(before, d, after, s.location);
    PlaceStaysKnown(before, d, after, s.destination.value);
    hide KnownPlace, MinutesFromHome, DriverOk, Evolves;
    var away := if s.location == before.home then s.destination.value else s.location;
    KnownPlaceHasTravelTime(after, away);
  }

  lemma TripAfterDecline(before: Scenario, d: Decline, after: Scenario, s: Segment)
    requires Evolves(before, d, after) && UniquePeople(after) && Find(before, d.caregiver).Some?
    requires PlaceOk(before, s) && s.kind.Transport?
    ensures PlaceOk(after, s) <==>
      LongEnough(after, PreservedPrimitive(s)) && (s.transporter == Some(d.caregiver) ==> !Overlap(s.window, d.window))
  {
    PlaceStaysKnown(before, d, after, s.location);
    PlaceStaysKnown(before, d, after, s.destination.value);
    TravelTimeStaysKnown(before, d, after, s);
    DriverAfterDecline(before, d, after, s.transporter.value, s.window);
    hide KnownPlace, TravelMinutes, DriverOk, Evolves;
  }

  lemma CareAfterDecline(before: Scenario, d: Decline, after: Scenario, s: Segment)
    requires Evolves(before, d, after) && UniquePeople(after)
    requires AssignmentOk(before, s) && PlaceOk(before, s) && s.kind.Care?
    ensures PlaceOk(after, s)
  {
    PlaceStaysKnown(before, d, after, s.location);
    if s.source.ByParent? {
      ParentIsNoCaregiver(after, s.person);
    }
  }

  /** The preserved segment as the replan carries it: no stray trip fields, no price. */
  function AsKept(s: Segment): Segment {
    SegmentOf(PreservedPrimitive(s))
  }

  lemma AsKeptKeepsFindings(sc: Scenario, s: Segment, changes: seq<CalendarEvent>)
    ensures SegmentOk(sc, AsKept(s), changes) <==> SegmentOk(sc, s, changes)
  {
  }

  lemma CalendarWithoutChanges(before: Scenario, after: Scenario, s: Segment, changes: seq<CalendarEvent>)
    requires after.events == before.events && CalendarOk(before, s, changes)
    ensures CalendarOk(after, s, []) <==> ClearOfMovable(after, PreservedPrimitive(s))
  {
    forall id ensures Get(EventsById([]), id).None? {
      NoChanges(id);
    }
  }

  /** After a decline, preserved work passes every single-segment check exactly when it does not need the
      decliner's driving in the declined window, meets no movable event of its parent, and is no shorter
      than the travel time now known for its places. */
  lemma KeptWorkPassesExactly(before: Scenario, d: Decline, after: Scenario, s: Segment, changes: seq<CalendarEvent>)
    requires Evolves(before, d, after) && UniquePeople(after) && Find(before, d.caregiver).Some?
    requires SegmentOk(before, s, changes) && !DirectlyHit(s, d)
    ensures SegmentOk(after, AsKept(s), []) <==>
      FreeOfDecliner(s, d) && ClearOfMovable(after, PreservedPrimitive(s)) && LongEnough(after, PreservedPrimitive(s))
  {
    AsKeptKeepsFindings(after, s, []);
    AssignmentAfterDecline(before, d, after, s);
    CalendarWithoutChanges(before, after, s, changes);
    if s.kind.Care? {
      CareAfterDecline(before, d, after, s);
      CareIsLongEnough(after, PreservedPrimitive(s));
    } else {
      TripAfterDecline(before, d, after, s);
    }
    hide PlaceOk, AssignmentOk, CalendarOk, ClearOfMovable, LongEnough, UniquePeople;
    assert after.required == before.required;
  }

  lemma KeptTripIsLongEnough(before: Scenario, d: Decline, after: Scenario, s: Segment)
    requires Evolves(before, d, after) && UniquePeople(after) && OneTravelTimePerPlace(after)
    requires PlaceOk(before, s)
    ensures LongEnough(after, PreservedPrimitive(s))
  {
    if s.kind.Transport? {
      if s.location == before.home {
        TravelStaysTheSame(before, d, after, s.destination.value);
      } else {
        TravelStaysTheSame(before, d, after, s.location);
      }
    }
  }

  /** With one travel time per place, what remains is the decliner's driving and movable events. */
  lemma PreservedPasses(before: Scenario, d: Decline, after: Scenario, s: Segment, changes: seq<CalendarEvent>)
    requires Evolves(before, d, after) && UniquePeople(after) && OneTravelTimePerPlace(after)
    requires Find(before, d.caregiver).Some?
    requires SegmentOk(before, s, changes) && !DirectlyHit(s, d)
    ensures SegmentOk(after, AsKept(s), []) <==> FreeOfDecliner(s, d) && ClearOfMovable(after, PreservedPrimitive(s))
  {
    KeptWorkPassesExactly(before, d, after, s, changes);
    KeptTripIsLongEnough(before, d, after, s);
  }

  lemma DeclinerIsFound(c: Case, sc: Scenario, d: Decline, o: Outcome)
    requires DeclineOutcome(c, sc, d) == Ok(o)
    ensures Find(sc, d.caregiver).Some? && o.scenario == AfterDecline(sc, d)
  {
    var reasons, place := OutcomeParts(c, sc, d, o);
    hide DeclineOutcome;
    FirstWithIdMeaning(sc.caregivers, d.caregiver);
    FindMeaning(sc, d.caregiver);
  }

  lemma PreservedIsNotHit(c: Case, sc: Scenario, d: Decline, o: Outcome, s: Segment)
    requires DeclineOutcome(c, sc, d) == Ok(o) && s in o.preserved
    ensures s in c.plan.value.segments && !DirectlyHit(s, d)
  {
    var reasons, place := OutcomeParts(c, sc, d, o);
    var segments := o.original.segments;
    FilterMember(segments, (x: Segment) => x.id !in reasons.Keys);
    DirectIsKept(InOrder(segments), 0, place, DirectIds(segments, d), DirectReasons(segments, d));
  }

  lemma RepairPrimitivePasses(c: Case, sc: Scenario, d: Decline, o: Outcome, after: Scenario, p: Primitive)
    requires c.plan.Some? && Validation(sc, c.plan.value).valid && DeclineOutcome(c, sc, d) == Ok(o)
    requires Evolves(sc, d, after) && UniquePeople(after) && OneTravelTimePerPlace(after)
    requires forall s :: s in o.preserved ==> FreeOfDecliner(s, d)
    requires p in Offered(after, Some(Scope(o.uncovered, o.preserved))) && ClearOfMovable(after, p)
    ensures SegmentOk(after, SegmentOf(p), [])
  {
    hide Offered, DeclineOutcome, Validation, SegmentOk, Evolves, ClearOfMovable;
    var scope := Scope(o.uncovered, o.preserved);
    ScopedOrigin(after, scope, p);
    if Fresh(after, scope, p) {
      JustifiedIsLongEnough(after, p);
      JustifiedPasses(after, p);
    } else {
      var s :| Kept(scope, p, s);
      PreservedIsNotHit(c, sc, d, o, s);
      ValidMeansSafe(sc, c.plan.value);
      InOrderOrders(c.plan.value.segments);
      DeclinerIsFound(c, sc, d, o);
      PreservedPasses(sc, d, after, s, c.plan.value.changes);
    }
  }

  lemma ApartFromMerged(s: Segment, others: seq<Segment>, a: Window)
    requires forall x :: x in others ==> !Overlap(s.window, x.window)
    requires a in Merge(WindowsOf(others))
    ensures !Overlap(s.window, a)
  {
    MergeMeaning(WindowsOf(others));
    hide Merge;
    var t := if s.window.start >= a.start then s.window.start else a.start;
    if Overlap(s.window, a) {
      assert Holds(a, t) && Covers(Merge(WindowsOf(others)), t);
      CoversWindowsOf(others, t);
    }
  }

  lemma InsideTheDay(sc: Scenario, plan: Plan, s: Segment)
    requires Validation(sc, plan).valid && s in plan.segments
    ensures Within(s.window, sc.required)
  {
    ValidMeansSafe(sc, plan);
    InOrderOrders(plan.segments);
    hide Validation;
    assert SegmentOk(sc, s, plan.changes);
  }

  /** A valid plan none of whose segments overlap leaves its preserved work apart from what a decline
      opens up again, whatever is declined. */
  lemma WorkStaysApart(c: Case, sc: Scenario, d: Decline, o: Outcome)
    requires c.plan.Some? && Validation(sc, c.plan.value).valid && DeclineOutcome(c, sc, d) == Ok(o)
    requires NoOverlaps(c.plan.value.segments)
    ensures Apart(o.scenario.required, Scope(o.uncovered, o.preserved))
  {
    OutcomeRest(c, sc, d, o);
    hide DeclineOutcome, Validation, Merge;
    forall s | s in o.preserved ensures Within(s.window, sc.required) {
      InsideTheDay(sc, c.plan.value, s);
    }
    forall s, a | s in o.preserved && a in o.uncovered ensures !Overlap(s.window, a) {
      ApartFromMerged(s, o.impacted, a);
    }
  }

  lemma OutcomeRest(c: Case, sc: Scenario, d: Decline, o: Outcome)
    requires DeclineOutcome(c, sc, d) == Ok(o)
    ensures o.scenario.required == sc.required && o.uncovered == Merge(WindowsOf(o.impacted))
    ensures forall s :: s in o.preserved ==> s in c.plan.value.segments
    ensures forall s, x :: s in o.preserved && x in o.impacted ==> x in c.plan.value.segments && s != x
  {
    var reasons, place := OutcomeParts(c, sc, d, o);
    ImpactedOrPreserved(c, sc, d, o);
    ImpactPartitionsPlan(c, sc, d, o);
    hide DeclineOutcome, Merge, Reasons, Impacted, Preserved;
  }

  /** A candidate the gate accepts after a decline has one selection holding its care and all
      preserved work, and the plan it materialises into passes the repair validation - provided the
      preserved and affected windows do not overlap, no preserved trip needs the declined caregiver
      in the declined window, no preserved care carries trip fields, and the facts the matrix does
      not look at are in order. */
  lemma AcceptedCandidateRepairsThePlan(c: Case, sc: Scenario, d: Decline, o: Outcome, candidate: Caregiver,
                                        m: Matrix, digest: seq<string> -> string)
    returns (path: seq<Primitive>)
    requires c.plan.Some? && Validation(sc, c.plan.value).valid && DeclineOutcome(c, sc, d) == Ok(o)
    requires !Knows(sc, candidate.id) && UniquePeople(WithCaregiver(o.scenario, candidate))
    requires OneTravelTimePerPlace(WithCaregiver(o.scenario, candidate))
    requires NoHandoffBuffers(WithCaregiver(o.scenario, candidate))
    requires Apart(o.scenario.required, Scope(o.uncovered, o.preserved))
    requires MatrixOf(WithCaregiver(o.scenario, candidate), Some(Scope(o.uncovered, o.preserved))) == Ok(m)
    requires GateAccepts(m, candidate.id, o.preserved)
    requires forall p :: p in m.care + m.transport ==> ClearOfMovable(WithCaregiver(o.scenario, candidate), p)
    requires forall s :: s in o.preserved ==> FreeOfDecliner(s, d)
    requires NoStrayTripFields(o.preserved)
    ensures CompleteSelection(WithCaregiver(o.scenario, candidate), m, path)
    ensures exists p :: p in path && p in m.care && p.person == candidate.id
    ensures Distinct(Ids(path)) && Ids(path) != [] && Materialized(Ids(path), m, digest).Ok?
    ensures RepairValidation(WithCaregiver(o.scenario, candidate),
                             Materialized(Ids(path), m, digest).value, o.preserved).valid
  {
    var after, scope := WithCaregiver(o.scenario, candidate), Scope(o.uncovered, o.preserved);
    var reasons, place := OutcomeParts(c, sc, d, o);
    EvolvesByAdding(sc, d, candidate);
    hide Offered, MatrixOf, Materialized, DeclineOutcome, Validation, SegmentOk, Evolves, ClearOfMovable,
         RepairValidation, GateAccepts, Apart, UniquePeople, OneTravelTimePerPlace, NoHandoffBuffers;
    path := GateFindsSelection(after, scope, m, candidate.id);
    ReplanAgreesWithValidator(after, scope, m, path, digest);
    FullDayNonempty(m.care + m.transport, after.required, after.home, path);
    forall p | p in path ensures SegmentOk(after, SegmentOf(p), []) {
      MatrixIsExact(after, Some(scope), m, p);
      RepairPrimitivePasses(c, sc, d, o, after, p);
    }
    forall s ensures RequiredBuffer(after, s) == 0 {
      ZeroBuffers(after, s);
    }
  }
}
