/** Normalising scenario facts into the care and transport primitives a plan may be built from,
    restricting them to the repair scope of a replan, and pruning them to complete days. */
module AssignmentMatrix {
  import opened Prelude
  import opened Sorting
  import opened Intervals
  import opened Domain
  import opened ValidationRules
  import opened FeasibilityGraph

  datatype Matrix = Matrix(
    required: Window, home: string, care: seq<Primitive>, transport: seq<Primitive>, gap: seq<Window>)

  datatype MatrixError = DuplicatePrimitiveIds

  /** What a replan may touch and what it must keep. */
  datatype Scope = Scope(affected: seq<Window>, preserved: seq<Segment>)

  // ---------------------------------------------------------------- ids and orders

  function Digits(n: nat): string {
    (if n < 10 then "" else Digits(n / 10)) + [(n % 10) as char + '0']
  }

  function Stamp(t: int): string {
    if t < 0 then "-" + Digits(-t) else Digits(t)
  }

  function CareId(person: string, start: int): string {
    "care:" + person + ":" + Stamp(start)
  }

  function TransportId(person: string, start: int, origin: string, destination: string): string {
    "transport:" + person + ":" + Stamp(start) + ":" + origin + ":" + destination
  }

  lemma {:induction false} DigitsAreDigits(n: nat)
    ensures |Digits(n)| > 0 && '0' <= Digits(n)[0] <= '9'
  {
    if n >= 10 {
      DigitsAreDigits(n / 10);
    }
  }

  lemma {:induction false} DigitsTellApart(a: nat, b: nat)
    ensures Digits(a) == Digits(b) ==> a == b
  {
    var left, right := if a < 10 then "" else Digits(a / 10), if b < 10 then "" else Digits(b / 10);
    DigitsAreDigits(a / 10);
    DigitsAreDigits(b / 10);
    if a >= 10 && b >= 10 {
      DigitsTellApart(a / 10, b / 10);
    }
    SameLastDigit(left, right, a % 10, b % 10);
    hide Digits;
  }

  lemma SameLastDigit(x: string, y: string, i: nat, j: nat)
    requires i < 10 && j < 10
    ensures x + [i as char + '0'] == y + [j as char + '0'] ==> x == y && i == j
  {
    var s, t := x + [i as char + '0'], y + [j as char + '0'];
    assert s[..|s|-1] == x && t[..|t|-1] == y && s[|s|-1] == i as char + '0' && t[|t|-1] == j as char + '0';
  }

  /** Moments that differ are written differently. */
  lemma StampsTellApart(s: int, t: int)
    ensures Stamp(s) == Stamp(t) ==> s == t
  {
    DigitsTellApart(if s < 0 then -s else s, if t < 0 then -t else t);
    DigitsAreDigits(if s < 0 then -s else s);
    DigitsAreDigits(if t < 0 then -t else t);
    if s < 0 { assert Stamp(s)[1..] == Digits(-s) && Stamp(s)[0] == '-'; }
    if t < 0 { assert Stamp(t)[1..] == Digits(-t) && Stamp(t)[0] == '-'; }
  }

  /** The ids of one person's care at different moments differ, and so do those of trips on one route. */
  lemma IdsTellMomentsApart(person: string, s: int, t: int, origin: string, destination: string)
    requires s != t
    ensures CareId(person, s) != CareId(person, t)
    ensures TransportId(person, s, origin, destination) != TransportId(person, t, origin, destination)
  {
    StampsTellApart(s, t);
    hide Stamp;
    var care := "care:" + person + ":";
    assert CareId(person, s)[|care|..] == Stamp(s) && CareId(person, t)[|care|..] == Stamp(t);
    StampInside("transport:" + person + ":", Stamp(s), Stamp(t), ":" + origin + ":" + destination);
    var route := ":" + origin + ":" + destination;
    assert TransportId(person, s, origin, destination) == "transport:" + person + ":" + (Stamp(s) + route);
    assert TransportId(person, t, origin, destination) == "transport:" + person + ":" + (Stamp(t) + route);
  }

  lemma StampInside(before: string, a: string, b: string, after: string)
    ensures before + (a + after) == before + (b + after) ==> a == b
  {
    var x, y := before + (a + after), before + (b + after);
    assert x[|before|..|before|+|a|] == a && y[|before|..|before|+|b|] == b;
    assert |x| - |y| == |a| - |b|;
  }

  predicate CaregiverLeq(a: Caregiver, b: Caregiver) {
    TextLeq(a.id, b.id)
  }

  /** By start, end, kind of person and person. */
  predicate CareLeq(a: Primitive, b: Primitive) {
    if a.window != b.window then WindowLeq(a.window, b.window)
    else if a.source != b.source then a.source.ByCaregiver?
    else TextLeq(a.person, b.person)
  }

  /** By start, end, driver, origin and destination. */
  predicate TransportLeq(a: Primitive, b: Primitive) {
    if a.window != b.window then WindowLeq(a.window, b.window)
    else if a.CarePrimitive? || b.CarePrimitive? then a.CarePrimitive?
    else if a.transporter != b.transporter then TextLeq(a.transporter, b.transporter)
    else if a.location != b.location then TextLeq(a.location, b.location)
    else TextLeq(a.destination, b.destination)
  }

  datatype TripKey = TripKey(
    transporter: string, source: Option<Source>, window: Window, origin: string, destination: string)

  /** The planner's key for a trip: who, when, from where, to where. */
  function InitialTripKey(p: Primitive): TripKey {
    TripKey(Transporter(p), None, p.window, p.location, Arrival(p).place)
  }

  function ScopedTripKey(p: Primitive): TripKey {
    TripKey(Transporter(p), Some(p.source), p.window, p.location, Arrival(p).place)
  }

  function Transporter(p: Primitive): string {
    if p.TransportPrimitive? then p.transporter else p.person
  }

  datatype CareKey = CareKey(person: string, source: Source, window: Window, location: string)

  function CareKeyOf(p: Primitive): CareKey {
    CareKey(p.person, p.source, p.window, p.location)
  }

  // ---------------------------------------------------------------- who may help, and when

  predicate Eligible(sc: Scenario, c: Caregiver) {
    && c.id !in sc.unavailable
    && (!c.external || sc.policy.allowExternal)
    && (c.trusted || (!sc.policy.requireTrusted && sc.policy.allowUnapproved))
  }

  function Clipped(w: Window, limit: Window): seq<Window> {
    match Intersection(w, limit)
    case Some(x) => [x]
    case None => []
  }

  function CareWindows(sc: Scenario, c: Caregiver): seq<Window> {
    FlatMap(c.availability, (w: Window) => Clipped(w, sc.required))
  }

  function FeasibleCaregivers(sc: Scenario): seq<Caregiver> {
    Filter(Sort(CaregiverLeq, sc.caregivers),
           (c: Caregiver) => Eligible(sc, c) && CareWindows(sc, c) != [])
  }

  function Parents(sc: Scenario): seq<string> {
    Sort(TextLeq, sc.parents)
  }

  function Blocked(sc: Scenario, parent: string): seq<Window> {
    Map(Filter(sc.events, (e: CalendarEvent) => e.owner == parent && Protected(e)),
        (e: CalendarEvent) => e.window)
  }

  function ParentCareWindows(sc: Scenario, parent: string): seq<Window> {
    Subtract(sc.required, Blocked(sc, parent))
  }

  function DrivingIn(sc: Scenario, parent: string, raw: Window): seq<Window> {
    match Intersection(raw, sc.required)
    case Some(x) => Subtract(x, Blocked(sc, parent))
    case None => []
  }

  function DrivingWindows(sc: Scenario, parent: string): seq<Window> {
    match Driver(sc, parent)
    case Some(t) =>
      if t.drives then FlatMap(t.availability, (raw: Window) => DrivingIn(sc, parent, raw)) else []
    case None => []
  }

  // ---------------------------------------------------------------- trips

  function ParentTrip(sc: Scenario, parent: string, minutes: nat, origin: string, destination: string,
                      arrival: int): seq<Primitive>
    requires minutes > 0
  {
    var trip := Window(arrival - 60 * minutes, arrival);
    if FitsOne(trip, DrivingWindows(sc, parent)) then
      [TransportPrimitive(TransportId(parent, trip.start, origin, destination), parent, ByParent,
                          parent, trip, origin, destination, minutes, false)]
    else []
  }

  /** Bring the child before care starts, fetch it before care ends. */
  function ParentTrips(sc: Scenario, c: Caregiver, parent: string): seq<Primitive>
    requires c.travelMinutes > 0
  {
    FlatMap(CareWindows(sc, c), (w: Window) =>
      ParentTrip(sc, parent, c.travelMinutes, sc.home, c.location, w.start)
      + ParentTrip(sc, parent, c.travelMinutes, c.location, sc.home, w.end))
  }

  function OwnTrip(sc: Scenario, c: Caregiver, w: Window): seq<Primitive>
    requires c.travelMinutes > 0
  {
    if w.end - w.start < 60 * c.travelMinutes then []
    else
      var trip := Window(w.end - 60 * c.travelMinutes, w.end);
      [TransportPrimitive(TransportId(c.id, trip.start, c.location, sc.home), c.id, ByCaregiver,
                          c.id, trip, c.location, sc.home, c.travelMinutes, false)]
  }

  function TripsFor(sc: Scenario, c: Caregiver): seq<Primitive> {
    if c.location == sc.home || c.travelMinutes == 0 then []
    else
      FlatMap(Parents(sc), (parent: string) => ParentTrips(sc, c, parent))
      + (if c.drives && (!c.external || sc.policy.allowProviderTransport)
         then FlatMap(CareWindows(sc, c), (w: Window) => OwnTrip(sc, c, w)) else [])
  }

  function AllTrips(sc: Scenario): seq<Primitive> {
    FlatMap(FeasibleCaregivers(sc), (c: Caregiver) => TripsFor(sc, c))
  }

  function TransportPrimitives(sc: Scenario): seq<Primitive> {
    Sort(TransportLeq, Values(ByKey(AllTrips(sc), InitialTripKey)))
  }

  // ---------------------------------------------------------------- care

  /** Care ends when the earliest trip home that ends with this care window departs. */
  function CareEnd(trips: seq<Primitive>, place: string, home: string, end: int): int {
    if trips == [] then end
    else
      var rest := CareEnd(trips[..|trips|-1], place, home, end);
      var t := trips[|trips|-1];
      if t.location == place && Arrival(t) == State(end, home) && t.TransportPrimitive?
         && t.window.start < rest
      then t.window.start else rest
  }

  function CaregiverCareIn(sc: Scenario, trips: seq<Primitive>, c: Caregiver, w: Window): seq<Primitive> {
    var end := CareEnd(trips, c.location, sc.home, w.end);
    if w.start >= end then []
    else [CarePrimitive(CareId(c.id, w.start), c.id, ByCaregiver, Window(w.start, end), c.location, false)]
  }

  function CaregiverCare(sc: Scenario, trips: seq<Primitive>, c: Caregiver): seq<Primitive> {
    FlatMap(CareWindows(sc, c), (w: Window) => CaregiverCareIn(sc, trips, c, w))
  }

  function TripsBy(trips: seq<Primitive>, parent: string): seq<Window> {
    Map(Filter(trips, (t: Primitive) => Transporter(t) == parent), (t: Primitive) => t.window)
  }

  function ParentCareAt(sc: Scenario, parent: string, w: Window): Primitive {
    CarePrimitive(CareId(parent, w.start), parent, ByParent, w, sc.home, false)
  }

  /** A parent looks after the child at home whenever neither blocked nor driving. */
  function ParentCare(sc: Scenario, trips: seq<Primitive>, parent: string): seq<Primitive> {
    FlatMap(ParentCareWindows(sc, parent), (w: Window) =>
      Map(Subtract(w, TripsBy(trips, parent)), (piece: Window) => ParentCareAt(sc, parent, piece)))
  }

  function CarePrimitives(sc: Scenario, trips: seq<Primitive>): seq<Primitive> {
    Sort(CareLeq,
      FlatMap(FeasibleCaregivers(sc), (c: Caregiver) => CaregiverCare(sc, trips, c))
      + FlatMap(Parents(sc), (parent: string) => ParentCare(sc, trips, parent)))
  }

  // ---------------------------------------------------------------- replanning scope

  /** Preserved work as one exact immutable primitive; a care segment keeps no trip fields. */
  function PreservedPrimitive(s: Segment): Primitive {
    if s.kind.Care? then CarePrimitive(s.id, s.person, s.source, s.window, s.location, true)
    else TransportPrimitive(s.id, s.person, s.source, s.transporter.value, s.window, s.location,
                            s.destination.value, (s.window.end - s.window.start) / 60, true)
  }

  function PreservedOf(preserved: seq<Segment>, kind: Kind): seq<Primitive> {
    Map(Filter(preserved, (s: Segment) => s.kind == kind), PreservedPrimitive)
  }

  function ClippedCare(p: Primitive, w: Window): Primitive {
    CarePrimitive(CareId(p.person, w.start), p.person, p.source, w, p.location, p.immutable)
  }

  function ClipTo(p: Primitive, affected: Window): seq<Primitive> {
    match Intersection(p.window, affected)
    case Some(w) => [ClippedCare(p, w)]
    case None => []
  }

  function ClippedItems(care: seq<Primitive>, affected: seq<Window>): seq<Primitive> {
    FlatMap(care, (p: Primitive) => FlatMap(affected, (a: Window) => ClipTo(p, a)))
  }

  function ScopedCareItems(care: seq<Primitive>, scope: Scope): seq<Primitive> {
    ClippedItems(care, scope.affected)
    + PreservedOf(scope.preserved, Care)
  }

  function ScopedTripItems(trips: seq<Primitive>, scope: Scope): seq<Primitive> {
    Filter(trips, (t: Primitive) => FitsOne(t.window, scope.affected))
    + PreservedOf(scope.preserved, Transport)
  }

  function ScopedCare(care: seq<Primitive>, scope: Scope): seq<Primitive> {
    Sort(CareLeq, Values(ByKey(ScopedCareItems(care, scope), CareKeyOf)))
  }

  function ScopedTrips(trips: seq<Primitive>, scope: Scope): seq<Primitive> {
    Sort(TransportLeq, Values(ByKey(ScopedTripItems(trips, scope), ScopedTripKey)))
  }

  /** Everything the planner considers before pruning. */
  function OfferedTrips(sc: Scenario, scope: Option<Scope>): seq<Primitive> {
    if scope.Some? then ScopedTrips(TransportPrimitives(sc), scope.value) else TransportPrimitives(sc)
  }

  function OfferedCare(sc: Scenario, scope: Option<Scope>): seq<Primitive> {
    var care := CarePrimitives(sc, TransportPrimitives(sc));
    if scope.Some? then ScopedCare(care, scope.value) else care
  }

  function Offered(sc: Scenario, scope: Option<Scope>): seq<Primitive> {
    OfferedCare(sc, scope) + OfferedTrips(sc, scope)
  }

  function Ids(ps: seq<Primitive>): seq<string> {
    Map(ps, (p: Primitive) => p.id)
  }

  ghost function PrunedMatrix(sc: Scenario, scope: Option<Scope>): Matrix {
    var care, trips := OfferedCare(sc, scope), OfferedTrips(sc, scope);
    Matrix(sc.required, sc.home,
           Pruned(care, care + trips, sc.required, sc.home),
           Pruned(trips, care + trips, sc.required, sc.home),
           GapOf(care + trips, sc.required, sc.home))
  }

  ghost function MatrixOf(sc: Scenario, scope: Option<Scope>): Result<Matrix, MatrixError> {
    var m := PrunedMatrix(sc, scope);
    if Distinct(Ids(m.care + m.transport)) then Ok(m) else Err(DuplicatePrimitiveIds)
  }

  // ---------------------------------------------------------------- the builder

  /** One more assignment to a dictionary that is being filled. */
  lemma ByKeySnoc<K>(items: seq<Primitive>, p: Primitive, key: Primitive -> K)
    ensures ByKey(items + [p], key) == Put(ByKey(items, key), key(p), p)
  {
    assert (items + [p])[..|items|] == items;
  }

  lemma AppendStep<A>(items: seq<Primitive>, xs: seq<A>, i: nat, f: A -> seq<Primitive>)
    requires i < |xs|
    ensures items + FlatMap(xs[..i+1], f) == items + FlatMap(xs[..i], f) + f(xs[i])
  {
    FlatMapStep(xs, i, f);
  }

  lemma AppendNothing(items: seq<Primitive>)
    ensures items + [] == items
  {
  }

  /** The windows in which a parent may drive: clipped to the day, without protected events. */
  method CollectDrivingWindows(sc: Scenario, parent: string) returns (windows: seq<Window>)
    ensures windows == DrivingWindows(sc, parent)
  {
    windows := [];
    var capability := Driver(sc, parent);
    if capability.None? || !capability.value.drives {
      return;
    }
    var available, blocked := capability.value.availability, Blocked(sc, parent);
    for i := 0 to |available|
      invariant windows == FlatMap(available[..i], (raw: Window) => DrivingIn(sc, parent, raw))
    {
      FlatMapStep(available, i, (raw: Window) => DrivingIn(sc, parent, raw));
      var inside := Intersection(available[i], sc.required);
      if inside.Some? {
        var free := SubtractWindows(inside.value, blocked);
        windows := windows + free;
      }
    }
    assert available[..|available|] == available;
  }

  /** A trip is offered when the driver is available for all of it. */
  method AddParentTrip(sc: Scenario, parent: string, minutes: nat, origin: string, destination: string, arrival: int,
                       windows: seq<Window>, trips: Dict<TripKey, Primitive>, ghost items: seq<Primitive>)
    returns (more: Dict<TripKey, Primitive>)
    requires minutes > 0 && windows == DrivingWindows(sc, parent) && trips == ByKey(items, InitialTripKey)
    ensures more == ByKey(items + ParentTrip(sc, parent, minutes, origin, destination, arrival), InitialTripKey)
  {
    hide DrivingWindows;
    more := trips;
    var trip: Window := Window(arrival - 60 * minutes, arrival);
    if !exists w :: w in windows && w.start <= trip.start && w.end >= trip.end {
      assert ParentTrip(sc, parent, minutes, origin, destination, arrival) == [];
      assert items + [] == items;
      return;
    }
    var p := TransportPrimitive(TransportId(parent, trip.start, origin, destination), parent, ByParent,
                                parent, trip, origin, destination, minutes, false);
    assert exists w :: w in windows && Within(trip, w);
    assert ParentTrip(sc, parent, minutes, origin, destination, arrival) == [p];
    ByKeySnoc(items, p, InitialTripKey);
    more := Put(trips, TripKey(parent, None, trip, origin, destination), p);
  }

  method AddTripsOfParent(sc: Scenario, c: Caregiver, parent: string, careWindows: seq<Window>,
                          trips: Dict<TripKey, Primitive>, ghost items: seq<Primitive>)
    returns (more: Dict<TripKey, Primitive>)
    requires c.travelMinutes > 0 && careWindows == CareWindows(sc, c) && trips == ByKey(items, InitialTripKey)
    ensures more == ByKey(items + ParentTrips(sc, c, parent), InitialTripKey)
  {
    hide CareWindows, ParentTrip, ByKey;
    more := trips;
    var windows := CollectDrivingWindows(sc, parent);
    ghost var both := (w: Window) =>
      ParentTrip(sc, parent, c.travelMinutes, sc.home, c.location, w.start)
      + ParentTrip(sc, parent, c.travelMinutes, c.location, sc.home, w.end);
    AppendNothing(items);
    for i := 0 to |careWindows|
      invariant more == ByKey(items + FlatMap(careWindows[..i], both), InitialTripKey)
    {
      AppendStep(items, careWindows, i, both);
      var w := careWindows[i];
      ghost var before := items + FlatMap(careWindows[..i], both);
      ghost var there := ParentTrip(sc, parent, c.travelMinutes, sc.home, c.location, w.start);
      ghost var back := ParentTrip(sc, parent, c.travelMinutes, c.location, sc.home, w.end);
      assert before + there + back == before + (there + back);
      more := AddParentTrip(sc, parent, c.travelMinutes, sc.home, c.location, w.start, windows, more, before);
      more := AddParentTrip(sc, parent, c.travelMinutes, c.location, sc.home, w.end, windows, more, before + there);
    }
    assert careWindows[..|careWindows|] == careWindows;
  }

  method AddOwnTrips(sc: Scenario, c: Caregiver, careWindows: seq<Window>,
                     trips: Dict<TripKey, Primitive>, ghost items: seq<Primitive>)
    returns (more: Dict<TripKey, Primitive>)
    requires c.travelMinutes > 0 && careWindows == CareWindows(sc, c) && trips == ByKey(items, InitialTripKey)
    ensures more == ByKey(items + FlatMap(careWindows, (w: Window) => OwnTrip(sc, c, w)), InitialTripKey)
  {
    hide CareWindows, ByKey;
    more := trips;
    ghost var own := (w: Window) => OwnTrip(sc, c, w);
    AppendNothing(items);
    for i := 0 to |careWindows|
      invariant more == ByKey(items + FlatMap(careWindows[..i], own), InitialTripKey)
    {
      AppendStep(items, careWindows, i, own);
      ghost var before := items + FlatMap(careWindows[..i], own);
      var w := careWindows[i];
      if w.end - w.start < 60 * c.travelMinutes {
        AppendNothing(before);
        continue;
      }
      var trip: Window := Window(w.end - 60 * c.travelMinutes, w.end);
      var p := TransportPrimitive(TransportId(c.id, trip.start, c.location, sc.home), c.id, ByCaregiver,
                                  c.id, trip, c.location, sc.home, c.travelMinutes, false);
      ByKeySnoc(before, p, InitialTripKey);
      more := Put(more, TripKey(c.id, None, trip, c.location, sc.home), p);
    }
    assert careWindows[..|careWindows|] == careWindows;
  }

  method AddTripsOfParents(sc: Scenario, c: Caregiver, careWindows: seq<Window>,
                           trips: Dict<TripKey, Primitive>, ghost items: seq<Primitive>)
    returns (more: Dict<TripKey, Primitive>)
    requires c.travelMinutes > 0 && careWindows == CareWindows(sc, c) && trips == ByKey(items, InitialTripKey)
    ensures more == ByKey(items + FlatMap(Parents(sc), (parent: string) => ParentTrips(sc, c, parent)), InitialTripKey)
  {
    hide CareWindows, ParentTrips, ByKey, Parents;
    more := trips;
    var parents := Parents(sc);
    ghost var perParent := (parent: string) => ParentTrips(sc, c, parent);
    AppendNothing(items);
    for i := 0 to |parents|
      invariant more == ByKey(items + FlatMap(parents[..i], perParent), InitialTripKey)
    {
      AppendStep(items, parents, i, perParent);
      more := AddTripsOfParent(sc, c, parents[i], careWindows, more, items + FlatMap(parents[..i], perParent));
    }
    assert parents[..|parents|] == parents;
  }

  method AddTripsFor(sc: Scenario, c: Caregiver, trips: Dict<TripKey, Primitive>, ghost items: seq<Primitive>)
    returns (more: Dict<TripKey, Primitive>)
    requires trips == ByKey(items, InitialTripKey)
    ensures more == ByKey(items + TripsFor(sc, c), InitialTripKey)
  {
    hide CareWindows, ParentTrips, OwnTrip, ByKey, Parents;
    more := trips;
    AppendNothing(items);
    if c.location == sc.home || c.travelMinutes == 0 {
      return;
    }
    var careWindows := CareWindows(sc, c);
    ghost var driven := FlatMap(Parents(sc), (parent: string) => ParentTrips(sc, c, parent));
    more := AddTripsOfParents(sc, c, careWindows, more, items);
    AppendNothing(driven);
    if c.drives && (!c.external || sc.policy.allowProviderTransport) {
      ghost var own := FlatMap(careWindows, (w: Window) => OwnTrip(sc, c, w));
      more := AddOwnTrips(sc, c, careWindows, more, items + driven);
      assert items + driven + own == items + (driven + own);
    }
  }

  /** For every caregiver away from home, the trips of every parent and of the caregiver, one per key;
      each is a trip the specification lists, and each listed trip has one with its key. */
  method CollectTrips(sc: Scenario, caregivers: seq<Caregiver>) returns (trips: Dict<TripKey, Primitive>)
    requires caregivers == FeasibleCaregivers(sc)
    ensures trips == ByKey(AllTrips(sc), InitialTripKey)
    ensures Keyed(trips) && forall e :: e in trips ==> e.1 in AllTrips(sc) && e.0 == InitialTripKey(e.1)
    ensures forall p :: p in AllTrips(sc) ==> Get(trips, InitialTripKey(p)).Some?
  {
    hide TripsFor, FeasibleCaregivers;
    trips := [];
    ghost var flat := (c: Caregiver) => TripsFor(sc, c);
    for i := 0 to |caregivers|
      invariant trips == ByKey(FlatMap(caregivers[..i], flat), InitialTripKey)
    {
      FlatMapStep(caregivers, i, flat);
      trips := AddTripsFor(sc, caregivers[i], trips, FlatMap(caregivers[..i], flat));
    }
    assert caregivers[..|caregivers|] == caregivers;
    OnePerKey(AllTrips(sc), InitialTripKey);
  }

  lemma OnePerKey<K>(items: seq<Primitive>, key: Primitive -> K)
    ensures Keyed(ByKey(items, key))
    ensures forall e :: e in ByKey(items, key) ==> e.1 in items && e.0 == key(e.1)
    ensures forall p :: p in items ==> Get(ByKey(items, key), key(p)).Some?
  {
    if items != [] {
      ByKeyLookup(items, key, key(items[0]));
    }
    forall p | p in items ensures Get(ByKey(items, key), key(p)).Some? {
      ByKeyLookup(items, key, key(p));
    }
  }

  /** When the earliest trip that ends this care leaves for home, or the end of the window itself. */
  method EarliestDeparture(trips: seq<Primitive>, place: string, home: string, end: int) returns (departure: int)
    ensures departure == CareEnd(trips, place, home, end)
  {
    departure := end;
    for i := 0 to |trips|
      invariant departure == CareEnd(trips[..i], place, home, end)
    {
      assert trips[..i+1][..i] == trips[..i];
      var t := trips[i];
      if t.TransportPrimitive? && t.location == place && t.destination == home && t.window.end == end {
        departure := if t.window.start < departure then t.window.start else departure;
      }
    }
    assert trips[..|trips|] == trips;
  }

  method AddCaregiverCare(sc: Scenario, trips: seq<Primitive>, c: Caregiver) returns (care: seq<Primitive>)
    ensures care == CaregiverCare(sc, trips, c)
  {
    hide CareWindows, CareEnd;
    care := [];
    var careWindows := CareWindows(sc, c);
    ghost var one := (w: Window) => CaregiverCareIn(sc, trips, c, w);
    for i := 0 to |careWindows|
      invariant care == FlatMap(careWindows[..i], one)
    {
      FlatMapStep(careWindows, i, one);
      var w := careWindows[i];
      var careEnd := EarliestDeparture(trips, c.location, sc.home, w.end);
      if w.start >= careEnd {
        continue;
      }
      var looked := Window(w.start, careEnd);
      care := care + [CarePrimitive(CareId(c.id, w.start), c.id, ByCaregiver, looked, c.location, false)];
    }
    assert careWindows[..|careWindows|] == careWindows;
  }

  method AddParentCare(sc: Scenario, trips: seq<Primitive>, parent: string) returns (care: seq<Primitive>)
    ensures care == ParentCare(sc, trips, parent)
  {
    hide TripsBy, Subtract;
    care := [];
    var parentTrips := TripsBy(trips, parent);
    var careWindows := SubtractWindows(sc.required, Blocked(sc, parent));
    ghost var pieces := (w: Window) =>
      Map(Subtract(w, TripsBy(trips, parent)), (piece: Window) => ParentCareAt(sc, parent, piece));
    for i := 0 to |careWindows|
      invariant care == FlatMap(careWindows[..i], pieces)
    {
      FlatMapStep(careWindows, i, pieces);
      var free := SubtractWindows(careWindows[i], parentTrips);
      ghost var before := care;
      for j := 0 to |free|
        invariant care == before + Map(free[..j], (piece: Window) => ParentCareAt(sc, parent, piece))
      {
        care := care + [CarePrimitive(CareId(parent, free[j].start), parent, ByParent, free[j], sc.home, false)];
        assert free[..j+1] == free[..j] + [free[j]];
      }
      assert free[..|free|] == free;
    }
    assert careWindows[..|careWindows|] == careWindows;
  }

  /** Care by caregivers that leaves time for the trip home, then care by parents outside their trips. */
  method CollectCare(sc: Scenario, caregivers: seq<Caregiver>, trips: seq<Primitive>)
    returns (care: seq<Primitive>)
    requires caregivers == FeasibleCaregivers(sc)
    ensures care == FlatMap(caregivers, (c: Caregiver) => CaregiverCare(sc, trips, c))
                    + FlatMap(Parents(sc), (parent: string) => ParentCare(sc, trips, parent))
    ensures Sort(CareLeq, care) == CarePrimitives(sc, trips)
  {
    hide CaregiverCare, ParentCare, FeasibleCaregivers;
    care := [];
    ghost var byCaregiver := (c: Caregiver) => CaregiverCare(sc, trips, c);
    for i := 0 to |caregivers|
      invariant care == FlatMap(caregivers[..i], byCaregiver)
    {
      FlatMapStep(caregivers, i, byCaregiver);
      var offered := AddCaregiverCare(sc, trips, caregivers[i]);
      care := care + offered;
    }
    assert caregivers[..|caregivers|] == caregivers;
    ghost var first := care;
    var parents := Parents(sc);
    ghost var byParent := (parent: string) => ParentCare(sc, trips, parent);
    for i := 0 to |parents|
      invariant care == first + FlatMap(parents[..i], byParent)
    {
      FlatMapStep(parents, i, byParent);
      var offered := AddParentCare(sc, trips, parents[i]);
      care := care + offered;
    }
    assert parents[..|parents|] == parents;
  }

  // ---------------------------------------------------------------- the replanning loops

  /** Clip one feasible primitive to every affected window it meets. */
  method ClipCare(p: Primitive, affected: seq<Window>, d: Dict<CareKey, Primitive>, ghost items: seq<Primitive>)
    returns (more: Dict<CareKey, Primitive>)
    requires d == ByKey(items, CareKeyOf)
    ensures more == ByKey(items + FlatMap(affected, (a: Window) => ClipTo(p, a)), CareKeyOf)
  {
    hide ByKey;
    more := d;
    AppendNothing(items);
    ghost var clip := (a: Window) => ClipTo(p, a);
    for i := 0 to |affected|
      invariant more == ByKey(items + FlatMap(affected[..i], clip), CareKeyOf)
    {
      AppendStep(items, affected, i, clip);
      ghost var before := items + FlatMap(affected[..i], clip);
      var clipped := Intersection(p.window, affected[i]);
      if clipped.None? {
        AppendNothing(before);
        continue;
      }
      var item := CarePrimitive(CareId(p.person, clipped.value.start), p.person, p.source, clipped.value,
                                p.location, p.immutable);
      ByKeySnoc(before, item, CareKeyOf);
      more := Put(more, CareKey(item.person, item.source, item.window, item.location), item);
    }
    assert affected[..|affected|] == affected;
  }

  method ClipAllCare(care: seq<Primitive>, affected: seq<Window>) returns (d: Dict<CareKey, Primitive>)
    ensures d == ByKey(ClippedItems(care, affected), CareKeyOf)
  {
    hide ClipTo;
    d := [];
    ghost var clip := (p: Primitive) => FlatMap(affected, (a: Window) => ClipTo(p, a));
    for i := 0 to |care|
      invariant d == ByKey(FlatMap(care[..i], clip), CareKeyOf)
    {
      FlatMapStep(care, i, clip);
      d := ClipCare(care[i], affected, d, FlatMap(care[..i], clip));
    }
    assert care[..|care|] == care;
  }

  /** Keep the trips that fit one affected window. */
  method ScopeTrips(trips: seq<Primitive>, affected: seq<Window>) returns (d: Dict<TripKey, Primitive>)
    ensures d == ByKey(Filter(trips, (t: Primitive) => FitsOne(t.window, affected)), ScopedTripKey)
  {
    d := [];
    ghost var fits := (t: Primitive) => FitsOne(t.window, affected);
    for i := 0 to |trips|
      invariant d == ByKey(Filter(trips[..i], fits), ScopedTripKey)
    {
      FilterStep(trips, i, fits);
      var item := trips[i];
      if exists a :: a in affected && Within(item.window, a) {
        ByKeySnoc(Filter(trips[..i], fits), item, ScopedTripKey);
        d := Put(d, ScopedTripKey(item), item);
      } else {
        assert Filter(trips[..i], fits) + [] == Filter(trips[..i], fits);
      }
    }
    assert trips[..|trips|] == trips;
  }

  /** Preserved work comes last and so replaces a feasible primitive in the same slot. */
  method KeepPreserved(preserved: seq<Segment>, care: Dict<CareKey, Primitive>, trips: Dict<TripKey, Primitive>,
                       ghost careItems: seq<Primitive>, ghost tripItems: seq<Primitive>)
    returns (allCare: Dict<CareKey, Primitive>, allTrips: Dict<TripKey, Primitive>)
    requires care == ByKey(careItems, CareKeyOf) && trips == ByKey(tripItems, ScopedTripKey)
    ensures allCare == ByKey(careItems + PreservedOf(preserved, Care), CareKeyOf)
    ensures allTrips == ByKey(tripItems + PreservedOf(preserved, Transport), ScopedTripKey)
  {
    hide ByKey, PreservedOf, PreservedPrimitive;
    allCare, allTrips := care, trips;
    NothingPreserved();
    AppendNothing(careItems);
    AppendNothing(tripItems);
    for i := 0 to |preserved|
      invariant allCare == ByKey(careItems + PreservedOf(preserved[..i], Care), CareKeyOf)
      invariant allTrips == ByKey(tripItems + PreservedOf(preserved[..i], Transport), ScopedTripKey)
    {
      var item := PreservedPrimitive(preserved[i]);
      PreservedStep(careItems, preserved, i, Care);
      PreservedStep(tripItems, preserved, i, Transport);
      if item.CarePrimitive? {
        ByKeySnoc(careItems + PreservedOf(preserved[..i], Care), item, CareKeyOf);
        allCare := Put(allCare, CareKeyOf(item), item);
      } else {
        ByKeySnoc(tripItems + PreservedOf(preserved[..i], Transport), item, ScopedTripKey);
        allTrips := Put(allTrips, ScopedTripKey(item), item);
      }
    }
    assert preserved[..|preserved|] == preserved;
  }

  lemma NothingPreserved()
    ensures PreservedOf([], Care) == [] && PreservedOf([], Transport) == []
  {
  }

  lemma PreservedStep(items: seq<Primitive>, preserved: seq<Segment>, i: nat, kind: Kind)
    requires i < |preserved|
    ensures PreservedPrimitive(preserved[i]).CarePrimitive? <==> preserved[i].kind.Care?
    ensures if preserved[i].kind == kind
      then items + PreservedOf(preserved[..i+1], kind)
        == items + PreservedOf(preserved[..i], kind) + [PreservedPrimitive(preserved[i])]
      else PreservedOf(preserved[..i+1], kind) == PreservedOf(preserved[..i], kind)
  {
    FilterStep(preserved, i, (s: Segment) => s.kind == kind);
  }

  /** What a replan may choose from: each primitive is a preserved segment or feasible work inside an
      affected window, and each of those has a primitive in its slot. */
  method ReplanningPrimitives(care: seq<Primitive>, trips: seq<Primitive>, scope: Scope)
    returns (scopedCare: seq<Primitive>, scopedTrips: seq<Primitive>)
    ensures scopedCare == ScopedCare(care, scope) && scopedTrips == ScopedTrips(trips, scope)
    ensures forall q :: q in scopedCare ==> KeptOrClipped(care, scope, q)
    ensures forall q :: q in scopedTrips ==> KeptOrFitting(trips, scope, q)
    ensures forall p, a :: p in care && a in scope.affected && Overlap(p.window, a) ==>
      InSlot(scopedCare, ClippedCare(p, Intersection(p.window, a).value))
    ensures forall s :: s in scope.preserved && s.kind.Care? ==> InSlot(scopedCare, PreservedPrimitive(s))
    ensures forall t, a :: t in trips && a in scope.affected && Within(t.window, a) ==> HasTrip(scopedTrips, t)
    ensures forall s :: s in scope.preserved && s.kind.Transport? ==> HasTrip(scopedTrips, PreservedPrimitive(s))
  {
    var careByKey := ClipAllCare(care, scope.affected);
    var tripsByKey := ScopeTrips(trips, scope.affected);
    careByKey, tripsByKey := KeepPreserved(scope.preserved, careByKey, tripsByKey,
      ClippedItems(care, scope.affected), Filter(trips, (t: Primitive) => FitsOne(t.window, scope.affected)));
    scopedCare := Sort(CareLeq, Values(careByKey));
    scopedTrips := Sort(TransportLeq, Values(tripsByKey));
    hide ClippedItems, PreservedOf, Values;
    ScopedCareMeaning(care, scope);
    ScopedTripsMeaning(trips, scope);
  }

  ghost predicate KeptOrClipped(care: seq<Primitive>, scope: Scope, q: Primitive) {
    || (exists s :: s in scope.preserved && s.kind.Care? && q == PreservedPrimitive(s))
    || (exists p, a :: p in care && a in scope.affected && q in ClipTo(p, a))
  }

  ghost predicate KeptOrFitting(trips: seq<Primitive>, scope: Scope, q: Primitive) {
    || (exists s :: s in scope.preserved && s.kind.Transport? && q == PreservedPrimitive(s))
    || (q in trips && FitsOne(q.window, scope.affected))
  }

  /** Person, source, time and place are the same. */
  predicate SameCare(p: Primitive, q: Primitive) {
    p.person == q.person && p.source == q.source && p.window == q.window && p.location == q.location
  }

  /** Driver, source, time and route are the same. */
  predicate SameTrip(p: Primitive, q: Primitive) {
    && Transporter(p) == Transporter(q) && p.source == q.source && p.window == q.window
    && p.location == q.location && Arrival(p).place == Arrival(q).place
  }

  ghost predicate InSlot(ps: seq<Primitive>, p: Primitive) {
    exists q :: q in ps && SameCare(q, p)
  }

  ghost predicate HasTrip(ps: seq<Primitive>, p: Primitive) {
    exists q :: q in ps && SameTrip(q, p)
  }

  lemma PreservedMember(preserved: seq<Segment>, kind: Kind, p: Primitive)
    ensures p in PreservedOf(preserved, kind) <==>
      exists s :: s in preserved && s.kind == kind && p == PreservedPrimitive(s)
  {
    var mine := Filter(preserved, (x: Segment) => x.kind == kind);
    FilterMember(preserved, (x: Segment) => x.kind == kind);
    if p in PreservedOf(preserved, kind) {
      var i :| 0 <= i < |mine| && PreservedPrimitive(mine[i]) == p;
      assert mine[i] in mine;
    }
    if s :| s in preserved && s.kind == kind && p == PreservedPrimitive(s) {
      var i :| 0 <= i < |mine| && mine[i] == s;
      assert PreservedOf(preserved, kind)[i] == p;
    }
  }

  lemma ClippedMember(care: seq<Primitive>, affected: seq<Window>, q: Primitive)
    ensures q in ClippedItems(care, affected) <==> exists p, a :: p in care && a in affected && q in ClipTo(p, a)
  {
    var clip := (p: Primitive) => FlatMap(affected, (a: Window) => ClipTo(p, a));
    FlatMapMember(care, clip, q);
    forall p ensures q in clip(p) <==> exists a :: a in affected && q in ClipTo(p, a) {
      FlatMapMember(affected, (a: Window) => ClipTo(p, a), q);
    }
    if p, a :| p in care && a in affected && q in ClipTo(p, a) {
      assert q in clip(p);
    }
  }

  lemma SortedValues<K>(items: seq<Primitive>, key: Primitive -> K, leq: (Primitive, Primitive) -> bool)
    ensures forall q :: q in Sort(leq, Values(ByKey(items, key))) ==> q in items
    ensures forall p :: p in items ==> exists q :: q in Sort(leq, Values(ByKey(items, key))) && key(q) == key(p)
  {
    var d := ByKey(items, key);
    OnePerKey(items, key);
    SortPermutes(leq, Values(d));
    forall q | q in Sort(leq, Values(d)) ensures q in items {
      ValuesMember(d, q);
    }
    forall p | p in items ensures exists q :: q in Sort(leq, Values(d)) && key(q) == key(p) {
      GetMember(d, key(p));
      ValuesMember(d, Get(d, key(p)).value);
    }
  }

  lemma TwoKeyed<K>(p: Primitive, q: Primitive, key: Primitive -> K)
    requires key(p) != key(q)
    ensures Values(ByKey([p, q], key)) == [p, q]
  {
    assert [p, q][..1] == [p] && [p][..0] == [];
    var first, second := (key(p), p), (key(q), q);
    assert ByKey([p], key) == [first];
    assert [first][1..] == [] && Put([], key(q), q) == [second];
    assert Put([first], key(q), q) == [first] + [second];
    assert ByKey([p, q], key) == [first, second];
  }

  lemma ScopedCareMeaning(care: seq<Primitive>, scope: Scope)
    ensures forall q :: q in ScopedCare(care, scope) ==> KeptOrClipped(care, scope, q)
    ensures forall p, a :: p in care && a in scope.affected && Overlap(p.window, a) ==>
      InSlot(ScopedCare(care, scope), ClippedCare(p, Intersection(p.window, a).value))
    ensures forall s :: s in scope.preserved && s.kind.Care? ==>
      InSlot(ScopedCare(care, scope), PreservedPrimitive(s))
  {
    var items := ScopedCareItems(care, scope);
    SortedValues(items, CareKeyOf, CareLeq);
    assert forall p, q :: CareKeyOf(p) == CareKeyOf(q) ==> SameCare(p, q);
    hide ClipTo, PreservedOf, ClippedItems, CareKeyOf;
    forall q | q in ScopedCare(care, scope) ensures KeptOrClipped(care, scope, q) {
      ClippedMember(care, scope.affected, q);
      PreservedMember(scope.preserved, Care, q);
    }
    forall p, a | p in care && a in scope.affected && Overlap(p.window, a)
      ensures InSlot(ScopedCare(care, scope), ClippedCare(p, Intersection(p.window, a).value))
    {
      var clip := ClippedCare(p, Intersection(p.window, a).value);
      ClipsWhereTheyMeet(p, a);
      ClippedMember(care, scope.affected, clip);
      assert clip in items;
    }
    forall s | s in scope.preserved && s.kind.Care? ensures InSlot(ScopedCare(care, scope), PreservedPrimitive(s)) {
      PreservedMember(scope.preserved, Care, PreservedPrimitive(s));
      assert PreservedPrimitive(s) in items;
    }
  }

  lemma ClipsWhereTheyMeet(p: Primitive, a: Window)
    requires Overlap(p.window, a)
    ensures ClippedCare(p, Intersection(p.window, a).value) in ClipTo(p, a)
  {
  }

  lemma ScopedTripsMeaning(trips: seq<Primitive>, scope: Scope)
    ensures forall q :: q in ScopedTrips(trips, scope) ==> KeptOrFitting(trips, scope, q)
    ensures forall t, a :: t in trips && a in scope.affected && Within(t.window, a) ==>
      HasTrip(ScopedTrips(trips, scope), t)
    ensures forall s :: s in scope.preserved && s.kind.Transport? ==>
      HasTrip(ScopedTrips(trips, scope), PreservedPrimitive(s))
  {
    var items := ScopedTripItems(trips, scope);
    SortedValues(items, ScopedTripKey, TransportLeq);
    FilterMember(trips, (t: Primitive) => FitsOne(t.window, scope.affected));
    SameKeySameTrip();
    hide PreservedOf, ScopedTripKey, SameTrip;
    forall q | q in ScopedTrips(trips, scope) ensures KeptOrFitting(trips, scope, q) {
      PreservedMember(scope.preserved, Transport, q);
    }
    forall t, a | t in trips && a in scope.affected && Within(t.window, a)
      ensures HasTrip(ScopedTrips(trips, scope), t)
    {
      assert t in items;
    }
    forall s | s in scope.preserved && s.kind.Transport?
      ensures HasTrip(ScopedTrips(trips, scope), PreservedPrimitive(s))
    {
      PreservedMember(scope.preserved, Transport, PreservedPrimitive(s));
      assert PreservedPrimitive(s) in items;
    }
  }

  lemma SameKeySameTrip()
    ensures forall p, q :: ScopedTripKey(p) == ScopedTripKey(q) ==> SameTrip(p, q)
  {
  }

  method BuildFeasibleAssignmentMatrix(sc: Scenario, scope: Option<Scope>)
    returns (r: Result<Matrix, MatrixError>)
    ensures r == MatrixOf(sc, scope)
  {
    hide TransportPrimitives, CarePrimitives, ScopedCare, ScopedTrips, Pruned, GapOf;
    var caregivers := FeasibleCaregivers(sc);
    var tripsByKey := CollectTrips(sc, caregivers);
    var trips := Sort(TransportLeq, Values(tripsByKey));
    assert trips == TransportPrimitives(sc) by { TransportIsSortedTrips(sc); }
    var care := CollectCare(sc, caregivers, trips);
    care := Sort(CareLeq, care);
    if scope.Some? {
      care, trips := ReplanningPrimitives(care, trips, scope.value);
    }
    var gap := ConnectedUncoveredWindows(care + trips, sc.required, sc.home);
    care, trips := PruneToFullCoveragePaths(care, trips, sc.required, sc.home);
    if Distinct(Ids(care + trips)) {
      r := Ok(Matrix(sc.required, sc.home, care, trips, gap));
    } else {
      r := Err(DuplicatePrimitiveIds);
    }
  }

  lemma TransportIsSortedTrips(sc: Scenario)
    ensures TransportPrimitives(sc) == Sort(TransportLeq, Values(ByKey(AllTrips(sc), InitialTripKey)))
  {
  }

  // ---------------------------------------------------------------- what a built matrix holds

  lemma IdsTellApart(ps: seq<Primitive>, p: Primitive, q: Primitive)
    requires Distinct(Ids(ps)) && p in ps && q in ps && p.id == q.id
    ensures p == q
  {
    var i :| 0 <= i < |ps| && ps[i] == p;
    var j :| 0 <= j < |ps| && ps[j] == q;
    assert Ids(ps)[i] == Ids(ps)[j];
  }

  /** A matrix that was built holds exactly the offered primitives that lie on a complete day. */
  lemma MatrixIsExact(sc: Scenario, scope: Option<Scope>, m: Matrix, p: Primitive)
    requires MatrixOf(sc, scope) == Ok(m)
    ensures p in m.care + m.transport <==>
      p in Offered(sc, scope) && OnFullDay(Offered(sc, scope), sc.required, sc.home, p)
    ensures p in m.care <==> p in OfferedCare(sc, scope) && p in m.care + m.transport
    ensures p in m.care + m.transport ==> Within(p.window, sc.required)
  {
    hide OfferedCare, OfferedTrips;
    var care, trips, ps := OfferedCare(sc, scope), OfferedTrips(sc, scope), Offered(sc, scope);
    var keep := (q: Primitive) => Retained(ps, sc.required, sc.home, q.id);
    var kept := m.care + m.transport;
    FilterMember(care, keep);
    FilterMember(trips, keep);
    forall q, r | q in kept && r in kept && q.id == r.id ensures q == r {
      IdsTellApart(kept, q, r);
    }
    if p in care { PruningIsExact(care, ps, sc.required, sc.home, kept, p); }
    if p in trips { PruningIsExact(trips, ps, sc.required, sc.home, kept, p); }
  }

  /** A matrix with nothing in it, a non-empty gap and the absence of any complete day are the
      same thing. */
  lemma MatrixIsEmptyWithoutFullDay(sc: Scenario, scope: Option<Scope>, m: Matrix)
    requires MatrixOf(sc, scope) == Ok(m)
    ensures m.care + m.transport == [] <==> !HasFullDay(Offered(sc, scope), sc.required, sc.home)
    ensures m.gap == [] <==> HasFullDay(Offered(sc, scope), sc.required, sc.home)
    ensures IsGap(Offered(sc, scope), sc.required, sc.home, m.gap)
  {
    hide OfferedCare, OfferedTrips;
    var care, trips, ps := OfferedCare(sc, scope), OfferedTrips(sc, scope), Offered(sc, scope);
    PruningKeepsSomething(care, trips, sc.required, sc.home);
    GapExists(ps, sc.required, sc.home);
    GapMeaning(ps, sc.required, sc.home, m.gap);
  }

  /** Without a complete day the matrix is empty, so its ids cannot clash. */
  lemma NoDayNoClash(sc: Scenario, scope: Option<Scope>)
    requires !HasFullDay(Offered(sc, scope), sc.required, sc.home)
    ensures MatrixOf(sc, scope).Ok?
    ensures MatrixOf(sc, scope).value.care == [] && MatrixOf(sc, scope).value.transport == []
  {
    hide OfferedCare, OfferedTrips, Pruned;
    PruningKeepsSomething(OfferedCare(sc, scope), OfferedTrips(sc, scope), sc.required, sc.home);
    var m := PrunedMatrix(sc, scope);
    assert m.care + m.transport == [];
  }

  lemma {:induction false} FilterKeepsDistinctIds(ps: seq<Primitive>, keep: Primitive -> bool)
    requires Distinct(Ids(ps))
    ensures Distinct(Ids(Filter(ps, keep)))
  {
    if ps != [] {
      var init, last := ps[..|ps|-1], ps[|ps|-1];
      forall i | 0 <= i < |init| ensures Ids(init)[i] == Ids(ps)[i] {
      }
      FilterKeepsDistinctIds(init, keep);
      FilterMember(init, keep);
      var kept := Filter(init, keep);
      forall i | 0 <= i < |kept| ensures kept[i].id != last.id {
        assert kept[i] in init;
        var j :| 0 <= j < |init| && init[j] == kept[i];
        assert Ids(ps)[j] != Ids(ps)[|ps|-1];
      }
    }
  }

  /** Offers with distinct ids always make a matrix. */
  lemma DistinctOffersDoNotClash(sc: Scenario, scope: Option<Scope>)
    requires Distinct(Ids(Offered(sc, scope)))
    ensures MatrixOf(sc, scope).Ok?
  {
    hide OfferedCare, OfferedTrips;
    var care, trips, ps := OfferedCare(sc, scope), OfferedTrips(sc, scope), Offered(sc, scope);
    var keep := (q: Primitive) => Retained(ps, sc.required, sc.home, q.id);
    FilterConcat(care, trips, keep);
    FilterKeepsDistinctIds(ps, keep);
  }

  lemma TextPreorder()
    ensures Preorder(TextLeq)
  {
    forall x, y ensures TextLeq(x, y) || TextLeq(y, x) {
      TextTotal(x, y);
    }
    forall x, y, z | TextLeq(x, y) && TextLeq(y, z) ensures TextLeq(x, z) {
      TextTransitive(x, y, z);
    }
  }

  lemma CarePreorder()
    ensures Preorder(CareLeq)
  {
    TextPreorder();
    forall a, b, c | CareLeq(a, b) && CareLeq(b, c) ensures CareLeq(a, c) {
    }
    forall a, b ensures CareLeq(a, b) || CareLeq(b, a) {
    }
  }

  lemma TransportPreorder()
    ensures Preorder(TransportLeq)
  {
    TextPreorder();
    forall a, b, c | TransportLeq(a, b) && TransportLeq(b, c) ensures TransportLeq(a, c) {
      TransportTransitive(a, b, c);
    }
    forall a, b ensures TransportLeq(a, b) || TransportLeq(b, a) {
      TextTotal(Transporter(a), Transporter(b));
      TextTotal(a.location, b.location);
    }
  }

  lemma TransportTransitive(a: Primitive, b: Primitive, c: Primitive)
    requires TransportLeq(a, b) && TransportLeq(b, c)
    ensures TransportLeq(a, c)
  {
    TextPreorder();
    if a.window == b.window == c.window && a.TransportPrimitive? && b.TransportPrimitive? && c.TransportPrimitive? {
      TextAntisymmetric(a.transporter, b.transporter);
      TextAntisymmetric(b.transporter, c.transporter);
      TextAntisymmetric(a.location, b.location);
      TextAntisymmetric(b.location, c.location);
    }
  }

  lemma TextAntisymmetric(x: string, y: string)
    ensures TextLeq(x, y) && TextLeq(y, x) ==> x == y
  {
    TextTotal(x, y);
  }

  /** In order of start and then of end. */
  predicate InTimeOrder(ps: seq<Primitive>) {
    forall i, j :: 0 <= i < j < |ps| ==>
      ps[i].window.start < ps[j].window.start
      || (ps[i].window.start == ps[j].window.start && ps[i].window.end <= ps[j].window.end)
  }

  lemma {:induction false} FilterStaysInOrder(ps: seq<Primitive>, keep: Primitive -> bool)
    requires InTimeOrder(ps)
    ensures InTimeOrder(Filter(ps, keep))
  {
    if ps != [] {
      var init, last := ps[..|ps|-1], ps[|ps|-1];
      FilterStaysInOrder(init, keep);
      FilterMember(init, keep);
      var kept := Filter(init, keep);
      forall i | 0 <= i < |kept| ensures WindowLeq(kept[i].window, last.window) {
        assert kept[i] in init;
        var j :| 0 <= j < |init| && init[j] == kept[i];
      }
      assert Filter(ps, keep) == if keep(last) then kept + [last] else kept;
    }
  }

  lemma SortedInTime(leq: (Primitive, Primitive) -> bool, ps: seq<Primitive>)
    requires leq == CareLeq || leq == TransportLeq
    ensures InTimeOrder(Sort(leq, ps))
  {
    CarePreorder();
    TransportPreorder();
    SortOrders(leq, ps);
  }

  /** What a matrix holds is listed in order of time. */
  lemma MatrixIsInOrder(sc: Scenario, scope: Option<Scope>, m: Matrix)
    requires MatrixOf(sc, scope) == Ok(m)
    ensures InTimeOrder(m.care) && InTimeOrder(m.transport)
  {
    hide CarePrimitives, TransportPrimitives, ScopedCareItems, ScopedTripItems, Sort, InTimeOrder, Retained;
    OfferedInOrder(sc, scope);
    var ps := Offered(sc, scope);
    FilterStaysInOrder(OfferedCare(sc, scope), (q: Primitive) => Retained(ps, sc.required, sc.home, q.id));
    FilterStaysInOrder(OfferedTrips(sc, scope), (q: Primitive) => Retained(ps, sc.required, sc.home, q.id));
  }

  lemma OfferedInOrder(sc: Scenario, scope: Option<Scope>)
    ensures InTimeOrder(OfferedCare(sc, scope)) && InTimeOrder(OfferedTrips(sc, scope))
  {
    var trips := TransportPrimitives(sc);
    SortedInTime(TransportLeq, Values(ByKey(AllTrips(sc), InitialTripKey)));
    SortedInTime(CareLeq, FlatMap(FeasibleCaregivers(sc), (c: Caregiver) => CaregiverCare(sc, trips, c))
                          + FlatMap(Parents(sc), (parent: string) => ParentCare(sc, trips, parent)));
    if scope.Some? {
      SortedInTime(CareLeq, Values(ByKey(ScopedCareItems(CarePrimitives(sc, trips), scope.value), CareKeyOf)));
      SortedInTime(TransportLeq, Values(ByKey(ScopedTripItems(trips, scope.value), ScopedTripKey)));
    }
  }
}
