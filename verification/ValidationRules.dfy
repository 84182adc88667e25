/** What the plan validator finds wrong with a plan, finding by finding, and beside it an
    independent description of a safe day; the two agree on every plan and every scenario. */
module ValidationRules {
  import opened Prelude
  import opened Intervals
  import opened Domain

  datatype IssueCode =
    | DuplicateSegmentId | GapInCoverage | OverlapInCoverage | HandoffInfeasible
    | CaregiverUnavailable | CaregiverUntrusted | ParentCriticalConflict
    | MovableEventChangeRequired | UnsupportedPerson | UnsupportedCalendarEvent
    | HardPolicyViolation | LocationTransitionInvalid | InsufficientTravelTime
    | TransporterUnavailable | PreservedSegmentChanged

  datatype Issue = Issue(
    code: IssueCode, subject: Option<string>, segment: Option<string>, event: Option<string>)

  function AboutSegment(code: IssueCode, s: Segment): Issue {
    Issue(code, None, Some(s.id), None)
  }

  function AboutPerson(code: IssueCode, person: string, s: Segment): Issue {
    Issue(code, Some(person), Some(s.id), None)
  }

  function When(wrong: bool, issue: Issue): (r: seq<Issue>)
    ensures r == [] <==> !wrong
  {
    if wrong then [issue] else []
  }

  /** Consecutive pairs, as `zip(s, s[1:])`. */
  function Pairs(s: seq<Segment>): seq<(Segment, Segment)> {
    seq(if |s| == 0 then 0 else |s| - 1, i requires 0 <= i < |s| - 1 => (s[i], s[i+1]))
  }

  // ---------------------------------------------------------------- facts looked up

  /** One-way minutes between home and every other known place; a later caregiver wins. */
  function TravelFromHome(sc: Scenario): Dict<string, Caregiver> {
    ByKey(Filter(Reachable(sc), (c: Caregiver) => c.location != sc.home), (c: Caregiver) => c.location)
  }

  function MinutesFromHome(sc: Scenario, place: string): Option<nat> {
    match Get(TravelFromHome(sc), place)
    case Some(c) => Some(c.travelMinutes)
    case None => None
  }

  function TravelMinutes(sc: Scenario, origin: string, destination: string): Option<nat> {
    if origin == destination then Some(0)
    else if origin == sc.home then MinutesFromHome(sc, destination)
    else if destination == sc.home then MinutesFromHome(sc, origin)
    else None
  }

  predicate KnownPlace(sc: Scenario, place: string) {
    place == sc.home || exists c :: c in Reachable(sc) && c.location == place
  }

  function Driver(sc: Scenario, person: string): Option<ParentTransport> {
    Get(ByKey(sc.transport, (t: ParentTransport) => t.parent), person)
  }

  /** Someone is available for the whole of a window only if one of their windows contains it. */
  predicate FitsOne(w: Window, availability: seq<Window>) {
    exists a :: a in availability && Within(w, a)
  }

  function RequiredBuffer(sc: Scenario, current: Segment): nat {
    if current.source.ByCaregiver? && Find(sc, current.person).Some? then
      var own := Find(sc, current.person).value.handoffMinutes;
      if sc.policy.handoffMinutes >= own then sc.policy.handoffMinutes else own
    else sc.policy.handoffMinutes
  }

  predicate Protected(e: CalendarEvent) {
    e.critical || !e.movable
  }

  // ---------------------------------------------------------------- findings

  function IdFindings(segments: seq<Segment>): seq<Issue> {
    When(!Distinct(Map(segments, (s: Segment) => s.id)), Issue(DuplicateSegmentId, None, None, None))
  }

  function EdgeFindings(segments: seq<Segment>, required: Window): seq<Issue> {
    if segments == [] then [Issue(GapInCoverage, None, None, None)]
    else
      When(segments[0].window.start != required.start, AboutSegment(GapInCoverage, segments[0]))
      + When(segments[|segments|-1].window.end != required.end,
             AboutSegment(GapInCoverage, segments[|segments|-1]))
  }

  function OutsideFindings(s: Segment, required: Window): seq<Issue> {
    When(!Within(s.window, required), AboutSegment(HardPolicyViolation, s))
  }

  function HandoffFindings(sc: Scenario, previous: Segment, current: Segment): seq<Issue> {
    var delta := current.window.start - previous.window.end;
    if previous.person == current.person then
      When(delta > 0, AboutSegment(GapInCoverage, current))
      + When(delta < 0, AboutSegment(OverlapInCoverage, current))
    else
      var overlap := if delta >= 0 then 0 else -delta / 60;
      var buffer := RequiredBuffer(sc, current);
      When(delta > 0, AboutSegment(GapInCoverage, current))
      + When(overlap < buffer, AboutSegment(HandoffInfeasible, current))
      + When(overlap > buffer, AboutSegment(OverlapInCoverage, current))
  }

  function AssignmentFindings(sc: Scenario, s: Segment): seq<Issue> {
    if s.source.ByParent? then
      When(s.person !in sc.parents, AboutPerson(UnsupportedPerson, s.person, s))
    else
      match Find(sc, s.person)
      case None => [AboutPerson(UnsupportedPerson, s.person, s)]
      case Some(c) =>
        When(s.person in sc.unavailable, AboutPerson(CaregiverUnavailable, s.person, s))
        + When(c.external && !sc.policy.allowExternal, AboutPerson(HardPolicyViolation, s.person, s))
        + When((sc.policy.requireTrusted || !sc.policy.allowUnapproved) && !c.trusted,
               AboutPerson(CaregiverUntrusted, s.person, s))
        + When(!FitsOne(s.window, c.availability), AboutPerson(CaregiverUnavailable, s.person, s))
  }

  function TransporterFindings(sc: Scenario, s: Segment): seq<Issue>
    requires s.kind.Transport?
  {
    var driver := s.transporter.value;
    var parent := Driver(sc, driver);
    var caregiver := Find(sc, driver);
    var capable := (parent.Some? && parent.value.drives)
      || (caregiver.Some? && caregiver.value.drives
          && (!caregiver.value.external || (sc.policy.allowProviderTransport && sc.policy.allowExternal)));
    var availability := if parent.Some? then parent.value.availability
                        else if caregiver.Some? then caregiver.value.availability else [];
    When(!capable || !FitsOne(s.window, availability), AboutPerson(TransporterUnavailable, driver, s))
    + DriverEventFindings(sc, s, driver)
  }

  function DriverEventFinding(s: Segment, driver: string, e: CalendarEvent): seq<Issue> {
    When(e.owner == driver && Overlap(s.window, e.window) && Protected(e),
         Issue(ParentCriticalConflict, Some(driver), Some(s.id), Some(e.id)))
  }

  function DriverEventFindings(sc: Scenario, s: Segment, driver: string): seq<Issue> {
    FlatMap(sc.events, (e: CalendarEvent) => DriverEventFinding(s, driver, e))
  }

  function TravelFindings(sc: Scenario, s: Segment): seq<Issue>
    requires s.kind.Transport?
  {
    var destination := s.destination.value;
    When(!KnownPlace(sc, destination) || destination == s.location,
         AboutSegment(LocationTransitionInvalid, s))
    + (match TravelMinutes(sc, s.location, destination)
       case None => [AboutSegment(LocationTransitionInvalid, s)]
       case Some(minutes) =>
         When((s.window.end - s.window.start) / 60 < minutes, AboutSegment(InsufficientTravelTime, s)))
  }

  function PlaceFindings(sc: Scenario, s: Segment): seq<Issue> {
    When(!KnownPlace(sc, s.location), AboutSegment(LocationTransitionInvalid, s))
    + if s.kind.Care? then
        match Find(sc, s.person)
        case None => []
        case Some(c) => When(s.location != c.location, AboutPerson(LocationTransitionInvalid, c.id, s))
      else
        TravelFindings(sc, s)
        + TransporterFindings(sc, s)
  }

  function MoveFindings(previous: Segment, current: Segment): seq<Issue> {
    When(EndPlace(previous) != current.location, AboutSegment(LocationTransitionInvalid, current))
  }

  function EventsById(events: seq<CalendarEvent>): Dict<string, CalendarEvent> {
    ByKey(events, (e: CalendarEvent) => e.id)
  }

  function ChangeFindings(sc: Scenario, change: CalendarEvent): seq<Issue> {
    match Get(EventsById(sc.events), change.id)
    case None => [Issue(UnsupportedCalendarEvent, Some(change.owner), None, Some(change.id))]
    case Some(original) =>
      if Protected(original) then
        [Issue(ParentCriticalConflict, Some(change.owner), None, Some(change.id))]
      else
        When(change.owner != original.owner,
             Issue(UnsupportedCalendarEvent, Some(change.owner), None, Some(change.id)))
  }

  function ConflictFindings(s: Segment, e: CalendarEvent, changes: seq<CalendarEvent>): seq<Issue> {
    if s.source.ByCaregiver? || e.owner != s.person || !Overlap(s.window, e.window) then []
    else if Protected(e) then [Issue(ParentCriticalConflict, Some(s.person), Some(s.id), Some(e.id))]
    else
      var moved := Get(EventsById(changes), e.id);
      When(moved.None? || Overlap(s.window, moved.value.window),
           Issue(MovableEventChangeRequired, Some(s.person), Some(s.id), Some(e.id)))
  }

  function CalendarFindings(sc: Scenario, s: Segment, changes: seq<CalendarEvent>): seq<Issue> {
    FlatMap(sc.events, (e: CalendarEvent) => ConflictFindings(s, e, changes))
  }

  function AllBounds(segments: seq<Segment>, required: Window): seq<Issue> {
    FlatMap(segments, (s: Segment) => OutsideFindings(s, required))
  }

  function AllHandoffs(sc: Scenario, pairs: seq<(Segment, Segment)>): seq<Issue> {
    FlatMap(pairs, (p: (Segment, Segment)) => HandoffFindings(sc, p.0, p.1))
  }

  function CoverageFindings(sc: Scenario, segments: seq<Segment>): seq<Issue> {
    EdgeFindings(segments, sc.required)
    + AllBounds(segments, sc.required)
    + AllHandoffs(sc, Pairs(segments))
  }

  function AllAssignments(sc: Scenario, segments: seq<Segment>): seq<Issue> {
    FlatMap(segments, (s: Segment) => AssignmentFindings(sc, s))
  }

  function AllPlacements(sc: Scenario, segments: seq<Segment>): seq<Issue> {
    FlatMap(segments, (s: Segment) => PlaceFindings(sc, s))
  }

  function AllMoves(pairs: seq<(Segment, Segment)>): seq<Issue> {
    FlatMap(pairs, (p: (Segment, Segment)) => MoveFindings(p.0, p.1))
  }

  function AllPlaces(sc: Scenario, segments: seq<Segment>): seq<Issue> {
    AllPlacements(sc, segments) + AllMoves(Pairs(segments))
  }

  function AllChanges(sc: Scenario, changes: seq<CalendarEvent>): seq<Issue> {
    FlatMap(changes, (c: CalendarEvent) => ChangeFindings(sc, c))
  }

  function AllConflicts(sc: Scenario, segments: seq<Segment>, changes: seq<CalendarEvent>): seq<Issue> {
    FlatMap(segments, (s: Segment) => CalendarFindings(sc, s, changes))
  }

  function AllCalendars(sc: Scenario, segments: seq<Segment>, changes: seq<CalendarEvent>): seq<Issue> {
    AllChanges(sc, changes) + AllConflicts(sc, segments, changes)
  }

  /** Everything wrong with segments already in order of start and end. */
  function Findings(sc: Scenario, segments: seq<Segment>, changes: seq<CalendarEvent>): seq<Issue> {
    (IdFindings(segments) + CoverageFindings(sc, segments))
    + (AllAssignments(sc, segments) + AllPlaces(sc, segments))
    + AllCalendars(sc, segments, changes)
  }

  // ---------------------------------------------------------------- a safe day

  /** A handoff overlaps by the required buffer and by less than one minute more; the same
      person simply carries on. */
  predicate HandoffOk(sc: Scenario, previous: Segment, current: Segment) {
    if previous.person == current.person then current.window.start == previous.window.end
    else
      var overlap := previous.window.end - current.window.start;
      60 * RequiredBuffer(sc, current) <= overlap < 60 * RequiredBuffer(sc, current) + 60
  }

  ghost predicate AssignmentOk(sc: Scenario, s: Segment) {
    if s.source.ByParent? then s.person in sc.parents
    else
      && s.person !in sc.unavailable
      && Find(sc, s.person).Some?
      && var c := Find(sc, s.person).value;
         && (c.external ==> sc.policy.allowExternal)
         && (c.trusted || (!sc.policy.requireTrusted && sc.policy.allowUnapproved))
         && exists a :: a in c.availability && Within(s.window, a)
  }

  /** The driver may and can drive throughout the trip, with no protected event in the way. */
  ghost predicate DriverOk(sc: Scenario, driver: string, trip: Window) {
    && (match Driver(sc, driver)
        case Some(parent) =>
          && FitsOne(trip, parent.availability)
          && (parent.drives || (Find(sc, driver).Some? && MayDrive(sc, Find(sc, driver).value)))
        case None =>
          && Find(sc, driver).Some?
          && FitsOne(trip, Find(sc, driver).value.availability)
          && MayDrive(sc, Find(sc, driver).value))
    && (forall e :: e in sc.events && e.owner == driver && Protected(e) ==> !Overlap(trip, e.window))
  }

  predicate MayDrive(sc: Scenario, c: Caregiver) {
    c.drives && (c.external ==> sc.policy.allowProviderTransport && sc.policy.allowExternal)
  }

  ghost predicate PlaceOk(sc: Scenario, s: Segment) {
    && KnownPlace(sc, s.location)
    && (s.kind.Care? ==> Find(sc, s.person).Some? ==> s.location == Find(sc, s.person).value.location)
    && (s.kind.Transport? ==>
          && KnownPlace(sc, s.destination.value)
          && s.destination.value != s.location
          && TravelMinutes(sc, s.location, s.destination.value).Some?
          && s.window.end - s.window.start >= 60 * TravelMinutes(sc, s.location, s.destination.value).value
          && DriverOk(sc, s.transporter.value, s.window))
  }

  ghost predicate ChangeOk(sc: Scenario, change: CalendarEvent) {
    var original := Get(EventsById(sc.events), change.id);
    original.Some? && !Protected(original.value) && original.value.owner == change.owner
  }

  /** Every event a parent's segment runs into is movable and moved clear of that segment. */
  ghost predicate CalendarOk(sc: Scenario, s: Segment, changes: seq<CalendarEvent>) {
    s.source.ByParent? ==>
      forall e :: e in sc.events && e.owner == s.person && Overlap(s.window, e.window) ==>
        && !Protected(e)
        && Get(EventsById(changes), e.id).Some?
        && !Overlap(s.window, Get(EventsById(changes), e.id).value.window)
  }

  ghost predicate SegmentOk(sc: Scenario, s: Segment, changes: seq<CalendarEvent>) {
    Within(s.window, sc.required) && AssignmentOk(sc, s) && PlaceOk(sc, s) && CalendarOk(sc, s, changes)
  }

  ghost predicate DistinctIds(segments: seq<Segment>) {
    forall i, j :: 0 <= i < j < |segments| ==> segments[i].id != segments[j].id
  }

  /** The segments reach from end to end of the required window, stay inside it and hand over. */
  ghost predicate SpansAndHandsOver(sc: Scenario, segments: seq<Segment>) {
    && segments != []
    && segments[0].window.start == sc.required.start
    && segments[|segments|-1].window.end == sc.required.end
    && (forall s :: s in segments ==> Within(s.window, sc.required))
    && (forall i :: 0 <= i < |segments| - 1 ==> HandoffOk(sc, segments[i], segments[i+1]))
  }

  ghost predicate EverythingInPlace(sc: Scenario, segments: seq<Segment>) {
    && (forall s :: s in segments ==> PlaceOk(sc, s))
    && (forall i :: 0 <= i < |segments| - 1 ==> EndPlace(segments[i]) == segments[i+1].location)
  }

  ghost predicate CalendarsInOrder(sc: Scenario, segments: seq<Segment>, changes: seq<CalendarEvent>) {
    && (forall c :: c in changes ==> ChangeOk(sc, c))
    && (forall s :: s in segments ==> CalendarOk(sc, s, changes))
  }

  ghost predicate SafeDay(sc: Scenario, segments: seq<Segment>, changes: seq<CalendarEvent>) {
    && DistinctIds(segments)
    && segments != []
    && segments[0].window.start == sc.required.start
    && segments[|segments|-1].window.end == sc.required.end
    && (forall s :: s in segments ==> SegmentOk(sc, s, changes))
    && (forall i :: 0 <= i < |segments| - 1 ==>
          HandoffOk(sc, segments[i], segments[i+1]) && EndPlace(segments[i]) == segments[i+1].location)
    && (forall c :: c in changes ==> ChangeOk(sc, c))
  }

  // ---------------------------------------------------------------- the two agree

  lemma FloorMinutes(seconds: nat, minutes: nat)
    ensures seconds / 60 < minutes <==> seconds < 60 * minutes
  {
  }

  lemma HandoffAgrees(sc: Scenario, previous: Segment, current: Segment)
    ensures HandoffFindings(sc, previous, current) == [] <==> HandoffOk(sc, previous, current)
  {
    var overlap := previous.window.end - current.window.start;
    if overlap >= 0 {
      FloorMinutes(overlap, RequiredBuffer(sc, current));
      FloorMinutes(overlap, RequiredBuffer(sc, current) + 1);
    }
  }

  lemma AssignmentAgrees(sc: Scenario, s: Segment)
    ensures AssignmentFindings(sc, s) == [] <==> AssignmentOk(sc, s)
  {
  }

  lemma DriverAgrees(sc: Scenario, s: Segment)
    requires s.kind.Transport?
    ensures TransporterFindings(sc, s) == [] <==> DriverOk(sc, s.transporter.value, s.window)
  {
    var driver := s.transporter.value;
    FlatMapEmpty(sc.events, (e: CalendarEvent) => DriverEventFinding(s, driver, e));
  }

  lemma PlaceAgrees(sc: Scenario, s: Segment)
    ensures PlaceFindings(sc, s) == [] <==> PlaceOk(sc, s)
  {
    if s.kind.Transport? {
      DriverAgrees(sc, s);
      var minutes := TravelMinutes(sc, s.location, s.destination.value);
      if minutes.Some? {
        FloorMinutes(s.window.end - s.window.start, minutes.value);
      }
    }
  }

  lemma CalendarAgrees(sc: Scenario, s: Segment, changes: seq<CalendarEvent>)
    ensures CalendarFindings(sc, s, changes) == [] <==> CalendarOk(sc, s, changes)
  {
    FlatMapEmpty(sc.events, (e: CalendarEvent) => ConflictFindings(s, e, changes));
  }

  lemma CaregiversHaveNoEvents(sc: Scenario, s: Segment, changes: seq<CalendarEvent>)
    ensures s.source.ByCaregiver? ==> CalendarFindings(sc, s, changes) == []
  {
    CalendarAgrees(sc, s, changes);
  }

  lemma PairsEmpty(segments: seq<Segment>, f: ((Segment, Segment)) -> seq<Issue>)
    ensures FlatMap(Pairs(segments), f) == []
      <==> forall i :: 0 <= i < |segments| - 1 ==> f((segments[i], segments[i+1])) == []
  {
    var pairs := Pairs(segments);
    FlatMapEmpty(pairs, f);
    forall i | 0 <= i < |segments| - 1 ensures (segments[i], segments[i+1]) in pairs {
      assert pairs[i] == (segments[i], segments[i+1]);
    }
  }

  lemma CoverageAgrees(sc: Scenario, segments: seq<Segment>)
    ensures CoverageFindings(sc, segments) == [] <==> SpansAndHandsOver(sc, segments)
  {
    FlatMapEmpty(segments, (s: Segment) => OutsideFindings(s, sc.required));
    PairsEmpty(segments, (p: (Segment, Segment)) => HandoffFindings(sc, p.0, p.1));
    hide HandoffFindings, HandoffOk;
    forall i | 0 <= i < |segments| - 1
      ensures HandoffFindings(sc, segments[i], segments[i+1]) == [] <==> HandoffOk(sc, segments[i], segments[i+1])
    {
      HandoffAgrees(sc, segments[i], segments[i+1]);
    }
  }

  lemma AssignmentsAgree(sc: Scenario, segments: seq<Segment>)
    ensures AllAssignments(sc, segments) == [] <==> forall s :: s in segments ==> AssignmentOk(sc, s)
  {
    FlatMapEmpty(segments, (s: Segment) => AssignmentFindings(sc, s));
    hide AssignmentFindings, AssignmentOk;
    forall s | s in segments ensures AssignmentFindings(sc, s) == [] <==> AssignmentOk(sc, s) {
      AssignmentAgrees(sc, s);
    }
  }

  lemma PlacesAgree(sc: Scenario, segments: seq<Segment>)
    ensures AllPlaces(sc, segments) == [] <==> EverythingInPlace(sc, segments)
  {
    FlatMapEmpty(segments, (s: Segment) => PlaceFindings(sc, s));
    PairsEmpty(segments, (p: (Segment, Segment)) => MoveFindings(p.0, p.1));
    hide PlaceFindings, PlaceOk;
    forall s | s in segments ensures PlaceFindings(sc, s) == [] <==> PlaceOk(sc, s) {
      PlaceAgrees(sc, s);
    }
  }

  lemma CalendarsAgree(sc: Scenario, segments: seq<Segment>, changes: seq<CalendarEvent>)
    ensures AllCalendars(sc, segments, changes) == [] <==> CalendarsInOrder(sc, segments, changes)
  {
    FlatMapEmpty(changes, (c: CalendarEvent) => ChangeFindings(sc, c));
    FlatMapEmpty(segments, (s: Segment) => CalendarFindings(sc, s, changes));
    hide CalendarFindings, CalendarOk;
    forall s | s in segments ensures CalendarFindings(sc, s, changes) == [] <==> CalendarOk(sc, s, changes) {
      CalendarAgrees(sc, s, changes);
    }
  }

  /** The validator finds nothing exactly when the day is safe. */
  lemma FindingsAgree(sc: Scenario, segments: seq<Segment>, changes: seq<CalendarEvent>)
    ensures Findings(sc, segments, changes) == [] <==> SafeDay(sc, segments, changes)
  {
    hide CoverageFindings, AllAssignments, AllPlaces, AllCalendars;
    hide HandoffOk, AssignmentOk, PlaceOk, CalendarOk, ChangeOk;
    CoverageAgrees(sc, segments);
    AssignmentsAgree(sc, segments);
    PlacesAgree(sc, segments);
    CalendarsAgree(sc, segments, changes);
    var ids := Map(segments, (s: Segment) => s.id);
    assert Distinct(ids) <==> DistinctIds(segments);
  }
}
