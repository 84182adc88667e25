/** The plan validator: a shared list of issues that every check appends to, authoritative
    prices, and the reasons a valid plan still needs permission. */
module PlanValidator {
  import opened Prelude
  import opened Sorting
  import opened Intervals
  import opened Domain
  import opened ValidationRules
  import opened Costs

  datatype Verdict = Verdict(
    valid: bool, issues: seq<Issue>, cost: Money, requiresApproval: bool, plan: Plan)

  predicate PaysUnfamiliar(sc: Scenario, s: Segment) {
    var payee := Payee(sc, s);
    payee.Some? && payee.value.external && !payee.value.known && !payee.value.price.Unpriced?
    && payee.value.price.rate > 0.0
  }

  function ApprovalReasons(sc: Scenario, segments: seq<Segment>, total: Money): seq<Reason> {
    (if total > sc.policy.spendLimit then [CostAboveLimit] else [])
    + (if sc.policy.approveUnfamiliarPaid && exists s :: s in segments && PaysUnfamiliar(sc, s)
       then [UnfamiliarPaidCaregiver] else [])
  }

  function InOrder(segments: seq<Segment>): seq<Segment> {
    Sort(SegmentLeq, segments)
  }

  function Validation(sc: Scenario, plan: Plan): Verdict {
    var segments := InOrder(plan.segments);
    var issues := Findings(sc, segments, plan.changes);
    var priced := Priced(sc, segments, {});
    var total := TotalCost(sc, segments);
    var reasons := ApprovalReasons(sc, priced, total);
    Verdict(issues == [], issues, total, reasons != [],
            plan.(segments := priced, cost := total,
                  state := if issues == [] then Valid else Invalid, reasons := reasons))
  }

  /** The candidate keeps the accepted interval and everything material about it. */
  predicate Survives(preserved: Segment, candidate: Segment) {
    && Within(preserved.window, candidate.window)
    && candidate.person == preserved.person && candidate.source == preserved.source
    && candidate.kind == preserved.kind && candidate.location == preserved.location
    && candidate.destination == preserved.destination && candidate.transporter == preserved.transporter
  }

  function PreservationFinding(preserved: Segment, segments: seq<Segment>): seq<Issue> {
    When(!exists s :: s in segments && Survives(preserved, s),
         AboutPerson(PreservedSegmentChanged, preserved.person, preserved))
  }

  function RepairValidation(sc: Scenario, plan: Plan, preserved: seq<Segment>): Verdict {
    var base := Validation(sc, plan);
    var lost := FlatMap(preserved, (p: Segment) => PreservationFinding(p, plan.segments));
    if lost == [] then base
    else base.(valid := false, issues := base.issues + lost, plan := base.plan.(state := Invalid))
  }

  // ---------------------------------------------------------------- the checks as written

  /** The list of issues that all checks share and append to. */
  class IssueLog {
    var items: seq<Issue>

    constructor ()
      ensures items == []
    {
      items := [];
    }

    method Append(issue: Issue)
      modifies this
      ensures items == old(items) + [issue]
    {
      items := items + [issue];
    }

    method Extend(issues: seq<Issue>)
      modifies this
      ensures items == old(items) + issues
    {
      items := items + issues;
    }
  }

  method ValidateUniqueSegmentIds(segments: seq<Segment>, log: IssueLog)
    modifies log
    ensures log.items == old(log.items) + IdFindings(segments)
  {
    var seen: set<string> := {};
    var duplicate := false;
    for i := 0 to |segments|
      invariant seen == set j | 0 <= j < i :: segments[j].id
      invariant duplicate <==> exists j, k :: 0 <= j < k < i && segments[j].id == segments[k].id
    {
      duplicate := duplicate || segments[i].id in seen;
      seen := seen + {segments[i].id};
    }
    if duplicate {
      log.Append(Issue(DuplicateSegmentId, None, None, None));
    }
    var ids := Map(segments, (s: Segment) => s.id);
    assert Distinct(ids) <==> !duplicate;
  }

  /** One handoff: a gap, an overlap, too short a buffer or too long a one. */
  method CheckHandoff(sc: Scenario, previous: Segment, current: Segment, log: IssueLog)
    modifies log
    ensures log.items == old(log.items) + HandoffFindings(sc, previous, current)
    ensures log.items == old(log.items) <==> HandoffOk(sc, previous, current)
  {
    HandoffAgrees(sc, previous, current);
    var delta := current.window.start - previous.window.end;
    if previous.person == current.person {
      if delta > 0 {
        log.Append(AboutSegment(GapInCoverage, current));
      } else if delta < 0 {
        log.Append(AboutSegment(OverlapInCoverage, current));
      }
      return;
    }
    var buffer := sc.policy.handoffMinutes;
    if current.source.ByCaregiver? {
      var caregiver := Find(sc, current.person);
      if caregiver.Some? && caregiver.value.handoffMinutes > buffer {
        buffer := caregiver.value.handoffMinutes;
      }
    }
    var overlap := if delta >= 0 then 0 else -delta / 60;
    if delta > 0 {
      log.Append(AboutSegment(GapInCoverage, current));
    }
    if overlap < buffer {
      log.Append(AboutSegment(HandoffInfeasible, current));
    } else if overlap > buffer {
      log.Append(AboutSegment(OverlapInCoverage, current));
    }
  }

  method CheckEdges(segments: seq<Segment>, required: Window, log: IssueLog)
    modifies log
    ensures log.items == old(log.items) + EdgeFindings(segments, required)
  {
    if segments == [] {
      log.Append(Issue(GapInCoverage, None, None, None));
      return;
    }
    if segments[0].window.start != required.start {
      log.Append(AboutSegment(GapInCoverage, segments[0]));
    }
    if segments[|segments|-1].window.end != required.end {
      log.Append(AboutSegment(GapInCoverage, segments[|segments|-1]));
    }
  }

  lemma NothingToBound(sc: Scenario)
    ensures AllBounds([], sc.required) == [] && AllHandoffs(sc, Pairs([])) == []
  {
  }

  method CheckBounds(segments: seq<Segment>, required: Window, log: IssueLog)
    modifies log
    ensures log.items == old(log.items) + AllBounds(segments, required)
  {
    for i := 0 to |segments|
      invariant log.items == old(log.items) + AllBounds(segments[..i], required)
    {
      FlatMapStep(segments, i, (s: Segment) => OutsideFindings(s, required));
      var segment := segments[i];
      if segment.window.start < required.start || segment.window.end > required.end {
        log.Append(AboutSegment(HardPolicyViolation, segment));
      }
    }
    assert segments[..|segments|] == segments;
  }

  method CheckHandoffs(sc: Scenario, segments: seq<Segment>, log: IssueLog)
    modifies log
    ensures log.items == old(log.items) + AllHandoffs(sc, Pairs(segments))
  {
    hide HandoffFindings, HandoffOk;
    var pairs := Pairs(segments);
    for i := 0 to |pairs|
      invariant log.items == old(log.items) + AllHandoffs(sc, pairs[..i])
    {
      FlatMapStep(pairs, i, (p: (Segment, Segment)) => HandoffFindings(sc, p.0, p.1));
      CheckHandoff(sc, segments[i], segments[i+1], log);
    }
    assert pairs[..|pairs|] == pairs;
  }

  /** Nothing is appended exactly when the segments span the required window, stay inside it and
      hand over as required. */
  method ValidateCoverageAndHandoffs(sc: Scenario, segments: seq<Segment>, log: IssueLog)
    modifies log
    ensures log.items == old(log.items) + CoverageFindings(sc, segments)
    ensures log.items == old(log.items) <==> SpansAndHandsOver(sc, segments)
  {
    CoverageAgrees(sc, segments);
    hide HandoffFindings, HandoffOk, SpansAndHandsOver, AllBounds, AllHandoffs, EdgeFindings;
    CheckEdges(segments, sc.required, log);
    if segments == [] {
      NothingToBound(sc);
      return;
    }
    CheckBounds(segments, sc.required, log);
    CheckHandoffs(sc, segments, log);
  }

  method CheckAssignment(sc: Scenario, s: Segment, log: IssueLog)
    modifies log
    ensures log.items == old(log.items) + AssignmentFindings(sc, s)
  {
    if s.source.ByParent? {
      if s.person !in sc.parents {
        log.Append(AboutPerson(UnsupportedPerson, s.person, s));
      }
      return;
    }
    var found := Find(sc, s.person);
    if found.None? {
      log.Append(AboutPerson(UnsupportedPerson, s.person, s));
      return;
    }
    var caregiver := found.value;
    if s.person in sc.unavailable {
      log.Append(AboutPerson(CaregiverUnavailable, s.person, s));
    }
    if caregiver.external && !sc.policy.allowExternal {
      log.Append(AboutPerson(HardPolicyViolation, s.person, s));
    }
    if (sc.policy.requireTrusted || !sc.policy.allowUnapproved) && !caregiver.trusted {
      log.Append(AboutPerson(CaregiverUntrusted, s.person, s));
    }
    if !exists a :: a in caregiver.availability && Within(s.window, a) {
      log.Append(AboutPerson(CaregiverUnavailable, s.person, s));
    }
  }

  /** Nothing is appended exactly when every person may and can take their segment. */
  method ValidateAssignments(sc: Scenario, segments: seq<Segment>, log: IssueLog)
    modifies log
    ensures log.items == old(log.items) + AllAssignments(sc, segments)
    ensures log.items == old(log.items) <==> forall s :: s in segments ==> AssignmentOk(sc, s)
  {
    AssignmentsAgree(sc, segments);
    hide AssignmentFindings, AssignmentOk;
    for i := 0 to |segments|
      invariant log.items == old(log.items) + AllAssignments(sc, segments[..i])
    {
      FlatMapStep(segments, i, (s: Segment) => AssignmentFindings(sc, s));
      CheckAssignment(sc, segments[i], log);
    }
    assert segments[..|segments|] == segments;
  }

  method CheckTransporter(sc: Scenario, s: Segment, log: IssueLog)
    requires s.kind.Transport?
    modifies log
    ensures log.items == old(log.items) + TransporterFindings(sc, s)
  {
    var driver := s.transporter.value;
    var capability, caregiver := Driver(sc, driver), Find(sc, driver);
    var capable := capability.Some? && capability.value.drives;
    if caregiver.Some? && caregiver.value.drives {
      if !caregiver.value.external || (sc.policy.allowProviderTransport && sc.policy.allowExternal) {
        capable := true;
      }
    }
    var availability := [];
    if capability.Some? {
      availability := capability.value.availability;
    } else if caregiver.Some? {
      availability := caregiver.value.availability;
    }
    var available := exists a :: a in availability && Within(s.window, a);
    if !capable || !available {
      log.Append(AboutPerson(TransporterUnavailable, driver, s));
    }
    CheckDriverEvents(sc, s, driver, log);
  }

  method CheckDriverEvents(sc: Scenario, s: Segment, driver: string, log: IssueLog)
    modifies log
    ensures log.items == old(log.items) + DriverEventFindings(sc, s, driver)
  {
    for i := 0 to |sc.events|
      invariant log.items ==
        old(log.items) + FlatMap(sc.events[..i], (e: CalendarEvent) => DriverEventFinding(s, driver, e))
    {
      FlatMapStep(sc.events, i, (e: CalendarEvent) => DriverEventFinding(s, driver, e));
      var event := sc.events[i];
      if event.owner != driver || !Overlap(s.window, event.window) {
        continue;
      }
      if event.critical || !event.movable {
        log.Append(Issue(ParentCriticalConflict, Some(driver), Some(s.id), Some(event.id)));
      }
    }
    assert sc.events[..|sc.events|] == sc.events;
  }

  method CheckTravel(sc: Scenario, s: Segment, log: IssueLog)
    requires s.kind.Transport?
    modifies log
    ensures log.items == old(log.items) + TravelFindings(sc, s)
  {
    var destination := s.destination.value;
    if !KnownPlace(sc, destination) || destination == s.location {
      log.Append(AboutSegment(LocationTransitionInvalid, s));
    }
    var required := TravelMinutes(sc, s.location, destination);
    var actual := (s.window.end - s.window.start) / 60;
    if required.None? {
      log.Append(AboutSegment(LocationTransitionInvalid, s));
    } else if actual < required.value {
      log.Append(AboutSegment(InsufficientTravelTime, s));
    }
  }

  method CheckPlace(sc: Scenario, s: Segment, log: IssueLog)
    modifies log
    ensures log.items == old(log.items) + PlaceFindings(sc, s)
  {
    hide TransporterFindings, TravelFindings, KnownPlace;
    if !KnownPlace(sc, s.location) {
      log.Append(AboutSegment(LocationTransitionInvalid, s));
    }
    if s.kind.Care? {
      var caregiver := Find(sc, s.person);
      if caregiver.Some? && s.location != caregiver.value.location {
        log.Append(AboutPerson(LocationTransitionInvalid, caregiver.value.id, s));
      }
      return;
    }
    CheckTravel(sc, s, log);
    CheckTransporter(sc, s, log);
  }

  method CheckMoves(segments: seq<Segment>, log: IssueLog)
    modifies log
    ensures log.items == old(log.items) + AllMoves(Pairs(segments))
  {
    var pairs := Pairs(segments);
    for i := 0 to |pairs|
      invariant log.items == old(log.items) + AllMoves(pairs[..i])
    {
      FlatMapStep(pairs, i, (p: (Segment, Segment)) => MoveFindings(p.0, p.1));
      var previous, current := segments[i], segments[i+1];
      var previousEnd := if previous.kind.Transport? then previous.destination.value else previous.location;
      if previousEnd != current.location {
        log.Append(AboutSegment(LocationTransitionInvalid, current));
      }
    }
    assert pairs[..|pairs|] == pairs;
  }

  /** Nothing is appended exactly when every segment is in its place and the child is never anywhere
      but where the last segment left them. */
  lemma NothingPlaced(sc: Scenario)
    ensures AllPlacements(sc, []) == []
  {
  }

  lemma PlacementStep(sc: Scenario, segments: seq<Segment>, i: nat)
    requires i < |segments|
    ensures AllPlacements(sc, segments[..i+1]) == AllPlacements(sc, segments[..i]) + PlaceFindings(sc, segments[i])
  {
    FlatMapStep(segments, i, (s: Segment) => PlaceFindings(sc, s));
  }

  method ValidateLocationsAndTransport(sc: Scenario, segments: seq<Segment>, log: IssueLog)
    modifies log
    ensures log.items == old(log.items) + AllPlaces(sc, segments)
    ensures log.items == old(log.items) <==> EverythingInPlace(sc, segments)
  {
    PlacesAgree(sc, segments);
    NothingPlaced(sc);
    hide PlaceFindings, PlaceOk, AllMoves, AllPlacements, EverythingInPlace;
    for i := 0 to |segments|
      invariant log.items == old(log.items) + AllPlacements(sc, segments[..i])
    {
      PlacementStep(sc, segments, i);
      CheckPlace(sc, segments[i], log);
    }
    assert segments[..|segments|] == segments;
    CheckMoves(segments, log);
  }

  method CheckChanges(sc: Scenario, changes: seq<CalendarEvent>, log: IssueLog)
    modifies log
    ensures log.items == old(log.items) + AllChanges(sc, changes)
  {
    var originals := EventsById(sc.events);
    for i := 0 to |changes|
      invariant log.items == old(log.items) + AllChanges(sc, changes[..i])
    {
      FlatMapStep(changes, i, (c: CalendarEvent) => ChangeFindings(sc, c));
      var change := changes[i];
      var original := Get(originals, change.id);
      if original.None? {
        log.Append(Issue(UnsupportedCalendarEvent, Some(change.owner), None, Some(change.id)));
      } else if original.value.critical || !original.value.movable {
        log.Append(Issue(ParentCriticalConflict, Some(change.owner), None, Some(change.id)));
      } else if change.owner != original.value.owner {
        log.Append(Issue(UnsupportedCalendarEvent, Some(change.owner), None, Some(change.id)));
      }
    }
    assert changes[..|changes|] == changes;
  }

  method CheckConflicts(sc: Scenario, s: Segment, changes: seq<CalendarEvent>, log: IssueLog)
    requires s.source.ByParent?
    modifies log
    ensures log.items == old(log.items) + CalendarFindings(sc, s, changes)
  {
    var moves := EventsById(changes);
    for i := 0 to |sc.events|
      invariant log.items == old(log.items)
        + FlatMap(sc.events[..i], (e: CalendarEvent) => ConflictFindings(s, e, changes))
    {
      FlatMapStep(sc.events, i, (e: CalendarEvent) => ConflictFindings(s, e, changes));
      var event := sc.events[i];
      if event.owner != s.person || !Overlap(s.window, event.window) {
        continue;
      }
      if event.critical || !event.movable {
        log.Append(Issue(ParentCriticalConflict, Some(s.person), Some(s.id), Some(event.id)));
        continue;
      }
      var moved := Get(moves, event.id);
      if moved.None? {
        log.Append(Issue(MovableEventChangeRequired, Some(s.person), Some(s.id), Some(event.id)));
      } else if Overlap(s.window, moved.value.window) {
        log.Append(Issue(MovableEventChangeRequired, Some(s.person), Some(s.id), Some(event.id)));
      }
    }
    assert sc.events[..|sc.events|] == sc.events;
  }

  /** Nothing is appended exactly when every change is allowed and every event a parent's segment runs
      into is moved clear of it. */
  method ValidateParentCalendars(
    sc: Scenario, segments: seq<Segment>, changes: seq<CalendarEvent>, log: IssueLog)
    modifies log
    ensures log.items == old(log.items) + AllCalendars(sc, segments, changes)
    ensures log.items == old(log.items) <==> CalendarsInOrder(sc, segments, changes)
  {
    CalendarsAgree(sc, segments, changes);
    hide ChangeFindings, CalendarFindings, ChangeOk, CalendarOk;
    CheckChanges(sc, changes, log);
    ghost var soFar := log.items;
    for i := 0 to |segments|
      invariant log.items == soFar + AllConflicts(sc, segments[..i], changes)
    {
      FlatMapStep(segments, i, (s: Segment) => CalendarFindings(sc, s, changes));
      if segments[i].source.ByParent? {
        CheckConflicts(sc, segments[i], changes, log);
      } else {
        CaregiversHaveNoEvents(sc, segments[i], changes);
      }
    }
    assert segments[..|segments|] == segments;
  }

  method ValidateShape(sc: Scenario, segments: seq<Segment>, log: IssueLog)
    modifies log
    ensures log.items == old(log.items) + (IdFindings(segments) + CoverageFindings(sc, segments))
  {
    hide IdFindings, CoverageFindings;
    ValidateUniqueSegmentIds(segments, log);
    ValidateCoverageAndHandoffs(sc, segments, log);
  }

  method ValidatePeopleAndPlaces(sc: Scenario, segments: seq<Segment>, log: IssueLog)
    modifies log
    ensures log.items == old(log.items) + (AllAssignments(sc, segments) + AllPlaces(sc, segments))
  {
    hide AllAssignments, AllPlaces;
    ValidateAssignments(sc, segments, log);
    ValidateLocationsAndTransport(sc, segments, log);
  }

  /** Every check in turn over one shared list. */
  method CollectIssues(sc: Scenario, segments: seq<Segment>, changes: seq<CalendarEvent>)
    returns (issues: seq<Issue>)
    ensures issues == Findings(sc, segments, changes)
  {
    hide IdFindings, CoverageFindings, AllAssignments, AllPlaces, AllCalendars;
    var log := new IssueLog();
    ValidateShape(sc, segments, log);
    ValidatePeopleAndPlaces(sc, segments, log);
    ValidateParentCalendars(sc, segments, changes, log);
    issues := log.items;
  }

  method CollectReasons(sc: Scenario, segments: seq<Segment>, total: Money)
    returns (reasons: seq<Reason>)
    ensures reasons == ApprovalReasons(sc, segments, total)
  {
    reasons := [];
    if total > sc.policy.spendLimit {
      reasons := reasons + [CostAboveLimit];
    }
    if sc.policy.approveUnfamiliarPaid && exists s :: s in segments && PaysUnfamiliar(sc, s) {
      reasons := reasons + [UnfamiliarPaidCaregiver];
    }
  }

  /** Feasibility, then authoritative prices, then the reasons that call for approval. */
  method Validate(sc: Scenario, plan: Plan) returns (verdict: Verdict)
    ensures verdict == Validation(sc, plan)
  {
    var segments := Sort(SegmentLeq, plan.segments);
    var issues := CollectIssues(sc, segments, plan.changes);
    var priced, total := RecomputeCosts(sc, segments);
    var reasons := CollectReasons(sc, priced, total);
    verdict := Verdict(issues == [], issues, total, reasons != [],
      plan.(segments := priced, cost := total,
            state := if issues == [] then Valid else Invalid, reasons := reasons));
  }

  method CollectLost(preserved: seq<Segment>, segments: seq<Segment>) returns (lost: seq<Issue>)
    ensures lost == FlatMap(preserved, (p: Segment) => PreservationFinding(p, segments))
    ensures lost == [] <==> forall p :: p in preserved ==> exists s :: s in segments && Survives(p, s)
  {
    lost := [];
    for i := 0 to |preserved|
      invariant lost == FlatMap(preserved[..i], (p: Segment) => PreservationFinding(p, segments))
    {
      FlatMapStep(preserved, i, (p: Segment) => PreservationFinding(p, segments));
      if !exists s :: s in segments && Survives(preserved[i], s) {
        lost := lost + [AboutPerson(PreservedSegmentChanged, preserved[i].person, preserved[i])];
      }
    }
    assert preserved[..|preserved|] == preserved;
    FlatMapEmpty(preserved, (p: Segment) => PreservationFinding(p, segments));
  }

  method ValidateRepair(sc: Scenario, plan: Plan, preserved: seq<Segment>) returns (verdict: Verdict)
    ensures verdict == RepairValidation(sc, plan, preserved)
  {
    verdict := Validate(sc, plan);
    var lost := CollectLost(preserved, plan.segments);
    if lost != [] {
      verdict := verdict.(valid := false, issues := verdict.issues + lost,
                          plan := verdict.plan.(state := Invalid));
    }
  }

  // ---------------------------------------------------------------- what a verdict means

  lemma ValidMeansSafe(sc: Scenario, plan: Plan)
    ensures Validation(sc, plan).valid <==> SafeDay(sc, InOrder(plan.segments), plan.changes)
  {
    FindingsAgree(sc, InOrder(plan.segments), plan.changes);
  }

  /** A repair passes exactly when the day is safe and every preserved segment survives in it. */
  lemma ValidRepairMeansSafe(sc: Scenario, plan: Plan, preserved: seq<Segment>)
    ensures RepairValidation(sc, plan, preserved).valid <==>
      && SafeDay(sc, InOrder(plan.segments), plan.changes)
      && forall p :: p in preserved ==> exists s :: s in plan.segments && Survives(p, s)
  {
    ValidMeansSafe(sc, plan);
    FlatMapEmpty(preserved, (p: Segment) => PreservationFinding(p, plan.segments));
  }

  /** Any reason for approval, cost or unfamiliarity, comes from a caregiver's segment. */
  lemma ReasonNeedsCaregiver(sc: Scenario, plan: Plan)
    ensures Validation(sc, plan).plan.reasons != [] ==>
      exists s :: s in Validation(sc, plan).plan.segments && s.source.ByCaregiver?
  {
    var segments := InOrder(plan.segments);
    var priced := Priced(sc, segments, {});
    PricedLength(sc, segments, {});
    if TotalCost(sc, segments) > sc.policy.spendLimit {
      CostNeedsCaregiver(sc, segments, {});
      var s :| s in segments && s.source.ByCaregiver?;
      var i :| 0 <= i < |segments| && segments[i] == s;
      assert priced[i] in priced && priced[i].source.ByCaregiver?;
    } else if s :| s in priced && PaysUnfamiliar(sc, s) {
      assert s.source.ByCaregiver?;
    }
  }

  /** The caregiver is from outside, unknown to the family and asks for more than nothing. */
  predicate UnfamiliarAndPaid(c: Caregiver) {
    && c.external && !c.known
    && match c.price
       case Hourly(rate) => rate > 0.0
       case Flat(rate) => rate > 0.0
       case Unpriced => false
  }

  predicate AsksForUnfamiliar(sc: Scenario, s: Segment) {
    s.source.ByCaregiver? && Find(sc, s.person).Some? && UnfamiliarAndPaid(Find(sc, s.person).value)
  }

  /** When a plan needs the parent's permission, and why: exactly when its cost is above the limit, or when
      the family wants to be asked about unfamiliar paid caregivers and the plan uses one. */
  lemma ReasonsMean(sc: Scenario, plan: Plan)
    ensures var v := Validation(sc, plan);
      && v.plan.cost == v.cost
      && (CostAboveLimit in v.plan.reasons <==> v.cost > sc.policy.spendLimit)
      && (UnfamiliarPaidCaregiver in v.plan.reasons <==>
            sc.policy.approveUnfamiliarPaid && exists s :: s in plan.segments && AsksForUnfamiliar(sc, s))
      && (v.requiresApproval <==> CostAboveLimit in v.plan.reasons || UnfamiliarPaidCaregiver in v.plan.reasons)
  {
    var segments := InOrder(plan.segments);
    var priced := Priced(sc, segments, {});
    PricedLength(sc, segments, {});
    InOrderOrders(plan.segments);
    hide Findings, Priced, TotalCost, InOrder, Find;
    if s :| s in priced && PaysUnfamiliar(sc, s) {
      var i :| 0 <= i < |priced| && priced[i] == s;
      assert segments[i] in segments;
    }
    if s :| s in plan.segments && PaysUnfamiliar(sc, s) {
      var i :| 0 <= i < |segments| && segments[i] == s;
      assert priced[i] in priced && PaysUnfamiliar(sc, priced[i]);
    }
  }

  /** The same person, in the same role and place and with the same trip, for all of the time. */
  predicate StillDoes(s: Segment, work: Segment) {
    && s.window.start <= work.window.start && work.window.end <= s.window.end
    && s.person == work.person && s.source == work.source && s.kind == work.kind && s.location == work.location
    && s.destination == work.destination && s.transporter == work.transporter
  }

  /** A repair is valid exactly when the day is safe and somebody in it still does all preserved work; one
      that puts somebody else in the place of a preserved segment's person is not. */
  lemma ValidRepairKeepsWork(sc: Scenario, plan: Plan, preserved: seq<Segment>)
    ensures RepairValidation(sc, plan, preserved).valid <==>
      && SafeDay(sc, InOrder(plan.segments), plan.changes)
      && forall p :: p in preserved ==> exists s :: s in plan.segments && StillDoes(s, p)
  {
    ValidRepairMeansSafe(sc, plan, preserved);
    hide RepairValidation, SafeDay, InOrder;
    forall p: Segment, s: Segment ensures Survives(p, s) <==> StillDoes(s, p) {
    }
  }

  /** The same segments but for their prices. */
  predicate Repriced(a: seq<Segment>, b: seq<Segment>) {
    |a| == |b| && forall i :: 0 <= i < |a| ==> a[i] == b[i].(cost := a[i].cost)
  }

  lemma RepricedSegment(sc: Scenario, a: Segment, b: Segment, changes: seq<CalendarEvent>)
    requires a == b.(cost := a.cost)
    ensures SegmentOk(sc, a, changes) <==> SegmentOk(sc, b, changes)
    ensures EndPlace(a) == EndPlace(b)
    ensures forall charged :: SegmentPrice(sc, a, charged) == SegmentPrice(sc, b, charged)
    ensures forall charged :: ChargedAfter(sc, a, charged) == ChargedAfter(sc, b, charged)
    ensures PaysUnfamiliar(sc, a) <==> PaysUnfamiliar(sc, b)
  {
  }

  lemma RepricedDay(sc: Scenario, a: seq<Segment>, b: seq<Segment>, changes: seq<CalendarEvent>)
    requires Repriced(a, b) && SafeDay(sc, b, changes)
    ensures SafeDay(sc, a, changes)
  {
    forall s | s in a ensures SegmentOk(sc, s, changes) {
      var i :| 0 <= i < |a| && a[i] == s;
      RepricedSegment(sc, a[i], b[i], changes);
      assert b[i] in b;
    }
    forall i | 0 <= i < |a| - 1
      ensures HandoffOk(sc, a[i], a[i+1]) && EndPlace(a[i]) == a[i+1].location
    {
      assert HandoffOk(sc, b[i], b[i+1]) && EndPlace(b[i]) == b[i+1].location;
    }
  }

  lemma {:induction false} RepricedCosts(sc: Scenario, a: seq<Segment>, b: seq<Segment>, charged: set<string>)
    requires Repriced(a, b)
    ensures Priced(sc, a, charged) == Priced(sc, b, charged)
    ensures TotalCents(sc, a, charged) == TotalCents(sc, b, charged)
  {
    if a != [] {
      RepricedSegment(sc, a[0], b[0], []);
      RepricedCosts(sc, a[1..], b[1..], ChargedAfter(sc, a[0], charged));
    }
  }

  lemma SegmentOrder()
    ensures Preorder(SegmentLeq)
  {
  }

  lemma InOrderOrders(segments: seq<Segment>)
    ensures Ordered(SegmentLeq, InOrder(segments))
    ensures forall s :: s in InOrder(segments) <==> s in segments
    ensures |InOrder(segments)| == |segments|
  {
    SegmentOrder();
    SortOrders(SegmentLeq, segments);
    SortPermutes(SegmentLeq, segments);
  }

  /** Checking a validated plan again, under any plan id and assumptions, changes nothing. */
  lemma ValidationIsStable(sc: Scenario, plan: Plan, again: Plan)
    requires var checked := Validation(sc, plan).plan;
      again == checked.(id := again.id, assumptions := again.assumptions, state := again.state)
    requires Validation(sc, plan).valid
    ensures var first, second := Validation(sc, plan), Validation(sc, again);
      second.valid && second.cost == first.cost && second.requiresApproval == first.requiresApproval
      && second.plan.segments == again.segments && second.plan.reasons == again.reasons
  {
    var segments := InOrder(plan.segments);
    var priced := Priced(sc, segments, {});
    InOrderOrders(plan.segments);
    PricedLength(sc, segments, {});
    assert Ordered(SegmentLeq, priced);
    SortFixesOrdered(SegmentLeq, priced);
    assert InOrder(again.segments) == priced;
    RepricedCosts(sc, priced, segments, {});
    ValidMeansSafe(sc, plan);
    RepricedDay(sc, priced, segments, plan.changes);
    ValidMeansSafe(sc, again);
  }
}
