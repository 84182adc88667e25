/** A caregiver declines: which accepted work that breaks, which survives, and what is left of the
    day and of the caregiver's availability. */
module PlanInvalidation {
  import opened Prelude
  import opened Sorting
  import opened Intervals
  import opened Domain
  import opened ValidationRules
  import opened PlanValidator
  import opened SupervisedDay
  import opened Cases

  datatype Decline = Decline(id: EventId, caregiver: string, window: Window)

  datatype DeclineError =
    | AlreadyRecorded | NoActivePlan | PlanNotValid | UnknownCaregiver | NothingInvalidated

  datatype ImpactReason =
    | AvailabilityLost(segmentId: string)
    | HandoffLost(segmentId: string, dependsOn: Option<string>)

  datatype Outcome = Outcome(
    recovery: Case, scenario: Scenario, original: Plan, invalidated: seq<Assumption>,
    impacted: seq<Segment>, reasons: seq<ImpactReason>, preserved: seq<Segment>,
    uncovered: seq<Window>)

  // ---------------------------------------------------------------- assumptions

  predicate IsAvailability(a: Assumption) {
    a.kind.CaregiverAvailable? || a.kind.CaregiverAvailability?
  }

  function AvailabilityAssumption(planId: PlanId, s: Segment): Assumption {
    Assumption(AvailabilityFor(planId, s.id), CaregiverAvailable, s.person, Some(s.window), Active)
  }

  function AvailabilityAssumptions(plan: Plan): seq<Assumption> {
    Map(Filter(plan.segments, (s: Segment) => s.source.ByCaregiver?),
        (s: Segment) => AvailabilityAssumption(plan.id, s))
  }

  /** Attach one availability assumption to every caregiver segment, replacing earlier ones. */
  function MaterializeAssumptions(plan: Plan): Plan {
    plan.(assumptions := Filter(plan.assumptions, (a: Assumption) => !IsAvailability(a))
                         + AvailabilityAssumptions(plan))
  }

  predicate DependsOn(a: Assumption, d: Decline) {
    a.status.Active? && a.kind.CaregiverAvailable? && a.subject == d.caregiver
    && a.window.Some? && Overlap(a.window.value, d.window)
  }

  function Invalidate(a: Assumption, d: Decline): Assumption {
    if DependsOn(a, d) then a.(status := Invalidated(d.id)) else a
  }

  /** The assumption stands, and says of this caregiver that they are available at some instant of w. */
  ghost predicate CountsOn(a: Assumption, caregiver: string, w: Window) {
    && a.status == Active && a.kind == CaregiverAvailable && a.subject == caregiver
    && a.window.Some? && exists t :: Holds(a.window.value, t) && Holds(w, t)
  }

  /** The assumption once the decline is known. */
  ghost function Afterwards(a: Assumption, d: Decline): Assumption {
    if CountsOn(a, d.caregiver, d.window) then a.(status := Invalidated(d.id)) else a
  }

  lemma DependsMeansCountsOn(a: Assumption, d: Decline)
    ensures DependsOn(a, d) <==> CountsOn(a, d.caregiver, d.window)
  {
    if a.window.Some? {
      WindowsAreInstants(a.window.value, d.window);
    }
  }

  /** What a plan assumes once availability is attached: for every caregiver segment that this caregiver is
      available for all of it, and otherwise what it assumed besides availability. */
  lemma AvailabilityIsAttached(plan: Plan, a: Assumption)
    ensures MaterializeAssumptions(plan) == plan.(assumptions := MaterializeAssumptions(plan).assumptions)
    ensures a in MaterializeAssumptions(plan).assumptions <==>
      || (a in plan.assumptions && a.kind != CaregiverAvailable && a.kind != CaregiverAvailability)
      || IsAttached(plan, a)
  {
    FilterMember(plan.assumptions, (x: Assumption) => !IsAvailability(x));
    var mine := Filter(plan.segments, (s: Segment) => s.source.ByCaregiver?);
    FilterMember(plan.segments, (s: Segment) => s.source.ByCaregiver?);
    if a in AvailabilityAssumptions(plan) {
      var i :| 0 <= i < |mine| && AvailabilityAssumptions(plan)[i] == a;
      assert mine[i] in mine;
    }
    if s :| s in plan.segments && Attached(plan.id, s, a) {
      var i :| 0 <= i < |mine| && mine[i] == s;
      assert AvailabilityAssumptions(plan)[i] == a;
    }
  }

  predicate Attached(planId: PlanId, s: Segment, a: Assumption) {
    s.source.ByCaregiver?
    && a == Assumption(AvailabilityFor(planId, s.id), CaregiverAvailable, s.person, Some(s.window), Active)
  }

  ghost predicate IsAttached(plan: Plan, a: Assumption) {
    exists s :: s in plan.segments && Attached(plan.id, s, a)
  }

  // ---------------------------------------------------------------- the scenario afterwards

  function DeclinedBy(c: Caregiver, d: Decline): Caregiver {
    if c.id == d.caregiver then c.(availability := CarveAll(c.availability, d.window)) else c
  }

  predicate Knows(sc: Scenario, id: string) {
    exists c :: c in sc.caregivers && c.id == id
  }

  function AfterDecline(sc: Scenario, d: Decline): Scenario {
    sc.(caregivers := Map(sc.caregivers, (c: Caregiver) => DeclinedBy(c, d)))
  }

  function ApplyDeclineToScenario(sc: Scenario, d: Decline): Result<Scenario, DeclineError> {
    if Knows(sc, d.caregiver) then Ok(AfterDecline(sc, d)) else Err(UnknownCaregiver)
  }

  function FirstWithId(cs: seq<Caregiver>, id: string): Option<Caregiver> {
    if cs == [] then None else if cs[0].id == id then Some(cs[0]) else FirstWithId(cs[1..], id)
  }

  lemma {:induction false} FirstWithIdMeaning(cs: seq<Caregiver>, id: string)
    ensures FirstWithId(cs, id).Some? ==> FirstWithId(cs, id).value in cs && FirstWithId(cs, id).value.id == id
    ensures FirstWithId(cs, id).None? ==> forall c :: c in cs ==> c.id != id
  {
    if cs != [] {
      FirstWithIdMeaning(cs[1..], id);
    }
  }

  /** Of several caregivers with one id it is the first whose place counts. */
  lemma {:induction false} FirstOneCounts(cs: seq<Caregiver>, i: nat)
    requires i < |cs| && forall j :: 0 <= j < i ==> cs[j].id != cs[i].id
    ensures FirstWithId(cs, cs[i].id) == Some(cs[i])
  {
    if i > 0 {
      assert cs[0].id != cs[i].id;
      FirstOneCounts(cs[1..], i - 1);
    }
  }

  // ---------------------------------------------------------------- impact

  predicate DirectlyHit(s: Segment, d: Decline) {
    s.source.ByCaregiver? && s.kind.Care? && s.person == d.caregiver && Overlap(s.window, d.window)
  }

  /** The trip before segment k ends at the declined caregiver's place just as k starts. */
  predicate TripInto(ordered: seq<Segment>, k: nat, place: string)
    requires k < |ordered|
  {
    k > 0 && ordered[k-1].kind.Transport? && ordered[k-1].window.end == ordered[k].window.start
    && ordered[k-1].destination == Some(place)
  }

  /** The trip after segment k starts at the declined caregiver's place just as k ends. */
  predicate TripOutOf(ordered: seq<Segment>, k: nat, place: string)
    requires k < |ordered|
  {
    k + 1 < |ordered| && ordered[k+1].kind.Transport?
    && ordered[k+1].window.start == ordered[k].window.end && ordered[k+1].location == place
  }

  function SetDefault(reasons: map<string, ImpactReason>, id: string, r: ImpactReason): map<string, ImpactReason> {
    if id in reasons then reasons else reasons[id := r]
  }

  function Handoff(id: string, from: Segment, direct: set<string>): ImpactReason {
    HandoffLost(id, if from.id in direct then Some(from.id) else None)
  }

  /** Visit segment k: if it is impacted, the trips tied to it are too. */
  function Visit(ordered: seq<Segment>, k: nat, place: string, direct: set<string>,
                 reasons: map<string, ImpactReason>): map<string, ImpactReason>
    requires k < |ordered|
  {
    if ordered[k].id !in reasons then reasons
    else
      var r := if TripInto(ordered, k, place) then
                 SetDefault(reasons, ordered[k-1].id, Handoff(ordered[k-1].id, ordered[k], direct))
               else reasons;
      if TripOutOf(ordered, k, place) then
        SetDefault(r, ordered[k+1].id, Handoff(ordered[k+1].id, ordered[k], direct))
      else r
  }

  function VisitFrom(ordered: seq<Segment>, k: nat, place: string, direct: set<string>,
                     reasons: map<string, ImpactReason>): map<string, ImpactReason>
    requires k <= |ordered|
    decreases |ordered| - k
  {
    if k == |ordered| then reasons
    else VisitFrom(ordered, k + 1, place, direct, Visit(ordered, k, place, direct, reasons))
  }

  function DirectIds(segments: seq<Segment>, d: Decline): set<string> {
    set s | s in segments && DirectlyHit(s, d) :: s.id
  }

  function DirectReasons(segments: seq<Segment>, d: Decline): map<string, ImpactReason> {
    map id | id in DirectIds(segments, d) :: AvailabilityLost(id)
  }

  function Reasons(segments: seq<Segment>, d: Decline, place: string): map<string, ImpactReason> {
    VisitFrom(InOrder(segments), 0, place, DirectIds(segments, d), DirectReasons(segments, d))
  }

  function Impacted(segments: seq<Segment>, ids: set<string>): seq<Segment> {
    Filter(InOrder(segments), (s: Segment) => s.id in ids)
  }

  function Preserved(segments: seq<Segment>, ids: set<string>): seq<Segment> {
    Filter(segments, (s: Segment) => s.id !in ids)
  }

  function WindowsOf(segments: seq<Segment>): seq<Window> {
    Map(segments, (s: Segment) => s.window)
  }

  function ReasonsFor(impacted: seq<Segment>, reasons: map<string, ImpactReason>): seq<ImpactReason>
    requires forall s :: s in impacted ==> s.id in reasons
  {
    seq(|impacted|, i requires 0 <= i < |impacted| => reasons[impacted[i].id])
  }

  function OutcomeOf(c: Case, sc: Scenario, d: Decline, original: Plan, assumptions: seq<Assumption>,
                     reasons: map<string, ImpactReason>): Outcome
    requires Impacted(original.segments, reasons.Keys) != []
  {
    var updated := Map(assumptions, (a: Assumption) => Invalidate(a, d));
    var impacted := Impacted(original.segments, reasons.Keys);
    FilterMember(InOrder(original.segments), (s: Segment) => s.id in reasons.Keys);
    var uncovered := Merge(WindowsOf(impacted));
    MergeNonempty(WindowsOf(impacted));
    var recovery := c.(
      status := Replanning, gap := uncovered[0], uncovered := uncovered,
      plan := Some(original.(assumptions := updated, state := Invalid)),
      previous := if original.id in PlanIds(c.previous) then c.previous else c.previous + [original],
      assumptions := updated,
      events := c.events + [Event(d.id, CaregiverDeclined(d.caregiver, d.window))],
      trigger := Some(d.id));
    Outcome(recovery, AfterDecline(sc, d), original,
            Map(Filter(assumptions, (a: Assumption) => DependsOn(a, d)), (a: Assumption) => Invalidate(a, d)),
            impacted, ReasonsFor(impacted, reasons), Preserved(original.segments, reasons.Keys), uncovered)
  }

  lemma MergeNonempty(ws: seq<Window>)
    ensures ws != [] ==> Merge(ws) != []
  {
    MergeMeaning(ws);
    Inhabited(ws);
  }

  function DeclineOutcome(c: Case, sc: Scenario, d: Decline): Result<Outcome, DeclineError> {
    if d.id in EventIds(c.events) then Err(AlreadyRecorded)
    else if c.plan.None? then Err(NoActivePlan)
    else if !c.plan.value.state.Valid? then Err(PlanNotValid)
    else
      var original := MaterializeAssumptions(c.plan.value);
      var assumptions := if c.assumptions != [] then c.assumptions else original.assumptions;
      match FirstWithId(sc.caregivers, d.caregiver)
      case None => Err(UnknownCaregiver)
      case Some(declined) =>
        var reasons := Reasons(original.segments, d, declined.location);
        if Impacted(original.segments, reasons.Keys) == []
           || !(exists a :: a in assumptions && DependsOn(a, d)) then Err(NothingInvalidated)
        else Ok(OutcomeOf(c, sc, d, original, assumptions, reasons))
  }

  // ---------------------------------------------------------------- the service as written

  /** Grow the impacted ids and their reasons while walking the plan in order. */
  method SpreadImpact(ordered: seq<Segment>, place: string, direct: set<string>,
                      seeds: map<string, ImpactReason>)
    returns (impactedIds: set<string>, reasons: map<string, ImpactReason>)
    ensures reasons == VisitFrom(ordered, 0, place, direct, seeds)
    ensures impactedIds == reasons.Keys
  {
    impactedIds, reasons := seeds.Keys, seeds;
    for k := 0 to |ordered|
      invariant impactedIds == reasons.Keys
      invariant VisitFrom(ordered, k, place, direct, reasons) == VisitFrom(ordered, 0, place, direct, seeds)
    {
      var segment := ordered[k];
      if segment.id !in impactedIds {
        continue;
      }
      if TripInto(ordered, k, place) {
        var previous := ordered[k-1];
        impactedIds := impactedIds + {previous.id};
        reasons := SetDefault(reasons, previous.id, Handoff(previous.id, segment, direct));
      }
      if TripOutOf(ordered, k, place) {
        var following := ordered[k+1];
        impactedIds := impactedIds + {following.id};
        reasons := SetDefault(reasons, following.id, Handoff(following.id, segment, direct));
      }
    }
  }

  method InvalidateAssumptions(assumptions: seq<Assumption>, d: Decline)
    returns (updated: seq<Assumption>, invalidated: seq<Assumption>)
    ensures updated == Map(assumptions, (a: Assumption) => Invalidate(a, d))
    ensures invalidated ==
      Map(Filter(assumptions, (a: Assumption) => DependsOn(a, d)), (a: Assumption) => Invalidate(a, d))
    ensures invalidated == [] <==> !exists a :: a in assumptions && CountsOn(a, d.caregiver, d.window)
    ensures |updated| == |assumptions|
    ensures forall i :: 0 <= i < |assumptions| ==> updated[i] == Afterwards(assumptions[i], d)
  {
    updated, invalidated := [], [];
    for i := 0 to |assumptions|
      invariant updated == Map(assumptions[..i], (a: Assumption) => Invalidate(a, d))
      invariant invalidated ==
        Map(Filter(assumptions[..i], (a: Assumption) => DependsOn(a, d)), (a: Assumption) => Invalidate(a, d))
    {
      FilterStep(assumptions, i, (a: Assumption) => DependsOn(a, d));
      var assumption := assumptions[i];
      if DependsOn(assumption, d) {
        assumption := assumption.(status := Invalidated(d.id));
        invalidated := invalidated + [assumption];
      }
      updated := updated + [assumption];
    }
    assert assumptions[..|assumptions|] == assumptions;
    FilterMember(assumptions, (a: Assumption) => DependsOn(a, d));
    var hit := Filter(assumptions, (a: Assumption) => DependsOn(a, d));
    assert hit != [] ==> hit[0] in hit;
    hide DependsOn, CountsOn;
    forall a ensures DependsOn(a, d) <==> CountsOn(a, d.caregiver, d.window) {
      DependsMeansCountsOn(a, d);
    }
  }

  method ApplyCaregiverDecline(c: Case, sc: Scenario, d: Decline)
    returns (r: Result<Outcome, DeclineError>)
    ensures r == DeclineOutcome(c, sc, d)
  {
    if d.id in EventIds(c.events) {
      return Err(AlreadyRecorded);
    }
    if c.plan.None? {
      return Err(NoActivePlan);
    }
    if !c.plan.value.state.Valid? {
      return Err(PlanNotValid);
    }
    var original := MaterializeAssumptions(c.plan.value);
    var assumptions := if c.assumptions != [] then c.assumptions else original.assumptions;
    var updated, invalidated := InvalidateAssumptions(assumptions, d);
    var declined := FirstWithId(sc.caregivers, d.caregiver);
    if declined.None? {
      return Err(UnknownCaregiver);
    }
    var ordered := InOrder(original.segments);
    var ids, reasons := SpreadImpact(ordered, declined.value.location,
                                     DirectIds(original.segments, d), DirectReasons(original.segments, d));
    if Impacted(original.segments, ids) == [] || invalidated == [] {
      return Err(NothingInvalidated);
    }
    r := Ok(OutcomeOf(c, sc, d, original, assumptions, reasons));
  }

  // ---------------------------------------------------------------- what an outcome is

  lemma OutcomeParts(c: Case, sc: Scenario, d: Decline, o: Outcome)
    returns (reasons: map<string, ImpactReason>, place: string)
    requires DeclineOutcome(c, sc, d) == Ok(o)
    ensures c.plan.Some? && c.plan.value.state.Valid? && o.original == MaterializeAssumptions(c.plan.value)
    ensures FirstWithId(sc.caregivers, d.caregiver).Some?
    ensures place == FirstWithId(sc.caregivers, d.caregiver).value.location
    ensures reasons == Reasons(o.original.segments, d, place)
    ensures o.impacted == Impacted(o.original.segments, reasons.Keys) && o.impacted != []
    ensures o.preserved == Preserved(o.original.segments, reasons.Keys)
    ensures o.uncovered == Merge(WindowsOf(o.impacted))
    ensures o.scenario == AfterDecline(sc, d)
    ensures forall s :: s in o.impacted ==> s.id in reasons
    ensures o.reasons == ReasonsFor(o.impacted, reasons)
  {
    place := FirstWithId(sc.caregivers, d.caregiver).value.location;
    reasons := Reasons(o.original.segments, d, place);
    FilterMember(InOrder(o.original.segments), (s: Segment) => s.id in reasons.Keys);
  }

  /** The case remembers the decline: its event, its trigger, the gap it opened and the plan it set aside.
      Nothing else about the case changes but its assumptions. */
  lemma DeclineIsRecorded(c: Case, sc: Scenario, d: Decline, o: Outcome)
    requires DeclineOutcome(c, sc, d) == Ok(o)
    ensures o.recovery.events == c.events + [Event(d.id, CaregiverDeclined(d.caregiver, d.window))]
    ensures d.id !in EventIds(c.events) && o.recovery.trigger == Some(d.id)
    ensures o.recovery.uncovered == o.uncovered && |o.uncovered| > 0 && o.recovery.gap == o.uncovered[0]
    ensures o.recovery.plan == Some(o.original.(assumptions := o.recovery.assumptions, state := Invalid))
    ensures o.recovery.previous ==
      if o.original.id in PlanIds(c.previous) then c.previous else c.previous + [o.original]
    ensures o.recovery == c.(status := Replanning, gap := o.recovery.gap, uncovered := o.recovery.uncovered,
                             plan := o.recovery.plan, previous := o.recovery.previous, trigger := o.recovery.trigger,
                             assumptions := o.recovery.assumptions, events := o.recovery.events)
  {
    var reasons, place := OutcomeParts(c, sc, d, o);
    MergeNonempty(WindowsOf(o.impacted));
    hide Reasons, Merge, Impacted, InOrder, MaterializeAssumptions;
  }

  function AssumedBefore(c: Case, o: Outcome): seq<Assumption> {
    if c.assumptions != [] then c.assumptions else o.original.assumptions
  }

  lemma OutcomeLists(c: Case, sc: Scenario, d: Decline, o: Outcome)
    requires DeclineOutcome(c, sc, d) == Ok(o)
    ensures var before := AssumedBefore(c, o);
      && o.recovery.assumptions == Map(before, (a: Assumption) => Invalidate(a, d))
      && o.invalidated == Map(Filter(before, (a: Assumption) => DependsOn(a, d)), (a: Assumption) => Invalidate(a, d))
      && exists a :: a in before && DependsOn(a, d)
  {
    hide Reasons, Merge, Impacted, InOrder, MaterializeAssumptions;
  }

  /** Exactly the standing assumptions that count on the declined caregiver at some instant of the declined
      window are invalidated, in place, with this event as their trigger; there is at least one. */
  lemma DeclineInvalidates(c: Case, sc: Scenario, d: Decline, o: Outcome)
    requires DeclineOutcome(c, sc, d) == Ok(o)
    ensures var before, after := AssumedBefore(c, o), o.recovery.assumptions;
      && |after| == |before|
      && (forall i :: 0 <= i < |before| ==> after[i] == Afterwards(before[i], d))
      && exists i :: 0 <= i < |before| && CountsOn(before[i], d.caregiver, d.window)
  {
    DeclineInvalidatesThese(c, sc, d, o);
    hide DeclineOutcome, CountsOn, DependsOn;
    var before := AssumedBefore(c, o);
    forall a ensures DependsOn(a, d) <==> CountsOn(a, d.caregiver, d.window) {
      DependsMeansCountsOn(a, d);
    }
    assert o.invalidated[0] in o.invalidated;
    var b :| b in before && DependsOn(b, d) && o.invalidated[0] == Invalidate(b, d);
  }

  lemma DeclineInvalidatesThese(c: Case, sc: Scenario, d: Decline, o: Outcome)
    requires DeclineOutcome(c, sc, d) == Ok(o)
    ensures var before := AssumedBefore(c, o);
      && |o.recovery.assumptions| == |before| && o.invalidated != []
      && (forall i :: 0 <= i < |before| ==>
            o.recovery.assumptions[i] ==
              (if DependsOn(before[i], d) then before[i].(status := Invalidated(d.id)) else before[i]))
      && forall a :: a in o.invalidated <==> exists b :: b in before && DependsOn(b, d) && a == Invalidate(b, d)
  {
    OutcomeLists(c, sc, d, o);
    hide DeclineOutcome, DependsOn;
    var before := AssumedBefore(c, o);
    var hit := Filter(before, (a: Assumption) => DependsOn(a, d));
    FilterMember(before, (a: Assumption) => DependsOn(a, d));
    forall a ensures a in o.invalidated <==> exists b :: b in before && DependsOn(b, d) && a == Invalidate(b, d) {
      if a in o.invalidated {
        var i :| 0 <= i < |hit| && a == Invalidate(hit[i], d);
        assert hit[i] in hit;
      }
      if b :| b in before && DependsOn(b, d) && a == Invalidate(b, d) {
        var i :| 0 <= i < |hit| && hit[i] == b;
        assert o.invalidated[i] == a;
      }
    }
    var found :| found in before && DependsOn(found, d);
    assert Invalidate(found, d) in o.invalidated;
  }

  lemma IdsPartition(segments: seq<Segment>, ids: set<string>)
    ensures multiset(Impacted(segments, ids)) + multiset(Preserved(segments, ids)) == multiset(segments)
    ensures forall s :: s in Impacted(segments, ids) ==> s.id in ids
    ensures forall s :: s in Preserved(segments, ids) ==> s.id !in ids
  {
    var hit := (s: Segment) => s.id in ids;
    var safe := (s: Segment) => s.id !in ids;
    SortPermutes(SegmentLeq, segments);
    FilterPermutes(InOrder(segments), segments, hit);
    FilterSplits(segments, hit, safe);
    FilterMember(InOrder(segments), hit);
    FilterMember(segments, safe);
  }

  /** Impacted and preserved segments partition the plan, and every impacted segment has its reason. */
  lemma ImpactPartitionsPlan(c: Case, sc: Scenario, d: Decline, o: Outcome)
    requires DeclineOutcome(c, sc, d) == Ok(o)
    ensures multiset(o.impacted) + multiset(o.preserved) == multiset(c.plan.value.segments)
    ensures forall s, t :: s in o.impacted && t in o.preserved ==> s.id != t.id
    ensures |o.reasons| == |o.impacted|
    ensures forall i :: 0 <= i < |o.impacted| ==> o.reasons[i].segmentId == o.impacted[i].id
  {
    var reasons, place := OutcomeParts(c, sc, d, o);
    hide DeclineOutcome, Reasons, Impacted, Preserved, Merge;
    IdsPartition(o.original.segments, reasons.Keys);
    AllReasonsNameTheirSegment(o.original.segments, d, place);
  }

  ghost predicate NameTheirSegment(reasons: map<string, ImpactReason>) {
    forall id :: id in reasons ==> reasons[id].segmentId == id
  }

  lemma VisitNamesSegment(ordered: seq<Segment>, k: nat, place: string, direct: set<string>,
                          reasons: map<string, ImpactReason>)
    requires k < |ordered| && NameTheirSegment(reasons)
    ensures NameTheirSegment(Visit(ordered, k, place, direct, reasons))
  {
  }

  lemma {:induction false} ReasonsNameTheirSegment(
    ordered: seq<Segment>, k: nat, place: string, direct: set<string>, reasons: map<string, ImpactReason>)
    requires k <= |ordered| && NameTheirSegment(reasons)
    ensures NameTheirSegment(VisitFrom(ordered, k, place, direct, reasons))
    decreases |ordered| - k
  {
    if k < |ordered| {
      VisitNamesSegment(ordered, k, place, direct, reasons);
      ReasonsNameTheirSegment(ordered, k + 1, place, direct, Visit(ordered, k, place, direct, reasons));
    }
  }

  lemma AllReasonsNameTheirSegment(segments: seq<Segment>, d: Decline, place: string)
    ensures NameTheirSegment(Reasons(segments, d, place))
  {
    ReasonsNameTheirSegment(InOrder(segments), 0, place, DirectIds(segments, d), DirectReasons(segments, d));
  }

  // ---------------------------------------------------------------- which declines apply

  /** The caregiver looks after the child at some instant of w. */
  ghost predicate CaresDuring(s: Segment, caregiver: string, w: Window) {
    s.source == ByCaregiver && s.kind == Care && s.person == caregiver && exists t :: Holds(s.window, t) && Holds(w, t)
  }

  lemma HitMeansCares(s: Segment, d: Decline)
    ensures DirectlyHit(s, d) <==> CaresDuring(s, d.caregiver, d.window)
  {
    WindowsAreInstants(s.window, d.window);
  }

  lemma {:induction false} WalkOnlySpreads(ordered: seq<Segment>, k: nat, place: string, direct: set<string>,
                                           reasons: map<string, ImpactReason>)
    requires k <= |ordered|
    ensures reasons.Keys <= VisitFrom(ordered, k, place, direct, reasons).Keys
    ensures reasons == map[] ==> VisitFrom(ordered, k, place, direct, reasons) == map[]
    decreases |ordered| - k
  {
    if k < |ordered| {
      WalkOnlySpreads(ordered, k + 1, place, direct, Visit(ordered, k, place, direct, reasons));
    }
  }

  lemma ImpactNeedsAHit(segments: seq<Segment>, d: Decline, place: string)
    ensures Impacted(segments, Reasons(segments, d, place).Keys) != [] <==>
      exists s :: s in segments && CaresDuring(s, d.caregiver, d.window)
  {
    var reasons, seeds := Reasons(segments, d, place), DirectReasons(segments, d);
    var impacted := Impacted(segments, reasons.Keys);
    WalkOnlySpreads(InOrder(segments), 0, place, DirectIds(segments, d), seeds);
    FilterMember(InOrder(segments), (s: Segment) => s.id in reasons.Keys);
    SortPermutes(SegmentLeq, segments);
    hide VisitFrom, InOrder, DirectlyHit, CaresDuring;
    forall s ensures DirectlyHit(s, d) <==> CaresDuring(s, d.caregiver, d.window) {
      HitMeansCares(s, d);
    }
    assert impacted != [] ==> impacted[0] in impacted;
    if s :| s in segments && CaresDuring(s, d.caregiver, d.window) {
      assert s.id in DirectIds(segments, d) && s in impacted;
    } else {
      assert DirectIds(segments, d) == {} && seeds == map[];
    }
  }

  /** Exactly when a decline is heeded: it is new, the active plan is valid, the caregiver is known and looks
      after the child in the declined window, and what the case assumes counts on that. */
  lemma DeclineApplies(c: Case, sc: Scenario, d: Decline)
    ensures DeclineOutcome(c, sc, d).Ok? <==>
      && (forall e :: e in c.events ==> e.id != d.id)
      && c.plan.Some? && c.plan.value.state == Valid
      && (exists k :: k in sc.caregivers && k.id == d.caregiver)
      && (exists s :: s in c.plan.value.segments && CaresDuring(s, d.caregiver, d.window))
      && (c.assumptions == [] || exists a :: a in c.assumptions && CountsOn(a, d.caregiver, d.window))
  {
    FirstWithIdMeaning(sc.caregivers, d.caregiver);
    if c.plan.Some? && FirstWithId(sc.caregivers, d.caregiver).Some? {
      var original := MaterializeAssumptions(c.plan.value);
      AvailabilityIsAttached(c.plan.value, Assumption(OtherAssumption(""), CaregiverAvailable, "", None, Active));
      ImpactNeedsAHit(c.plan.value.segments, d, FirstWithId(sc.caregivers, d.caregiver).value.location);
      CountedOnByDefault(c.plan.value, d);
      hide Reasons, Impacted, MaterializeAssumptions, DependsOn, CountsOn, CaresDuring;
      forall a ensures DependsOn(a, d) <==> CountsOn(a, d.caregiver, d.window) {
        DependsMeansCountsOn(a, d);
      }
    }
  }

  lemma CountedOnByDefault(plan: Plan, d: Decline)
    ensures (exists s :: s in plan.segments && CaresDuring(s, d.caregiver, d.window)) ==>
      exists a :: a in MaterializeAssumptions(plan).assumptions && DependsOn(a, d)
  {
    if s :| s in plan.segments && CaresDuring(s, d.caregiver, d.window) {
      var a := AvailabilityAssumption(plan.id, s);
      WindowsAreInstants(s.window, d.window);
      AvailabilityIsAttached(plan, a);
      assert Attached(plan.id, s, a);
    }
  }

  /** With the availability of its plan on record, a case heeds every new decline of a known caregiver who
      looks after the child in the declined window. */
  lemma RecordedAvailabilityIsEnough(c: Case, sc: Scenario, d: Decline, s: Segment)
    requires (forall e :: e in c.events ==> e.id != d.id) && c.plan.Some? && c.plan.value.state.Valid?
    requires exists k :: k in sc.caregivers && k.id == d.caregiver
    requires s in c.plan.value.segments && CaresDuring(s, d.caregiver, d.window)
    requires c.assumptions == [] || exists a :: a in c.assumptions && Attached(c.plan.value.id, s, a)
    ensures DeclineOutcome(c, sc, d).Ok? && s in DeclineOutcome(c, sc, d).value.impacted
  {
    if a :| a in c.assumptions && Attached(c.plan.value.id, s, a) {
      assert CountsOn(a, d.caregiver, d.window);
    }
    hide DeclineOutcome;
    DeclineApplies(c, sc, d);
    var o := DeclineOutcome(c, sc, d).value;
    var reasons, place := OutcomeParts(c, sc, d, o);
    HitMeansCares(s, d);
    WalkOnlySpreads(InOrder(c.plan.value.segments), 0, place, DirectIds(c.plan.value.segments, d),
                    DirectReasons(c.plan.value.segments, d));
    FilterMember(InOrder(c.plan.value.segments), (x: Segment) => x.id in reasons.Keys);
    SortPermutes(SegmentLeq, c.plan.value.segments);
    hide VisitFrom, InOrder;
    assert s.id in DirectIds(c.plan.value.segments, d);
  }

  // ---------------------------------------------------------------- why something is impacted

  ghost predicate KindsAreRight(reasons: map<string, ImpactReason>, direct: set<string>) {
    forall id :: id in reasons ==>
      && (reasons[id].AvailabilityLost? <==> id in direct)
      && (reasons[id].HandoffLost? && reasons[id].dependsOn.Some? ==> reasons[id].dependsOn.value in direct)
  }

  lemma VisitKeepsKinds(ordered: seq<Segment>, k: nat, place: string, direct: set<string>,
                        reasons: map<string, ImpactReason>)
    requires k < |ordered| && KindsAreRight(reasons, direct) && direct <= reasons.Keys
    ensures KindsAreRight(Visit(ordered, k, place, direct, reasons), direct)
    ensures direct <= Visit(ordered, k, place, direct, reasons).Keys
  {
  }

  lemma {:induction false} WalkKeepsKinds(ordered: seq<Segment>, k: nat, place: string, direct: set<string>,
                                          reasons: map<string, ImpactReason>)
    requires k <= |ordered| && KindsAreRight(reasons, direct) && direct <= reasons.Keys
    ensures KindsAreRight(VisitFrom(ordered, k, place, direct, reasons), direct)
    decreases |ordered| - k
  {
    if k < |ordered| {
      VisitKeepsKinds(ordered, k, place, direct, reasons);
      WalkKeepsKinds(ordered, k + 1, place, direct, Visit(ordered, k, place, direct, reasons));
    }
  }

  ghost predicate IsCaredForBy(segments: seq<Segment>, id: string, d: Decline) {
    exists s :: s in segments && s.id == id && CaresDuring(s, d.caregiver, d.window)
  }

  /** The reason says that availability was lost exactly for the care that was declined, and any other reason
      that names a segment names such care. */
  lemma ReasonsAreRight(c: Case, sc: Scenario, d: Decline, o: Outcome, i: nat)
    requires DeclineOutcome(c, sc, d) == Ok(o) && i < |o.impacted|
    ensures |o.reasons| == |o.impacted|
    ensures o.reasons[i].AvailabilityLost? <==> IsCaredForBy(c.plan.value.segments, o.impacted[i].id, d)
    ensures o.reasons[i].HandoffLost? && o.reasons[i].dependsOn.Some? ==>
      IsCaredForBy(c.plan.value.segments, o.reasons[i].dependsOn.value, d)
  {
    var reasons, place := OutcomeParts(c, sc, d, o);
    var segments := o.original.segments;
    WalkKeepsKinds(InOrder(segments), 0, place, DirectIds(segments, d), DirectReasons(segments, d));
    hide DeclineOutcome, VisitFrom, InOrder, DirectlyHit, CaresDuring, Merge;
    forall s ensures DirectlyHit(s, d) <==> CaresDuring(s, d.caregiver, d.window) {
      HitMeansCares(s, d);
    }
    forall id ensures id in DirectIds(segments, d) <==> IsCaredForBy(segments, id, d) {
    }
  }

  // ---------------------------------------------------------------- exactly what is impacted

  /** Walking forward, segment k is hit directly or is a trip out of the place from one that is. */
  predicate Struck(ordered: seq<Segment>, d: Decline, place: string, k: nat)
    requires k < |ordered|
  {
    DirectlyHit(ordered[k], d) || (k > 0 && TripOutOf(ordered, k - 1, place) && Struck(ordered, d, place, k - 1))
  }

  /** ... or it is the trip into the place that leads to such a segment. */
  predicate Broken(ordered: seq<Segment>, d: Decline, place: string, k: nat)
    requires k < |ordered|
  {
    Struck(ordered, d, place, k)
    || (k + 1 < |ordered| && TripInto(ordered, k + 1, place) && Struck(ordered, d, place, k + 1))
  }

  /** Segment j is known to be impacted when the walk is about to visit segment k. */
  predicate KnownBroken(ordered: seq<Segment>, d: Decline, place: string, k: nat, j: nat)
    requires k <= |ordered| && j < |ordered|
  {
    || DirectlyHit(ordered[j], d)
    || (j <= k && Struck(ordered, d, place, j))
    || (j + 1 < k && TripInto(ordered, j + 1, place) && Struck(ordered, d, place, j + 1))
  }

  ghost predicate WalkedTo(ordered: seq<Segment>, d: Decline, place: string, k: nat,
                           reasons: map<string, ImpactReason>)
    requires k <= |ordered|
  {
    forall j :: 0 <= j < |ordered| ==>
      (ordered[j].id in reasons <==> KnownBroken(ordered, d, place, k, j))
  }

  /** Visiting k adds only the neighbours tied to k, and only if k is impacted. */
  lemma VisitAdds(ordered: seq<Segment>, place: string, direct: set<string>, k: nat,
                  reasons: map<string, ImpactReason>, j: nat)
    requires DistinctIds(ordered) && k < |ordered| && j < |ordered|
    ensures ordered[j].id in Visit(ordered, k, place, direct, reasons) <==>
      || ordered[j].id in reasons
      || (ordered[k].id in reasons && j + 1 == k && TripInto(ordered, k, place))
      || (ordered[k].id in reasons && j == k + 1 && TripOutOf(ordered, k, place))
  {
    if k > 0 { assert ordered[j].id == ordered[k-1].id <==> j == k - 1; }
    if k + 1 < |ordered| { assert ordered[j].id == ordered[k+1].id <==> j == k + 1; }
  }

  lemma WalkStep(ordered: seq<Segment>, d: Decline, place: string, direct: set<string>, k: nat,
                 reasons: map<string, ImpactReason>)
    requires DistinctIds(ordered) && k < |ordered| && WalkedTo(ordered, d, place, k, reasons)
    ensures WalkedTo(ordered, d, place, k + 1, Visit(ordered, k, place, direct, reasons))
  {
    hide Visit, TripInto, TripOutOf, DirectlyHit;
    var after := Visit(ordered, k, place, direct, reasons);
    forall j | 0 <= j < |ordered| && DirectlyHit(ordered[j], d) ensures Struck(ordered, d, place, j) {
      StruckIfHit(ordered, d, place, j);
    }
    assert KnownBroken(ordered, d, place, k, k) <==> Struck(ordered, d, place, k);
    forall j | 0 <= j < |ordered|
      ensures ordered[j].id in after <==> KnownBroken(ordered, d, place, k + 1, j)
    {
      VisitAdds(ordered, place, direct, k, reasons, j);
    }
  }

  lemma {:induction false} WalkEnds(ordered: seq<Segment>, d: Decline, place: string, direct: set<string>,
                                    k: nat, reasons: map<string, ImpactReason>)
    requires DistinctIds(ordered) && k <= |ordered| && WalkedTo(ordered, d, place, k, reasons)
    ensures WalkedTo(ordered, d, place, |ordered|, VisitFrom(ordered, k, place, direct, reasons))
    decreases |ordered| - k
  {
    if k < |ordered| {
      WalkStep(ordered, d, place, direct, k, reasons);
      WalkEnds(ordered, d, place, direct, k + 1, Visit(ordered, k, place, direct, reasons));
    }
  }

  lemma WalkStarts(segments: seq<Segment>, d: Decline, place: string)
    requires DistinctIds(InOrder(segments))
    ensures WalkedTo(InOrder(segments), d, place, 0, DirectReasons(segments, d))
  {
    var ordered, direct := InOrder(segments), DirectIds(segments, d);
    SortPermutes(SegmentLeq, segments);
    forall j | 0 <= j < |ordered| ensures ordered[j].id in direct <==> DirectlyHit(ordered[j], d) {
      if ordered[j].id in direct {
        var s :| s in segments && DirectlyHit(s, d) && s.id == ordered[j].id;
        assert s in ordered;
        var i :| 0 <= i < |ordered| && ordered[i] == s;
        assert i == j;
      }
      assert ordered[j] in segments;
    }
  }

  lemma ImpactIsBroken(c: Case, sc: Scenario, d: Decline, o: Outcome, k: nat)
    requires DeclineOutcome(c, sc, d) == Ok(o)
    requires DistinctIds(InOrder(c.plan.value.segments)) && k < |InOrder(c.plan.value.segments)|
    ensures FirstWithId(sc.caregivers, d.caregiver).Some?
    ensures InOrder(c.plan.value.segments)[k] in o.impacted <==>
      Broken(InOrder(c.plan.value.segments), d, FirstWithId(sc.caregivers, d.caregiver).value.location, k)
  {
    var reasons, place := OutcomeParts(c, sc, d, o);
    hide DeclineOutcome, VisitFrom, Struck, TripInto, DirectlyHit, DirectReasons, DirectIds;
    var segments, ordered := o.original.segments, InOrder(o.original.segments);
    WalkStarts(segments, d, place);
    WalkEnds(ordered, d, place, DirectIds(segments, d), 0, DirectReasons(segments, d));
    FilterMember(ordered, (s: Segment) => s.id in reasons.Keys);
    if DirectlyHit(ordered[k], d) {
      StruckIfHit(ordered, d, place, k);
    }
    assert KnownBroken(ordered, d, place, |ordered|, k) <==> Broken(ordered, d, place, k);
  }

  /** b is a trip that leaves the place just as a ends. */
  predicate LeavesAfter(a: Segment, b: Segment, place: string) {
    b.kind == Transport && b.window.start == a.window.end && b.location == place
  }

  /** a is a trip that reaches the place just as b starts. */
  predicate ArrivesFor(a: Segment, b: Segment, place: string) {
    a.kind == Transport && a.window.end == b.window.start && a.destination == Some(place)
  }

  /** Segment k is declined care, or the end of an unbroken run of trips leaving the place after such care. */
  ghost predicate LostWith(ordered: seq<Segment>, d: Decline, place: string, k: nat)
    requires k < |ordered|
  {
    exists i :: 0 <= i <= k && CaresDuring(ordered[i], d.caregiver, d.window)
      && forall m :: i < m <= k ==> LeavesAfter(ordered[m-1], ordered[m], place)
  }

  lemma {:induction false} StruckMeansLost(ordered: seq<Segment>, d: Decline, place: string, k: nat)
    requires k < |ordered|
    ensures Struck(ordered, d, place, k) <==> LostWith(ordered, d, place, k)
  {
    hide CaresDuring, DirectlyHit;
    HitMeansCares(ordered[k], d);
    if k > 0 {
      StruckMeansLost(ordered, d, place, k - 1);
      if LostWith(ordered, d, place, k) && !CaresDuring(ordered[k], d.caregiver, d.window) {
        var i :| 0 <= i <= k && CaresDuring(ordered[i], d.caregiver, d.window)
          && forall m :: i < m <= k ==> LeavesAfter(ordered[m-1], ordered[m], place);
        assert LeavesAfter(ordered[k-1], ordered[k], place);
        assert LostWith(ordered, d, place, k - 1);
      }
    }
  }

  /** With distinct segment ids, what enters repair scope is the declined care, every unbroken run of trips
      leaving the caregiver's place after it, and the trip that arrives there for one of these. */
  lemma ImpactIsExact(c: Case, sc: Scenario, d: Decline, o: Outcome, k: nat)
    requires DeclineOutcome(c, sc, d) == Ok(o)
    requires DistinctIds(InOrder(c.plan.value.segments)) && k < |InOrder(c.plan.value.segments)|
    ensures FirstWithId(sc.caregivers, d.caregiver).Some?
    ensures var day, place := InOrder(c.plan.value.segments), FirstWithId(sc.caregivers, d.caregiver).value.location;
      day[k] in o.impacted <==>
        || LostWith(day, d, place, k)
        || (k + 1 < |day| && ArrivesFor(day[k], day[k+1], place) && LostWith(day, d, place, k + 1))
  {
    ImpactIsBroken(c, sc, d, o, k);
    hide DeclineOutcome, LostWith, Struck;
    var day, place := InOrder(c.plan.value.segments), FirstWithId(sc.caregivers, d.caregiver).value.location;
    StruckMeansLost(day, d, place, k);
    if k + 1 < |day| {
      StruckMeansLost(day, d, place, k + 1);
    }
  }

  lemma StruckIfHit(ordered: seq<Segment>, d: Decline, place: string, k: nat)
    requires k < |ordered| && DirectlyHit(ordered[k], d)
    ensures Struck(ordered, d, place, k)
  {
  }

  // ---------------------------------------------------------------- cover and availability

  lemma CoversWindowsOf(segments: seq<Segment>, t: int)
    ensures Covers(WindowsOf(segments), t) <==> Supervised(segments, t)
  {
    var ws := WindowsOf(segments);
    if Covers(ws, t) {
      var w :| w in ws && Holds(w, t);
      var i :| 0 <= i < |ws| && ws[i] == w;
      assert segments[i] in segments;
    }
    if s :| s in segments && Holds(s.window, t) {
      var i :| 0 <= i < |segments| && segments[i] == s;
      assert ws[i] in ws;
    }
  }

  lemma ImpactedOrPreserved(c: Case, sc: Scenario, d: Decline, o: Outcome)
    requires DeclineOutcome(c, sc, d) == Ok(o)
    ensures forall s :: s in c.plan.value.segments <==> s in o.impacted || s in o.preserved
  {
    ImpactPartitionsPlan(c, sc, d, o);
    hide DeclineOutcome;
    forall s ensures s in c.plan.value.segments <==> s in o.impacted || s in o.preserved {
      assert s in c.plan.value.segments <==> s in multiset(o.impacted) + multiset(o.preserved);
    }
  }

  /** Uncovered windows and preserved work together still account for the whole required day. */
  lemma DeclineLeavesNoHole(c: Case, sc: Scenario, d: Decline, o: Outcome, planned: Scenario, t: int)
    requires DeclineOutcome(c, sc, d) == Ok(o)
    requires Validation(planned, c.plan.value).valid
    ensures Holds(planned.required, t) <==> Covers(o.uncovered, t) || Supervised(o.preserved, t)
    ensures Separated(o.uncovered) && o.uncovered != []
  {
    var reasons, place := OutcomeParts(c, sc, d, o);
    ImpactedOrPreserved(c, sc, d, o);
    hide DeclineOutcome, Reasons, Validation, Merge, Impacted, Preserved;
    ValidPlanSupervises(planned, c.plan.value, t);
    MergeMeaning(WindowsOf(o.impacted));
    MergeNonempty(WindowsOf(o.impacted));
    CoversWindowsOf(o.impacted, t);
    assert Supervised(c.plan.value.segments, t) <==> Supervised(o.impacted, t) || Supervised(o.preserved, t);
  }

  lemma CarveKeeps(w: Window, availability: seq<Window>, block: Window)
    requires FitsOne(w, availability) && !Overlap(w, block)
    ensures FitsOne(w, CarveAll(availability, block))
  {
    var a :| a in availability && Within(w, a);
    var piece: Window := if !Overlap(a, block) then a
                         else if w.end <= block.start then Window(a.start, block.start)
                         else Window(block.end, a.end);
    assert piece in Carve(a, block) && Within(w, piece);
    FlatMapMember(availability, (x: Window) => Carve(x, block), piece);
  }

  lemma CarveOnlyShrinks(w: Window, availability: seq<Window>, block: Window)
    requires FitsOne(w, CarveAll(availability, block))
    ensures FitsOne(w, availability) && !Overlap(w, block)
  {
    var p :| p in CarveAll(availability, block) && Within(w, p);
    FlatMapMember(availability, (x: Window) => Carve(x, block), p);
    var a :| a in availability && p in Carve(a, block);
    assert Within(p, a) && Within(w, a);
    assert !Overlap(p, block);
  }

  lemma {:induction false} FindAfterDecline(cs: seq<Caregiver>, d: Decline, id: string)
    ensures Get(ByKey(Map(cs, (c: Caregiver) => DeclinedBy(c, d)), (c: Caregiver) => c.id), id)
      == (match Get(ByKey(cs, (c: Caregiver) => c.id), id)
          case Some(c) => Some(DeclinedBy(c, d))
          case None => None)
  {
    var f := (c: Caregiver) => DeclinedBy(c, d);
    if cs != [] {
      var init, last := cs[..|cs|-1], cs[|cs|-1];
      FindAfterDecline(init, d, id);
      assert Map(cs, f)[..|cs|-1] == Map(init, f);
      GetPut(ByKey(init, (c: Caregiver) => c.id), last.id, last, id);
      GetPut(ByKey(Map(init, f), (c: Caregiver) => c.id), last.id, f(last), id);
    }
  }

  lemma FindDeclined(sc: Scenario, d: Decline, id: string)
    ensures Find(AfterDecline(sc, d), id) ==
      (match Find(sc, id) case Some(c) => Some(DeclinedBy(c, d)) case None => None)
  {
    FindAfterDecline(sc.caregivers, d, id);
  }

  /** Preserved care still fits one availability window of its caregiver after the decline. */
  lemma PreservedCareStillFits(c: Case, sc: Scenario, d: Decline, o: Outcome, s: Segment)
    requires DeclineOutcome(c, sc, d) == Ok(o)
    requires s in o.preserved && s.source.ByCaregiver? && s.kind.Care? && AssignmentOk(sc, s)
    ensures AssignmentOk(o.scenario, s)
  {
    var reasons, place := OutcomeParts(c, sc, d, o);
    hide DeclineOutcome, VisitFrom, Merge, WindowsOf;
    FilterMember(o.original.segments, (x: Segment) => x.id !in reasons.Keys);
    FindDeclined(sc, d, s.person);
    var was := Find(sc, s.person).value;
    FindMeaning(sc, s.person);
    if was.id == d.caregiver {
      DirectIsKept(InOrder(o.original.segments), 0, place, DirectIds(o.original.segments, d),
                   DirectReasons(o.original.segments, d));
      assert !Overlap(s.window, d.window);
      CarveKeeps(s.window, was.availability, d.window);
    }
  }

  lemma {:induction false} DirectIsKept(ordered: seq<Segment>, k: nat, place: string, direct: set<string>,
                                        reasons: map<string, ImpactReason>)
    requires k <= |ordered|
    ensures reasons.Keys <= VisitFrom(ordered, k, place, direct, reasons).Keys
    decreases |ordered| - k
  {
    if k < |ordered| {
      DirectIsKept(ordered, k + 1, place, direct, Visit(ordered, k, place, direct, reasons));
    }
  }

  // ---------------------------------------------------------------- declines commute

  /** Two declines leave the same availability whichever is recorded first. */
  lemma DeclinesCommute(sc: Scenario, a: Decline, b: Decline)
    ensures AfterDecline(AfterDecline(sc, a), b) == AfterDecline(AfterDecline(sc, b), a)
  {
    forall i | 0 <= i < |sc.caregivers|
      ensures DeclinedBy(DeclinedBy(sc.caregivers[i], a), b) == DeclinedBy(DeclinedBy(sc.caregivers[i], b), a)
    {
      CarvingsCommute(sc.caregivers[i].availability, a.window, b.window);
    }
    assert AfterDecline(AfterDecline(sc, a), b).caregivers == AfterDecline(AfterDecline(sc, b), a).caregivers;
  }
}
