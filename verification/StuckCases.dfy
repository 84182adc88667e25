/** Two cases the workflow cannot finish, each built from plans the validator accepts: an old request that
    blocks a plan needing no permission, and a repair that goes back to the caregiver who declined. */
module StuckCases {
  import opened Prelude
  import opened Intervals
  import opened Domain
  import opened ValidationRules
  import opened Costs
  import opened PlanValidator
  import opened MatrixCompleteness
  import opened PlannableDays
  import opened Cases
  import opened PlanInvalidation
  import opened Workflow
  import opened StoredCases
  import opened RecoveryProtocol
  import Service = RecoveryService
  import opened RepairCompletion
  import opened PaidDay
  import opened ReachableResolution

  // ---------------------------------------------------------------- declining the only segment

  lemma OnlySegmentIsHit(s: Segment, d: Decline, place: string)
    requires DirectlyHit(s, d)
    ensures s.id in Reasons([s], d, place)
    ensures forall ids: set<string> :: s.id in ids ==> Impacted([s], ids) == [s] && Preserved([s], ids) == []
  {
    OneInOrder(s);
    hide InOrder;
    var seeds := DirectReasons([s], d);
    assert s in [s] && s.id in DirectIds([s], d);
    assert Visit([s], 0, place, DirectIds([s], d), seeds) == seeds;
    assert VisitFrom([s], 1, place, DirectIds([s], d), seeds) == seeds;
    forall ids: set<string> | s.id in ids ensures Impacted([s], ids) == [s] && Preserved([s], ids) == [] {
      assert [s][..|[s]|-1] == [];
      FilterNothing([s], (x: Segment) => x.id !in ids);
      assert Filter([s], (x: Segment) => x.id in ids) == [] + [s];
    }
  }

  /** A decline that meets the only segment of a plan leaves nothing to preserve. */
  lemma OnlySegmentDeclined(c: Case, sc: Scenario, d: Decline, s: Segment, a: Assumption)
    requires c.plan.Some? && c.plan.value.state.Valid? && c.plan.value.segments == [s] && DirectlyHit(s, d)
    requires d.id !in EventIds(c.events) && a in c.assumptions && DependsOn(a, d) && Knows(sc, d.caregiver)
    ensures DeclineOutcome(c, sc, d).Ok?
    ensures var o := DeclineOutcome(c, sc, d).value;
      o.preserved == [] && o.scenario == AfterDecline(sc, d) && Invalidate(a, d) in o.invalidated
  {
    FirstWithIdMeaning(sc.caregivers, d.caregiver);
    var place := FirstWithId(sc.caregivers, d.caregiver).value.location;
    OnlySegmentIsHit(s, d, place);
    hide Impacted, Preserved, Reasons, Merge;
    var hit := Filter(c.assumptions, (x: Assumption) => DependsOn(x, d));
    FilterMember(c.assumptions, (x: Assumption) => DependsOn(x, d));
    var i :| 0 <= i < |hit| && hit[i] == a;
    assert DeclineOutcome(c, sc, d).value.invalidated[i] == Invalidate(a, d);
  }

  lemma OnlySegmentIsUncovered(c: Case, sc: Scenario, d: Decline, s: Segment, o: Outcome)
    requires DeclineOutcome(c, sc, d) == Ok(o) && c.plan.value.segments == [s] && DirectlyHit(s, d)
    ensures o.uncovered == [s.window]
  {
    var reasons, place := OutcomeParts(c, sc, d, o);
    OnlySegmentIsHit(s, d, place);
    OneMerged(s.window);
    hide DeclineOutcome, Impacted, Reasons, Merge;
    assert WindowsOf([s]) == [s.window];
  }

  // ---------------------------------------------------------------- the paid sitter declines

  function SitterIsAvailable(planId: PlanId): Assumption {
    Assumption(AvailabilityFor(planId, "by-sitter"), CaregiverAvailable, "sitter", Some(ALL_DAY), Active)
  }

  /** The sitter has the whole day, on record as available for it, and has not declined yet. */
  predicate SitterHasTheDay(c: Case) {
    && c.plan.Some? && c.plan.value.state.Valid? && |c.plan.value.segments| == 1
    && c.plan.value.segments[0] == SitterFor(ALL_DAY).(cost := c.plan.value.segments[0].cost)
    && SitterIsAvailable(c.plan.value.id) in c.assumptions && Named("decline") !in EventIds(c.events)
  }

  /** A case started with one caregiver segment has that caregiver's availability on record. */
  lemma StartAssumes(plan: Plan, s: Segment, sc: Scenario, researched: Option<Candidate>)
    requires plan.segments == [s] && s.source.ByCaregiver? && plan.assumptions == []
    ensures var c := StartedCase("case", "grandmother", sc, plan, researched);
      && c.plan.Some? && c.plan.value == plan.(id := c.plan.value.id, assumptions := c.assumptions)
      && c.assumptions == [AvailabilityAssumption(c.plan.value.id, s)]
      && EventIds(c.events) == {DisruptionOf("case")} && c.context == Context(sc, researched)
  {
    StartRecordsAvailability("case", "grandmother", sc, plan, researched);
    hide StartedCase;
    OnlyAssumption(StartedCase("case", "grandmother", sc, plan, researched).plan.value, s);
  }

  lemma OnlyAssumption(plan: Plan, s: Segment)
    requires plan.segments == [s] && s.source.ByCaregiver?
    ensures AvailabilityAssumptions(plan) == [AvailabilityAssumption(plan.id, s)]
  {
    assert [s][..|[s]|-1] == [];
    assert Filter([s], (x: Segment) => x.source.ByCaregiver?) == [] + [s];
  }

  lemma FirstAssumes()
    ensures First().plan.Some? && First().assumptions == [SitterIsAvailable(First().plan.value.id)]
    ensures |First().plan.value.segments| == 1 && First().plan.value.state.Valid?
    ensures First().plan.value.segments[0] == SitterFor(ALL_DAY).(cost := First().plan.value.segments[0].cost)
  {
    SitterAllDay();
    var plan := PaidVerdict().plan;
    hide Validation, StartedCase;
    StartAssumes(plan, plan.segments[0], DayWith(ALL_DAY), None);
  }

  lemma PaidCasesHaveTheSitter()
    ensures SitterHasTheDay(First()) && SitterHasTheDay(Asked())
  {
    SitterAllDay();
    FirstAssumes();
    FirstParts();
    PaidEvents();
    hide First, Validation, AcceptPlan, MaterializeAssumptions, EventIds;
  }

  lemma PaidEvents()
    ensures Named("decline") !in EventIds(First().events) && Named("decline") !in EventIds(Asked().events)
  {
    hide Validation, AcceptPlan, MaterializeAssumptions;
  }

  lemma PaidDecline(c: Case) returns (o: Outcome)
    requires SitterHasTheDay(c)
    ensures DeclineOutcome(c, DayWith(ALL_DAY), SITTER_DECLINES) == Ok(o)
    ensures o.preserved == [] && o.scenario == DayWith(EVENING)
    ensures SitterIsAvailable(c.plan.value.id).(status := Invalidated(Named("decline"))) in o.invalidated
  {
    DeclinedMorning();
    hide DeclineOutcome, EventIds;
    assert Sitter(ALL_DAY) in DayWith(ALL_DAY).caregivers;
    OnlySegmentDeclined(c, DayWith(ALL_DAY), SITTER_DECLINES, c.plan.value.segments[0],
                        SitterIsAvailable(c.plan.value.id));
    o := DeclineOutcome(c, DayWith(ALL_DAY), SITTER_DECLINES).value;
  }

  // ---------------------------------------------------------------- an old request blocks a free plan

  function ParentVerdict(): Verdict {
    RepairValidation(DayWith(EVENING), PlanOf([ParentFor(ALL_DAY)]), [])
  }

  /** A repair that was accepted is stored without its old requests having been looked at. */
  lemma RepairIsStored(c: Case, op: Operation, planning: Scenario, plan: Plan, o: Outcome) returns (stored: Case)
    requires Sound(c) && op.AcceptReplan? && DeclineOutcome(c, op.sc, op.d) == Ok(o)
    requires op.verdict == RepairValidation(planning, plan, o.preserved) && op.verdict.valid
    ensures Vetted(op) && Attempt(c, op).Some? && stored == Stored(Attempt(c, op).value, c.version)
    ensures stored == Stored(AcceptedCase(c, o, op.verdict, op.researched), c.version) && stored.status.Executing?
    ensures stored.plan.Some? && stored.approvals == c.approvals && stored.pending == c.pending
    ensures stored.plan.value.reasons == op.verdict.plan.reasons
    ensures GateReady(stored, op.verdict.(plan := stored.plan.value))
  {
    Service.AcceptReplanParts(c, op, planning, plan, o);
    stored := Stored(Attempt(c, op).value, c.version);
    AcceptedPlanIsFresh(c, o, op.verdict, op.researched);
    hide DeclineOutcome, Sound, RepairValidation, AcceptedCase;
    DeclineParts(c, op.sc, op.d, o);
    hide Attempt;
    DeclineKeepsSound(c, op, Attempt(c, op).value);
    VersionDoesNotMatter(Attempt(c, op).value, c.version + 1);
  }

  lemma GateClearsTheFreePlan(c: Case, v: Verdict, newId: string) returns (cleared: Case)
    requires c.plan.Some? && v.valid && v.plan == c.plan.value
    requires !v.requiresApproval && v.plan.reasons == [] && v.cost == 0.0
    ensures GateUpdate(c, v, LENIENT, newId) == Cleared(cleared)
    ensures cleared == c.(status := Executing)
  {
    cleared := c.(status := Executing, plan := Some(v.plan));
  }

  lemma AskedIsSound()
    ensures Sound(Asked()) && Asked().version == 2
    ensures Asked().pending == Some(Request()) && Asked().approvals == [Request()]
  {
    SitterAllDay();
    GatePauses();
    AskedParts();
    FirstParts();
    Service.ValidationIsFromValidator(DayWith(ALL_DAY), PaidPlan());
    hide Validation, Asked, StartedCase, AcceptPlan, FromValidator, Sound, GateReady, GateAttempt, PlanOf, SitterFor,
         DayWith;
    GatedStartIsSound(PaidVerdict(), DayWith(ALL_DAY), None, First(), Checked(), LENIENT, "request",
                      GateAttempt(First(), Checked(), LENIENT, "request").value);
  }

  lemma AskedParts()
    ensures Asked().version == 2 && Asked().pending == Some(Request()) && Asked().approvals == [Request()]
  {
    FirstParts();
    hide First;
  }

  lemma ReadAndReplan(log: seq<Case>, op: Operation, v: Verdict)
    requires log != [] && Vetted(op) && op.AcceptReplan? && Attempt(log[|log|-1], op).Some?
    requires Attempt(log[|log|-1], op).value.plan.Some?
    requires v == op.verdict.(plan := Attempt(log[|log|-1], op).value.plan.value)
    ensures var stored := Stored(Attempt(log[|log|-1], op).value, log[|log|-1].version);
      && Moves(Quiet(log), Reading(log), "case")
      && Moves(Reading(log), System(log + [stored], map[0 := BeforeGate(stored, v)]), "case")
  {
    hide Attempt, Vetted;
    assert Quiet(log).clients[0 := Holding(Current(Quiet(log)))] == Reading(log).clients;
    assert Next(Quiet(log), Reading(log), "case", 0, Read);
    var stored := Stored(Attempt(log[|log|-1], op).value, log[|log|-1].version);
    var after := System(log + [stored], map[0 := BeforeGate(stored, v)]);
    assert Reading(log).clients[0 := BeforeGate(stored, v)] == after.clients;
    assert Next(Reading(log), after, "case", 0, Save(op));
  }

  /** The stored plan needs nobody's permission and has passed its gate; it cannot be executed, and the
      request that is in the way can no longer be decided. */
  predicate BlockedByRequest(c: Case) {
    && c.status.Executing? && c.plan.Some? && c.plan.value.state.Valid? && c.plan.value.reasons == []
    && !MayExecute(c) && c.pending.Some?
    && !DecisionUpdate(c, c.pending.value.id, true).Decided? && !DecisionUpdate(c, c.pending.value.id, false).Decided?
  }

  lemma FreePlanIsBlocked(c: Case, v: Verdict, newId: string) returns (cleared: Case)
    requires GateReady(c, v) && v.plan == c.plan.value && c.pending.Some?
    requires !v.requiresApproval && v.plan.reasons == [] && v.cost == 0.0
    ensures GateAttempt(c, v, LENIENT, newId) == Some(cleared) && BlockedByRequest(cleared)
  {
    cleared := GateClearsTheFreePlan(c, v, newId);
    hide GateUpdate, DecisionUpdate;
    ClearedPlanRunsUnlessStaleRequest(c, v, LENIENT, newId, cleared);
  }

  lemma BlockedWhateverTheVersion(c: Case, version: nat)
    requires BlockedByRequest(c)
    ensures BlockedByRequest(c.(version := version))
  {
  }

  /** Some run of the protocol ends in such a case: the sitter declines while the parent is still being
      asked about the price, and the parent takes over. */
  lemma AnOldRequestMayBlock() returns (run: seq<System>)
    ensures Run(run, "case") && run[|run|-1].log != [] && BlockedByRequest(Current(run[|run|-1]))
  {
    Starts();
    Gates();
    PaidCasesHaveTheSitter();
    AskedIsSound();
    ParentAllDay(EVENING);
    hide First, Asked, Checked, Attempt, Moves, Sound, SitterHasTheDay, GateUpdate, GateReady, Started, Vetted,
         BlockedByRequest, RepairValidation, DeclineOutcome, DayWith, PlanOf, ParentFor, GateAttempt;
    var o := PaidDecline(Asked());
    var op := AcceptReplan(SITTER_DECLINES, DayWith(ALL_DAY), ParentVerdict(), None);
    var stored := RepairIsStored(Asked(), op, DayWith(EVENING), PlanOf([ParentFor(ALL_DAY)]), o);
    var log, v := [First()] + [Asked()], ParentVerdict().(plan := stored.plan.value);
    ReadAndReplan(log, op, v);
    var cleared := FreePlanIsBlocked(stored, v, "second");
    GateMoves(log + [stored], stored, v, LENIENT, "second", cleared);
    BlockedWhateverTheVersion(cleared, stored.version + 1);
    hide Quiet, Reading;
    run := [Empty(), Started(), Quiet(log), Reading(log), System(log + [stored], map[0 := BeforeGate(stored, v)]),
            Quiet(log + [stored] + [Stored(cleared, stored.version)])];
  }

  // ---------------------------------------------------------------- going back to the declined sitter

  function SharedVerdict(): Verdict {
    RepairValidation(DayWith(EVENING), PlanOf([ParentFor(MORNING), SitterFor(EVENING)]), [])
  }

  lemma SharedRepairLeavesAnError(o: Outcome, x: Case, later: Scenario)
    requires DeclineOutcome(First(), DayWith(ALL_DAY), SITTER_DECLINES) == Ok(o) && SitterHasTheDay(First())
    requires SitterIsAvailable(First().plan.value.id).(status := Invalidated(Named("decline"))) in o.invalidated
    requires OnItsWay(AcceptedCase(First(), o, SharedVerdict(), None), x)
    ensures CompletionErrors(x, later) != []
  {
    FirstAssumes();
    var s := SharedPlanHasTheSitter();
    hide First, DeclineOutcome, AcceptedCase, RepairValidation, CompletionErrors, DayWith, SitterHasTheDay;
    AcceptedPlanIsFresh(First(), o, SharedVerdict(), None);
    DeclinedCaregiverCannotReturn(First(), DayWith(ALL_DAY), SITTER_DECLINES, o, SharedVerdict(), None, x, later,
      SitterIsAvailable(First().plan.value.id).(status := Invalidated(Named("decline"))), s);
  }

  /** The validator accepts the sitter for the half that was not declined, but whatever the accepted case
      becomes on its way to execution, verification finds an error. */
  lemma ReturningSitterNeverCompletes() returns (o: Outcome)
    ensures DeclineOutcome(First(), DayWith(ALL_DAY), SITTER_DECLINES) == Ok(o)
    ensures SharedVerdict() ==
      RepairValidation(o.scenario, PlanOf([ParentFor(MORNING), SitterFor(EVENING)]), o.preserved)
    ensures SharedVerdict().valid
    ensures var stored := AcceptedCase(First(), o, SharedVerdict(), None);
      forall x, later :: OnItsWay(stored, x) ==> CompletionErrors(x, later) != []
  {
    PaidCasesHaveTheSitter();
    o := PaidDecline(First());
    SitterInTheEvening();
    hide First, DeclineOutcome, AcceptedCase, RepairValidation, CompletionErrors, OnItsWay, SitterHasTheDay;
    var stored := AcceptedCase(First(), o, SharedVerdict(), None);
    forall x, later | OnItsWay(stored, x) ensures CompletionErrors(x, later) != [] {
      SharedRepairLeavesAnError(o, x, later);
    }
  }

  lemma SharedPlanHasTheSitter() returns (s: Segment)
    ensures s in SharedVerdict().plan.segments && s.source.ByCaregiver? && s.person == "sitter" && s.window == EVENING
  {
    var sc, a, b := DayWith(EVENING), ParentFor(MORNING), SitterFor(EVENING);
    TwoInOrder(a, b);
    SitterInTheEvening();
    hide InOrder, Findings, TotalCost, ApprovalReasons;
    PricedLength(sc, [a, b], {});
    s := Priced(sc, [a, b], {})[1];
  }
}
