/** What one workflow step computes from the case it has read. Saving the result is another step,
    and other clients may save in between. */
module Workflow {
  import opened Prelude
  import opened Intervals
  import opened Domain
  import opened PlanValidator
  import opened Cases
  import opened PlanInvalidation

  // ---------------------------------------------------------------- accepting a plan

  function FreshSequence(caseId: string, used: set<PlanId>, sequence: nat): nat
    decreases |LaterIds(caseId, used, sequence)|
  {
    if Accepted(caseId, sequence) in used then
      FewerLater(caseId, used, sequence);
      FreshSequence(caseId, used, sequence + 1)
    else sequence
  }

  function LaterIds(caseId: string, used: set<PlanId>, sequence: nat): set<PlanId> {
    set id | id in used && id.Accepted? && id.caseId == caseId && id.sequence >= sequence
  }

  lemma FewerLater(caseId: string, used: set<PlanId>, sequence: nat)
    requires Accepted(caseId, sequence) in used
    ensures |LaterIds(caseId, used, sequence + 1)| < |LaterIds(caseId, used, sequence)|
  {
    var now, next := LaterIds(caseId, used, sequence), LaterIds(caseId, used, sequence + 1);
    assert Accepted(caseId, sequence) in now;
    assert now == next + {Accepted(caseId, sequence)};
  }

  function AcceptPlan(plan: Plan, caseId: string, previous: seq<Plan>): Plan {
    var sequence := FreshSequence(caseId, PlanIds(previous), |previous| + 1);
    MaterializeAssumptions(plan.(id := Accepted(caseId, sequence)))
  }

  lemma {:induction false} FreshSequenceIsFresh(caseId: string, used: set<PlanId>, sequence: nat)
    ensures Accepted(caseId, FreshSequence(caseId, used, sequence)) !in used
    ensures FreshSequence(caseId, used, sequence) >= sequence
    ensures forall n :: sequence <= n < FreshSequence(caseId, used, sequence) ==> Accepted(caseId, n) in used
    decreases |LaterIds(caseId, used, sequence)|
  {
    if Accepted(caseId, sequence) in used {
      FewerLater(caseId, used, sequence);
      FreshSequenceIsFresh(caseId, used, sequence + 1);
    }
  }

  /** The search for an unused lifecycle id, which always ends. */
  method FindSequence(caseId: string, previous: seq<Plan>) returns (sequence: nat)
    ensures sequence == FreshSequence(caseId, PlanIds(previous), |previous| + 1)
    ensures Accepted(caseId, sequence) !in PlanIds(previous) && sequence > |previous|
    ensures forall n :: |previous| < n < sequence ==> Accepted(caseId, n) in PlanIds(previous)
  {
    var used := PlanIds(previous);
    FreshSequenceIsFresh(caseId, used, |previous| + 1);
    sequence := |previous| + 1;
    while Accepted(caseId, sequence) in used
      invariant FreshSequence(caseId, used, sequence) == FreshSequence(caseId, used, |previous| + 1)
      decreases |LaterIds(caseId, used, sequence)|
    {
      FewerLater(caseId, used, sequence);
      sequence := sequence + 1;
    }
  }

  // ---------------------------------------------------------------- starting and replanning

  function StartedCase(caseId: string, caregiver: string, sc: Scenario, plan: Plan,
                       researched: Option<Candidate>): Case {
    var active := MaterializeAssumptions(AcceptPlan(plan, caseId, []));
    Case(caseId, WaitingForResponse, sc.required, [], Context(sc, researched), Some(active), [],
         active.assumptions, [Event(DisruptionOf(caseId), Disruption(caregiver))], None, [], [], None, false, 0)
  }

  /** A started case waits for a response, with the validated plan under its first lifecycle id and the
      availability of exactly the caregivers of that plan on record; nothing else has happened. */
  lemma StartRecordsAvailability(caseId: string, caregiver: string, sc: Scenario, plan: Plan,
                                 researched: Option<Candidate>)
    requires plan.assumptions == []
    ensures var c := StartedCase(caseId, caregiver, sc, plan, researched);
      && c.plan.Some? && c.plan.value == plan.(id := c.plan.value.id, assumptions := c.assumptions)
      && c.assumptions == AvailabilityAssumptions(c.plan.value)
      && EventIds(c.events) == {DisruptionOf(caseId)} && c.context == Context(sc, researched)
      && c.plan.value.id == Accepted(caseId, 1) && c.status == WaitingForResponse && c.pending == None
      && c.approvals == [] && c.actions == [] && c.previous == [] && !c.verified && c.trigger == None
      && c.id == caseId && c.gap == sc.required && c.uncovered == []
      && c.events == [Event(DisruptionOf(caseId), Disruption(caregiver))]
  {
    FirstSequenceIsOne(caseId);
    hide FreshSequence, MaterializeAssumptions, AvailabilityAssumptions;
    var sequence := FreshSequence(caseId, PlanIds([]), 1);
    var named := plan.(id := Accepted(caseId, sequence));
    NothingElseAssumed(named);
    assert PlanIds([]) == {};
    assert AcceptPlan(plan, caseId, []) == MaterializeAssumptions(named);
    NothingElseAssumed(MaterializeAssumptions(named));
    OnlySegmentsMatter(MaterializeAssumptions(named), named);
  }

  lemma FirstSequenceIsOne(caseId: string)
    ensures FreshSequence(caseId, PlanIds([]), 1) == 1
  {
  }

  lemma OnlySegmentsMatter(p: Plan, q: Plan)
    requires p.segments == q.segments && p.id == q.id
    ensures AvailabilityAssumptions(p) == AvailabilityAssumptions(q)
  {
  }

  /** Attaching availability to a plan that assumes nothing else leaves just that. */
  lemma NothingElseAssumed(plan: Plan)
    requires forall a :: a in plan.assumptions ==> IsAvailability(a)
    ensures MaterializeAssumptions(plan) == plan.(assumptions := AvailabilityAssumptions(plan))
    ensures forall a :: a in AvailabilityAssumptions(plan) ==> IsAvailability(a)
  {
    FilterNothing(plan.assumptions, (a: Assumption) => !IsAvailability(a));
    assert [] + AvailabilityAssumptions(plan) == AvailabilityAssumptions(plan);
  }

  function UnplannedCase(caseId: string, caregiver: string, sc: Scenario, uncovered: seq<Window>): Case {
    Case(caseId, NoRecoveryOption, sc.required, uncovered, Context(sc, None), None, [],
         [], [Event(DisruptionOf(caseId), Disruption(caregiver))], None, [], [], None, false, 0)
  }

  function UnresolvedCase(o: Outcome): Case {
    o.recovery.(status := NoRecoveryOption)
  }

  function AssumptionIds(assumptions: seq<Assumption>): set<AssumptionId> {
    set a | a in assumptions :: a.id
  }

  function Missing(assumptions: seq<Assumption>, known: seq<Assumption>): seq<Assumption> {
    Filter(assumptions, (a: Assumption) => a.id !in AssumptionIds(known))
  }

  /** The case a successful replan builds, before the accepted plan gets its lifecycle id. */
  function ReplanResult(o: Outcome, v: Verdict): Case {
    var plan := MaterializeAssumptions(v.plan);
    o.recovery.(status := Executing, plan := Some(plan), uncovered := [],
                assumptions := o.recovery.assumptions + Missing(plan.assumptions, o.recovery.assumptions))
  }

  /** The case as accepted: a fresh plan id, and assumptions renamed with it. */
  function AcceptedCase(prior: Case, o: Outcome, v: Verdict, researched: Option<Candidate>): Case {
    var result := ReplanResult(o, v);
    var transient := AssumptionIds(result.plan.value.assumptions);
    var accepted := AcceptPlan(result.plan.value, prior.id, result.previous);
    var retained := Filter(result.assumptions, (a: Assumption) =>
      a.id !in transient || a.id in AssumptionIds(prior.assumptions));
    result.(plan := Some(accepted),
            assumptions := retained + Missing(accepted.assumptions, retained),
            context := if researched.Some? then result.context.(researched := researched) else result.context)
  }

  // ---------------------------------------------------------------- the autonomy gate

  datatype GateStep = Refused | AlreadyPending(request: Approval) | Cleared(cleared: Case)
    | Paused(paused: Case, created: Approval)

  function GateUpdate(c: Case, v: Verdict, policy: Policy, newId: string): GateStep {
    if c.plan.None? || !v.valid || v.plan.id != c.plan.value.id then Refused
    else if v.requiresApproval != (v.plan.reasons != [] || v.cost > policy.spendLimit) then Refused
    else if !v.requiresApproval then Cleared(c.(status := Executing, plan := Some(v.plan)))
    else if c.pending.Some? && c.pending.value.status.Pending? && c.pending.value.planId == v.plan.id then
      AlreadyPending(c.pending.value)
    else
      var unfamiliar := UnfamiliarPaidCaregiver in v.plan.reasons;
      var overLimit := CostAboveLimit in v.plan.reasons;
      var approval := Approval(newId, v.plan.id,
        if unfamiliar && !overLimit then UnfamiliarCaregiver else SpendAboveLimit, Pending, v.cost);
      Paused(c.(status := ApprovalRequired, plan := Some(v.plan), pending := Some(approval),
                approvals := c.approvals + [approval],
                events := c.events + [Event(RequestOf(newId), ApprovalRequested(newId, v.plan.id))]),
             approval)
  }

  // ---------------------------------------------------------------- the parent's decision

  datatype DecisionStep = DecisionRefused | AlreadyDecided(same: Approval) | Decided(after: Case, decided: Approval)

  function LastApproval(approvals: seq<Approval>, id: string): Option<Approval> {
    if approvals == [] then None
    else if approvals[|approvals|-1].id == id then Some(approvals[|approvals|-1])
    else LastApproval(approvals[..|approvals|-1], id)
  }

  function DecisionUpdate(c: Case, approvalId: string, approve: bool): DecisionStep {
    var decision := if approve then Approved else Rejected;
    match LastApproval(c.approvals, approvalId)
    case None => DecisionRefused
    case Some(approval) =>
      if approval.status == decision then AlreadyDecided(approval)
      else if !approval.status.Pending? || !c.status.ApprovalRequired? || c.pending.None?
              || c.pending.value.id != approvalId || c.plan.None? || approval.planId != c.plan.value.id
      then DecisionRefused
      else
        var decided := approval.(status := decision);
        Decided(c.(status := if approve then Executing else Replanning, pending := None,
                   approvals := Map(c.approvals, (a: Approval) => if a.id == approvalId then decided else a),
                   events := c.events + [Event(DecisionOn(approvalId, approve),
                                               ApprovalDecided(approvalId, approval.planId, approve))],
                   trigger := if approve then c.trigger else Some(DecisionOn(approvalId, approve))),
                decided)
  }

  // ---------------------------------------------------------------- execution

  predicate ApprovedFor(c: Case, planId: PlanId) {
    exists a :: a in c.approvals && a.status.Approved? && a.planId == planId
  }

  /** The actions a plan needs: one per calendar change, one per caregiver segment. */
  function RequiredActions(plan: Plan): seq<Action> {
    Map(plan.changes, (e: CalendarEvent) =>
      Action(CalendarAction(plan.id, e.id), plan.id, e.id, NotSucceeded))
    + Map(Filter(plan.segments, (s: Segment) => s.source.ByCaregiver?), (s: Segment) =>
        Action(CaregiverAction(plan.id, s.id), plan.id, s.person, NotSucceeded))
  }

  /** What a plan still has to do for a calendar change, and for a caregiver's segment. */
  function ActionForChange(plan: Plan, e: CalendarEvent): Action {
    Action(CalendarAction(plan.id, e.id), plan.id, e.id, NotSucceeded)
  }

  function ActionForCaregiver(plan: Plan, s: Segment): Action {
    Action(CaregiverAction(plan.id, s.id), plan.id, s.person, NotSucceeded)
  }

  /** One action for each calendar change, then one for each segment of a caregiver, in order, and no other. */
  lemma ActionsOfAPlan(plan: Plan)
    ensures forall i :: 0 <= i < |plan.changes| ==>
      i < |RequiredActions(plan)| && RequiredActions(plan)[i] == ActionForChange(plan, plan.changes[i])
    ensures forall s :: s in plan.segments && s.source == ByCaregiver ==>
      ActionForCaregiver(plan, s) in RequiredActions(plan)
    ensures forall a :: a in RequiredActions(plan) ==> ComesFromPlan(plan, a)
    ensures |RequiredActions(plan)| == |plan.changes| + |Filter(plan.segments, (s: Segment) => s.source == ByCaregiver)|
  {
    FilterAgree(plan.segments, (s: Segment) => s.source.ByCaregiver?, (s: Segment) => s.source == ByCaregiver);
    ActionsInOrder(plan);
    hide RequiredActions, Filter;
    forall s | s in plan.segments && s.source == ByCaregiver
      ensures ActionForCaregiver(plan, s) in RequiredActions(plan)
    {
      ActionIsListed(plan, s);
    }
    forall a | a in RequiredActions(plan) ensures ComesFromPlan(plan, a) {
      ActionComesFromPlan(plan, a);
    }
  }

  ghost predicate ComesFromPlan(plan: Plan, a: Action) {
    || (exists e :: e in plan.changes && a == ActionForChange(plan, e))
    || (exists s :: s in plan.segments && s.source == ByCaregiver && a == ActionForCaregiver(plan, s))
  }

  lemma ActionIsListed(plan: Plan, s: Segment)
    requires s in plan.segments && s.source == ByCaregiver
    ensures ActionForCaregiver(plan, s) in RequiredActions(plan)
  {
    var care := Filter(plan.segments, (x: Segment) => x.source.ByCaregiver?);
    FilterMember(plan.segments, (x: Segment) => x.source.ByCaregiver?);
    ActionsInOrder(plan);
    hide RequiredActions, Filter;
    var i :| 0 <= i < |care| && care[i] == s;
    assert RequiredActions(plan)[|plan.changes| + i] == ActionForCaregiver(plan, s);
  }

  lemma ActionComesFromPlan(plan: Plan, a: Action)
    requires a in RequiredActions(plan)
    ensures ComesFromPlan(plan, a)
  {
    var care, n := Filter(plan.segments, (s: Segment) => s.source.ByCaregiver?), |plan.changes|;
    FilterMember(plan.segments, (s: Segment) => s.source.ByCaregiver?);
    ActionsInOrder(plan);
    hide RequiredActions, Filter;
    var i :| 0 <= i < |RequiredActions(plan)| && RequiredActions(plan)[i] == a;
    if i >= n {
      assert care[i - n] in care;
    } else {
      assert plan.changes[i] in plan.changes;
    }
  }

  lemma ActionsInOrder(plan: Plan)
    ensures var care, n := Filter(plan.segments, (s: Segment) => s.source.ByCaregiver?), |plan.changes|;
      && |RequiredActions(plan)| == n + |care|
      && (forall i :: 0 <= i < n ==> RequiredActions(plan)[i] == ActionForChange(plan, plan.changes[i]))
      && (forall i :: n <= i < n + |care| ==> RequiredActions(plan)[i] == ActionForCaregiver(plan, care[i - n]))
  {
    hide Filter;
  }

  function ActionsById(actions: seq<Action>): Dict<ActionId, Action> {
    ByKey(actions, (a: Action) => a.id)
  }

  predicate HasSucceeded(c: Case, id: ActionId) {
    var prior := Get(ActionsById(c.actions), id);
    prior.Some? && prior.value.status.Succeeded?
  }

  datatype Progress = Progress(history: seq<Action>, events: seq<Event>, completed: seq<Action>)

  /** One required action: kept if it already succeeded, otherwise run and recorded anew. */
  function RunAction(c: Case, action: Action, adapter: Action -> ActionStatus, p: Progress): Progress {
    if HasSucceeded(c, action.id) then
      p.(completed := p.completed + [Get(ActionsById(c.actions), action.id).value])
    else
      var result := action.(status := adapter(action));
      Progress(Filter(p.history, (a: Action) => a.id != result.id) + [result],
               p.events + [Event(OutcomeOf(result.id, result.status.Succeeded?),
                                 ActionFinished(result.id, result.status.Succeeded?))],
               p.completed + [result])
  }

  function RunActions(c: Case, required: seq<Action>, adapter: Action -> ActionStatus, p: Progress): Progress {
    if required == [] then p
    else RunAction(c, required[|required|-1], adapter, RunActions(c, required[..|required|-1], adapter, p))
  }

  predicate AllSucceeded(actions: seq<Action>) {
    forall a :: a in actions ==> a.status.Succeeded?
  }

  datatype ExecutionStep = ExecutionRefused | AlreadyExecuted | Ran(after: Case, succeeded: bool)

  function StartEvents(c: Case, plan: Plan): seq<Event> {
    if StartOf(plan.id) in EventIds(c.events) then c.events
    else c.events + [Event(StartOf(plan.id), ExecutionStarted(plan.id))]
  }

  predicate MayExecute(c: Case) {
    && c.plan.Some? && c.plan.value.state.Valid? && c.pending.None? && c.status.Executing?
    && (c.plan.value.reasons != [] ==> ApprovedFor(c, c.plan.value.id))
  }

  predicate NothingLeft(c: Case, required: seq<Action>) {
    required != [] && forall a :: a in required ==> HasSucceeded(c, a.id)
  }

  function ExecutionUpdate(c: Case, adapter: Action -> ActionStatus): ExecutionStep {
    if !MayExecute(c) then ExecutionRefused
    else
      var required := RequiredActions(c.plan.value);
      if NothingLeft(c, required) then AlreadyExecuted
      else
        var p := RunActions(c, required, adapter, Progress(c.actions, StartEvents(c, c.plan.value), []));
        var succeeded := AllSucceeded(p.completed);
        Ran(c.(status := if succeeded then Executing else Failed, actions := p.history, events := p.events),
            succeeded)
  }

  // ---------------------------------------------------------------- completion

  datatype CompletionError =
    | NotExecuting | NoPlan | PlanInvalid | ApprovalPending | ApprovalMissing
    | ActionOutstanding(action: ActionId) | ReliesOn(assumption: AssumptionId)

  predicate Relies(s: Segment, a: Assumption) {
    && a.status.Invalidated? && a.window.Some?
    && s.source.ByCaregiver? && s.person == a.subject && Overlap(s.window, a.window.value)
  }

  function Require(ok: bool, e: CompletionError): (r: seq<CompletionError>)
    ensures r == [] <==> ok
  {
    if ok then [] else [e]
  }

  function OutstandingErrors(c: Case, required: seq<Action>): seq<CompletionError> {
    FlatMap(required, (a: Action) => Require(HasSucceeded(c, a.id), ActionOutstanding(a.id)))
  }

  function RelianceErrors(assumptions: seq<Assumption>, segments: seq<Segment>): seq<CompletionError> {
    FlatMap(assumptions, (a: Assumption) =>
      FlatMap(segments, (s: Segment) => Require(!Relies(s, a), ReliesOn(a.id))))
  }

  function CompletionErrors(c: Case, sc: Scenario): seq<CompletionError> {
    Require(c.status.Executing?, NotExecuting)
    + if c.plan.None? then [NoPlan]
      else
        var plan, v := c.plan.value, Validation(sc, c.plan.value);
        Require(v.valid, PlanInvalid)
        + Require(c.pending.None?, ApprovalPending)
        + Require(v.requiresApproval ==> ApprovedFor(c, plan.id), ApprovalMissing)
        + OutstandingErrors(c, RequiredActions(plan))
        + RelianceErrors(c.assumptions, plan.segments)
  }

  function ResolvedCase(c: Case): Case
    requires c.plan.Some?
  {
    var planId := c.plan.value.id;
    c.(status := Resolved, verified := true,
       events := if VerificationOf(planId) in EventIds(c.events) then c.events
                 else c.events + [Event(VerificationOf(planId), CompletionVerified(planId)),
                                  Event(ResolutionOf(c.id), CaseResolved)])
  }

  /** No caregiver segment of the plan overlaps an invalidated assumption about that caregiver. */
  ghost predicate ReliesOnNothingInvalid(c: Case) {
    c.plan.Some? ==>
      forall s, a :: s in c.plan.value.segments && a in c.assumptions ==> !Relies(s, a)
  }

  ghost predicate AllActionsDone(c: Case) {
    c.plan.Some? ==> forall a :: a in RequiredActions(c.plan.value) ==> HasSucceeded(c, a.id)
  }

  /** The caregiver of the segment is somebody whose availability the case knows to be lost at an instant of it. */
  ghost predicate UsesLostTime(s: Segment, a: Assumption) {
    && s.source == ByCaregiver && a.status.Invalidated? && a.subject == s.person
    && a.window.Some? && exists t :: Holds(s.window, t) && Holds(a.window.value, t)
  }

  /** No segment of the active plan uses lost time. */
  ghost predicate NoTimeIsLost(c: Case) {
    c.plan.Some? ==> forall s, a :: s in c.plan.value.segments && a in c.assumptions ==> !UsesLostTime(s, a)
  }

  lemma ReliesMeansLostTime(c: Case)
    ensures ReliesOnNothingInvalid(c) <==> NoTimeIsLost(c)
  {
    forall s: Segment, a: Assumption ensures Relies(s, a) <==> UsesLostTime(s, a) {
      if a.window.Some? {
        WindowsAreInstants(s.window, a.window.value);
      }
    }
    hide Relies, UsesLostTime;
  }

  lemma CompletionMeaning(c: Case, sc: Scenario)
    ensures CompletionErrors(c, sc) == [] <==>
      && c.status.Executing? && c.plan.Some? && Validation(sc, c.plan.value).valid && c.pending.None?
      && (Validation(sc, c.plan.value).requiresApproval ==> ApprovedFor(c, c.plan.value.id))
      && AllActionsDone(c) && ReliesOnNothingInvalid(c)
  {
    hide Validation, HasSucceeded;
    if c.plan.Some? {
      var plan := c.plan.value;
      FlatMapEmpty(RequiredActions(plan), (a: Action) => Require(HasSucceeded(c, a.id), ActionOutstanding(a.id)));
      RelianceMeaning(c.assumptions, plan.segments);
    }
  }

  lemma RelianceMeaning(assumptions: seq<Assumption>, segments: seq<Segment>)
    ensures RelianceErrors(assumptions, segments) == [] <==>
      forall s, a :: s in segments && a in assumptions ==> !Relies(s, a)
  {
    FlatMapEmpty(assumptions, (a: Assumption) =>
      FlatMap(segments, (s: Segment) => Require(!Relies(s, a), ReliesOn(a.id))));
    forall a | a in assumptions
      ensures FlatMap(segments, (s: Segment) => Require(!Relies(s, a), ReliesOn(a.id))) == []
        <==> forall s :: s in segments ==> !Relies(s, a)
    {
      FlatMapEmpty(segments, (s: Segment) => Require(!Relies(s, a), ReliesOn(a.id)));
    }
  }
}
