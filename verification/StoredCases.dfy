/** What every stored case satisfies, and what every save keeps from the case it was computed from. */
module StoredCases {
  import opened Prelude
  import opened Intervals
  import opened Domain
  import opened ValidationRules
  import opened Costs
  import opened PlanValidator
  import opened Cases
  import opened PlanInvalidation
  import opened Workflow
  import opened ExecutionHistory

  // ---------------------------------------------------------------- read, compute, save

  /** What a client decides to do with the case it has read. Everything that comes from outside
      (the scenario it believes in, the plan it was offered, the adapter's answers) is arbitrary. */
  datatype Operation =
    | StopWithoutOption(stopped: Decline, stoppedIn: Scenario)
    | KeepFailedReplan(failed: Decline, failedIn: Scenario)
    | AcceptReplan(d: Decline, sc: Scenario, verdict: Verdict, researched: Option<Candidate>)
    | DecideApproval(approvalId: string, approve: bool)
    | Execute(adapter: Action -> ActionStatus)
    | VerifyAndResolve(planned: Scenario)

  /** The case the operation would save, or nothing when it refuses or finds its work already done. */
  function Attempt(c: Case, op: Operation): Option<Case> {
    match op
    case StopWithoutOption(d, sc) =>
      (match DeclineOutcome(c, sc, d)
       case Ok(o) => Some(UnresolvedCase(o))
       case Err(_) => None)
    case KeepFailedReplan(d, sc) =>
      (match DeclineOutcome(c, sc, d)
       case Ok(o) => Some(o.recovery)
       case Err(_) => None)
    case AcceptReplan(d, sc, v, researched) =>
      (match DeclineOutcome(c, sc, d)
       case Ok(o) => if v.valid then Some(AcceptedCase(c, o, v, researched)) else None
       case Err(_) => None)
    case DecideApproval(id, approve) =>
      (match DecisionUpdate(c, id, approve)
       case Decided(after, _) => Some(after)
       case _ => None)
    case Execute(adapter) =>
      (match ExecutionUpdate(c, adapter)
       case Ran(after, _) => Some(after)
       case _ => None)
    case VerifyAndResolve(sc) =>
      if CompletionErrors(c, sc) == [] then Some(ResolvedCase(c)) else None
  }

  ghost predicate FromValidator(v: Verdict) {
    exists sc, plan, preserved :: v == RepairValidation(sc, plan, preserved)
  }

  ghost predicate Vetted(op: Operation) {
    op.AcceptReplan? ==> FromValidator(op.verdict)
  }

  /** What a verdict is worth to the gate: the stored plan is the validated one. */
  ghost predicate GateReady(c: Case, v: Verdict) {
    c.plan.Some? && v.valid && c.plan.value.state.Valid?
    && v.plan == c.plan.value.(assumptions := v.plan.assumptions)
  }

  predicate FreshApprovalId(c: Case, id: string) {
    forall a :: a in c.approvals ==> a.id != id
  }

  function GateAttempt(c: Case, v: Verdict, policy: Policy, newId: string): Option<Case> {
    match GateUpdate(c, v, policy, newId)
    case Cleared(after) => Some(after)
    case Paused(after, _) => Some(after)
    case _ => None
  }

  // ---------------------------------------------------------------- the invariant of one case

  function KnownPlans(c: Case): seq<Plan> {
    c.previous + (if c.plan.Some? then [c.plan.value] else [])
  }

  ghost predicate PlansTellApart(c: Case) {
    && (forall i, j :: 0 <= i < j < |c.previous| ==> c.previous[i].id != c.previous[j].id)
    && (c.plan.Some? && c.plan.value.state.Valid? ==> c.plan.value.id !in PlanIds(c.previous))
    && (c.plan.Some? && !c.plan.value.state.Valid? ==>
          exists p :: p in c.previous && p.id == c.plan.value.id && p.reasons == c.plan.value.reasons)
  }

  predicate StatusNeedsValidPlan(c: Case) {
    c.status.Replanning? || c.status.NoRecoveryOption? || (c.plan.Some? && c.plan.value.state.Valid?)
  }

  ghost predicate ActionsBelong(c: Case) {
    && DistinctActions(c.actions)
    && forall a :: a in c.actions ==> a.planId == a.id.planId && a.planId in PlanIds(KnownPlans(c))
  }

  ghost predicate ApprovalsBelong(c: Case) {
    && (forall i, j :: 0 <= i < j < |c.approvals| ==> c.approvals[i].id != c.approvals[j].id)
    && (forall a :: a in c.approvals ==> a.planId in PlanIds(KnownPlans(c)))
    && (c.pending.Some? ==> c.pending.value in c.approvals)
  }

  /** Nothing succeeded for a plan with approval reasons unless that very plan was approved. */
  ghost predicate Authorised(c: Case) {
    forall a, p :: a in c.actions && p in KnownPlans(c) ==>
      (a.status.Succeeded? && p.id == a.planId && p.reasons != [] ==> ApprovedFor(c, p.id))
  }

  ghost predicate ReasonsNameCare(c: Case) {
    c.plan.Some? && c.plan.value.reasons != [] ==>
      exists s :: s in c.plan.value.segments && s.source.ByCaregiver?
  }

  /** What it means for a case to be resolved. */
  ghost predicate Complete(c: Case) {
    && c.plan.Some? && c.plan.value.state.Valid? && c.pending.None?
    && (c.plan.value.reasons != [] ==> ApprovedFor(c, c.plan.value.id))
    && AllActionsDone(c) && ReliesOnNothingInvalid(c)
  }

  ghost predicate Sound(c: Case) {
    && PlansTellApart(c) && StatusNeedsValidPlan(c) && ActionsBelong(c) && ApprovalsBelong(c)
    && Authorised(c) && ReasonsNameCare(c) && WorkBelongs(c) && (c.status.Resolved? ==> Complete(c))
  }

  /** The action is one the plan requires, whatever became of it. */
  ghost predicate IsActionOf(p: Plan, a: Action) {
    exists r :: r in RequiredActions(p) && a == r.(status := a.status)
  }

  /** Segment ids tell the segments of the active plan apart, and every action is one some plan requires. */
  ghost predicate WorkBelongs(c: Case) {
    && (c.plan.Some? ==> DistinctIds(c.plan.value.segments))
    && forall a :: a in c.actions ==> exists p :: p in KnownPlans(c) && IsActionOf(p, a)
  }

  // ---------------------------------------------------------------- what one save keeps

  predicate SamePlan(p: Plan, q: Plan) {
    q == p.(assumptions := q.assumptions, state := q.state)
  }

  /** The active plan stays, or it has become history and another valid one took its place. */
  predicate PlanKept(a: Case, b: Case) {
    || (a.plan.None? && b.plan.None?)
    || (a.plan.Some? && b.plan.Some? && SamePlan(a.plan.value, b.plan.value))
    || (a.plan.Some? && b.plan.Some? && b.plan.value.state.Valid? && a.plan.value.id in PlanIds(b.previous))
  }

  predicate ApprovalKept(a: Approval, b: Approval) {
    b == a || (a.status.Pending? && b == a.(status := b.status))
  }

  predicate ApprovalsKept(before: seq<Approval>, after: seq<Approval>) {
    |before| <= |after| && forall i :: 0 <= i < |before| ==> ApprovalKept(before[i], after[i])
  }

  predicate SuccessesKept(before: seq<Action>, after: seq<Action>) {
    forall a :: a in before && a.status.Succeeded? ==> a in after
  }

  predicate Continues(a: Case, b: Case) {
    && b.id == a.id && a.events <= b.events && a.previous <= b.previous
    && ApprovalsKept(a.approvals, b.approvals) && SuccessesKept(a.actions, b.actions) && PlanKept(a, b)
  }

  // ---------------------------------------------------------------- whose work an action is

  lemma SamePlanSameWork(p: Plan, q: Plan, a: Action)
    requires SamePlan(p, q)
    ensures IsActionOf(p, a) <==> IsActionOf(q, a)
  {
    assert RequiredActions(p) == RequiredActions(q);
  }

  /** The work of a known plan stays the work of a known plan when that plan stays or becomes history. */
  lemma WorkStaysKnown(c: Case, next: Case)
    requires WorkBelongs(c) && c.previous <= next.previous && c.plan.Some? && next.plan.Some?
    requires SamePlan(c.plan.value, next.plan.value) ||
      (next.previous != [] && SamePlan(c.plan.value, next.previous[|next.previous|-1]))
    requires DistinctIds(next.plan.value.segments)
    requires forall a :: a in next.actions && a !in c.actions ==> IsActionOf(next.plan.value, a)
    ensures WorkBelongs(next)
  {
    hide IsActionOf, SamePlan;
    forall a | a in next.actions ensures exists p :: p in KnownPlans(next) && IsActionOf(p, a) {
      if a in c.actions {
        var p :| p in KnownPlans(c) && IsActionOf(p, a);
        if p in c.previous {
          assert p in next.previous && p in KnownPlans(next);
        } else {
          var q := if SamePlan(c.plan.value, next.plan.value) then next.plan.value
                   else next.previous[|next.previous|-1];
          SamePlanSameWork(c.plan.value, q, a);
          assert q in KnownPlans(next);
        }
      } else {
        assert next.plan.value in KnownPlans(next);
      }
    }
  }

  // ---------------------------------------------------------------- declines

  lemma DeclineParts(c: Case, sc: Scenario, d: Decline, o: Outcome)
    requires DeclineOutcome(c, sc, d) == Ok(o) && Sound(c)
    ensures c.plan.Some? && c.plan.value.state.Valid?
    ensures var original := MaterializeAssumptions(c.plan.value);
      && o.recovery.previous == c.previous + [original]
      && o.recovery.plan.Some? && SamePlan(original, o.recovery.plan.value) && o.recovery.plan.value.state.Invalid?
      && o.recovery.id == c.id && o.recovery.status.Replanning?
      && c.events <= o.recovery.events && o.recovery.approvals == c.approvals
      && o.recovery.actions == c.actions && o.recovery.pending == c.pending
  {
    assert PlansTellApart(c);
    hide Sound, Reasons, Merge, Impacted, InOrder;
  }

  /** A valid plan was set aside: it is history now, and at most a new valid plan took its place. */
  ghost predicate MovedOn(c: Case, next: Case) {
    && c.plan.Some? && c.plan.value.state.Valid?
    && next.previous == c.previous + [MaterializeAssumptions(c.plan.value)]
    && next.approvals == c.approvals && next.pending == c.pending && next.actions == c.actions && next.plan.Some?
    && (if next.plan.value.state.Valid? then next.plan.value.id !in PlanIds(next.previous)
        else SamePlan(c.plan.value, next.plan.value))
  }

  lemma KnownStaysKnown(c: Case, next: Case)
    requires MovedOn(c, next)
    ensures PlanIds(KnownPlans(c)) == PlanIds(next.previous) <= PlanIds(KnownPlans(next))
  {
    assert next.previous[|c.previous|] == MaterializeAssumptions(c.plan.value);
    forall id | id in PlanIds(KnownPlans(c)) ensures id in PlanIds(next.previous) {
      var p :| p in KnownPlans(c) && p.id == id;
      assert p in c.previous || p == c.plan.value;
      assert p in c.previous ==> p in next.previous;
      assert MaterializeAssumptions(c.plan.value) in next.previous;
    }
    forall id | id in PlanIds(next.previous) ensures id in PlanIds(KnownPlans(c)) {
      var p :| p in next.previous && p.id == id;
      assert c.plan.value in KnownPlans(c);
      assert p in c.previous ==> p in KnownPlans(c);
    }
    forall p | p in next.previous ensures p in KnownPlans(next) {}
  }

  lemma OldPlanBehind(c: Case, next: Case, q: Plan)
    requires MovedOn(c, next) && q in KnownPlans(next) && q.id in PlanIds(KnownPlans(c))
    ensures exists p :: p in KnownPlans(c) && p.id == q.id && p.reasons == q.reasons
  {
    KnownStaysKnown(c, next);
    assert c.plan.value in KnownPlans(c);
    assert q in next.previous || q == next.plan.value;
    if q in c.previous {
      assert q in KnownPlans(c);
    }
  }

  lemma MovingOnStaysSound(c: Case, next: Case)
    requires Sound(c) && MovedOn(c, next)
    ensures PlansTellApart(next) && ActionsBelong(next) && ApprovalsBelong(next) && Authorised(next)
  {
    KnownStaysKnown(c, next);
    var aside := MaterializeAssumptions(c.plan.value);
    assert next.previous[|c.previous|] == aside;
    forall i, j | 0 <= i < j < |next.previous| ensures next.previous[i].id != next.previous[j].id {
      assert next.previous[i] in c.previous;
    }
    forall a, q | a in next.actions && a.status.Succeeded?
                  && q in KnownPlans(next) && q.id == a.planId && q.reasons != []
      ensures ApprovedFor(next, q.id)
    {
      OldPlanBehind(c, next, q);
      assert ApprovedFor(c, q.id);
    }
  }

  lemma VerdictMeaning(v: Verdict)
    requires FromValidator(v) && v.valid
    ensures v.plan.state.Valid? && (v.requiresApproval <==> v.plan.reasons != []) && DistinctIds(v.plan.segments)
    ensures v.plan.reasons != [] ==> exists s :: s in v.plan.segments && s.source.ByCaregiver?
  {
    var sc, plan, preserved :| v == RepairValidation(sc, plan, preserved);
    ReasonNeedsCaregiver(sc, plan);
    ValidatedIdsDiffer(sc, plan);
  }

  lemma ValidatedIdsDiffer(sc: Scenario, plan: Plan)
    requires Validation(sc, plan).valid
    ensures DistinctIds(Validation(sc, plan).plan.segments)
  {
    ValidMeansSafe(sc, plan);
    PricedLength(sc, InOrder(plan.segments), {});
  }

  /** The accepted plan is the validated one under an id no plan of the case has ever had. */
  lemma AcceptedPlanIsFresh(c: Case, o: Outcome, v: Verdict, researched: Option<Candidate>)
    ensures var next := AcceptedCase(c, o, v, researched);
      && next.plan.Some? && next.plan.value.id !in PlanIds(o.recovery.previous)
      && next.plan.value == v.plan.(id := next.plan.value.id, assumptions := next.plan.value.assumptions)
      && next == o.recovery.(status := Executing, plan := next.plan, uncovered := [],
                             assumptions := next.assumptions, context := next.context)
  {
    var previous := o.recovery.previous;
    FreshSequenceIsFresh(c.id, PlanIds(previous), |previous| + 1);
  }

  lemma SoundParts(c: Case)
    requires Sound(c)
    ensures PlansTellApart(c) && StatusNeedsValidPlan(c) && ActionsBelong(c) && ApprovalsBelong(c)
    ensures Authorised(c) && ReasonsNameCare(c) && WorkBelongs(c)
  {
  }

  lemma SoundWhenMovedOn(c: Case, next: Case)
    requires PlansTellApart(next) && ActionsBelong(next) && ApprovalsBelong(next) && Authorised(next)
    requires WorkBelongs(next)
    requires Sound(c) && MovedOn(c, next) && StatusNeedsValidPlan(next) && !next.status.Resolved?
    requires SamePlan(c.plan.value, next.plan.value) || ReasonsNameCare(next)
    ensures Sound(next)
  {
    hide PlansTellApart, ActionsBelong, ApprovalsBelong, Authorised;
  }

  /** Recording a decline, with or without a new plan, leaves a sound case. */
  lemma DeclineKeepsSound(c: Case, op: Operation, next: Case)
    requires op.StopWithoutOption? || op.KeepFailedReplan? || op.AcceptReplan?
    requires Sound(c) && Vetted(op) && Attempt(c, op) == Some(next)
    ensures Sound(next) && Continues(c, next)
    ensures op.AcceptReplan? ==> GateReady(next, op.verdict.(plan := next.plan.value))
    ensures op.AcceptReplan? ==> next.plan.value.id !in PlanIds(KnownPlans(c))
  {
    hide DeclineOutcome, Sound, AcceptedCase, RepairValidation;
    var d, sc := if op.AcceptReplan? then op.d else if op.StopWithoutOption? then op.stopped else op.failed,
                 if op.AcceptReplan? then op.sc else if op.StopWithoutOption? then op.stoppedIn else op.failedIn;
    var o := DeclineOutcome(c, sc, d).value;
    DeclineParts(c, sc, d, o);
    if op.AcceptReplan? {
      AcceptedPlanIsFresh(c, o, op.verdict, op.researched);
      VerdictMeaning(op.verdict);
    }
    assert MovedOn(c, next);
    KnownStaysKnown(c, next);
    MovingOnStaysSound(c, next);
    assert MaterializeAssumptions(c.plan.value) in next.previous;
    assert next.previous[|c.previous|] == MaterializeAssumptions(c.plan.value);
    SoundParts(c);
    WorkStaysKnown(c, next);
    SoundWhenMovedOn(c, next);
  }

  // ---------------------------------------------------------------- the gate and the decision

  lemma ApprovalsStay(c: Case, next: Case)
    requires ApprovalsKept(c.approvals, next.approvals)
    ensures forall id :: ApprovedFor(c, id) ==> ApprovedFor(next, id)
  {
    forall id | ApprovedFor(c, id) ensures ApprovedFor(next, id) {
      var a :| a in c.approvals && a.status.Approved? && a.planId == id;
      var i :| 0 <= i < |c.approvals| && c.approvals[i] == a;
      assert next.approvals[i] in next.approvals;
    }
  }

  /** The plans of the case are the same but for assumptions of the active one. */
  predicate SamePlans(c: Case, next: Case) {
    && next.previous == c.previous
    && (c.plan.None? <==> next.plan.None?)
    && (c.plan.Some? ==> SamePlan(c.plan.value, next.plan.value) && next.plan.value.state == c.plan.value.state)
  }

  lemma PlanBehind(c: Case, next: Case, q: Plan)
    requires SamePlans(c, next) && q in KnownPlans(next)
    ensures exists p :: p in KnownPlans(c) && p.id == q.id && p.reasons == q.reasons
  {
    if q in c.previous { assert q in KnownPlans(c); } else { assert c.plan.value in KnownPlans(c); }
  }

  lemma PlansBehind(c: Case, next: Case)
    requires SamePlans(c, next)
    ensures forall q :: q in KnownPlans(next) ==>
      exists p :: p in KnownPlans(c) && p.id == q.id && p.reasons == q.reasons
  {
    hide SamePlans, KnownPlans;
    forall q | q in KnownPlans(next)
      ensures exists p :: p in KnownPlans(c) && p.id == q.id && p.reasons == q.reasons
    {
      PlanBehind(c, next, q);
    }
  }

  lemma IdsBehind(c: Case, next: Case)
    requires SamePlans(c, next)
    ensures PlanIds(KnownPlans(next)) <= PlanIds(KnownPlans(c))
  {
    hide SamePlans, KnownPlans;
    forall id | id in PlanIds(KnownPlans(next)) ensures id in PlanIds(KnownPlans(c)) {
      var q :| q in KnownPlans(next) && q.id == id;
      PlanBehind(c, next, q);
    }
  }

  lemma SamePlansKnown(c: Case, next: Case)
    requires SamePlans(c, next)
    ensures PlanIds(KnownPlans(next)) == PlanIds(KnownPlans(c))
    ensures forall q :: q in KnownPlans(next) ==>
      exists p :: p in KnownPlans(c) && p.id == q.id && p.reasons == q.reasons
  {
    assert SamePlans(next, c);
    hide SamePlans, KnownPlans, PlanIds;
    PlansBehind(c, next);
    IdsBehind(c, next);
    IdsBehind(next, c);
  }

  lemma SamePlansStaySound(c: Case, next: Case)
    requires SamePlans(c, next) && PlansTellApart(c) && ReasonsNameCare(c)
    ensures PlansTellApart(next) && ReasonsNameCare(next) && PlanKept(c, next)
    ensures PlanIds(KnownPlans(next)) == PlanIds(KnownPlans(c))
  {
    SamePlansKnown(c, next);
  }

  lemma SameActionsStaySound(c: Case, next: Case)
    requires SamePlans(c, next) && ActionsBelong(c) && Authorised(c) && next.actions == c.actions
    requires ApprovalsKept(c.approvals, next.approvals)
    ensures ActionsBelong(next) && Authorised(next)
  {
    SamePlansKnown(c, next);
    ApprovalsStay(c, next);
    forall a, q | a in next.actions && a.status.Succeeded?
                  && q in KnownPlans(next) && q.id == a.planId && q.reasons != []
      ensures ApprovedFor(next, q.id)
    {
      assert ApprovedFor(c, q.id);
    }
  }

  lemma GateKeepsSound(c: Case, v: Verdict, policy: Policy, newId: string, next: Case)
    requires Sound(c) && GateReady(c, v) && FreshApprovalId(c, newId)
    requires GateAttempt(c, v, policy, newId) == Some(next)
    ensures Sound(next) && Continues(c, next)
  {
    hide PlansTellApart, ReasonsNameCare, ActionsBelong, Authorised, KnownPlans, WorkBelongs;
    SamePlansStaySound(c, next);
    SameActionsStaySound(c, next);
    ActivePlanKnown(c);
    SamePlansSameWork(c, next);
  }

  lemma SamePlansSameWork(c: Case, next: Case)
    requires SamePlans(c, next) && WorkBelongs(c) && c.plan.Some?
    requires forall a :: a in next.actions && a !in c.actions ==> IsActionOf(next.plan.value, a)
    ensures WorkBelongs(next)
  {
    WorkStaysKnown(c, next);
  }

  lemma {:induction false} LastApprovalMeaning(approvals: seq<Approval>, id: string)
    ensures LastApproval(approvals, id).Some? ==>
      LastApproval(approvals, id).value in approvals && LastApproval(approvals, id).value.id == id
    ensures LastApproval(approvals, id).None? ==> forall a :: a in approvals ==> a.id != id
  {
    if approvals != [] {
      LastApprovalMeaning(approvals[..|approvals|-1], id);
    }
  }

  function DecidedAs(a: Approval, approve: bool): Approval {
    a.(status := if approve then Approved else Rejected)
  }

  /** What one decision changes: the one pending request becomes decided, and the wait is over. */
  lemma DecisionParts(c: Case, id: string, approve: bool, next: Case) returns (was: Approval)
    requires Attempt(c, DecideApproval(id, approve)) == Some(next)
    ensures next.plan == c.plan && next.previous == c.previous && next.actions == c.actions && next.id == c.id
    ensures next.pending.None? && c.events <= next.events && !next.status.Resolved? && c.status.ApprovalRequired?
    ensures c.plan.Some?
    ensures was in c.approvals && was.id == id && was.status.Pending? && |next.approvals| == |c.approvals|
    ensures forall i :: 0 <= i < |c.approvals| ==>
      next.approvals[i] == (if c.approvals[i].id == id then DecidedAs(was, approve) else c.approvals[i])
  {
    LastApprovalMeaning(c.approvals, id);
    was := LastApproval(c.approvals, id).value;
  }

  lemma DecisionKeepsSound(c: Case, op: Operation, next: Case)
    requires op.DecideApproval? && Sound(c) && Attempt(c, op) == Some(next)
    ensures Sound(next) && Continues(c, next)
  {
    hide Attempt, PlansTellApart, ReasonsNameCare, ActionsBelong, Authorised, KnownPlans, WorkBelongs;
    var was := DecisionParts(c, op.approvalId, op.approve, next);
    SamePlansStaySound(c, next);
    SamePlansSameWork(c, next);
    forall i | 0 <= i < |c.approvals| ensures ApprovalKept(c.approvals[i], next.approvals[i]) {
      assert c.approvals[i] in c.approvals;
    }
    SameActionsStaySound(c, next);
    forall a | a in next.approvals ensures a.planId in PlanIds(KnownPlans(c)) {
      var i :| 0 <= i < |next.approvals| && next.approvals[i] == a;
      assert c.approvals[i] in c.approvals;
    }
  }

  // ---------------------------------------------------------------- execution and completion

  lemma RequiredBelong(plan: Plan)
    ensures forall a :: a in RequiredActions(plan) ==> a.planId == plan.id && a.id.planId == plan.id
    ensures forall s :: s in plan.segments && s.source.ByCaregiver? ==>
      exists a :: a in RequiredActions(plan) && a.id == CaregiverAction(plan.id, s.id)
  {
    var care := Filter(plan.segments, (s: Segment) => s.source.ByCaregiver?);
    FilterMember(plan.segments, (s: Segment) => s.source.ByCaregiver?);
    forall s | s in plan.segments && s.source.ByCaregiver?
      ensures exists a :: a in RequiredActions(plan) && a.id == CaregiverAction(plan.id, s.id)
    {
      var i :| 0 <= i < |care| && care[i] == s;
      assert RequiredActions(plan)[|plan.changes| + i] in RequiredActions(plan);
    }
  }

  lemma StartOnlyAdds(c: Case, plan: Plan)
    ensures c.events <= StartEvents(c, plan)
  {
  }

  lemma ExecutionParts(c: Case, adapter: Action -> ActionStatus, next: Case)
    requires Attempt(c, Execute(adapter)) == Some(next) && DistinctActions(c.actions)
    ensures MayExecute(c) && next == c.(status := next.status, actions := next.actions, events := next.events)
    ensures next.status.Executing? || next.status.Failed?
    ensures c.events <= next.events && DistinctActions(next.actions)
    ensures forall a :: a in c.actions && HasSucceeded(c, a.id) ==> a in next.actions
    ensures forall a :: a in next.actions && a !in c.actions ==>
      a.planId == c.plan.value.id && a.id.planId == c.plan.value.id && IsActionOf(c.plan.value, a)
  {
    hide RunActions, RequiredActions, HasSucceeded, StartEvents;
    var plan := c.plan.value;
    var required := RequiredActions(plan);
    RequiredBelong(plan);
    RunKeepsHistory(c, required, adapter, Progress(c.actions, StartEvents(c, plan), []));
    StartOnlyAdds(c, plan);
  }

  ghost predicate NewActionsOf(c: Case, next: Case) {
    && c.plan.Some? && next.plan == c.plan && next.previous == c.previous && next.approvals == c.approvals
    && forall a :: a in next.actions && a !in c.actions ==>
      a.planId == c.plan.value.id && a.id.planId == c.plan.value.id
  }

  /** New actions belong to the active plan, so authorising that plan authorises them. */
  lemma NewActionsStayAuthorised(c: Case, next: Case)
    requires NewActionsOf(c, next) && PlansTellApart(c) && Authorised(c) && c.plan.value.state.Valid?
    requires c.plan.value.reasons != [] ==> ApprovedFor(c, c.plan.value.id)
    ensures Authorised(next)
  {
    hide PlansTellApart;
    assert KnownPlans(next) == KnownPlans(c);
    hide KnownPlans;
    forall a, q | a in next.actions && a.status.Succeeded?
                  && q in KnownPlans(next) && q.id == a.planId && q.reasons != []
      ensures ApprovedFor(next, q.id)
    {
      if a !in c.actions {
        SameIdSamePlan(c, q);
      }
      assert ApprovedFor(c, q.id);
    }
  }

  lemma SucceededActionsStay(c: Case, next: Case)
    requires DistinctActions(c.actions)
    requires forall a :: a in c.actions && HasSucceeded(c, a.id) ==> a in next.actions
    ensures SuccessesKept(c.actions, next.actions)
  {
    hide HasSucceeded;
    forall a | a in c.actions && a.status.Succeeded? ensures a in next.actions {
      LookMeaning(c.actions, a.id);
      HistoryIsTheLookup(c, a.id);
    }
  }

  lemma ExecutionKeepsSound(c: Case, op: Operation, next: Case)
    requires op.Execute? && Sound(c) && Attempt(c, op) == Some(next)
    ensures Sound(next) && Continues(c, next)
  {
    hide Attempt, PlansTellApart, Authorised, ReasonsNameCare, HasSucceeded, KnownPlans, WorkBelongs, IsActionOf;
    ExecutionParts(c, op.adapter, next);
    SamePlansStaySound(c, next);
    SamePlansSameWork(c, next);
    ActivePlanKnown(c);
    SucceededActionsStay(c, next);
    NewActionsStayAuthorised(c, next);
  }

  lemma ActivePlanKnown(c: Case)
    ensures c.plan.Some? ==> c.plan.value in KnownPlans(c) && c.plan.value.id in PlanIds(KnownPlans(c))
  {
    if c.plan.Some? { assert c.plan.value in KnownPlans(c); }
  }

  lemma SameIdSamePlan(c: Case, q: Plan)
    requires PlansTellApart(c) && c.plan.Some? && c.plan.value.state.Valid?
    requires q in KnownPlans(c) && q.id == c.plan.value.id
    ensures q == c.plan.value
  {
    assert q in c.previous ==> q.id in PlanIds(c.previous);
  }

  lemma CompletionParts(c: Case, sc: Scenario, next: Case)
    requires Attempt(c, VerifyAndResolve(sc)) == Some(next)
    ensures next == c.(status := Resolved, verified := true, events := next.events) && c.events <= next.events
    ensures c.plan.Some? && c.pending.None? && c.status.Executing?
    ensures AllActionsDone(c) && ReliesOnNothingInvalid(c)
  {
    CompletionMeaning(c, sc);
    hide CompletionErrors, AllActionsDone, ReliesOnNothingInvalid;
  }

  lemma CompletionKeepsSound(c: Case, op: Operation, next: Case)
    requires op.VerifyAndResolve? && Sound(c) && Attempt(c, op) == Some(next)
    ensures Sound(next) && Continues(c, next) && next.status.Resolved?
  {
    hide Attempt, PlansTellApart, ActionsBelong, Authorised, ReasonsNameCare, KnownPlans, HasSucceeded,
         RequiredActions, Relies, WorkBelongs;
    CompletionParts(c, op.planned, next);
    SamePlansSameWork(c, next);
    SamePlansStaySound(c, next);
    SameActionsStaySound(c, next);
    if c.plan.value.reasons != [] {
      CompleteIsApproved(c);
    }
    HistoryDecides(c, next);
  }

  lemma HistoryDecides(c: Case, next: Case)
    requires c.actions == next.actions
    ensures forall id :: HasSucceeded(c, id) <==> HasSucceeded(next, id)
  {
  }

  /** A plan with approval reasons has a caregiver action; once that succeeded, the approval exists. */
  lemma CompleteIsApproved(c: Case)
    requires Sound(c) && c.plan.Some? && AllActionsDone(c) && c.plan.value.reasons != []
    ensures ApprovedFor(c, c.plan.value.id)
  {
    hide PlansTellApart, RequiredActions;
    var plan := c.plan.value;
    RequiredBelong(plan);
    var s :| s in plan.segments && s.source.ByCaregiver?;
    var a :| a in RequiredActions(plan) && a.id == CaregiverAction(plan.id, s.id);
    LookMeaning(c.actions, a.id);
    HistoryIsTheLookup(c, a.id);
    var done := Look(c.actions, a.id).value;
    assert done in c.actions && done.planId == plan.id;
    ActivePlanKnown(c);
  }

  // ---------------------------------------------------------------- every save at once

  /** Whatever a client computes from a sound case is a sound case that keeps its history. */
  lemma OperationKeepsSound(c: Case, op: Operation, next: Case)
    requires Sound(c) && Vetted(op) && Attempt(c, op) == Some(next)
    ensures Sound(next) && Continues(c, next)
    ensures op.AcceptReplan? ==> GateReady(next, op.verdict.(plan := next.plan.value))
  {
    hide Attempt, Sound, Continues, GateReady;
    match op
    case DecideApproval(_, _) => DecisionKeepsSound(c, op, next);
    case Execute(_) => ExecutionKeepsSound(c, op, next);
    case VerifyAndResolve(_) => CompletionKeepsSound(c, op, next);
    case _ => DeclineKeepsSound(c, op, next);
  }

  lemma StartedCaseIsSound(caseId: string, caregiver: string, sc: Scenario, v: Verdict, researched: Option<Candidate>)
    requires FromValidator(v) && v.valid
    ensures var c := StartedCase(caseId, caregiver, sc, v.plan, researched);
      Sound(c) && GateReady(c, v.(plan := AcceptPlan(v.plan, caseId, [])))
  {
    VerdictMeaning(v);
    var c := StartedCase(caseId, caregiver, sc, v.plan, researched);
    assert c.plan.value == v.plan.(id := c.plan.value.id, assumptions := c.plan.value.assumptions);
  }

  lemma UnplannedCaseIsSound(caseId: string, caregiver: string, sc: Scenario, uncovered: seq<Window>)
    ensures Sound(UnplannedCase(caseId, caregiver, sc, uncovered))
  {
  }

  // ---------------------------------------------------------------- history is not replayed

  /** What a run saves does not depend on the adapter's answer for an action that had succeeded. */
  lemma {:induction false} RunIgnoresSucceeded(c: Case, required: seq<Action>, f: Action -> ActionStatus,
                                               g: Action -> ActionStatus, p: Progress)
    requires forall a :: a in required && !HasSucceeded(c, a.id) ==> f(a) == g(a)
    ensures RunActions(c, required, f, p) == RunActions(c, required, g, p)
  {
    hide HasSucceeded;
    if required != [] {
      RunIgnoresSucceeded(c, required[..|required|-1], f, g, p);
    }
  }

  lemma SucceededActionIsNotRunAgain(c: Case, f: Action -> ActionStatus, g: Action -> ActionStatus)
    requires forall a: Action :: !HasSucceeded(c, a.id) ==> f(a) == g(a)
    ensures ExecutionUpdate(c, f) == ExecutionUpdate(c, g)
  {
    hide RunActions, HasSucceeded;
    if MayExecute(c) {
      var start := Progress(c.actions, StartEvents(c, c.plan.value), []);
      RunIgnoresSucceeded(c, RequiredActions(c.plan.value), f, g, start);
    }
  }

  /** The request for permission: for this plan and its whole cost, named after the unfamiliar caregiver only
      when that is the only reason. */
  predicate AsksAbout(a: Approval, v: Verdict, newId: string) {
    && a.id == newId && a.planId == v.plan.id && a.status == Pending && a.amount == v.cost
    && (a.kind == UnfamiliarCaregiver <==>
          UnfamiliarPaidCaregiver in v.plan.reasons && CostAboveLimit !in v.plan.reasons)
  }

  predicate IsAsked(c: Case, planId: PlanId) {
    c.pending.Some? && c.pending.value.status == Pending && c.pending.value.planId == planId
  }

  /** Nothing passes the gate but the valid active plan with a consistent verdict; without permission nothing
      passes that has reasons or costs more than the stored limit; a request is made once and recorded. */
  lemma GateIsExact(c: Case, v: Verdict, policy: Policy, newId: string)
    ensures var needed, step := v.plan.reasons != [] || v.cost > policy.spendLimit, GateUpdate(c, v, policy, newId);
      && (step.Refused? <==>
            c.plan.None? || !v.valid || v.plan.id != c.plan.value.id || v.requiresApproval != needed)
      && (step.Cleared? ==> !needed && step.cleared == c.(status := Executing, plan := Some(v.plan)))
      && (step.AlreadyPending? ==> needed && IsAsked(c, v.plan.id) && c.pending == Some(step.request))
      && (step.Paused? ==> needed && !IsAsked(c, v.plan.id) && AsksAbout(step.created, v, newId))
      && (step.Paused? ==>
            step.paused == c.(status := ApprovalRequired, plan := Some(v.plan), pending := Some(step.created),
                              approvals := c.approvals + [step.created], events := step.paused.events))
      && (step.Paused? ==>
            step.paused.events == c.events + [Event(RequestOf(newId), ApprovalRequested(newId, v.plan.id))])
  {
  }

  /** The parent can still decide: the case waits for exactly this request, about its active plan. */
  ghost predicate CanDecide(c: Case, id: string) {
    && c.status == ApprovalRequired && c.plan.Some? && c.pending.Some? && c.pending.value.id == id
    && exists a :: a in c.approvals && a.id == id && a.planId == c.plan.value.id && a.status == Pending
  }

  /** What a decision does, when request ids tell the requests apart: it is taken exactly when the parent can
      still decide; a yes lets the plan be executed and a no sends the case back to planning with the decision
      as its trigger; only that request changes, and the decision is recorded. Saying the same again changes
      nothing. */
  lemma DecisionIsExact(c: Case, id: string, approve: bool)
    requires forall i, j :: 0 <= i < j < |c.approvals| ==> c.approvals[i].id != c.approvals[j].id
    ensures DecisionUpdate(c, id, approve).Decided? <==> CanDecide(c, id)
    ensures DecisionUpdate(c, id, approve).AlreadyDecided? <==>
      exists a :: a in c.approvals && a.id == id && a.status == (if approve then Approved else Rejected)
    ensures DecisionUpdate(c, id, approve).Decided? ==>
      var next := DecisionUpdate(c, id, approve).after;
      && next.status == (if approve then Executing else Replanning) && next.pending == None
      && next.trigger == (if approve then c.trigger else Some(DecisionOn(id, approve)))
      && next.events == c.events + [Event(DecisionOn(id, approve), ApprovalDecided(id, c.plan.value.id, approve))]
      && |next.approvals| == |c.approvals|
      && (forall i :: 0 <= i < |c.approvals| && c.approvals[i].id != id ==> next.approvals[i] == c.approvals[i])
      && (forall i :: 0 <= i < |c.approvals| && c.approvals[i].id == id ==>
            next.approvals[i] == c.approvals[i].(status := if approve then Approved else Rejected))
      && next == c.(status := next.status, pending := None, approvals := next.approvals, events := next.events,
                    trigger := next.trigger)
  {
    LastApprovalMeaning(c.approvals, id);
    forall a, b | a in c.approvals && b in c.approvals && a.id == b.id ensures a == b {
      var i :| 0 <= i < |c.approvals| && c.approvals[i] == a;
      var j :| 0 <= j < |c.approvals| && c.approvals[j] == b;
    }
  }

  /** Resolving a case records that its plan was verified and, the first time, that the case is resolved. */
  lemma ResolutionIsRecorded(c: Case)
    requires c.plan.Some?
    ensures var next, id := ResolvedCase(c), c.plan.value.id;
      && next == c.(status := Resolved, verified := true, events := next.events)
      && (VerificationOf(id) in EventIds(c.events) ==> next.events == c.events)
      && (VerificationOf(id) !in EventIds(c.events) ==>
            next.events ==
              c.events + [Event(VerificationOf(id), CompletionVerified(id)), Event(ResolutionOf(c.id), CaseResolved)])
  {
  }

  /** A replan that needs no approval is cleared even while an older request is pending, and can
      then be executed exactly when none is: the stale request can no longer be decided either. */
  lemma ClearedPlanRunsUnlessStaleRequest(c: Case, v: Verdict, policy: Policy, newId: string, next: Case)
    requires GateReady(c, v) && GateUpdate(c, v, policy, newId) == Cleared(next)
    ensures MayExecute(next) <==> c.pending.None?
    ensures c.pending.Some? ==> forall approve :: !DecisionUpdate(next, c.pending.value.id, approve).Decided?
  {
  }
}
