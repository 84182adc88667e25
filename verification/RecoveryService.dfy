/** One whole request: a decision or a decline, and everything the service saves because of it. */
module RecoveryService {
  import opened Prelude
  import opened Intervals
  import opened Domain
  import opened PlanValidator
  import opened FeasibilityGraph
  import opened AssignmentMatrix
  import opened Cases
  import opened PlanInvalidation
  import opened BackupCare
  import opened Replay
  import opened Workflow
  import opened ExecutionHistory
  import opened StoredCases
  import opened RecoveryProtocol
  import opened CaseServices

  // ---------------------------------------------------------------- chains of saves

  ghost predicate Chain(chain: seq<Case>) {
    chain != [] && forall i :: 0 <= i < |chain| - 1 ==> Derived(chain[i], chain[i+1])
  }

  /** b is what some number of workflow steps, each saved before the next, made of a. */
  ghost predicate LeadsTo(a: Case, b: Case) {
    exists chain :: Chain(chain) && chain[0] == a && chain[|chain|-1] == b
  }

  lemma ReachesItself(c: Case)
    ensures LeadsTo(c, c)
  {
    assert Chain([c]);
  }

  lemma ReachesMore(a: Case, b: Case, c: Case)
    requires LeadsTo(a, b) && Derived(b, c)
    ensures LeadsTo(a, c)
  {
    hide Derived;
    var chain :| Chain(chain) && chain[0] == a && chain[|chain|-1] == b;
    var longer := chain + [c];
    assert Chain(longer);
  }

  lemma ReachesFromBefore(a: Case, b: Case, c: Case)
    requires Derived(a, b) && LeadsTo(b, c)
    ensures LeadsTo(a, c)
  {
    hide Derived;
    var chain :| Chain(chain) && chain[0] == b && chain[|chain|-1] == c;
    var longer := [a] + chain;
    forall i | 0 <= i < |longer| - 1 ensures Derived(longer[i], longer[i+1]) {
      assert i > 0 ==> longer[i] == chain[i-1] && longer[i+1] == chain[i-1+1];
    }
    assert Chain(longer);
  }

  lemma {:induction false} ChainKeepsHistory(chain: seq<Case>)
    requires Chain(chain) && Sound(chain[0])
    ensures Sound(chain[|chain|-1]) && History(chain[0], chain[|chain|-1])
    decreases |chain|
  {
    hide Derived, Sound, Continues;
    if |chain| > 1 {
      hide History;
      var init := chain[..|chain|-1];
      assert Chain(init) by {
        forall i | 0 <= i < |init| - 1 ensures Derived(init[i], init[i+1]) {
          assert Derived(chain[i], chain[i+1]);
        }
      }
      ChainKeepsHistory(init);
      var last := |chain| - 2;
      assert Derived(chain[last], chain[last+1]);
      DerivedKeepsSound(chain[last], chain[last+1]);
      OneStepOfHistory(chain[0], chain[last], chain[last+1]);
    }
  }

  /** Everything the protocol promises holds of what a request leaves behind. */
  lemma ReachedIsSound(a: Case, b: Case)
    requires LeadsTo(a, b) && Sound(a)
    ensures Sound(b) && History(a, b)
  {
    hide Sound, History, Derived;
    var chain :| Chain(chain) && chain[0] == a && chain[|chain|-1] == b;
    ChainKeepsHistory(chain);
  }

  lemma PerformedReaches(a: Case, b: Case, op: Operation)
    requires LeadsTo(a, b) && Vetted(op)
    ensures LeadsTo(a, Performed(b, op))
  {
    hide Attempt, Vetted, LeadsTo;
    if Attempt(b, op).Some? {
      assert ByOperation(b, Performed(b, op));
      ReachesMore(a, b, Performed(b, op));
    }
  }

  // ---------------------------------------------------------------- execute, then verify

  /** The case after running the plan and, if everything succeeded, verifying it in the scenario. */
  function Completed(c: Case, sc: Scenario, adapter: Action -> ActionStatus): Case {
    var ran := Performed(c, Execute(adapter));
    if WouldSucceed(c, adapter) then Performed(ran, VerifyAndResolve(sc)) else ran
  }

  lemma CompletedReaches(a: Case, c: Case, sc: Scenario, adapter: Action -> ActionStatus)
    requires LeadsTo(a, c)
    ensures LeadsTo(a, Completed(c, sc, adapter))
  {
    hide LeadsTo, Performed;
    PerformedReaches(a, c, Execute(adapter));
    PerformedReaches(a, Performed(c, Execute(adapter)), VerifyAndResolve(sc));
  }

  /** The case after trying to run the plan: refused, it stays as it is. */
  function AfterRun(c: Case, adapter: Action -> ActionStatus): Case {
    if ScenarioFor(c).Ok? && MayExecute(c) then Completed(c, ScenarioFor(c).value, adapter) else c
  }

  /** The case after a decision: approving runs the plan, also when it had been approved before and is
      not resolved yet; everything else stops at the decision. */
  function AfterDecision(c: Case, approvalId: string, approve: bool, adapter: Action -> ActionStatus): Case {
    match DecisionUpdate(c, approvalId, approve)
    case DecisionRefused => c
    case AlreadyDecided(_) => if approve && !c.status.Resolved? then AfterRun(c, adapter) else c
    case Decided(after, _) => if approve then AfterRun(Stored(after, c.version), adapter) else Stored(after, c.version)
  }

  /** A decision is answered with an error when it is refused, or when the approved plan cannot run. */
  predicate DecisionFails(c: Case, approvalId: string, approve: bool) {
    match DecisionUpdate(c, approvalId, approve)
    case DecisionRefused => true
    case AlreadyDecided(_) => approve && !c.status.Resolved? && (ScenarioFor(c).Err? || !MayExecute(c))
    case Decided(after, _) =>
      approve && (ScenarioFor(Stored(after, c.version)).Err? || !MayExecute(Stored(after, c.version)))
  }

  lemma DecisionIsStored(c: Case, approvalId: string, approve: bool)
    ensures var next := Performed(c, Operation.DecideApproval(approvalId, approve));
      match DecisionUpdate(c, approvalId, approve)
      case DecisionRefused => next == c
      case AlreadyDecided(same) => next == c && same.status == (if approve then Approved else Rejected)
      case Decided(after, decided) =>
        && next == Stored(after, c.version) && !after.status.Resolved?
        && decided.status == (if approve then Approved else Rejected)
  {
  }

  lemma RunSucceeds(c: Case, adapter: Action -> ActionStatus)
    requires MayExecute(c)
    requires forall a :: a in RequiredActions(c.plan.value) ==> adapter(a).Succeeded?
    ensures WouldSucceed(c, adapter)
    ensures Performed(c, Execute(adapter)) ==
      AfterExecution(c, adapter).(version := Performed(c, Execute(adapter)).version)
  {
    hide RequiredActions, RunActions, StartEvents, HasSucceeded;
    var start := Progress(c.actions, StartEvents(c, c.plan.value), []);
    AllSucceededMeaning(c, RequiredActions(c.plan.value), adapter, start);
  }

  lemma VersionIsNotChecked(c: Case, version: nat, sc: Scenario)
    ensures CompletionErrors(c.(version := version), sc) == [] <==> CompletionErrors(c, sc) == []
  {
    hide CompletionErrors, Validation, RequiredActions;
    CompletionMeaning(c, sc);
    CompletionMeaning(c.(version := version), sc);
    HistoryDecides(c, c.(version := version));
  }

  lemma VerificationResolves(c: Case, sc: Scenario)
    requires c.status.Executing?
    ensures Performed(c, VerifyAndResolve(sc)).status.Resolved? <==> CompletionErrors(c, sc) == []
  {
    hide CompletionErrors;
  }

  /** An authorised plan, run without failure or interruption, is resolved exactly when it does not
      rely on an invalidated assumption. */
  lemma UninterruptedRunResolves(c: Case, sc: Scenario, adapter: Action -> ActionStatus)
    requires MayExecute(c) && AcceptedIn(sc, c.plan.value)
    requires forall a :: a in RequiredActions(c.plan.value) ==> adapter(a).Succeeded?
    ensures Completed(c, sc, adapter).status.Resolved? <==> NoTimeIsLost(c)
    ensures NoTimeIsLost(c) <==> ReliesOnNothingInvalid(c)
  {
    ReliesMeansLostTime(c);
    hide NoTimeIsLost;
    UninterruptedRunCompletes(c, sc, adapter);
    ExecutionFinishesActions(c, adapter);
    RunSucceeds(c, adapter);
    hide CompletionErrors, RequiredActions, AfterExecution, AcceptedIn, ReliesOnNothingInvalid, Performed,
         WouldSucceed, AllActionsDone;
    var ran := Performed(c, Execute(adapter));
    VersionIsNotChecked(AfterExecution(c, adapter), ran.version, sc);
    VerificationResolves(ran, sc);
  }

  // ---------------------------------------------------------------- can anything be done

  ghost predicate KnownOptionsSuffice(sc: Scenario, scope: Option<Scope>) {
    HasFullDay(Offered(sc, scope), sc.required, sc.home)
  }

  /** Research compares at least two eligible providers, one of which must complete the day. */
  ghost predicate ResearchCanHelp(sc: Scenario, scope: Option<Scope>, requested: seq<Window>) {
    && sc.policy.allowExternal && |EligibleCandidates(sc, requested)| >= 2
    && exists c :: c in EligibleCandidates(sc, requested) && Planable(sc, c, scope)
  }

  ghost predicate Recoverable(sc: Scenario, scope: Option<Scope>, need: RecoveryNeed) {
    KnownOptionsSuffice(sc, scope) || ResearchCanHelp(sc, scope, need.requested)
  }

  ghost predicate AllBuildable(sc: Scenario, scope: Option<Scope>, need: RecoveryNeed) {
    forall c :: c in EligibleCandidates(sc, need.requested) ==> Buildable(sc, c, scope)
  }

  datatype Viability = Viability(possible: bool, requested: seq<Window>)

  /** Can the planner complete the day: a connected known option, or a provider worth researching? */
  method CanRecover(sc: Scenario, scope: Option<Scope>) returns (r: Result<Viability, MatrixError>)
    ensures r.Ok? ==> NeedOf(sc, scope).Ok? && r.value.requested == NeedOf(sc, scope).value.requested
    ensures r.Ok? ==> (r.value.possible <==> Recoverable(sc, scope, NeedOf(sc, scope).value))
    ensures r.Err? ==> NeedOf(sc, scope).Err? || !AllBuildable(sc, scope, NeedOf(sc, scope).value)
  {
    hide MatrixOf, Planable, HasFullDay;
    var need := AssessKnownOptionRecoveryNeed(sc, scope);
    if need.Err? {
      return Err(need.error);
    }
    NeedMeansNoFullDay(sc, scope, need.value);
    if !need.value.insufficient {
      return Ok(Viability(true, need.value.requested));
    }
    if !sc.policy.allowExternal {
      return Ok(Viability(false, need.value.requested));
    }
    var planable := PlanableResearchCandidateIds(sc, need.value, scope);
    if planable.Err? {
      return Err(planable.error);
    }
    FlatMapEmpty(EligibleCandidates(sc, need.value.requested),
                 (c: Candidate) => if Planable(sc, c, scope) then [c.id] else []);
    r := Ok(Viability(planable.value != [], need.value.requested));
  }

  // ---------------------------------------------------------------- what a replan stores

  /** What planning came back with: a plan, and the researched caregiver it was allowed to use. */
  datatype Proposal = Proposal(plan: Plan, researched: Option<Candidate>)

  /** The scenario a proposal is validated in. */
  function ScenarioWith(sc: Scenario, proposal: Proposal): Result<Scenario, ResearchError> {
    match proposal.researched
    case None => Ok(sc)
    case Some(candidate) => AddResearchedCaregiver(sc, candidate)
  }

  lemma GateLeadsOn(a: Case, b: Case, v: Verdict, policy: Policy, newId: string)
    requires LeadsTo(a, b) && GateReady(b, v) && FreshApprovalId(b, newId)
    ensures GateAttempt(b, v, policy, newId).Some? ==>
      LeadsTo(a, Stored(GateAttempt(b, v, policy, newId).value, b.version))
  {
    hide LeadsTo, GateAttempt, GateReady, FreshApprovalId;
    if GateAttempt(b, v, policy, newId).Some? {
      var next := Stored(GateAttempt(b, v, policy, newId).value, b.version);
      assert ByGate(b, next);
      ReachesMore(a, b, next);
    }
  }

  /** A ready gate either clears the plan or asks for the approval of that very plan and its cost. */
  lemma GateParts(c: Case, v: Verdict, policy: Policy, newId: string)
    requires GateReady(c, v)
    ensures var gated := GateAttempt(c, v, policy, newId);
      gated.Some? ==>
        && gated.value.plan == Some(v.plan) && gated.value.id == c.id
        && (if v.requiresApproval then gated.value.status.ApprovalRequired? && gated.value.pending.Some?
              && gated.value.pending.value.planId == c.plan.value.id && gated.value.pending.value.amount == v.cost
              && (gated.value.pending.value.kind.UnfamiliarCaregiver? <==>
                    UnfamiliarPaidCaregiver in v.plan.reasons && CostAboveLimit !in v.plan.reasons)
            else gated.value.status.Executing? && gated.value.pending == c.pending)
    ensures GateAttempt(c, v, policy, newId).None? ==>
      GateUpdate(c, v, policy, newId).Refused? || GateUpdate(c, v, policy, newId).AlreadyPending?
    ensures GateUpdate(c, v, policy, newId).AlreadyPending? ==> AsksFor(c, c.plan.value.id)
  {
  }

  // ---------------------------------------------------------------- what the gate of a stored plan leaves

  /** The case after the gate of a plan just stored and, if the gate clears it, after trying to run it. */
  function AfterGate(c: Case, v: Verdict, policy: Policy, newId: string, adapter: Action -> ActionStatus): Case {
    match GateUpdate(c, v, policy, newId)
    case Cleared(cleared) => AfterRun(Stored(cleared, c.version), adapter)
    case Paused(paused, _) => Stored(paused, c.version)
    case _ => c
  }

  /** The gate refuses, or clears a plan that then cannot be run. */
  predicate GateFails(c: Case, v: Verdict, policy: Policy, newId: string) {
    match GateUpdate(c, v, policy, newId)
    case Refused => true
    case Cleared(cleared) => ScenarioFor(Stored(cleared, c.version)).Err? || !MayExecute(Stored(cleared, c.version))
    case _ => false
  }

  /** The case waits for the parent's permission for this plan and this cost. */
  predicate WaitsForPermission(c: Case, planId: PlanId, amount: Money) {
    && c.status == ApprovalRequired && c.pending.Some? && c.pending.value.status == Pending
    && c.pending.value.planId == planId && c.pending.value.amount == amount
  }

  /** The stored plan, allowed to be executed. */
  function ClearedFor(c: Case, v: Verdict): Case {
    Stored(c.(status := Executing, plan := Some(v.plan)), c.version)
  }

  /** A consistent verdict on a plan nobody was asked about: if it needs permission the case waits for exactly
      that; otherwise the plan is cleared and, unless something is still pending or the scenario cannot be
      rebuilt, run and verified. */
  lemma GateOutcomeMeans(c: Case, v: Verdict, policy: Policy, newId: string, adapter: Action -> ActionStatus)
    requires GateReady(c, v) && !AsksFor(c, c.plan.value.id)
    requires v.requiresApproval == (v.plan.reasons != [] || v.cost > policy.spendLimit)
    ensures var after := AfterGate(c, v, policy, newId, adapter);
      if v.requiresApproval then
        && !GateFails(c, v, policy, newId) && after.version == c.version + 1
        && after.plan == Some(v.plan) && WaitsForPermission(after, c.plan.value.id, v.cost)
      else
        var cleared := ClearedFor(c, v);
        && (GateFails(c, v, policy, newId) <==> c.pending.Some? || ScenarioFor(cleared).Err?)
        && after == if GateFails(c, v, policy, newId) then cleared
                    else Completed(cleared, ScenarioFor(cleared).value, adapter)
  {
    hide ScenarioFor, Completed;
  }

  predicate SameButAssumptions(p: Plan, q: Plan) {
    q == p.(assumptions := q.assumptions)
  }

  predicate AsksFor(c: Case, planId: PlanId) {
    c.pending.Some? && c.pending.value.planId == planId
  }

  lemma GateCases(c: Case, v: Verdict, policy: Policy, newId: string, adapter: Action -> ActionStatus)
    ensures var step, after, fails := GateUpdate(c, v, policy, newId), AfterGate(c, v, policy, newId, adapter),
                                      GateFails(c, v, policy, newId);
      && (step.Refused? ==> GateAttempt(c, v, policy, newId).None? && after == c && fails)
      && (step.Cleared? ==>
            var now := Stored(step.cleared, c.version);
            && GateAttempt(c, v, policy, newId) == Some(step.cleared) && !v.requiresApproval
            && after == AfterRun(now, adapter) && (fails <==> ScenarioFor(now).Err? || !MayExecute(now)))
      && (step.Paused? ==>
            && GateAttempt(c, v, policy, newId) == Some(step.paused) && v.requiresApproval
            && after == Stored(step.paused, c.version) && !fails)
  {
    hide GateUpdate, AfterRun, ScenarioFor, MayExecute;
    GateSteps(c, v, policy, newId);
  }

  /** What the gate of a plan nobody was asked about does to the case. */
  lemma GateEffects(c: Case, v: Verdict, policy: Policy, newId: string)
    requires GateReady(c, v) && !AsksFor(c, c.plan.value.id)
    ensures GateAttempt(c, v, policy, newId).None? ==> GateUpdate(c, v, policy, newId).Refused?
    ensures GateAttempt(c, v, policy, newId).Some? ==>
      var gated := GateAttempt(c, v, policy, newId).value;
      && gated.id == c.id && gated.plan.Some?
      && (forall version :: SameButAssumptions(c.plan.value, Stored(gated, version).plan.value))
      && (v.requiresApproval ==> gated.status.ApprovalRequired? && gated.pending.Some?)
      && (v.requiresApproval ==> forall version :: AsksFor(Stored(gated, version), c.plan.value.id))
  {
  }

  lemma GateSteps(c: Case, v: Verdict, policy: Policy, newId: string)
    ensures GateUpdate(c, v, policy, newId).Cleared? ==> !v.requiresApproval
    ensures GateUpdate(c, v, policy, newId).Paused? ==> v.requiresApproval
  {
  }

  /** Nothing has been asked yet about a plan that has just been accepted. */
  lemma FreshPlanIsReadyForItsGate(c: Case, op: Operation, stored: Case, newId: string)
    requires Sound(c) && Vetted(op) && op.AcceptReplan? && Attempt(c, op).Some?
    requires stored == Stored(Attempt(c, op).value, c.version) && stored.plan.Some? && FreshApprovalId(c, newId)
    ensures GateReady(stored, op.verdict.(plan := stored.plan.value)) && FreshApprovalId(stored, newId)
    ensures !AsksFor(stored, stored.plan.value.id)
  {
    hide Sound, DeclineOutcome, AcceptedCase, RepairValidation;
    var o := DeclineOutcome(c, op.sc, op.d).value;
    DeclineParts(c, op.sc, op.d, o);
    AcceptedPlanIsFresh(c, o, op.verdict, op.researched);
    DeclineKeepsSound(c, op, Attempt(c, op).value);
    SoundParts(c);
  }

  lemma AcceptedCaseParts(c: Case, op: Operation)
    requires Sound(c) && Vetted(op) && op.AcceptReplan? && Attempt(c, op).Some?
    ensures Attempt(c, op).value.id == c.id && Attempt(c, op).value.plan.Some?
  {
    hide Sound, Attempt, Vetted;
    OperationKeepsSound(c, op, Attempt(c, op).value);
  }

  lemma StopParts(c: Case, d: Decline, sc: Scenario)
    requires Sound(c) && DeclineOutcome(c, sc, d).Ok?
    ensures var o := DeclineOutcome(c, sc, d).value;
      UnresolvedCase(o).id == c.id && Performed(c, StopWithoutOption(d, sc)) == Stored(UnresolvedCase(o), c.version)
    ensures Vetted(StopWithoutOption(d, sc))
  {
    hide DeclineOutcome, Sound;
    DeclineParts(c, sc, d, DeclineOutcome(c, sc, d).value);
  }

  lemma FailedReplanParts(c: Case, d: Decline, sc: Scenario)
    requires Sound(c) && DeclineOutcome(c, sc, d).Ok?
    ensures var o := DeclineOutcome(c, sc, d).value;
      o.recovery.id == c.id && Performed(c, KeepFailedReplan(d, sc)) == Stored(o.recovery, c.version)
    ensures Vetted(KeepFailedReplan(d, sc))
  {
    hide DeclineOutcome, Sound;
    DeclineParts(c, sc, d, DeclineOutcome(c, sc, d).value);
  }

  lemma AcceptReplanParts(c: Case, op: Operation, planning: Scenario, plan: Plan, o: Outcome)
    requires op.AcceptReplan? && DeclineOutcome(c, op.sc, op.d) == Ok(o)
    requires op.verdict == RepairValidation(planning, plan, o.preserved) && op.verdict.valid
    ensures Vetted(op) && Attempt(c, op) == Some(AcceptedCase(c, o, op.verdict, op.researched))
    ensures var stored := Attempt(c, op).value;
      stored.plan.Some? && stored.plan.value == op.verdict.plan.(
        id := stored.plan.value.id, assumptions := stored.plan.value.assumptions)
  {
    hide DeclineOutcome, AcceptedCase, RepairValidation;
    assert FromValidator(op.verdict);
    AcceptedPlanIsFresh(c, o, op.verdict, op.researched);
  }

  lemma CompletedParts(c: Case, sc: Scenario, adapter: Action -> ActionStatus)
    requires MayExecute(c)
    ensures var done := Completed(c, sc, adapter);
      && done.plan == c.plan && done.id == c.id && done.approvals == c.approvals
      && (done.status.Executing? || done.status.Failed? || done.status.Resolved?)
  {
    hide CompletionErrors, RunActions, RequiredActions, NothingLeft, StartEvents;
  }

  /** The plan of a stored case is the proposal as the validator priced and accepted it. */
  ghost predicate Accepts(o: Outcome, proposal: Proposal, stored: Case) {
    && ScenarioWith(o.scenario, proposal).Ok? && stored.plan.Some?
    && var v := RepairValidation(ScenarioWith(o.scenario, proposal).value, proposal.plan, o.preserved);
       v.valid
       && stored.plan.value == v.plan.(id := stored.plan.value.id, assumptions := stored.plan.value.assumptions)
  }

  // ---------------------------------------------------------------- what a start stores

  /** The case a validated first proposal is stored as. */
  function FirstCase(caseId: string, caregiver: string, sc: Scenario, proposal: Proposal): Case
    requires ScenarioWith(sc, proposal).Ok?
  {
    StartedCase(caseId, caregiver, sc, Validation(ScenarioWith(sc, proposal).value, proposal.plan).plan,
                proposal.researched)
  }

  lemma ValidationIsFromValidator(sc: Scenario, plan: Plan)
    ensures FromValidator(Validation(sc, plan))
  {
    assert Validation(sc, plan) == RepairValidation(sc, plan, []);
  }

  lemma FirstCaseParts(caseId: string, caregiver: string, sc: Scenario, proposal: Proposal, newId: string)
    requires ScenarioWith(sc, proposal).Ok? && Validation(ScenarioWith(sc, proposal).value, proposal.plan).valid
    ensures var v := Validation(ScenarioWith(sc, proposal).value, proposal.plan);
      var stored := Stored(FirstCase(caseId, caregiver, sc, proposal), 0);
      && Sound(stored) && stored.id == caseId && stored.pending.None? && FreshApprovalId(stored, newId)
      && stored.plan.Some? && FirstCase(caseId, caregiver, sc, proposal).version == 0
      && GateReady(stored, v.(plan := AcceptPlan(v.plan, caseId, [])))
  {
    var v := Validation(ScenarioWith(sc, proposal).value, proposal.plan);
    hide Validation, Sound, GateReady;
    ValidationIsFromValidator(ScenarioWith(sc, proposal).value, proposal.plan);
    StartedCaseIsSound(caseId, caregiver, sc, v, proposal.researched);
    VersionDoesNotMatter(FirstCase(caseId, caregiver, sc, proposal), 1);
  }

  /** The verdict on a first plan as its gate sees it. */
  function FirstVerdict(caseId: string, sc: Scenario, proposal: Proposal): Verdict
    requires ScenarioWith(sc, proposal).Ok?
  {
    var v := Validation(ScenarioWith(sc, proposal).value, proposal.plan);
    v.(plan := AcceptPlan(v.plan, caseId, []))
  }

  /** What a start leaves of a validated first plan: the gate runs when the plan was researched or needs
      permission. */
  function AfterStart(caseId: string, caregiver: string, sc: Scenario, proposal: Proposal, newId: string,
                      adapter: Action -> ActionStatus): Case
    requires ScenarioWith(sc, proposal).Ok?
  {
    var first, v := Stored(FirstCase(caseId, caregiver, sc, proposal), 0), FirstVerdict(caseId, sc, proposal);
    if proposal.researched.Some? || v.requiresApproval then AfterGate(first, v, sc.policy, newId, adapter) else first
  }

  lemma VerdictIsConsistent(sc: Scenario, plan: Plan)
    ensures var v := Validation(sc, plan);
      v.requiresApproval == (v.plan.reasons != [] || v.cost > sc.policy.spendLimit)
  {
  }

  lemma FirstCaseStarts(caseId: string, caregiver: string, sc: Scenario, proposal: Proposal)
    requires ScenarioWith(sc, proposal).Ok? && Validation(ScenarioWith(sc, proposal).value, proposal.plan).valid
    ensures var first := Stored(FirstCase(caseId, caregiver, sc, proposal), 0);
      && first.status.WaitingForResponse? && first.pending.None? && first.plan.Some?
      && first.events == [Event(DisruptionOf(caseId), Disruption(caregiver))]
      && first.context == Context(sc, proposal.researched)
      && ScenarioFor(ClearedFor(first, FirstVerdict(caseId, sc, proposal))).Ok?
  {
    var first := Stored(FirstCase(caseId, caregiver, sc, proposal), 0);
    var cleared := ClearedFor(first, FirstVerdict(caseId, sc, proposal));
    hide Validation, AcceptPlan, MaterializeAssumptions;
    assert cleared.events[..|cleared.events|-1] == [];
    assert BaseScenario(cleared.context).Ok?;
    var base := BaseScenario(cleared.context).value;
    assert ReplayEvents(base, cleared.events[..|cleared.events|-1]) == Ok(base);
  }

  /** The three ways a validated start ends: waiting for permission for this plan and its cost, cleared and
      run when it was researched and needs none, or else stored and waiting for a response. */
  lemma StartMeans(caseId: string, caregiver: string, sc: Scenario, proposal: Proposal, newId: string,
                   adapter: Action -> ActionStatus)
    requires ScenarioWith(sc, proposal).Ok? && Validation(ScenarioWith(sc, proposal).value, proposal.plan).valid
    ensures var first, v := Stored(FirstCase(caseId, caregiver, sc, proposal), 0), FirstVerdict(caseId, sc, proposal);
      var after, cleared := AfterStart(caseId, caregiver, sc, proposal, newId, adapter), ClearedFor(first, v);
      && first.status == WaitingForResponse && first.pending == None
      && (v.requiresApproval <==> Validation(ScenarioWith(sc, proposal).value, proposal.plan).requiresApproval)
      && !GateFails(first, v, sc.policy, newId) && first.plan.Some?
      && (v.requiresApproval ==> WaitsForPermission(after, first.plan.value.id, v.cost) && after.plan == Some(v.plan))
      && (!v.requiresApproval && proposal.researched.Some? ==>
            ScenarioFor(cleared).Ok? && after == Completed(cleared, ScenarioFor(cleared).value, adapter))
      && (!v.requiresApproval && proposal.researched.None? ==> after == first)
  {
    var planning := ScenarioWith(sc, proposal).value;
    FirstCaseParts(caseId, caregiver, sc, proposal, newId);
    FirstCaseStarts(caseId, caregiver, sc, proposal);
    VerdictIsConsistent(planning, proposal.plan);
    AcceptedKeepsReasons(Validation(planning, proposal.plan).plan, caseId);
    assert planning.policy == sc.policy;
    hide Validation, FirstCase, GateReady, Completed, ScenarioFor, AcceptPlan, GateUpdate, AfterGate, GateFails;
    GateOutcomeMeans(Stored(FirstCase(caseId, caregiver, sc, proposal), 0), FirstVerdict(caseId, sc, proposal),
                     sc.policy, newId, adapter);
  }

  lemma AcceptedKeepsReasons(plan: Plan, caseId: string)
    ensures AcceptPlan(plan, caseId, []).reasons == plan.reasons
  {
  }

  // ---------------------------------------------------------------- what a replan leaves

  /** The decline does not apply, or a matrix that is needed cannot be built. */
  ghost predicate DeclineCannotBeWeighed(c: Case, sc: Scenario, d: Decline) {
    match DeclineOutcome(c, sc, d)
    case Err(_) => true
    case Ok(o) =>
      var scope := Some(Scope(o.uncovered, o.preserved));
      NeedOf(o.scenario, scope).Err? || !AllBuildable(o.scenario, scope, NeedOf(o.scenario, scope).value)
  }

  /** What is left of a replan that the validator accepted: the repair stored, its gate run, and the plan with
      it when nothing has to be asked. */
  function AfterAccepting(c: Case, op: Operation, newId: string, adapter: Action -> ActionStatus): Case
    requires Attempt(c, op).Some? && op.AcceptReplan? && Attempt(c, op).value.plan.Some?
  {
    var stored := Stored(Attempt(c, op).value, c.version);
    match ScenarioFor(stored)
    case Ok(sc) => AfterGate(stored, op.verdict.(plan := stored.plan.value), sc.policy, newId, adapter)
    case Err(_) => stored
  }

  predicate AcceptingFails(c: Case, op: Operation, newId: string)
    requires Attempt(c, op).Some? && op.AcceptReplan? && Attempt(c, op).value.plan.Some?
  {
    var stored := Stored(Attempt(c, op).value, c.version);
    match ScenarioFor(stored)
    case Ok(sc) => GateFails(stored, op.verdict.(plan := stored.plan.value), sc.policy, newId)
    case Err(_) => true
  }

  /** The planner has a way through the day after the decline. */
  ghost predicate IsRecoverable(c: Case, sc: Scenario, d: Decline) {
    && DeclineOutcome(c, sc, d).Ok?
    && var o := DeclineOutcome(c, sc, d).value;
       var scope := Some(Scope(o.uncovered, o.preserved));
       NeedOf(o.scenario, scope).Ok? && Recoverable(o.scenario, scope, NeedOf(o.scenario, scope).value)
  }

  /** The operation that stores the proposal as the validator judges it on the day after the decline. */
  function Accepting(sc: Scenario, d: Decline, o: Outcome, proposal: Proposal): Operation
    requires ScenarioWith(o.scenario, proposal).Ok?
  {
    AcceptReplan(d, sc, RepairValidation(ScenarioWith(o.scenario, proposal).value, proposal.plan, o.preserved),
                 proposal.researched)
  }

  /** The validator accepts the proposal and the repair is stored. */
  predicate Stores(c: Case, sc: Scenario, d: Decline, proposal: Proposal) {
    && DeclineOutcome(c, sc, d).Ok? && ScenarioWith(DeclineOutcome(c, sc, d).value.scenario, proposal).Ok?
    && var op := Accepting(sc, d, DeclineOutcome(c, sc, d).value, proposal);
       op.verdict.valid && Attempt(c, op).Some? && Attempt(c, op).value.plan.Some?
  }

  predicate ReplanFails(c: Case, sc: Scenario, d: Decline, proposal: Proposal, newId: string) {
    !Stores(c, sc, d, proposal)
    || AcceptingFails(c, Accepting(sc, d, DeclineOutcome(c, sc, d).value, proposal), newId)
  }

  function AfterReplan(c: Case, sc: Scenario, d: Decline, proposal: Proposal, newId: string,
                       adapter: Action -> ActionStatus): Case {
    if Stores(c, sc, d, proposal) then
      AfterAccepting(c, Accepting(sc, d, DeclineOutcome(c, sc, d).value, proposal), newId, adapter)
    else c
  }

  // ---------------------------------------------------------------- the service

  class RecoveryApplicationService {
    const repository: InMemoryRepository
    const approval: ApprovalService
    const execution: RecoveryExecutionService
    const completion: CompletionVerifier

    ghost predicate Valid()
      reads repository
    {
      && approval.repository == repository && execution.repository == repository
      && completion.repository == repository && repository.Valid()
    }

    constructor (repository: InMemoryRepository)
      requires repository.Valid()
      ensures this.repository == repository && Valid()
    {
      this.repository := repository;
      approval := new ApprovalService(repository);
      execution := new RecoveryExecutionService(repository);
      completion := new CompletionVerifier(repository);
    }

    /** Run the plan and verify it in the scenario rebuilt from the stored case; two separate saves. */
    method ExecuteAndComplete(caseId: string, adapter: Action -> ActionStatus)
      returns (r: Result<Case, ServiceError>)
      requires Valid()
      modifies repository
      ensures Valid()
      ensures caseId !in old(repository.cases) ==> r == Err(NotFound) && repository.cases == old(repository.cases)
      ensures caseId in old(repository.cases) ==>
        var c := old(repository.cases)[caseId];
        if ScenarioFor(c).Err? || !MayExecute(c) then r.Err? && repository.cases == old(repository.cases)
        else
          && repository.cases == old(repository.cases)[caseId := Completed(c, ScenarioFor(c).value, adapter)]
          && r == Ok(repository.cases[caseId])
    {
      hide ScenarioFor, CompletionErrors, RunActions, RequiredActions, NothingLeft;
      var read := repository.Get(caseId);
      if read.Err? {
        return Err(read.error);
      }
      var scenario := RebuildScenario(read.value);
      if scenario.Err? || read.value.plan.None? {
        return Err(ScenarioUnavailable);
      }
      var executed := execution.Execute(caseId, adapter);
      if executed.Err? {
        assert repository.cases == old(repository.cases);
        return Err(executed.error);
      }
      if !executed.value.succeeded {
        return Ok(executed.value.recovery);
      }
      var verified := completion.VerifyAndResolve(caseId, scenario.value);
      r := Ok(verified.value.1);
    }

    /** Approve or reject, then run the plan unless it was rejected or is already resolved. */
    method DecideApproval(caseId: string, approvalId: string, approve: bool, expected: Option<nat>,
                          adapter: Action -> ActionStatus)
      returns (r: Result<Case, ServiceError>)
      requires Valid()
      modifies repository
      ensures Valid()
      ensures caseId !in old(repository.cases) ==> r == Err(NotFound) && repository.cases == old(repository.cases)
      ensures caseId in old(repository.cases) ==>
        var c := old(repository.cases)[caseId];
        && caseId in repository.cases
        && repository.cases == old(repository.cases)[caseId := repository.cases[caseId]]
        && LeadsTo(c, repository.cases[caseId])
        && (r.Ok? ==> r.value == repository.cases[caseId])
        && (if expected.Some? && expected.value != c.version then
              r == Err(VersionConflict) && repository.cases[caseId] == c
            else
              && repository.cases[caseId] == AfterDecision(c, approvalId, approve, adapter)
              && (r.Err? <==> DecisionFails(c, approvalId, approve)))
    {
      hide ScenarioFor, Completed, DecisionUpdate, Performed, LeadsTo, MayExecute;
      var read := repository.Get(caseId);
      if read.Err? {
        return Err(read.error);
      }
      var c := read.value;
      ReachesItself(c);
      if expected.Some? && expected.value != c.version {
        return Err(VersionConflict);
      }
      PerformedReaches(c, c, Operation.DecideApproval(approvalId, approve));
      DecisionIsStored(c, approvalId, approve);
      var decided := approval.Decide(caseId, approvalId, approve);
      if decided.Err? {
        return Err(decided.error);
      }
      if !decided.value.approval.status.Approved? {
        return Ok(decided.value.recovery);
      }
      if decided.value.idempotent && decided.value.recovery.status.Resolved? {
        return Ok(decided.value.recovery);
      }
      var now := repository.cases[caseId];
      if ScenarioFor(now).Ok? {
        CompletedReaches(c, now, ScenarioFor(now).value, adapter);
      }
      r := ExecuteAndComplete(caseId, adapter);
    }

    ghost predicate SaveConflicts(cases: map<string, Case>, c: Case) {
      c.id !in cases || cases[c.id].version != c.version
    }

    /** Record a decline after which no selection of primitives completes the day, before any planning is
        attempted. */
    method StopWhenNoRecoveryOption(c: Case, d: Decline, sc: Scenario)
      returns (r: Result<Option<Case>, ServiceError>)
      requires Valid()
      modifies repository
      ensures Valid()
      ensures r.Ok? ==> DeclineOutcome(c, sc, d).Ok?
      ensures r.Ok? ==>
        var o := DeclineOutcome(c, sc, d).value;
        var scope := Some(Scope(o.uncovered, o.preserved));
        && NeedOf(o.scenario, scope).Ok?
        && (r.value.None? <==> Recoverable(o.scenario, scope, NeedOf(o.scenario, scope).value))
        && (r.value.Some? ==>
              SaveResult(old(repository.cases), UnresolvedCase(o), Some(c.version)) == Ok(r.value.value)
              && repository.cases == CasesAfter(old(repository.cases), Ok(r.value.value)))
      ensures r.Err? || r.value.None? ==> repository.cases == old(repository.cases)
      ensures r.Ok? && r.value.Some? ==>
        && r.value.value ==
             DeclineOutcome(c, sc, d).value.recovery.(status := NoRecoveryOption, version := c.version + 1)
        && r.value.value.uncovered == DeclineOutcome(c, sc, d).value.uncovered
      ensures r.Err? ==> DeclineCannotBeWeighed(c, sc, d) || SaveConflicts(old(repository.cases), c)
    {
      hide DeclineOutcome, NeedOf, Recoverable, AllBuildable;
      var applied := ApplyCaregiverDecline(c, sc, d);
      if applied.Err? {
        return Err(EventNotApplicable);
      }
      var o := applied.value;
      DeclineIsRecorded(c, sc, d, o);
      var possible := CanRecover(o.scenario, Some(Scope(o.uncovered, o.preserved)));
      if possible.Err? {
        return Err(EventNotApplicable);
      }
      if possible.value.possible {
        return Ok(None);
      }
      var saved := repository.Save(UnresolvedCase(o), Some(c.version));
      r := if saved.Ok? then Ok(Some(saved.value)) else Err(saved.error);
    }

    /** Run the gate on a plan just stored and, when no approval is needed, the plan itself. */
    method GateAndRun(ghost origin: Case, c: Case, v: Verdict, policy: Policy, newId: string,
                      adapter: Action -> ActionStatus)
      returns (r: Result<Case, ServiceError>)
      requires Valid() && c.id in repository.cases && repository.cases[c.id] == c
      requires LeadsTo(origin, c) && GateReady(c, v) && FreshApprovalId(c, newId)
      requires !AsksFor(c, c.plan.value.id)
      modifies repository
      ensures Valid() && c.id in repository.cases
      ensures repository.cases == old(repository.cases)[c.id := repository.cases[c.id]]
      ensures LeadsTo(origin, repository.cases[c.id])
      ensures repository.cases[c.id].plan.Some? && SameButAssumptions(c.plan.value, repository.cases[c.id].plan.value)
      ensures r.Ok? ==> r.value == repository.cases[c.id]
      ensures r.Ok? ==> if v.requiresApproval then r.value.status.ApprovalRequired? && AsksFor(r.value, c.plan.value.id)
                        else r.value.status.Executing? || r.value.status.Failed? || r.value.status.Resolved?
      ensures repository.cases[c.id] == AfterGate(c, v, policy, newId, adapter)
      ensures r.Err? <==> GateFails(c, v, policy, newId)
    {
      GateCases(c, v, policy, newId, adapter);
      GateLeadsOn(origin, c, v, policy, newId);
      hide AfterGate, GateFails, AfterRun, LeadsTo, GateAttempt, GateUpdate, ScenarioFor, Completed, FreshApprovalId,
           MayExecute, GateReady, SameButAssumptions, AsksFor, Stored;
      var gate := RunGate(c, v, policy, newId);
      if gate.Err? {
        return Err(gate.error);
      }
      if gate.value.request.Some? {
        return Ok(gate.value.recovery);
      }
      r := RunCleared(origin, repository.cases[c.id], adapter);
    }

    /** The gate of a stored plan nobody was asked about: what it answers is what it stores. */
    method RunGate(c: Case, v: Verdict, policy: Policy, newId: string)
      returns (r: Result<GateOutcome, ServiceError>)
      requires Valid() && c.id in repository.cases && repository.cases[c.id] == c
      requires GateReady(c, v) && FreshApprovalId(c, newId) && !AsksFor(c, c.plan.value.id)
      modifies repository
      ensures Valid() && c.id in repository.cases
      ensures repository.cases == old(repository.cases)[c.id := repository.cases[c.id]]
      ensures match GateAttempt(c, v, policy, newId)
              case None => r.Err? && repository.cases[c.id] == c
              case Some(gated) =>
                && r.Ok? && r.value.recovery == repository.cases[c.id] == Stored(gated, c.version)
                && (r.value.request.Some? <==> v.requiresApproval)
                && r.value.recovery.id == c.id && r.value.recovery.plan.Some?
                && SameButAssumptions(c.plan.value, r.value.recovery.plan.value)
                && (v.requiresApproval ==> r.value.recovery.status.ApprovalRequired?)
                && (v.requiresApproval ==> AsksFor(r.value.recovery, c.plan.value.id))
    {
      GateEffects(c, v, policy, newId);
      hide GateAttempt, GateUpdate, FreshApprovalId, GateReady, SameButAssumptions, AsksFor;
      assert repository.cases[c.id := c] == repository.cases;
      r := approval.ApplyAutonomyGate(c, v, policy, newId);
    }

    /** Run a stored plan that its gate has cleared, and verify it. */
    method RunCleared(ghost origin: Case, c: Case, adapter: Action -> ActionStatus)
      returns (r: Result<Case, ServiceError>)
      requires Valid() && c.id in repository.cases && repository.cases[c.id] == c && LeadsTo(origin, c)
      modifies repository
      ensures Valid() && repository.cases == old(repository.cases)[c.id := AfterRun(c, adapter)]
      ensures LeadsTo(origin, AfterRun(c, adapter)) && AfterRun(c, adapter).plan == c.plan
      ensures r.Err? <==> ScenarioFor(c).Err? || !MayExecute(c)
      ensures r.Ok? ==> r.value == AfterRun(c, adapter)
      ensures r.Ok? ==> r.value.status.Executing? || r.value.status.Failed? || r.value.status.Resolved?
    {
      hide LeadsTo, ScenarioFor, Completed, MayExecute;
      if ScenarioFor(c).Ok? && MayExecute(c) {
        CompletedReaches(origin, c, ScenarioFor(c).value, adapter);
        CompletedParts(c, ScenarioFor(c).value, adapter);
      }
      r := ExecuteAndComplete(c.id, adapter);
    }

    /** Store the accepted plan, ready to execute, and only then run its gate. */
    method AcceptAndRun(c: Case, op: Operation, newId: string, adapter: Action -> ActionStatus)
      returns (r: Result<Case, ServiceError>)
      requires Valid() && c.id in repository.cases && repository.cases[c.id] == c
      requires Sound(c) && FreshApprovalId(c, newId)
      requires Vetted(op) && op.AcceptReplan? && Attempt(c, op).Some?
      modifies repository
      ensures Valid() && c.id in repository.cases
      ensures repository.cases == old(repository.cases)[c.id := repository.cases[c.id]]
      ensures LeadsTo(c, repository.cases[c.id])
      ensures LeadsTo(Stored(Attempt(c, op).value, c.version), repository.cases[c.id])
      ensures Attempt(c, op).value.plan.Some? && repository.cases[c.id].plan.Some?
      ensures SameButAssumptions(Attempt(c, op).value.plan.value, repository.cases[c.id].plan.value)
      ensures r.Ok? ==> r.value == repository.cases[c.id]
      ensures r.Ok? ==> if op.verdict.requiresApproval then r.value.status.ApprovalRequired?
                        else r.value.status.Executing? || r.value.status.Failed? || r.value.status.Resolved?
      ensures repository.cases[c.id] == AfterAccepting(c, op, newId, adapter)
      ensures r.Err? <==> AcceptingFails(c, op, newId)
    {
      hide Sound, Attempt, LeadsTo, ScenarioFor, Vetted, FreshApprovalId, GateReady, AfterGate, GateFails;
      AcceptedCaseParts(c, op);
      ReachesItself(c);
      PerformedReaches(c, c, op);
      var saved := repository.Save(Attempt(c, op).value, Some(c.version));
      var stored := saved.value;
      ReachesItself(stored);
      FreshPlanIsReadyForItsGate(c, op, stored, newId);
      var scenario := RebuildScenario(stored);
      if scenario.Err? {
        return Err(ScenarioUnavailable);
      }
      r := GateAndRun(stored, stored, op.verdict.(plan := stored.plan.value), scenario.value.policy, newId, adapter);
      assert ByOperation(c, stored);
      ReachesFromBefore(c, stored, repository.cases[c.id]);
    }

    /** Validate the proposal against the day after the decline; a failed one is recorded all the same. */
    method Replan(c: Case, d: Decline, sc: Scenario, proposal: Proposal, newId: string,
                  adapter: Action -> ActionStatus)
      returns (r: Result<Case, ServiceError>)
      requires Valid() && c.id in repository.cases && repository.cases[c.id] == c
      requires Sound(c) && FreshApprovalId(c, newId) && DeclineOutcome(c, sc, d).Ok?
      modifies repository
      ensures Valid() && c.id in repository.cases
      ensures repository.cases == old(repository.cases)[c.id := repository.cases[c.id]]
      ensures LeadsTo(c, repository.cases[c.id])
      ensures r.Ok? ==> r.value == repository.cases[c.id] && !r.value.status.NoRecoveryOption?
      ensures r.Ok? ==> Accepts(DeclineOutcome(c, sc, d).value, proposal, r.value)
      ensures var o := DeclineOutcome(c, sc, d).value;
        if ScenarioWith(o.scenario, proposal).Err? then r == Err(EventNotApplicable) && repository.cases[c.id] == c
        else if !RepairValidation(ScenarioWith(o.scenario, proposal).value, proposal.plan, o.preserved).valid then
          && r == Err(ReplanningFailed) && repository.cases[c.id] == Performed(c, KeepFailedReplan(d, sc))
          && repository.cases[c.id] == o.recovery.(version := c.version + 1)
          && repository.cases[c.id].status == Replanning
        else
          && Accepts(o, proposal, repository.cases[c.id]) && Stores(c, sc, d, proposal)
          && repository.cases[c.id] == AfterReplan(c, sc, d, proposal, newId, adapter)
          && (r.Err? <==> ReplanFails(c, sc, d, proposal, newId))
    {
      hide Sound, LeadsTo, DeclineOutcome, FreshApprovalId, Attempt, RepairValidation, Vetted;
      var applied := ApplyCaregiverDecline(c, sc, d);
      var o := applied.value;
      ReachesItself(c);
      assert repository.cases[c.id := c] == repository.cases;
      var planning := ScenarioWith(o.scenario, proposal);
      if planning.Err? {
        return Err(EventNotApplicable);
      }
      var v := ValidateRepair(planning.value, proposal.plan, o.preserved);
      if !v.valid {
        FailedReplanParts(c, d, sc);
        DeclineIsRecorded(c, sc, d, o);
        PerformedReaches(c, c, KeepFailedReplan(d, sc));
        var kept := repository.Save(o.recovery, Some(c.version));
        return Err(ReplanningFailed);
      }
      var op := AcceptReplan(d, sc, v, proposal.researched);
      AcceptReplanParts(c, op, planning.value, proposal.plan, o);
      r := AcceptAndRun(c, op, newId, adapter);
    }

    /** A decline from end to end: stop if the planner has no way through the day, otherwise plan, validate,
        store, gate, run. */
    method ProcessEvent(caseId: string, expected: Option<nat>, d: Decline, proposed: Option<Proposal>,
                        newId: string, adapter: Action -> ActionStatus)
      returns (r: Result<Case, ServiceError>)
      requires Valid()
      requires caseId in repository.cases ==>
        Sound(repository.cases[caseId]) && FreshApprovalId(repository.cases[caseId], newId)
      modifies repository
      ensures Valid()
      ensures caseId !in old(repository.cases) ==> r == Err(NotFound) && repository.cases == old(repository.cases)
      ensures caseId in old(repository.cases) ==>
        && caseId in repository.cases
        && repository.cases == old(repository.cases)[caseId := repository.cases[caseId]]
        && LeadsTo(old(repository.cases)[caseId], repository.cases[caseId])
        && (r.Ok? ==> r.value == repository.cases[caseId])
      ensures r.Ok? ==>
        var c := old(repository.cases)[caseId];
        && ScenarioFor(c).Ok? && DeclineOutcome(c, ScenarioFor(c).value, d).Ok?
        && var o := DeclineOutcome(c, ScenarioFor(c).value, d).value;
           var scope := Some(Scope(o.uncovered, o.preserved));
           && NeedOf(o.scenario, scope).Ok?
           && (if Recoverable(o.scenario, scope, NeedOf(o.scenario, scope).value)
               then proposed.Some? && Accepts(o, proposed.value, r.value) && !r.value.status.NoRecoveryOption?
               else
                 && r.value == Stored(UnresolvedCase(o), c.version)
                 && r.value.status == NoRecoveryOption && r.value.uncovered == o.uncovered)
      ensures caseId in old(repository.cases) ==>
        var c := old(repository.cases)[caseId];
        && (expected.Some? && expected.value != c.version ==> r == Err(VersionConflict))
        && (r.Err? ==>
              || (expected.Some? && expected.value != c.version)
              || ScenarioFor(c).Err? || DeclineCannotBeWeighed(c, ScenarioFor(c).value, d)
              || (IsRecoverable(c, ScenarioFor(c).value, d)
                  && (proposed.None? || ReplanFails(c, ScenarioFor(c).value, d, proposed.value, newId))))
        && (r.Ok? && IsRecoverable(c, ScenarioFor(c).value, d) ==>
              r.value == AfterReplan(c, ScenarioFor(c).value, d, proposed.value, newId, adapter))
    {
      hide Sound, LeadsTo, ScenarioFor, DeclineOutcome, NeedOf, Recoverable, FreshApprovalId, Attempt;
      var read := repository.Get(caseId);
      if read.Err? {
        return Err(read.error);
      }
      var c := read.value;
      ReachesItself(c);
      assert old(repository.cases)[caseId := c] == old(repository.cases);
      if expected.Some? && expected.value != c.version {
        return Err(VersionConflict);
      }
      var scenario := RebuildScenario(c);
      if scenario.Err? {
        return Err(EventNotApplicable);
      }
      var stopped := StopWhenNoRecoveryOption(c, d, scenario.value);
      if stopped.Err? {
        return Err(stopped.error);
      }
      PerformedReaches(c, c, StopWithoutOption(d, scenario.value));
      StopParts(c, d, scenario.value);
      if stopped.value.Some? {
        return Ok(stopped.value.value);
      }
      if proposed.None? {
        return Err(PlanningFailed);
      }
      r := Replan(c, d, scenario.value, proposed.value, newId, adapter);
    }

    /** Start a recovery: record at once that the planner has no option, or store the first validated plan
        and, if it was researched or needs permission, run its gate. */
    method StartRecovery(caseId: string, caregiver: string, sc: Scenario, proposed: Option<Proposal>,
                         newId: string, adapter: Action -> ActionStatus)
      returns (r: Result<Case, ServiceError>)
      requires Valid()
      modifies repository
      ensures Valid()
      ensures caseId in old(repository.cases) ==> repository.cases == old(repository.cases) && r.Err?
      ensures caseId !in repository.cases ==> repository.cases == old(repository.cases)
      ensures caseId in repository.cases ==>
        repository.cases == old(repository.cases)[caseId := repository.cases[caseId]]
      ensures r.Ok? ==>
        && caseId in repository.cases && r.value == repository.cases[caseId]
        && NeedOf(sc, None).Ok?
        && (if Recoverable(sc, None, NeedOf(sc, None).value) then
              && proposed.Some? && ScenarioWith(sc, proposed.value).Ok?
              && Validation(ScenarioWith(sc, proposed.value).value, proposed.value.plan).valid
              && LeadsTo(Stored(FirstCase(caseId, caregiver, sc, proposed.value), 0), r.value) && Sound(r.value)
            else
              && r.value == Stored(UnplannedCase(caseId, caregiver, sc, NeedOf(sc, None).value.requested), 0)
              && r.value.status == NoRecoveryOption && r.value.plan == None && r.value.pending == None
              && r.value.uncovered == NeedOf(sc, None).value.requested && r.value.gap == sc.required
              && r.value.context == Context(sc, None) && r.value.id == caseId
              && r.value.events == [Event(DisruptionOf(caseId), Disruption(caregiver))])
      ensures r.Ok? && Recoverable(sc, None, NeedOf(sc, None).value) ==>
        r.value == AfterStart(caseId, caregiver, sc, proposed.value, newId, adapter)
      ensures r.Err? ==>
        || caseId in old(repository.cases)
        || NeedOf(sc, None).Err? || !AllBuildable(sc, None, NeedOf(sc, None).value)
        || (Recoverable(sc, None, NeedOf(sc, None).value)
            && (proposed.None? || ScenarioWith(sc, proposed.value).Err?
                || !Validation(ScenarioWith(sc, proposed.value).value, proposed.value.plan).valid))
    {
      hide Sound, LeadsTo, NeedOf, Recoverable, Validation, StartedCase, AllBuildable, AfterGate, GateFails, GateReady;
      var possible := CanRecover(sc, None);
      if possible.Err? {
        return Err(PlanningFailed);
      }
      if !possible.value.possible {
        r := repository.Save(UnplannedCase(caseId, caregiver, sc, possible.value.requested), None);
        return;
      }
      if proposed.None? {
        return Err(PlanningFailed);
      }
      var planning := ScenarioWith(sc, proposed.value);
      if planning.Err? {
        return Err(PlanningFailed);
      }
      var v := Validate(planning.value, proposed.value.plan);
      if !v.valid {
        return Err(PlanningFailed);
      }
      FirstCaseParts(caseId, caregiver, sc, proposed.value, newId);
      StartMeans(caseId, caregiver, sc, proposed.value, newId, adapter);
      r := StoreFirstPlan(FirstCase(caseId, caregiver, sc, proposed.value),
                          v.(plan := AcceptPlan(v.plan, caseId, [])),
                          proposed.value.researched.Some? || v.requiresApproval, sc.policy, newId, adapter);
    }

    /** The first plan is stored as waiting for a response; a gated one does not wait. */
    method StoreFirstPlan(first: Case, checked: Verdict, gated: bool, policy: Policy, newId: string,
                          adapter: Action -> ActionStatus)
      returns (r: Result<Case, ServiceError>)
      requires Valid() && first.version == 0 && first.pending.None?
      requires Sound(Stored(first, 0)) && GateReady(Stored(first, 0), checked)
      requires FreshApprovalId(Stored(first, 0), newId)
      modifies repository
      ensures Valid()
      ensures first.id in old(repository.cases) ==> repository.cases == old(repository.cases) && r.Err?
      ensures first.id in repository.cases
      ensures repository.cases == old(repository.cases)[first.id := repository.cases[first.id]]
      ensures r.Ok? ==> r.value == repository.cases[first.id] && LeadsTo(Stored(first, 0), r.value) && Sound(r.value)
      ensures first.id !in old(repository.cases) ==>
        && repository.cases[first.id] ==
             (if gated then AfterGate(Stored(first, 0), checked, policy, newId, adapter) else Stored(first, 0))
        && (r.Err? <==> gated && GateFails(Stored(first, 0), checked, policy, newId))
    {
      hide Sound, LeadsTo, GateReady, FreshApprovalId, AfterGate, GateFails;
      var saved := repository.Save(first, None);
      if saved.Err? {
        return Err(saved.error);
      }
      var stored := saved.value;
      ReachesItself(stored);
      if !gated {
        return Ok(stored);
      }
      GateReadyHasPlan(stored, checked);
      r := GateAndRun(stored, stored, checked, policy, newId, adapter);
      ReachedIsSound(stored, repository.cases[first.id]);
    }
  }

  lemma GateReadyHasPlan(c: Case, v: Verdict)
    requires GateReady(c, v)
    ensures c.plan.Some?
  {
  }
}
