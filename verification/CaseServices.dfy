/** The case store and the services that read a case, compute from it and save the result. */
module CaseServices {
  import opened Prelude
  import opened Intervals
  import opened Domain
  import opened PlanValidator
  import opened Cases
  import opened Workflow
  import opened StoredCases
  import opened RecoveryProtocol

  datatype ServiceError =
    | NotFound | VersionConflict | InvariantBroken | EventNotApplicable | ScenarioUnavailable
    | ReplanningFailed | PlanningFailed

  function SaveResult(cases: map<string, Case>, c: Case, expected: Option<nat>): Result<Case, ServiceError> {
    match expected
    case None => if c.id in cases then Err(VersionConflict) else Ok(Stored(c, c.version))
    case Some(v) =>
      if c.id !in cases || cases[c.id].version != v then Err(VersionConflict) else Ok(Stored(c, v))
  }

  function CasesAfter(cases: map<string, Case>, r: Result<Case, ServiceError>): map<string, Case> {
    if r.Ok? then cases[r.value.id := r.value] else cases
  }

  /** Versioned compare-and-swap over a process-local dictionary. */
  class InMemoryRepository {
    var cases: map<string, Case>

    ghost predicate Valid()
      reads this
    {
      forall id :: id in cases ==> cases[id].id == id && cases[id].version > 0
    }

    constructor ()
      ensures Valid() && cases == map[]
    {
      cases := map[];
    }

    method Get(caseId: string) returns (r: Result<Case, ServiceError>)
      ensures r == if caseId in cases then Ok(cases[caseId]) else Err(NotFound)
    {
      if caseId !in cases {
        return Err(NotFound);
      }
      r := Ok(cases[caseId]);
    }

    method Save(c: Case, expected: Option<nat>) returns (r: Result<Case, ServiceError>)
      requires Valid()
      modifies this
      ensures Valid()
      ensures r == SaveResult(old(cases), c, expected) && cases == CasesAfter(old(cases), r)
      ensures r.Ok? <==> if expected.None? then c.id !in old(cases)
                         else c.id in old(cases) && old(cases)[c.id].version == expected.value
      ensures r.Ok? ==>
        && r.value == c.(version := (if expected.None? then c.version else expected.value) + 1)
        && cases == old(cases)[c.id := r.value]
      ensures r.Err? ==> r.error == VersionConflict && cases == old(cases)
    {
      if expected.None? {
        if c.id in cases {
          return Err(VersionConflict);
        }
      } else if c.id !in cases || cases[c.id].version != expected.value {
        return Err(VersionConflict);
      }
      var stored := Stored(c, if expected.Some? then expected.value else c.version);
      cases := cases[stored.id := stored];
      r := Ok(stored);
    }
  }

  /** What an operation leaves stored when nobody else saves in between. */
  function Performed(c: Case, op: Operation): Case {
    match Attempt(c, op)
    case Some(next) => Stored(next, c.version)
    case None => c
  }

  datatype GateOutcome = GateOutcome(recovery: Case, request: Option<Approval>)

  datatype DecisionOutcome = DecisionOutcome(recovery: Case, approval: Approval, idempotent: bool)

  class ApprovalService {
    const repository: InMemoryRepository

    constructor (repository: InMemoryRepository)
      ensures this.repository == repository
    {
      this.repository := repository;
    }

    /** The case may be a stale snapshot: the gate's save is a compare-and-swap on its version. */
    method ApplyAutonomyGate(c: Case, v: Verdict, policy: Policy, newId: string)
      returns (r: Result<GateOutcome, ServiceError>)
      requires repository.Valid()
      modifies repository
      ensures repository.Valid()
      ensures GateAttempt(c, v, policy, newId).None? ==> repository.cases == old(repository.cases)
      ensures GateAttempt(c, v, policy, newId).Some? ==>
        var saved := SaveResult(old(repository.cases), GateAttempt(c, v, policy, newId).value,
                                if c.version > 0 then Some(c.version) else None);
        && repository.cases == CasesAfter(old(repository.cases), saved)
        && (r.Ok? <==> saved.Ok?) && (r.Ok? ==> r.value.recovery == saved.value)
        && (r.Err? ==> r.error == VersionConflict)
        && (r.Ok? ==> (r.value.request.Some? <==> v.requiresApproval))
        && (r.Ok? && v.requiresApproval ==> r.value.request == saved.value.pending)
      ensures match GateUpdate(c, v, policy, newId)
              case Refused => r == Err(InvariantBroken)
              case AlreadyPending(request) => r == Ok(GateOutcome(c, Some(request)))
              case _ => true
    {
      if c.plan.None? || !v.valid {
        return Err(InvariantBroken);
      }
      if v.plan.id != c.plan.value.id {
        return Err(InvariantBroken);
      }
      var reasons := v.plan.reasons;
      var overspent := v.cost > policy.spendLimit;
      if v.requiresApproval != (reasons != [] || overspent) {
        return Err(InvariantBroken);
      }
      var expected := if c.version > 0 then Some(c.version) else None;
      if !v.requiresApproval {
        var cleared := repository.Save(c.(status := Executing, plan := Some(v.plan)), expected);
        return if cleared.Ok? then Ok(GateOutcome(cleared.value, None)) else Err(cleared.error);
      }
      var pending := c.pending;
      if pending.Some? && pending.value.status.Pending? && pending.value.planId == c.plan.value.id {
        return Ok(GateOutcome(c, pending));
      }
      var unfamiliar, overLimit := UnfamiliarPaidCaregiver in reasons, CostAboveLimit in reasons;
      var kind := if unfamiliar && !overLimit then UnfamiliarCaregiver else SpendAboveLimit;
      var approval := Approval(newId, c.plan.value.id, kind, Pending, v.cost);
      var event := Event(RequestOf(newId), ApprovalRequested(newId, c.plan.value.id));
      var saved := repository.Save(
        c.(status := ApprovalRequired, plan := Some(v.plan), pending := Some(approval),
           approvals := c.approvals + [approval], events := c.events + [event]), expected);
      r := if saved.Ok? then Ok(GateOutcome(saved.value, Some(approval))) else Err(saved.error);
    }

    method Decide(caseId: string, approvalId: string, approve: bool)
      returns (r: Result<DecisionOutcome, ServiceError>)
      requires repository.Valid()
      modifies repository
      ensures repository.Valid()
      ensures caseId !in old(repository.cases) ==> r == Err(NotFound) && repository.cases == old(repository.cases)
      ensures caseId in old(repository.cases) ==>
        var c := old(repository.cases)[caseId];
        && repository.cases == old(repository.cases)[caseId := Performed(c, DecideApproval(approvalId, approve))]
        && (r.Ok? ==> r.value.recovery == repository.cases[caseId] && r.value.approval.id == approvalId
                      && (r.value.approval.status.Approved? <==> approve))
        && match DecisionUpdate(c, approvalId, approve)
           case DecisionRefused => r == Err(InvariantBroken)
           case AlreadyDecided(same) => r == Ok(DecisionOutcome(c, same, true))
           case Decided(after, decided) => r == Ok(DecisionOutcome(Stored(after, c.version), decided, false))
    {
      var read := repository.Get(caseId);
      if read.Err? {
        return Err(read.error);
      }
      var c := read.value;
      var decision := if approve then Approved else Rejected;
      var matching := Filter(c.approvals, (a: Approval) => a.id == approvalId);
      LastMatching(c.approvals, approvalId);
      hide Filter, LastApproval;
      if matching == [] {
        return Err(InvariantBroken);
      }
      var approval := matching[|matching|-1];
      if approval.status == decision {
        return Ok(DecisionOutcome(c, approval, true));
      }
      if !approval.status.Pending? || !c.status.ApprovalRequired? || c.pending.None? {
        return Err(InvariantBroken);
      }
      if c.pending.value.id != approvalId || c.plan.None? || approval.planId != c.plan.value.id {
        return Err(InvariantBroken);
      }
      var decided := approval.(status := decision);
      var event := Event(DecisionOn(approvalId, approve), ApprovalDecided(approvalId, approval.planId, approve));
      var saved := repository.Save(
        c.(status := if approve then Executing else Replanning, pending := None,
           approvals := Map(c.approvals, (a: Approval) => if a.id == approvalId then decided else a),
           events := c.events + [event],
           trigger := if approve then c.trigger else Some(event.id)), Some(c.version));
      r := Ok(DecisionOutcome(saved.value, decided, false));
    }
  }

  datatype ExecutionOutcome = ExecutionOutcome(recovery: Case, succeeded: bool)

  /** Whether running the plan's actions now would leave all of them succeeded. */
  predicate WouldSucceed(c: Case, adapter: Action -> ActionStatus) {
    match ExecutionUpdate(c, adapter)
    case AlreadyExecuted => true
    case Ran(_, succeeded) => succeeded
    case ExecutionRefused => false
  }

  class RecoveryExecutionService {
    const repository: InMemoryRepository

    constructor (repository: InMemoryRepository)
      ensures this.repository == repository
    {
      this.repository := repository;
    }

    /** Keep what already succeeded, run the rest, record every outcome, save once. */
    method Execute(caseId: string, adapter: Action -> ActionStatus)
      returns (r: Result<ExecutionOutcome, ServiceError>)
      requires repository.Valid()
      modifies repository
      ensures repository.Valid()
      ensures caseId !in old(repository.cases) ==> r == Err(NotFound) && repository.cases == old(repository.cases)
      ensures caseId in old(repository.cases) ==>
        var c := old(repository.cases)[caseId];
        && repository.cases == old(repository.cases)[caseId := Performed(c, StoredCases.Execute(adapter))]
        && r == (if MayExecute(c) then Ok(ExecutionOutcome(repository.cases[caseId], WouldSucceed(c, adapter)))
                 else Err(InvariantBroken))
        && (r.Ok? <==>
              && c.plan.Some? && c.plan.value.state == Valid && c.pending == None && c.status == Executing
              && (c.plan.value.reasons == []
                  || exists a :: a in c.approvals && a.status == Approved && a.planId == c.plan.value.id))
        && (r.Err? ==> repository.cases == old(repository.cases))
    {
      hide HasSucceeded, RunActions, RequiredActions, StartEvents;
      var read := repository.Get(caseId);
      if read.Err? {
        return Err(read.error);
      }
      var c := read.value;
      if c.plan.None? || !c.plan.value.state.Valid? {
        return Err(InvariantBroken);
      }
      var plan := c.plan.value;
      if c.pending.Some? || !c.status.Executing? {
        return Err(InvariantBroken);
      }
      if plan.reasons != [] && !exists a :: a in c.approvals && a.status.Approved? && a.planId == plan.id {
        return Err(InvariantBroken);
      }
      var required := RequiredActions(plan);
      if required != [] && forall a :: a in required ==> HasSucceeded(c, a.id) {
        return Ok(ExecutionOutcome(c, true));
      }
      var after, succeeded := RunPlan(c, adapter);
      var saved := repository.Save(after, Some(c.version));
      r := Ok(ExecutionOutcome(saved.value, succeeded));
    }

    method RunPlan(c: Case, adapter: Action -> ActionStatus) returns (after: Case, succeeded: bool)
      requires MayExecute(c) && !NothingLeft(c, RequiredActions(c.plan.value))
      ensures ExecutionUpdate(c, adapter) == Ran(after, succeeded) && after.id == c.id
    {
      hide RunActions, RequiredActions, NothingLeft;
      var plan := c.plan.value;
      var events := c.events;
      if StartOf(plan.id) !in EventIds(events) {
        events := events + [Event(StartOf(plan.id), ExecutionStarted(plan.id))];
      }
      var p := PerformActions(c, RequiredActions(plan), adapter, events);
      succeeded := forall a :: a in p.completed ==> a.status.Succeeded?;
      after := c.(status := if succeeded then Executing else Failed, actions := p.history, events := p.events);
    }

    method PerformActions(c: Case, required: seq<Action>, adapter: Action -> ActionStatus, started: seq<Event>)
      returns (p: Progress)
      ensures p == RunActions(c, required, adapter, Progress(c.actions, started, []))
    {
      var existing := ActionsById(c.actions);
      var history, events, completed := c.actions, started, [];
      ghost var start := Progress(c.actions, started, []);
      for i := 0 to |required|
        invariant Progress(history, events, completed) == RunActions(c, required[..i], adapter, start)
      {
        assert required[..i+1][..i] == required[..i];
        var action := required[i];
        var prior := Get(existing, action.id);
        if prior.Some? && prior.value.status.Succeeded? {
          completed := completed + [prior.value];
        } else {
          var result := action.(status := adapter(action));
          history := Filter(history, (a: Action) => a.id != result.id) + [result];
          completed := completed + [result];
          events := events + [Event(ActionOutcome(result), ActionFinished(result.id, result.status.Succeeded?))];
        }
      }
      assert required[..|required|] == required;
      p := Progress(history, events, completed);
    }
  }

  function ActionOutcome(result: Action): EventId {
    OutcomeOf(result.id, result.status.Succeeded?)
  }

  class CompletionVerifier {
    const repository: InMemoryRepository

    constructor (repository: InMemoryRepository)
      ensures this.repository == repository
    {
      this.repository := repository;
    }

    /** Collect everything that speaks against completion; resolve the case only if there is nothing. */
    method VerifyAndResolve(caseId: string, sc: Scenario)
      returns (r: Result<(bool, Case), ServiceError>)
      requires repository.Valid()
      modifies repository
      ensures repository.Valid()
      ensures caseId !in old(repository.cases) ==> r == Err(NotFound) && repository.cases == old(repository.cases)
      ensures caseId in old(repository.cases) ==>
        var c := old(repository.cases)[caseId];
        && repository.cases == old(repository.cases)[caseId := Performed(c, StoredCases.VerifyAndResolve(sc))]
        && r == Ok((CompletionErrors(c, sc) == [], repository.cases[caseId]))
    {
      hide CompletionErrors, Validation;
      var read := repository.Get(caseId);
      if read.Err? {
        return Err(read.error);
      }
      var c := read.value;
      var errors := CollectErrors(c, sc);
      if errors != [] {
        return Ok((false, c));
      }
      assert c.plan.Some? by { CompletionMeaning(c, sc); }
      var planId := c.plan.value.id;
      var events := c.events;
      if VerificationOf(planId) !in EventIds(events) {
        events := events + [Event(VerificationOf(planId), CompletionVerified(planId))];
        events := events + [Event(ResolutionOf(c.id), CaseResolved)];
        assert events == c.events + [Event(VerificationOf(planId), CompletionVerified(planId)),
                                     Event(ResolutionOf(c.id), CaseResolved)];
      }
      var saved := repository.Save(c.(status := Resolved, verified := true, events := events), Some(c.version));
      r := Ok((true, saved.value));
    }

    method CollectErrors(c: Case, sc: Scenario) returns (errors: seq<CompletionError>)
      ensures errors == CompletionErrors(c, sc)
    {
      hide Validation, OutstandingErrors, RelianceErrors, RequiredActions, ApprovedFor;
      errors := [];
      if !c.status.Executing? {
        errors := errors + [NotExecuting];
      }
      if c.plan.None? {
        errors := errors + [NoPlan];
        return;
      }
      var plan := c.plan.value;
      var v := Validate(sc, plan);
      var refused := CollectRefusals(c, v, plan.id);
      var outstanding := CollectOutstanding(c, RequiredActions(plan));
      var reliance := CollectReliance(c.assumptions, plan.segments);
      errors := errors + (refused + outstanding + reliance);
    }

    method CollectRefusals(c: Case, v: Verdict, planId: PlanId) returns (errors: seq<CompletionError>)
      ensures errors == Require(v.valid, PlanInvalid) + Require(c.pending.None?, ApprovalPending)
                        + Require(v.requiresApproval ==> ApprovedFor(c, planId), ApprovalMissing)
    {
      errors := [];
      if !v.valid {
        errors := errors + [PlanInvalid];
      }
      if c.pending.Some? {
        errors := errors + [ApprovalPending];
      }
      if v.requiresApproval && !exists a :: a in c.approvals && a.status.Approved? && a.planId == planId {
        errors := errors + [ApprovalMissing];
      }
    }

    method CollectOutstanding(c: Case, required: seq<Action>) returns (errors: seq<CompletionError>)
      ensures errors == OutstandingErrors(c, required)
    {
      var actions := ActionsById(c.actions);
      errors := [];
      for i := 0 to |required|
        invariant errors == OutstandingErrors(c, required[..i])
      {
        FlatMapStep(required, i, (a: Action) => Require(HasSucceeded(c, a.id), ActionOutstanding(a.id)));
        var actual := Get(actions, required[i].id);
        if actual.None? || !actual.value.status.Succeeded? {
          errors := errors + [ActionOutstanding(required[i].id)];
        }
      }
      assert required[..|required|] == required;
    }

    method CollectReliance(assumptions: seq<Assumption>, segments: seq<Segment>)
      returns (errors: seq<CompletionError>)
      ensures errors == RelianceErrors(assumptions, segments)
    {
      errors := [];
      for i := 0 to |assumptions|
        invariant errors == RelianceErrors(assumptions[..i], segments)
      {
        FlatMapStep(assumptions, i, (a: Assumption) =>
          FlatMap(segments, (s: Segment) => Require(!Relies(s, a), ReliesOn(a.id))));
        var found := CollectRelianceOn(assumptions[i], segments);
        errors := errors + found;
      }
      assert assumptions[..|assumptions|] == assumptions;
    }

    method CollectRelianceOn(a: Assumption, segments: seq<Segment>) returns (errors: seq<CompletionError>)
      ensures errors == FlatMap(segments, (s: Segment) => Require(!Relies(s, a), ReliesOn(a.id)))
    {
      errors := [];
      if !a.status.Invalidated? || a.window.None? {
        FlatMapEmpty(segments, (s: Segment) => Require(!Relies(s, a), ReliesOn(a.id)));
        return;
      }
      for j := 0 to |segments|
        invariant errors == FlatMap(segments[..j], (s: Segment) => Require(!Relies(s, a), ReliesOn(a.id)))
      {
        FlatMapStep(segments, j, (s: Segment) => Require(!Relies(s, a), ReliesOn(a.id)));
        var s := segments[j];
        if s.source.ByCaregiver? && s.person == a.subject && Overlap(s.window, a.window.value) {
          errors := errors + [ReliesOn(a.id)];
        }
      }
      assert segments[..|segments|] == segments;
    }
  }

  lemma {:induction false} LastMatching(approvals: seq<Approval>, id: string)
    ensures var matching := Filter(approvals, (a: Approval) => a.id == id);
      LastApproval(approvals, id) == if matching == [] then None else Some(matching[|matching|-1])
    ensures LastApproval(approvals, id).Some? ==> LastApproval(approvals, id).value.id == id
  {
    if approvals != [] {
      LastMatching(approvals[..|approvals|-1], id);
    }
  }
}
