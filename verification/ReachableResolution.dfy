/** The protocol is not empty: a run in which a plan above the spending limit is stored, stopped by its
    gate, approved by the parent, executed and resolved. */
module ReachableResolution {
  import opened Prelude
  import opened Domain
  import opened PlanValidator
  import opened MatrixCompleteness
  import opened Cases
  import opened PlanInvalidation
  import opened Workflow
  import opened ExecutionHistory
  import opened StoredCases
  import opened RecoveryProtocol
  import opened CaseServices
  import opened RecoveryService
  import opened PaidDay

  function PaidPlan(): Plan {
    PlanOf([SitterFor(ALL_DAY)])
  }

  function PaidVerdict(): Verdict {
    Validation(DayWith(ALL_DAY), PaidPlan())
  }

  // ---------------------------------------------------------------- the stored versions

  function AlwaysSucceeds(): Action -> ActionStatus {
    (a: Action) => Succeeded
  }

  function First(): Case {
    Stored(StartedCase("case", "grandmother", DayWith(ALL_DAY), PaidVerdict().plan, None), 0)
  }

  function Checked(): Verdict {
    PaidVerdict().(plan := AcceptPlan(PaidVerdict().plan, "case", []))
  }

  function Request(): Approval {
    Approval("request", First().plan.value.id, SpendAboveLimit, Pending, PaidVerdict().cost)
  }

  function RequestEvent(): Event {
    Event(RequestOf("request"), ApprovalRequested("request", First().plan.value.id))
  }

  function Asked(): Case {
    Stored(First().(status := ApprovalRequired, plan := Some(Checked().plan), pending := Some(Request()),
                    approvals := [Request()],
                    events := First().events + [RequestEvent()]),
           1)
  }

  function Allowed(): Case {
    Performed(Asked(), Operation.DecideApproval("request", true))
  }

  function Executed(): Case {
    Performed(Allowed(), Execute(AlwaysSucceeds()))
  }

  function Finished(): Case {
    Performed(Executed(), VerifyAndResolve(DayWith(ALL_DAY)))
  }

  lemma FirstParts()
    ensures var accepted := Checked().plan;
      accepted == PaidVerdict().plan.(id := accepted.id, assumptions := accepted.assumptions)
      && First().plan.Some? && First().plan.value.id == accepted.id
      && First().plan.value == accepted.(assumptions := First().plan.value.assumptions)
    ensures First().pending.None? && First().approvals == [] && First().actions == [] && First().version == 1
    ensures First().assumptions == First().plan.value.assumptions
  {
    hide Validation, FreshSequence;
  }

  lemma GatePauses()
    ensures GateAttempt(First(), Checked(), LENIENT, "request").Some?
    ensures Asked() == Stored(GateAttempt(First(), Checked(), LENIENT, "request").value, 1)
  {
    SitterAllDay();
    FirstParts();
    hide Validation, AcceptPlan, MaterializeAssumptions, First;
    assert [] + [Request()] == [Request()];
  }

  /** What the parent's yes makes of the waiting case. */
  lemma DecisionAllows()
    ensures Attempt(Asked(), Operation.DecideApproval("request", true)).Some?
    ensures MayExecute(Allowed()) && Allowed().version == 3
    ensures Allowed().plan == Asked().plan && Allowed().assumptions == Asked().assumptions
    ensures Allowed().actions == Asked().actions
  {
    SitterAllDay();
    FirstParts();
    hide Validation, AcceptPlan, MaterializeAssumptions, First;
    assert [Request()][|[Request()]|-1] == Request();
    var next := Attempt(Asked(), Operation.DecideApproval("request", true)).value;
    assert next.approvals[0] == Request().(status := Approved);
  }

  lemma AssumptionsAreActive()
    ensures forall a :: a in First().assumptions ==> a.status.Active?
  {
    SitterAllDay();
    FirstParts();
    hide Validation, FreshSequence;
    var care := Filter(First().plan.value.segments, (s: Segment) => s.source.ByCaregiver?);
    FilterNothing(First().plan.value.assumptions, (a: Assumption) => !IsAvailability(a));
    assert First().assumptions == AvailabilityAssumptions(First().plan.value);
  }

  lemma AllowedKeepsThePlan()
    ensures Allowed().plan.Some? && Allowed().assumptions == First().assumptions && Allowed().actions == []
    ensures var plan := Allowed().plan.value;
      plan == PaidVerdict().plan.(id := plan.id, assumptions := plan.assumptions)
  {
    DecisionAllows();
    FirstParts();
    hide Validation, AcceptPlan, MaterializeAssumptions, Allowed;
  }

  lemma PaidPlanIsAccepted(plan: Plan)
    requires plan == PaidVerdict().plan.(id := plan.id, assumptions := plan.assumptions)
    ensures AcceptedIn(DayWith(ALL_DAY), plan)
  {
    SitterAllDay();
    hide Validation, DayWith, PlanOf, SitterFor;
    assert Validation(DayWith(ALL_DAY), PaidPlan()).valid;
  }

  lemma ActiveAssumptionsHold(c: Case)
    requires forall a :: a in c.assumptions ==> a.status.Active?
    ensures ReliesOnNothingInvalid(c)
  {
  }

  lemma AllowedIsReady()
    ensures Allowed().plan.Some? && AcceptedIn(DayWith(ALL_DAY), Allowed().plan.value)
    ensures ReliesOnNothingInvalid(Allowed())
  {
    AllowedKeepsThePlan();
    AssumptionsAreActive();
    hide First, Allowed, AcceptedIn, ReliesOnNothingInvalid, PaidVerdict, DayWith;
    ActiveAssumptionsHold(Allowed());
    PaidPlanIsAccepted(Allowed().plan.value);
  }

  /** An approved plan with something to do is executed by one save. */
  lemma RunsOnce(c: Case, adapter: Action -> ActionStatus)
    requires MayExecute(c) && !NothingLeft(c, RequiredActions(c.plan.value))
    ensures Attempt(c, Execute(adapter)).Some? && Performed(c, Execute(adapter)).version == c.version + 1
    ensures Performed(c, Execute(adapter)).plan == c.plan
  {
    hide MayExecute, RequiredActions, RunActions, NothingLeft;
  }

  lemma NothingDoneYet(c: Case)
    requires c.plan.Some? && c.actions == []
    ensures !NothingLeft(c, RequiredActions(c.plan.value))
  {
    hide RequiredActions;
    forall id ensures !HasSucceeded(c, id) {
    }
    var required := RequiredActions(c.plan.value);
    assert required != [] ==> required[0] in required;
  }

  lemma VerifiesWhenResolved(ran: Case, sc: Scenario)
    requires Performed(ran, VerifyAndResolve(sc)).status.Resolved? && !ran.status.Resolved?
    ensures Attempt(ran, VerifyAndResolve(sc)).Some? && Performed(ran, VerifyAndResolve(sc)).plan == ran.plan
  {
    hide CompletionErrors;
  }

  lemma RunsThroughFrom(c: Case, sc: Scenario)
    requires MayExecute(c) && c.actions == [] && AcceptedIn(sc, c.plan.value) && ReliesOnNothingInvalid(c)
    ensures Attempt(c, Execute(AlwaysSucceeds())).Some?
    ensures var ran := Performed(c, Execute(AlwaysSucceeds()));
      && ran.plan == c.plan && Attempt(ran, VerifyAndResolve(sc)).Some?
      && Performed(ran, VerifyAndResolve(sc)).status.Resolved? && Performed(ran, VerifyAndResolve(sc)).plan == c.plan
  {
    NothingDoneYet(c);
    hide MayExecute, RequiredActions, AcceptedIn, ReliesOnNothingInvalid, CompletionErrors, ExecutionUpdate,
         NothingLeft;
    RunsOnce(c, AlwaysSucceeds());
    RunSucceeds(c, AlwaysSucceeds());
    UninterruptedRunResolves(c, sc, AlwaysSucceeds());
    hide AfterExecution, WouldSucceed, AlwaysSucceeds;
    VerifiesWhenResolved(Performed(c, Execute(AlwaysSucceeds())), sc);
  }

  lemma RunsThrough()
    ensures Attempt(Allowed(), Execute(AlwaysSucceeds())).Some?
    ensures Attempt(Executed(), VerifyAndResolve(DayWith(ALL_DAY))).Some? && Finished().status.Resolved?
    ensures Finished().plan == Allowed().plan
  {
    DecisionAllows();
    AllowedIsReady();
    AllowedKeepsThePlan();
    hide Allowed, MayExecute, AcceptedIn, ReliesOnNothingInvalid, Attempt, Performed, DayWith;
    RunsThroughFrom(Allowed(), DayWith(ALL_DAY));
  }

  // ---------------------------------------------------------------- the run

  function Quiet(log: seq<Case>): System {
    System(log, map[0 := Idle])
  }

  function Reading(log: seq<Case>): System
    requires log != []
  {
    System(log, map[0 := Holding(log[|log|-1])])
  }

  /** A read followed by a save that lands. */
  lemma ReadAndSave(log: seq<Case>, op: Operation)
    requires log != [] && Attempt(log[|log|-1], op).Some? && !op.AcceptReplan?
    ensures Moves(Quiet(log), Reading(log), "case")
    ensures Moves(Reading(log), Quiet(log + [Performed(log[|log|-1], op)]), "case")
  {
    hide Attempt;
    assert Quiet(log).clients[0 := Holding(Current(Quiet(log)))] == Reading(log).clients;
    assert Next(Quiet(log), Reading(log), "case", 0, Read);
    var after := Quiet(log + [Performed(log[|log|-1], op)]);
    assert Reading(log).clients[0 := Idle] == after.clients;
    assert Next(Reading(log), after, "case", 0, Save(op));
  }

  function Empty(): System {
    System([], map[])
  }

  function Started(): System {
    System([First()], map[0 := BeforeGate(First(), Checked())])
  }

  lemma StartMoves(v: Verdict, sc: Scenario, researched: Option<Candidate>, saved: Case, checked: Verdict)
    requires FromValidator(v) && v.valid
    requires saved == Stored(StartedCase("case", "grandmother", sc, v.plan, researched), 0)
    requires checked == v.(plan := AcceptPlan(v.plan, "case", []))
    ensures Moves(Empty(), System([saved], map[0 := BeforeGate(saved, checked)]), "case")
  {
    hide StartedCase, AcceptPlan, FromValidator;
    assert Empty().clients[0 := BeforeGate(saved, checked)] == map[0 := BeforeGate(saved, checked)];
    assert Next(Empty(), System([saved], map[0 := BeforeGate(saved, checked)]), "case", 0,
                StartPlanned("grandmother", sc, v, researched));
  }

  lemma GateMoves(log: seq<Case>, saved: Case, checked: Verdict, policy: Policy, newId: string, next: Case)
    requires log != [] && saved == log[|log|-1] && FreshApprovalId(saved, newId)
    requires GateAttempt(saved, checked, policy, newId) == Some(next)
    ensures Moves(System(log, map[0 := BeforeGate(saved, checked)]), Quiet(log + [Stored(next, saved.version)]), "case")
  {
    hide GateAttempt, FreshApprovalId;
    var s := System(log, map[0 := BeforeGate(saved, checked)]);
    assert s.clients[0 := Idle] == Quiet(log + [Stored(next, saved.version)]).clients;
    assert Next(s, Quiet(log + [Stored(next, saved.version)]), "case", 0, RunGate(policy, newId));
  }

  lemma Starts()
    ensures Moves(Empty(), Started(), "case")
  {
    SitterAllDay();
    ValidationIsFromValidator(DayWith(ALL_DAY), PaidPlan());
    hide Validation, StartedCase, AcceptPlan, FromValidator, Moves, DayWith, PlanOf, SitterFor;
    StartMoves(PaidVerdict(), DayWith(ALL_DAY), None, First(), Checked());
  }

  /** What the gate makes of a case just started is sound. */
  lemma GatedStartIsSound(v: Verdict, sc: Scenario, researched: Option<Candidate>, saved: Case, checked: Verdict,
                          policy: Policy, newId: string, next: Case)
    requires FromValidator(v) && v.valid
    requires saved == Stored(StartedCase("case", "grandmother", sc, v.plan, researched), 0)
    requires checked == v.(plan := AcceptPlan(v.plan, "case", []))
    requires GateAttempt(saved, checked, policy, newId) == Some(next) && FreshApprovalId(saved, newId)
    ensures Sound(Stored(next, 1)) && GateReady(saved, checked)
  {
    hide StartedCase, AcceptPlan, FromValidator, Sound, GateReady, GateAttempt, FreshApprovalId;
    StartedCaseIsSound("case", "grandmother", sc, v, researched);
    var c := StartedCase("case", "grandmother", sc, v.plan, researched);
    VersionDoesNotMatter(c, 1);
    assert saved == c.(version := 1);
    GateKeepsSound(saved, checked, policy, newId, next);
    VersionDoesNotMatter(next, 2);
  }

  lemma Gates()
    ensures Moves(Started(), Quiet([First()] + [Asked()]), "case")
  {
    FirstParts();
    GatePauses();
    hide First, Asked, Checked, GateAttempt, Moves;
    GateMoves([First()], First(), Checked(), LENIENT, "request",
              GateAttempt(First(), Checked(), LENIENT, "request").value);
  }

  /** A resolved case whose plan needed approval holds a succeeded action of that plan for a caregiver. */
  lemma ResolvedPlanRan(c: Case) returns (a: Action)
    requires Sound(c) && c.status.Resolved? && c.plan.value.reasons != []
    ensures a in c.actions && a.status.Succeeded? && a.planId == c.plan.value.id && a.id.CaregiverAction?
    ensures ApprovedFor(c, c.plan.value.id)
  {
    hide PlansTellApart, RequiredActions, HasSucceeded, ReliesOnNothingInvalid;
    var plan := c.plan.value;
    RequiredBelong(plan);
    var s :| s in plan.segments && s.source.ByCaregiver?;
    a :| a in RequiredActions(plan) && a.id == CaregiverAction(plan.id, s.id);
    LookMeaning(c.actions, a.id);
    HistoryIsTheLookup(c, a.id);
    a := Look(c.actions, a.id).value;
  }

  function TheRun(): seq<System> {
    var log := [First()] + [Asked()];
    [Empty(), Started(), Quiet(log), Reading(log), Quiet(log + [Allowed()]), Reading(log + [Allowed()]),
     Quiet(log + [Allowed()] + [Executed()]), Reading(log + [Allowed()] + [Executed()]),
     Quiet(log + [Allowed()] + [Executed()] + [Finished()])]
  }

  lemma TheRunIsARun()
    ensures Run(TheRun(), "case")
  {
    Starts();
    Gates();
    DecisionAllows();
    RunsThrough();
    hide Attempt, Moves, First, Performed, Checked, AlwaysSucceeds, DayWith, MayExecute, Asked;
    var log := [First()] + [Asked()];
    assert Allowed() == Performed(Asked(), Operation.DecideApproval("request", true));
    assert Executed() == Performed(Allowed(), Execute(AlwaysSucceeds()));
    assert Finished() == Performed(Executed(), VerifyAndResolve(DayWith(ALL_DAY)));
    hide Allowed, Executed, Finished;
    ReadAndSave(log, Operation.DecideApproval("request", true));
    ReadAndSave(log + [Allowed()], Execute(AlwaysSucceeds()));
    ReadAndSave(log + [Allowed()] + [Executed()], VerifyAndResolve(DayWith(ALL_DAY)));
    hide Quiet, Reading, Started;
  }

  lemma FinishedIsSound()
    ensures Sound(Finished())
  {
    TheRunIsARun();
    hide Run, Sound, First, Asked, Allowed, Executed, Finished, Started;
    RunKeepsInv(TheRun(), "case", 8);
    assert TheRun()[8].log[4] == Finished();
  }

  /** Some run of the protocol pauses a paid plan, has it approved, executes its caregiver's action and
      ends with the case resolved. */
  lemma SomeRunResolves() returns (run: seq<System>, a: Action)
    ensures Run(run, "case") && run[|run|-1].log != []
    ensures exists i :: 0 <= i < |run| && run[i].log != [] && Current(run[i]).status.ApprovalRequired?
    ensures var c := Current(run[|run|-1]);
      && c.status.Resolved? && c.plan.Some? && c.plan.value.reasons != [] && ApprovedFor(c, c.plan.value.id)
      && a in c.actions && a.status.Succeeded? && a.planId == c.plan.value.id && a.id.CaregiverAction?
  {
    TheRunIsARun();
    FinishedIsSound();
    DecisionAllows();
    RunsThrough();
    PlanNeedsApproval();
    hide Run, Sound, First, Asked, Allowed, Executed, Finished, Started, Attempt, MayExecute;
    run := TheRun();
    assert Current(run[2]) == Asked();
    assert Current(run[8]) == Finished();
    a := ResolvedPlanRan(Finished());
  }

  lemma PlanNeedsApproval()
    ensures Asked().status.ApprovalRequired? && Asked().plan.Some? && Asked().plan.value.reasons != []
  {
    SitterAllDay();
    FirstParts();
    hide Validation, AcceptPlan, First;
  }
}
