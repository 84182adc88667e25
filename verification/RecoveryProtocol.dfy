/** Any number of clients over one compare-and-swap store. A client reads a snapshot, and later tries
    to save what it computed from it; every request is a series of such steps, and the steps of
    different requests interleave in any way. A new plan is stored, ready to execute, one save before
    its autonomy gate runs. */
module RecoveryProtocol {
  import opened Prelude
  import opened Intervals
  import opened Domain
  import opened ValidationRules
  import opened PlanValidator
  import opened Cases
  import opened PlanInvalidation
  import opened Workflow
  import opened ExecutionHistory
  import opened StoredCases

  datatype Client =
    | Idle
    | Holding(snapshot: Case)
    | BeforeGate(saved: Case, verdict: Verdict)

  /** Every version the store ever held of one case, and what each client holds. */
  datatype System = System(log: seq<Case>, clients: map<nat, Client>)

  function Stored(c: Case, version: nat): Case {
    c.(version := version + 1)
  }

  function Current(s: System): Case
    requires s.log != []
  {
    s.log[|s.log|-1]
  }

  function ClientOf(s: System, k: nat): Client {
    if k in s.clients then s.clients[k] else Idle
  }

  datatype Step =
    | StartPlanned(caregiver: string, sc: Scenario, verdict: Verdict, researched: Option<Candidate>)
    | StartUnplanned(caregiver: string, sc: Scenario, uncovered: seq<Window>)
    | Read
    | Save(op: Operation)
    | RunGate(policy: Policy, newId: string)
    | GiveUp

  predicate Unchanged(s: System, s': System, k: nat) {
    s' == s.(clients := s.clients[k := Idle])
  }

  /** Compare-and-swap: the save lands only on the very version the snapshot was read at. */
  predicate Swap(s: System, s': System, k: nat, snapshot: Case, next: Case, afterwards: Client) {
    if s.log != [] && Current(s).version == snapshot.version then
      s' == System(s.log + [Stored(next, snapshot.version)], s.clients[k := afterwards])
    else Unchanged(s, s', k)
  }

  ghost predicate Next(s: System, s': System, caseId: string, k: nat, step: Step) {
    match step
    case StartPlanned(caregiver, sc, v, researched) =>
      FromValidator(v) && v.valid && s.log == [] &&
      var saved := Stored(StartedCase(caseId, caregiver, sc, v.plan, researched), 0);
      s' == System([saved], s.clients[k := BeforeGate(saved, v.(plan := AcceptPlan(v.plan, caseId, [])))])
    case StartUnplanned(caregiver, sc, uncovered) =>
      s.log == [] && s' == System([Stored(UnplannedCase(caseId, caregiver, sc, uncovered), 0)], s.clients)
    case Read =>
      s.log != [] && s' == s.(clients := s.clients[k := Holding(Current(s))])
    case Save(op) =>
      var client := ClientOf(s, k);
      client.Holding? && Vetted(op) &&
      (match Attempt(client.snapshot, op)
       case None => Unchanged(s, s', k)
       case Some(next) => Swap(s, s', k, client.snapshot, next, Afterwards(client.snapshot, op, next)))
    case RunGate(policy, newId) =>
      var client := ClientOf(s, k);
      client.BeforeGate? && FreshApprovalId(client.saved, newId) &&
      (match GateAttempt(client.saved, client.verdict, policy, newId)
       case None => Unchanged(s, s', k)
       case Some(next) => Swap(s, s', k, client.saved, next, Idle))
    case GiveUp => Unchanged(s, s', k)
  }

  /** Only the client whose own replan was accepted goes on to run the gate, on what it saved. */
  function Afterwards(snapshot: Case, op: Operation, next: Case): Client {
    if op.AcceptReplan? && next.plan.Some? then
      BeforeGate(Stored(next, snapshot.version), op.verdict.(plan := next.plan.value))
    else Idle
  }

  ghost predicate Init(s: System) {
    s.log == [] && forall k :: ClientOf(s, k).Idle?
  }

  ghost predicate Moves(s: System, s': System, caseId: string) {
    exists k, step :: Next(s, s', caseId, k, step)
  }

  ghost predicate Run(run: seq<System>, caseId: string) {
    run != [] && Init(run[0]) && forall i :: 0 <= i < |run| - 1 ==> Moves(run[i], run[i+1], caseId)
  }

  // ---------------------------------------------------------------- the invariant

  ghost predicate ByOperation(a: Case, b: Case) {
    exists op :: Vetted(op) && Attempt(a, op).Some? && b == Stored(Attempt(a, op).value, a.version)
  }

  ghost predicate ByGate(a: Case, b: Case) {
    exists v, policy, newId :: GateReady(a, v) && FreshApprovalId(a, newId)
      && GateAttempt(a, v, policy, newId).Some? && b == Stored(GateAttempt(a, v, policy, newId).value, a.version)
  }

  /** b is one workflow step computed from exactly a, and nothing in between. */
  ghost predicate Derived(a: Case, b: Case) {
    ByOperation(a, b) || ByGate(a, b)
  }

  ghost predicate LogSound(log: seq<Case>, caseId: string) {
    && (forall i :: 0 <= i < |log| ==> log[i].version == i + 1 && log[i].id == caseId && Sound(log[i]))
    && (forall i :: 0 <= i < |log| - 1 ==> Derived(log[i], log[i+1]))
  }

  /** A snapshot is the stored version it claims to be, however stale. */
  predicate FromLog(log: seq<Case>, c: Case) {
    1 <= c.version <= |log| && log[c.version - 1] == c
  }

  ghost predicate ClientSound(log: seq<Case>, client: Client) {
    match client
    case Idle => true
    case Holding(snapshot) => FromLog(log, snapshot)
    case BeforeGate(saved, verdict) => FromLog(log, saved) && GateReady(saved, verdict)
  }

  ghost predicate Inv(s: System, caseId: string) {
    LogSound(s.log, caseId) && forall k :: ClientSound(s.log, ClientOf(s, k))
  }

  lemma VersionDoesNotMatter(c: Case, version: nat)
    ensures Sound(c) <==> Sound(c.(version := version))
    ensures forall a :: Continues(a, c) <==> Continues(a, c.(version := version))
    ensures forall v :: GateReady(c, v) <==> GateReady(c.(version := version), v)
  {
  }

  lemma DerivedKeepsSound(a: Case, b: Case)
    requires Sound(a) && Derived(a, b)
    ensures Sound(b) && Continues(a, b) && b.version == a.version + 1
  {
    hide Sound, Continues, GateReady, Attempt, GateAttempt, Vetted, FreshApprovalId;
    if ByOperation(a, b) {
      var op :| Vetted(op) && Attempt(a, op).Some? && b == Stored(Attempt(a, op).value, a.version);
      OperationKeepsSound(a, op, Attempt(a, op).value);
      VersionDoesNotMatter(Attempt(a, op).value, a.version + 1);
    } else {
      var v, policy, newId :| GateReady(a, v) && FreshApprovalId(a, newId)
        && GateAttempt(a, v, policy, newId).Some? && b == Stored(GateAttempt(a, v, policy, newId).value, a.version);
      GateKeepsSound(a, v, policy, newId, GateAttempt(a, v, policy, newId).value);
      VersionDoesNotMatter(GateAttempt(a, v, policy, newId).value, a.version + 1);
    }
  }

  lemma LongerLog(log: seq<Case>, next: Case, client: Client)
    requires ClientSound(log, client)
    ensures ClientSound(log + [next], client)
  {
    hide GateReady;
  }

  lemma AppendSound(log: seq<Case>, caseId: string, next: Case)
    requires LogSound(log, caseId) && next.version == |log| + 1 && next.id == caseId && Sound(next)
    requires log != [] ==> Derived(log[|log|-1], next)
    ensures LogSound(log + [next], caseId) && FromLog(log + [next], next)
  {
    hide Sound, Derived;
  }

  /** The clients stay sound when one of them is replaced by a sound one and the log only grows. */
  lemma OthersStaySound(s: System, s': System, caseId: string, k: nat)
    requires Inv(s, caseId) && LogSound(s'.log, caseId)
    requires s'.log == s.log || exists next :: s'.log == s.log + [next]
    requires forall j :: j != k ==> ClientOf(s', j) == ClientOf(s, j)
    requires ClientSound(s'.log, ClientOf(s', k))
    ensures Inv(s', caseId)
  {
    hide LogSound, ClientSound;
    forall j | j != k ensures ClientSound(s'.log, ClientOf(s', j)) {
      if s'.log != s.log {
        var next :| s'.log == s.log + [next];
        LongerLog(s.log, next, ClientOf(s, j));
      }
    }
  }

  /** A save that lands was computed from the current version: no update is ever lost. */
  lemma SwapKeepsInv(s: System, s': System, caseId: string, k: nat, snapshot: Case, next: Case, afterwards: Client)
    requires Inv(s, caseId) && FromLog(s.log, snapshot)
    requires Swap(s, s', k, snapshot, next, afterwards)
    requires Sound(snapshot) && Derived(snapshot, Stored(next, snapshot.version))
    requires afterwards.Idle? ||
      (afterwards.BeforeGate? && afterwards.saved == Stored(next, snapshot.version)
       && GateReady(afterwards.saved, afterwards.verdict))
    ensures Inv(s', caseId)
  {
    hide Sound, Derived, GateReady;
    if Current(s).version == snapshot.version {
      var stored := Stored(next, snapshot.version);
      DerivedKeepsSound(snapshot, stored);
      assert snapshot == s.log[|s.log|-1];
      AppendSound(s.log, caseId, stored);
      assert s'.log == s.log + [stored];
    }
    OthersStaySound(s, s', caseId, k);
  }

  lemma StartKeepsInv(s: System, s': System, caseId: string, k: nat, step: Step)
    requires Inv(s, caseId) && Next(s, s', caseId, k, step) && (step.StartPlanned? || step.StartUnplanned?)
    ensures Inv(s', caseId)
  {
    hide Sound, Derived, GateReady, FromValidator, AcceptPlan, FreshSequence, MaterializeAssumptions;
    match step {
      case StartPlanned(caregiver, sc, v, researched) =>
        var c := StartedCase(caseId, caregiver, sc, v.plan, researched);
        StartedCaseIsSound(caseId, caregiver, sc, v, researched);
        VersionDoesNotMatter(c, 1);
        AppendSound(s.log, caseId, Stored(c, 0));
        assert s'.log == s.log + [Stored(c, 0)];
      case StartUnplanned(caregiver, sc, uncovered) =>
        var c := UnplannedCase(caseId, caregiver, sc, uncovered);
        UnplannedCaseIsSound(caseId, caregiver, sc, uncovered);
        VersionDoesNotMatter(c, 1);
        AppendSound(s.log, caseId, Stored(c, 0));
        assert s'.log == s.log + [Stored(c, 0)];
        assert ClientSound(s.log, ClientOf(s, k));
    }
    OthersStaySound(s, s', caseId, k);
  }

  lemma StepKeepsInv(s: System, s': System, caseId: string, k: nat, step: Step)
    requires Inv(s, caseId) && Next(s, s', caseId, k, step)
    ensures Inv(s', caseId)
  {
    hide Sound, GateReady, Attempt, GateAttempt, FromValidator, Vetted, Swap, LogSound;
    var client := ClientOf(s, k);
    assert ClientSound(s.log, client);
    if step.StartPlanned? || step.StartUnplanned? {
      StartKeepsInv(s, s', caseId, k, step);
    } else if step.Save? && Attempt(client.snapshot, step.op).Some? {
      var next := Attempt(client.snapshot, step.op).value;
      SnapshotSound(s, caseId, client.snapshot);
      OperationKeepsSound(client.snapshot, step.op, next);
      VersionDoesNotMatter(next, client.snapshot.version + 1);
      assert ByOperation(client.snapshot, Stored(next, client.snapshot.version));
      SwapKeepsInv(s, s', caseId, k, client.snapshot, next, Afterwards(client.snapshot, step.op, next));
    } else if step.RunGate? && GateAttempt(client.saved, client.verdict, step.policy, step.newId).Some? {
      var next := GateAttempt(client.saved, client.verdict, step.policy, step.newId).value;
      SnapshotSound(s, caseId, client.saved);
      assert ByGate(client.saved, Stored(next, client.saved.version));
      SwapKeepsInv(s, s', caseId, k, client.saved, next, Idle);
    } else {
      if step.Read? {
        CurrentIsFromLog(s, caseId);
      }
      OthersStaySound(s, s', caseId, k);
    }
  }

  lemma CurrentIsFromLog(s: System, caseId: string)
    requires LogSound(s.log, caseId) && s.log != []
    ensures FromLog(s.log, Current(s))
  {
    hide Sound, Derived;
  }

  lemma NothingHappenedYet(s: System, caseId: string)
    requires Init(s)
    ensures Inv(s, caseId)
  {
  }

  lemma SnapshotSound(s: System, caseId: string, c: Case)
    requires Inv(s, caseId) && FromLog(s.log, c)
    ensures Sound(c)
  {
  }

  lemma {:induction false} RunKeepsInv(run: seq<System>, caseId: string, i: nat)
    requires Run(run, caseId) && i < |run|
    ensures Inv(run[i], caseId)
  {
    hide Next, Inv;
    if i == 0 {
      NothingHappenedYet(run[0], caseId);
    } else {
      RunKeepsInv(run, caseId, i - 1);
      assert Moves(run[i-1], run[i-1+1], caseId);
      var k, step :| Next(run[i-1], run[i], caseId, k, step);
      StepKeepsInv(run[i-1], run[i], caseId, k, step);
    }
  }

  // ---------------------------------------------------------------- safety over every run

  /** The parent approved the plan with this id. */
  ghost predicate WasApproved(c: Case, planId: PlanId) {
    exists a :: a in c.approvals && a.status == Approved && a.planId == planId
  }

  /** The action with this id, for this target, is stored as succeeded. */
  ghost predicate WasDone(c: Case, id: ActionId, target: string) {
    exists a :: a in c.actions && a.id == id && a.target == target && a.status == Succeeded
  }

  /** In every stored state of every run, an action that succeeded belongs to a plan of the case that
      required it, and if that plan has approval reasons then that very plan has been approved. */
  lemma AuthorisedExecution(run: seq<System>, caseId: string, i: nat, c: Case, a: Action)
    requires Run(run, caseId) && i < |run| && c in run[i].log && a in c.actions && a.status.Succeeded?
    ensures exists p :: p in KnownPlans(c) && p.id == a.planId && IsActionOf(p, a)
    ensures forall p :: p in KnownPlans(c) && p.id == a.planId && p.reasons != [] ==> WasApproved(c, p.id)
  {
    RunKeepsInv(run, caseId, i);
    assert Sound(c);
    var p :| p in KnownPlans(c) && IsActionOf(p, a);
    RequiredBelong(p);
    forall q | q in KnownPlans(c) && q.id == a.planId && q.reasons != [] ensures WasApproved(c, q.id) {
      assert ApprovedFor(c, q.id);
    }
  }

  /** What it takes to be resolved, in every stored state of every run: a valid plan, nothing pending, the
      approval of that plan if it had reasons for one, a succeeded action for every calendar change and every
      caregiver's segment, and no caregiver used at an instant they are known to have declined. */
  lemma ResolvedMeansComplete(run: seq<System>, caseId: string, i: nat, c: Case)
    requires Run(run, caseId) && i < |run| && c in run[i].log && c.status.Resolved?
    ensures c.plan.Some? && c.plan.value.state.Valid? && c.pending.None?
    ensures c.plan.value.reasons != [] ==> WasApproved(c, c.plan.value.id)
    ensures forall e :: e in c.plan.value.changes ==> WasDone(c, CalendarAction(c.plan.value.id, e.id), e.id)
    ensures forall s :: s in c.plan.value.segments && s.source == ByCaregiver ==>
      WasDone(c, CaregiverAction(c.plan.value.id, s.id), s.person)
    ensures NoTimeIsLost(c)
  {
    RunKeepsInv(run, caseId, i);
    assert Sound(c);
    ResolvedIsComplete(c);
  }

  lemma ResolvedIsComplete(c: Case)
    requires Sound(c) && c.status.Resolved?
    ensures c.plan.Some? && c.plan.value.state.Valid? && c.pending.None?
    ensures c.plan.value.reasons != [] ==> WasApproved(c, c.plan.value.id)
    ensures forall e :: e in c.plan.value.changes ==> WasDone(c, CalendarAction(c.plan.value.id, e.id), e.id)
    ensures forall s :: s in c.plan.value.segments && s.source == ByCaregiver ==>
      WasDone(c, CaregiverAction(c.plan.value.id, s.id), s.person)
    ensures NoTimeIsLost(c)
  {
    var plan := c.plan.value;
    SoundParts(c);
    ReliesMeansLostTime(c);
    ActionsOfAPlan(plan);
    if plan.reasons != [] {
      assert ApprovedFor(c, plan.id);
    }
    hide RequiredActions, HasSucceeded, Sound, PlansTellApart, WorkBelongs, NoTimeIsLost, KnownPlans;
    forall e | e in plan.changes ensures WasDone(c, CalendarAction(plan.id, e.id), e.id) {
      var k :| 0 <= k < |plan.changes| && plan.changes[k] == e;
      var a := ActionForChange(plan, e);
      assert a == RequiredActions(plan)[k] && a in RequiredActions(plan);
      RequiredWasDone(c, a);
    }
    forall s | s in plan.segments && s.source == ByCaregiver
      ensures WasDone(c, CaregiverAction(plan.id, s.id), s.person)
    {
      RequiredWasDone(c, ActionForCaregiver(plan, s));
    }
  }

  lemma RequiredWasDone(c: Case, r: Action)
    requires PlansTellApart(c) && WorkBelongs(c) && c.plan.Some? && c.plan.value.state.Valid?
    requires r in RequiredActions(c.plan.value) && HasSucceeded(c, r.id)
    ensures WasDone(c, r.id, r.target)
  {
    var plan := c.plan.value;
    LookMeaning(c.actions, r.id);
    HistoryIsTheLookup(c, r.id);
    var a := Look(c.actions, r.id).value;
    hide RequiredActions, HasSucceeded, Look, PlansTellApart;
    var p :| p in KnownPlans(c) && IsActionOf(p, a);
    RequiredBelong(p);
    RequiredBelong(plan);
    SameIdSamePlan(c, p);
    var q :| q in RequiredActions(plan) && a == q.(status := a.status);
    OneActionPerId(plan, q, r);
  }

  /** With distinct segment ids, an action id decides whom or what the action is for. */
  lemma OneActionPerId(plan: Plan, a: Action, b: Action)
    requires DistinctIds(plan.segments) && a in RequiredActions(plan) && b in RequiredActions(plan) && a.id == b.id
    ensures a == b
  {
    ActionsOfAPlan(plan);
    hide RequiredActions;
  }

  /** Versions count the stored states, and each was computed from the one right before it. */
  lemma NoLostUpdate(run: seq<System>, caseId: string, i: nat, j: nat)
    requires Run(run, caseId) && i < |run| && j < |run[i].log|
    ensures run[i].log[j].version == j + 1
    ensures j > 0 ==> Derived(run[i].log[j-1], run[i].log[j])
  {
    RunKeepsInv(run, caseId, i);
    hide Derived, Sound;
    if j > 0 { assert Derived(run[i].log[j-1], run[i].log[j-1+1]); }
  }

  lemma {:induction false} StoredStatesStay(run: seq<System>, caseId: string, i: nat, j: nat)
    requires Run(run, caseId) && i <= j < |run|
    ensures run[i].log <= run[j].log
    decreases j - i
  {
    hide Attempt, GateAttempt, FromValidator, Vetted, FreshApprovalId, StartedCase, UnplannedCase, AcceptPlan;
    if i < j {
      StoredStatesStay(run, caseId, i, j - 1);
      assert Moves(run[j-1], run[j-1+1], caseId);
    }
  }

  predicate History(a: Case, b: Case) {
    && a.events <= b.events && a.previous <= b.previous
    && ApprovalsKept(a.approvals, b.approvals) && SuccessesKept(a.actions, b.actions)
    && (a.plan.Some? <==> b.plan.Some?)
    && (a.plan.Some? ==> if a.plan.value.id == b.plan.value.id then SamePlan(a.plan.value, b.plan.value)
                         else a.plan.value.id in PlanIds(b.previous))
  }

  lemma OneStepOfHistory(a: Case, b: Case, c: Case)
    requires Sound(a) && Sound(b) && Sound(c) && History(a, b) && Continues(b, c)
    ensures History(a, c)
  {
    forall i | 0 <= i < |a.approvals| ensures ApprovalKept(a.approvals[i], c.approvals[i]) {
      assert ApprovalKept(a.approvals[i], b.approvals[i]) && ApprovalKept(b.approvals[i], c.approvals[i]);
    }
    hide ApprovalKept, ActionsBelong, ApprovalsBelong, Authorised, ReasonsNameCare, Complete;
    forall p | p in b.previous ensures p in c.previous {}
  }

  lemma {:induction false} HistoryGrows(log: seq<Case>, caseId: string, j: nat, l: nat)
    requires LogSound(log, caseId) && j <= l < |log|
    ensures History(log[j], log[l])
    decreases l
  {
    hide Sound, Derived, Continues;
    if j == l {
    } else {
      HistoryGrows(log, caseId, j, l - 1);
      hide History;
      assert Derived(log[l-1], log[l-1+1]);
      DerivedKeepsSound(log[l-1], log[l]);
      OneStepOfHistory(log[j], log[l-1], log[l]);
    }
  }

  /** Nothing recorded is ever lost: later stored states extend the events and the previous plans,
      keep every approval but to decide a pending one, keep every succeeded action as it is, and a
      plan id names one plan for good. */
  lemma DurableHistory(run: seq<System>, caseId: string, i: nat, j: nat, l: nat)
    requires Run(run, caseId) && i < |run| && j <= l < |run[i].log|
    ensures History(run[i].log[j], run[i].log[l])
    ensures DistinctActions(run[i].log[l].actions)
  {
    hide Sound, History, Derived;
    RunKeepsInv(run, caseId, i);
    HistoryGrows(run[i].log, caseId, j, l);
    SoundParts(run[i].log[l]);
  }

  /** Once an action is stored as succeeded, no later read runs it again: what a later execution
      saves does not depend on the adapter's answer for it. */
  lemma SucceededForGood(run: seq<System>, caseId: string, i: nat, j: nat, l: nat, a: Action,
                         f: Action -> ActionStatus, g: Action -> ActionStatus)
    requires Run(run, caseId) && i < |run| && j <= l < |run[i].log|
    requires a in run[i].log[j].actions && a.status.Succeeded?
    requires forall b: Action :: b.id != a.id ==> f(b) == g(b)
    ensures a in run[i].log[l].actions && HasSucceeded(run[i].log[l], a.id)
    ensures ExecutionUpdate(run[i].log[l], f) == ExecutionUpdate(run[i].log[l], g)
  {
    hide Run, ExecutionUpdate, HasSucceeded;
    DurableHistory(run, caseId, i, j, l);
    var later := run[i].log[l];
    LookMeaning(later.actions, a.id);
    HistoryIsTheLookup(later, a.id);
    SucceededActionIsNotRunAgain(later, f, g);
  }

  /** A plan id that appears is one the case never had: no action and no approval names it yet. */
  lemma AcceptedPlanIsNew(run: seq<System>, caseId: string, i: nat, j: nat, l: nat)
    requires Run(run, caseId) && i < |run| && j < l < |run[i].log|
    requires run[i].log[l-1].plan.Some? && run[i].log[l].plan.Some?
    requires run[i].log[l-1].plan.value.id != run[i].log[l].plan.value.id
    ensures var earlier, id := run[i].log[j], run[i].log[l].plan.value.id;
      && id !in PlanIds(KnownPlans(earlier))
      && (forall a :: a in earlier.actions ==> a.planId != id)
      && (forall a :: a in earlier.approvals ==> a.planId != id)
  {
    hide Run, Derived, Attempt, Sound, History, Continues;
    RunKeepsInv(run, caseId, i);
    var log := run[i].log;
    HistoryGrows(log, caseId, j, l - 1);
    assert Derived(log[l-1], log[l-1+1]);
    DerivedKeepsSound(log[l-1], log[l]);
    NewIdIsUnknown(log[j], log[l-1], log[l]);
  }

  lemma NewIdIsUnknown(earlier: Case, before: Case, after: Case)
    requires Sound(earlier) && Sound(before) && Sound(after) && History(earlier, before) && Continues(before, after)
    requires before.plan.Some? && after.plan.Some? && before.plan.value.id != after.plan.value.id
    ensures var id := after.plan.value.id;
      && id !in PlanIds(KnownPlans(earlier))
      && (forall a :: a in earlier.actions ==> a.planId != id)
      && (forall a :: a in earlier.approvals ==> a.planId != id)
  {
    hide Authorised, ReasonsNameCare, Complete, ApprovalsKept;
    assert before.plan.value.id in PlanIds(after.previous);
    forall p | p in before.previous ensures p in after.previous {}
    forall p | p in KnownPlans(earlier) ensures p.id in PlanIds(after.previous) {
      assert p in earlier.previous || p == earlier.plan.value;
    }
  }

  /** In the window between storing a replan and running its gate, the case says it may execute but
      no execution gets through while the new plan still needs its approval. */
  lemma NothingRunsBeforeTheGate(c: Case, op: Operation, next: Case, adapter: Action -> ActionStatus)
    requires Sound(c) && Vetted(op) && op.AcceptReplan? && Attempt(c, op) == Some(next) && op.verdict.requiresApproval
    ensures next.status.Executing? && next.plan.Some? && next.plan.value.reasons != []
    ensures Attempt(next, Execute(adapter)).None?
  {
    hide Sound, DeclineOutcome, AcceptedCase, RepairValidation, ExecutionUpdate;
    var o := DeclineOutcome(c, op.sc, op.d).value;
    DeclineParts(c, op.sc, op.d, o);
    AcceptedPlanIsFresh(c, o, op.verdict, op.researched);
    VerdictMeaning(op.verdict);
    DeclineKeepsSound(c, op, next);
    assert next.approvals == c.approvals;
    SoundParts(c);
    assert !ApprovedFor(next, next.plan.value.id);
    ExecutionNeedsApproval(next, adapter);
  }

  lemma ExecutionNeedsApproval(c: Case, adapter: Action -> ActionStatus)
    requires c.plan.Some? && c.plan.value.reasons != [] && !ApprovedFor(c, c.plan.value.id)
    ensures ExecutionUpdate(c, adapter).ExecutionRefused?
  {
  }
}
