/** When does a repaired plan, once authorised and run without interruption, complete the case? */
module RepairCompletion {
  import opened Prelude
  import opened Intervals
  import opened Domain
  import opened PlanValidator
  import opened Cases
  import opened PlanInvalidation
  import opened Replay
  import opened Workflow
  import opened ExecutionHistory
  import opened StoredCases
  import opened RecoveryProtocol
  import opened RecoveryService

  /** Only what gates, decisions and executions record: no further decline. */
  predicate NoDecline(events: seq<Event>) {
    forall e :: e in events ==> !e.kind.CaregiverDeclined?
  }

  lemma {:induction false} ReplaySkipsOtherEvents(sc: Scenario, events: seq<Event>, more: seq<Event>)
    requires NoDecline(more)
    ensures ReplayEvents(sc, events + more) == ReplayEvents(sc, events)
  {
    if more == [] {
      assert events + more == events;
    } else {
      var init := more[..|more|-1];
      assert (events + more)[..|events + more| - 1] == events + init;
      assert more[|more|-1] in more;
      ReplaySkipsOtherEvents(sc, events, init);
    }
  }

  /** The case x is what a stored repair has become on its way to execution. */
  predicate OnItsWay(stored: Case, x: Case) {
    && x.context == stored.context && x.assumptions == stored.assumptions
    && x.plan.Some? && stored.plan.Some? && SameButAssumptions(stored.plan.value, x.plan.value)
    && stored.events <= x.events && NoDecline(x.events[|stored.events|..])
  }

  lemma ScenarioOnItsWay(stored: Case, x: Case)
    requires OnItsWay(stored, x)
    ensures ScenarioFor(x) == ScenarioFor(stored)
  {
    assert x.events == stored.events + x.events[|stored.events|..];
    if BaseScenario(stored.context).Ok? {
      ReplaySkipsOtherEvents(BaseScenario(stored.context).value, stored.events, x.events[|stored.events|..]);
    }
  }

  /** The gate and the decision keep a repair on its way. */
  lemma GateKeepsOnItsWay(c: Case, v: Verdict, policy: Policy, newId: string, x: Case)
    requires GateReady(c, v) && GateAttempt(c, v, policy, newId) == Some(x)
    ensures OnItsWay(c, x)
  {
  }

  lemma DecisionKeepsOnItsWay(stored: Case, c: Case, approvalId: string, approve: bool, x: Case)
    requires OnItsWay(stored, c) && Attempt(c, DecideApproval(approvalId, approve)) == Some(x)
    ensures OnItsWay(stored, x)
  {
    var n := |stored.events|;
    var e := x.events[|c.events|];
    assert x.events == c.events + [e];
    assert x.events[n..] == c.events[n..] + [e];
  }

  /** Approving a valid plan that was accepted in the scenario of the case runs it at once: when every action
      succeeds, the case is resolved exactly when no caregiver is used in time they are known to have lost. */
  lemma ApprovingResolves(c: Case, id: string, sc: Scenario, adapter: Action -> ActionStatus)
    requires (forall i, j :: 0 <= i < j < |c.approvals| ==> c.approvals[i].id != c.approvals[j].id) && CanDecide(c, id)
    requires c.plan.value.state.Valid? && AcceptedIn(sc, c.plan.value) && ScenarioFor(c) == Ok(sc)
    requires forall a :: a in RequiredActions(c.plan.value) ==> adapter(a).Succeeded?
    ensures !DecisionFails(c, id, true)
    ensures AfterDecision(c, id, true, adapter).status.Resolved? <==> NoTimeIsLost(c)
  {
    var now := ApprovedMayExecute(c, id);
    hide DecisionUpdate, Completed, RequiredActions, NoTimeIsLost, ReliesOnNothingInvalid, AcceptedIn, CanDecide,
         MayExecute, OnItsWay, ScenarioFor, AfterDecision, DecisionFails;
    ScenarioOnItsWay(c, now);
    SameWorkSameTime(c, now);
    UninterruptedRunResolves(now, sc, adapter);
    ApprovalRunsThePlan(c, id, now, sc, adapter);
  }

  lemma ApprovalRunsThePlan(c: Case, id: string, now: Case, sc: Scenario, adapter: Action -> ActionStatus)
    requires DecisionUpdate(c, id, true).Decided? && now == Stored(DecisionUpdate(c, id, true).after, c.version)
    requires MayExecute(now) && ScenarioFor(now) == Ok(sc)
    ensures !DecisionFails(c, id, true) && AfterDecision(c, id, true, adapter) == Completed(now, sc, adapter)
  {
    hide DecisionUpdate, Completed, MayExecute, ScenarioFor;
  }

  lemma ApprovedMayExecute(c: Case, id: string) returns (now: Case)
    requires (forall i, j :: 0 <= i < j < |c.approvals| ==> c.approvals[i].id != c.approvals[j].id) && CanDecide(c, id)
    requires c.plan.value.state.Valid?
    ensures DecisionUpdate(c, id, true).Decided? && now == Stored(DecisionUpdate(c, id, true).after, c.version)
    ensures now.plan == c.plan && now.assumptions == c.assumptions && MayExecute(now) && OnItsWay(c, now)
  {
    DecisionIsExact(c, id, true);
    now := Stored(DecisionUpdate(c, id, true).after, c.version);
    var was :| was in c.approvals && was.id == id && was.planId == c.plan.value.id && was.status == Pending;
    var i :| 0 <= i < |c.approvals| && c.approvals[i] == was;
    hide DecisionUpdate;
    assert now.approvals[i] in now.approvals && now.approvals[i].planId == c.plan.value.id;
    assert now.events[|c.events|..] == [Event(DecisionOn(id, true), ApprovalDecided(id, c.plan.value.id, true))];
  }

  lemma SameWorkSameTime(a: Case, b: Case)
    requires a.plan == b.plan && a.assumptions == b.assumptions
    ensures NoTimeIsLost(a) <==> NoTimeIsLost(b)
  {
  }

  /** No researched caregiver, or the first one, untouched by the declines recorded so far. */
  predicate ReplayableResearch(c: Case, o: Outcome, researched: Option<Candidate>) {
    researched.Some? ==>
      c.context.researched.None?
      && Untouched(researched.value.availability, DeclinesOf(o.recovery.events, researched.value.id))
  }

  /** The stored repair rebuilds to the scenario its plan was validated in, exactly when its
      research can be replayed. */
  lemma StoredRepairReplays(c: Case, sc: Scenario, d: Decline, o: Outcome, proposal: Proposal, v: Verdict)
    requires ScenarioFor(c) == Ok(sc) && DeclineOutcome(c, sc, d) == Ok(o)
    requires ScenarioWith(o.scenario, proposal).Ok?
    ensures ScenarioFor(AcceptedCase(c, o, v, proposal.researched)) == Ok(ScenarioWith(o.scenario, proposal).value)
      <==> ReplayableResearch(c, o, proposal.researched)
  {
    ReplayMatchesDecline(c, sc, d, o);
    var stored := AcceptedCase(c, o, v, proposal.researched);
    AcceptedPlanIsFresh(c, o, v, proposal.researched);
    OutcomeKeepsContext(c, sc, d, o);
    if proposal.researched.Some? {
      ReplayKeepsCount(BaseScenario(c.context).value, c.events);
      AcceptedContext(c, o, v, proposal.researched);
      ReplayMatchesResearchedPlan(c, o, stored, proposal.researched.value);
    } else {
      AcceptedContext(c, o, v, proposal.researched);
    }
  }

  lemma OutcomeKeepsContext(c: Case, sc: Scenario, d: Decline, o: Outcome)
    requires DeclineOutcome(c, sc, d) == Ok(o)
    ensures o.recovery.context == c.context && o.scenario.policy == sc.policy
  {
    hide Reasons, Merge, Impacted, InOrder;
  }

  lemma AcceptedContext(c: Case, o: Outcome, v: Verdict, researched: Option<Candidate>)
    ensures AcceptedCase(c, o, v, researched).context ==
      if researched.Some? then o.recovery.context.(researched := researched) else o.recovery.context
  {
  }

  /** A repair that the validator accepted, that is authorised, and whose research can be replayed,
      is resolved by one uninterrupted run of succeeding actions exactly when none of its caregiver
      segments overlaps an invalidated assumption about that caregiver. */
  lemma UninterruptedRepairResolves(c: Case, sc: Scenario, d: Decline, o: Outcome, proposal: Proposal,
                                    x: Case, adapter: Action -> ActionStatus)
    requires ScenarioFor(c) == Ok(sc) && DeclineOutcome(c, sc, d) == Ok(o)
    requires ScenarioWith(o.scenario, proposal).Ok? && ReplayableResearch(c, o, proposal.researched)
    requires var v := RepairValidation(ScenarioWith(o.scenario, proposal).value, proposal.plan, o.preserved);
      v.valid && OnItsWay(AcceptedCase(c, o, v, proposal.researched), x)
    requires MayExecute(x) && forall a :: a in RequiredActions(x.plan.value) ==> adapter(a).Succeeded?
    ensures ScenarioFor(x).Ok?
    ensures Completed(x, ScenarioFor(x).value, adapter).status.Resolved? <==> NoTimeIsLost(x)
  {
    var planning := ScenarioWith(o.scenario, proposal).value;
    var v := RepairValidation(planning, proposal.plan, o.preserved);
    var stored := AcceptedCase(c, o, v, proposal.researched);
    StoredRepairReplays(c, sc, d, o, proposal, v);
    ScenarioOnItsWay(stored, x);
    AcceptedPlanIsFresh(c, o, v, proposal.researched);
    RepairIsAccepted(planning, proposal.plan, o.preserved, x.plan.value);
    UninterruptedRunResolves(x, planning, adapter);
  }

  lemma RepairIsAccepted(sc: Scenario, proposed: Plan, preserved: seq<Segment>, plan: Plan)
    requires RepairValidation(sc, proposed, preserved).valid
    requires plan == RepairValidation(sc, proposed, preserved).plan.(id := plan.id, assumptions := plan.assumptions)
    ensures AcceptedIn(sc, plan)
  {
    hide Validation;
    assert Validation(sc, proposed).valid;
  }

  // ---------------------------------------------------------------- going back to the declined caregiver

  lemma OutcomeAssumptions(c: Case, sc: Scenario, d: Decline, o: Outcome)
    requires DeclineOutcome(c, sc, d) == Ok(o) && c.assumptions != []
    ensures AssumptionIds(o.recovery.assumptions) == AssumptionIds(c.assumptions)
    ensures forall a :: a in o.invalidated ==>
      a in o.recovery.assumptions && a.status.Invalidated? && a.subject == d.caregiver
  {
    DeclineInvalidatesThese(c, sc, d, o);
    hide DeclineOutcome, DependsOn;
    var after := o.recovery.assumptions;
    forall a | a in o.invalidated
      ensures a in after && a.status.Invalidated? && a.subject == d.caregiver
    {
      InvalidatedIsOnRecord(c, d, o, a);
    }
    forall id ensures id in AssumptionIds(after) <==> id in AssumptionIds(c.assumptions) {
      if a :| a in after && a.id == id {
        var i :| 0 <= i < |after| && after[i] == a;
        assert c.assumptions[i] in c.assumptions;
      }
      if b :| b in c.assumptions && b.id == id {
        var i :| 0 <= i < |c.assumptions| && c.assumptions[i] == b;
        assert after[i] in after;
      }
    }
  }

  lemma InvalidatedIsOnRecord(c: Case, d: Decline, o: Outcome, a: Assumption)
    requires |o.recovery.assumptions| == |c.assumptions|
    requires forall i :: 0 <= i < |c.assumptions| && DependsOn(c.assumptions[i], d) ==>
      o.recovery.assumptions[i] == Invalidate(c.assumptions[i], d)
    requires exists b :: b in c.assumptions && DependsOn(b, d) && a == Invalidate(b, d)
    ensures a in o.recovery.assumptions && a.status.Invalidated? && a.subject == d.caregiver
  {
    var b :| b in c.assumptions && DependsOn(b, d) && a == Invalidate(b, d);
    var i :| 0 <= i < |c.assumptions| && c.assumptions[i] == b;
    assert o.recovery.assumptions[i] == a;
  }

  /** The accepted case records what was assumed before and what the accepted plan assumes, and nothing
      that was only assumed under the id of the proposal. */
  lemma AcceptedAssumptionsAreRecorded(c: Case, sc: Scenario, d: Decline, o: Outcome, v: Verdict,
                                       researched: Option<Candidate>)
    requires DeclineOutcome(c, sc, d) == Ok(o) && c.assumptions != []
    ensures var next := AcceptedCase(c, o, v, researched);
      && next.plan.Some?
      && (forall a :: a in o.recovery.assumptions ==> a in next.assumptions)
      && (forall a :: a in next.plan.value.assumptions ==> a.id in AssumptionIds(next.assumptions))
      && (forall a :: a in next.assumptions ==> a in o.recovery.assumptions || a in next.plan.value.assumptions)
  {
    OutcomeAssumptions(c, sc, d, o);
    forall a | a in o.recovery.assumptions ensures a in AcceptedCase(c, o, v, researched).assumptions {
      InvalidationStaysOnRecord(c, o, v, researched, a);
    }
    hide DeclineOutcome, AcceptPlan, MaterializeAssumptions, Missing;
    var result := ReplanResult(o, v);
    var plan := AcceptPlan(result.plan.value, c.id, result.previous);
    var transient := AssumptionIds(result.plan.value.assumptions);
    var keep := (x: Assumption) => x.id !in transient || x.id in AssumptionIds(c.assumptions);
    var retained := Filter(result.assumptions, keep);
    FilterMember(result.assumptions, keep);
    MissingMeaning(result.plan.value.assumptions, o.recovery.assumptions);
    MissingMeaning(plan.assumptions, retained);
  }

  lemma MissingMeaning(assumptions: seq<Assumption>, known: seq<Assumption>)
    ensures forall a :: a in Missing(assumptions, known) <==> a in assumptions && a.id !in AssumptionIds(known)
  {
    FilterMember(assumptions, (a: Assumption) => a.id !in AssumptionIds(known));
  }

  /** What a case already assumed is still on record, with its new status, after the repair. */
  lemma InvalidationStaysOnRecord(c: Case, o: Outcome, v: Verdict, researched: Option<Candidate>, a: Assumption)
    requires a in o.recovery.assumptions && a.id in AssumptionIds(c.assumptions)
    ensures a in AcceptedCase(c, o, v, researched).assumptions
  {
    hide AcceptPlan, MaterializeAssumptions, Missing;
    var result := ReplanResult(o, v);
    var transient := AssumptionIds(result.plan.value.assumptions);
    assert a in result.assumptions;
    FilterMember(result.assumptions, (x: Assumption) =>
      x.id !in transient || x.id in AssumptionIds(c.assumptions));
  }

  /** A repair that assigns the declined caregiver anywhere inside an assumption that the decline
      invalidated can never complete, even outside the declined window. */
  lemma DeclinedCaregiverCannotReturn(c: Case, sc: Scenario, d: Decline, o: Outcome, v: Verdict,
                                      researched: Option<Candidate>, x: Case, later: Scenario,
                                      a: Assumption, s: Segment)
    requires DeclineOutcome(c, sc, d) == Ok(o) && c.assumptions != []
    requires a in o.invalidated && OnItsWay(AcceptedCase(c, o, v, researched), x)
    requires s in x.plan.value.segments && s.source.ByCaregiver? && s.person == d.caregiver
    requires a.window.Some? && Overlap(s.window, a.window.value)
    ensures CompletionErrors(x, later) != []
  {
    OutcomeAssumptions(c, sc, d, o);
    InvalidationStaysOnRecord(c, o, v, researched, a);
    hide DeclineOutcome, AcceptedCase, CompletionErrors;
    CompletionMeaning(x, later);
    assert Relies(s, a);
  }
}
