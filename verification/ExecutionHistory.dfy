/** What running a plan's actions does to the stored history, and when the run then completes. */
module ExecutionHistory {
  import opened Prelude
  import opened Domain
  import opened PlanValidator
  import opened Cases
  import opened Workflow

  predicate DistinctActions(actions: seq<Action>) {
    forall i, j :: 0 <= i < j < |actions| ==> actions[i].id != actions[j].id
  }

  function Look(actions: seq<Action>, id: ActionId): Option<Action> {
    Get(ActionsById(actions), id)
  }

  lemma LookMeaning(actions: seq<Action>, id: ActionId)
    ensures Look(actions, id).Some? ==> Look(actions, id).value in actions && Look(actions, id).value.id == id
    ensures forall a :: a in actions && DistinctActions(actions) ==> Look(actions, a.id) == Some(a)
  {
    ByKeyLookup(actions, (a: Action) => a.id, id);
    forall a | a in actions && DistinctActions(actions) ensures Look(actions, a.id) == Some(a) {
      ByKeyExact(actions, (x: Action) => x.id, a);
    }
  }

  lemma {:induction false} LookWithout(actions: seq<Action>, gone: ActionId, id: ActionId)
    ensures Look(Filter(actions, (a: Action) => a.id != gone), id) ==
      if id == gone then None else Look(actions, id)
  {
    if actions != [] {
      var init, last := actions[..|actions|-1], actions[|actions|-1];
      LookWithout(init, gone, id);
      GetPut(ActionsById(init), last.id, last, id);
      var kept := Filter(init, (a: Action) => a.id != gone);
      assert (kept + [last])[..|kept|] == kept;
      GetPut(ActionsById(kept), last.id, last, id);
      assert kept + [] == kept;
    }
  }

  lemma LookAfterRecord(actions: seq<Action>, result: Action, id: ActionId)
    ensures Look(Filter(actions, (a: Action) => a.id != result.id) + [result], id) ==
      if id == result.id then Some(result) else Look(actions, id)
  {
    var kept := Filter(actions, (a: Action) => a.id != result.id);
    LookWithout(actions, result.id, id);
    assert (kept + [result])[..|kept|] == kept;
    GetPut(ActionsById(kept), result.id, result, id);
  }

  /** After a run, an action that had succeeded is found as it was; any other required action is
      found with the outcome the adapter gave it; nothing else moved. */
  lemma {:induction false} LookAfterRun(c: Case, required: seq<Action>, adapter: Action -> ActionStatus,
                                        p: Progress, id: ActionId)
    ensures var after := RunActions(c, required, adapter, p).history;
      if HasSucceeded(c, id) || !(exists a :: a in required && a.id == id) then Look(after, id) == Look(p.history, id)
      else exists a :: a in required && a.id == id && Look(after, id) == Some(a.(status := adapter(a)))
  {
    hide HasSucceeded, Look;
    if required != [] {
      var init, last := required[..|required|-1], required[|required|-1];
      LookAfterRun(c, init, adapter, p, id);
      assert required == init + [last];
      var before := RunActions(c, init, adapter, p);
      if !HasSucceeded(c, last.id) {
        LookAfterRecord(before.history, last.(status := adapter(last)), id);
      }
    }
  }

  /** What each completed entry is, in the order of the required actions. */
  lemma {:induction false} CompletedEntries(c: Case, required: seq<Action>, adapter: Action -> ActionStatus,
                                            p: Progress)
    requires p.completed == []
    ensures var done := RunActions(c, required, adapter, p).completed;
      |done| == |required| && forall i :: 0 <= i < |required| ==>
        if HasSucceeded(c, required[i].id) then done[i].status.Succeeded?
        else done[i].status == adapter(required[i])
  {
    if required != [] {
      CompletedEntries(c, required[..|required|-1], adapter, p);
    }
  }

  lemma AllSucceededMeaning(c: Case, required: seq<Action>, adapter: Action -> ActionStatus, p: Progress)
    requires p.completed == []
    ensures AllSucceeded(RunActions(c, required, adapter, p).completed) <==>
      forall a :: a in required && !HasSucceeded(c, a.id) ==> adapter(a).Succeeded?
  {
    hide HasSucceeded, RunActions;
    CompletedEntries(c, required, adapter, p);
    var done := RunActions(c, required, adapter, p).completed;
    if AllSucceeded(done) {
      forall a | a in required && !HasSucceeded(c, a.id) ensures adapter(a).Succeeded? {
        var i :| 0 <= i < |required| && required[i] == a;
        assert done[i] in done;
      }
    }
    if forall a :: a in required && !HasSucceeded(c, a.id) ==> adapter(a).Succeeded? {
      forall x | x in done ensures x.status.Succeeded? {
        var i :| 0 <= i < |done| && done[i] == x;
        assert required[i] in required;
      }
    }
  }

  /** Running never removes or changes a succeeded action; every new entry is a required action that
      had not succeeded, with the adapter's outcome; ids stay unique. */
  lemma {:induction false} RunKeepsHistory(c: Case, required: seq<Action>, adapter: Action -> ActionStatus, p: Progress)
    requires DistinctActions(p.history)
    ensures var after := RunActions(c, required, adapter, p).history;
      && DistinctActions(after)
      && (forall a :: a in p.history && HasSucceeded(c, a.id) ==> a in after)
      && (forall a :: a in after && a !in p.history ==>
            exists r :: r in required && !HasSucceeded(c, r.id) && a == r.(status := adapter(r)))
    ensures p.events <= RunActions(c, required, adapter, p).events
  {
    hide HasSucceeded;
    if required != [] {
      var init, last := required[..|required|-1], required[|required|-1];
      RunKeepsHistory(c, init, adapter, p);
      assert required == init + [last];
      var before := RunActions(c, init, adapter, p).history;
      if !HasSucceeded(c, last.id) {
        RecordDistinct(before, last.(status := adapter(last)));
        FilterMember(before, (a: Action) => a.id != last.id);
        hide DistinctActions, Filter;
      }
    }
  }

  lemma RecordDistinct(actions: seq<Action>, result: Action)
    requires DistinctActions(actions)
    ensures DistinctActions(Filter(actions, (a: Action) => a.id != result.id) + [result])
  {
    FilterDistinct(actions, result.id);
    FilterMember(actions, (a: Action) => a.id != result.id);
    var kept := Filter(actions, (a: Action) => a.id != result.id);
    forall i | 0 <= i < |kept| ensures kept[i].id != result.id {
      assert kept[i] in kept;
    }
  }

  lemma {:induction false} FilterDistinct(actions: seq<Action>, gone: ActionId)
    requires DistinctActions(actions)
    ensures DistinctActions(Filter(actions, (a: Action) => a.id != gone))
  {
    if actions != [] {
      var init, last := actions[..|actions|-1], actions[|actions|-1];
      FilterDistinct(init, gone);
      FilterMember(init, (a: Action) => a.id != gone);
      var kept := Filter(init, (a: Action) => a.id != gone);
      forall i | 0 <= i < |kept| ensures kept[i].id != last.id {
        assert kept[i] in kept;
      }
    }
  }

  // ---------------------------------------------------------------- what a run records

  /** The adapter was asked for this action, and its answer is on record. */
  predicate Outcome(a: Action, adapter: Action -> ActionStatus, e: Event) {
    var ok := adapter(a) == Succeeded;
    e == Event(OutcomeOf(a.id, ok), ActionFinished(a.id, ok))
  }

  ghost predicate IsOutcome(c: Case, required: seq<Action>, adapter: Action -> ActionStatus, e: Event) {
    exists a :: a in required && !HasSucceeded(c, a.id) && Outcome(a, adapter, e)
  }

  lemma {:induction false} RunRecordsOutcomes(c: Case, required: seq<Action>, adapter: Action -> ActionStatus,
                                              p: Progress)
    ensures forall e :: e in RunActions(c, required, adapter, p).events <==>
      e in p.events || IsOutcome(c, required, adapter, e)
  {
    hide HasSucceeded;
    if required != [] {
      var init, last := required[..|required|-1], required[|required|-1];
      RunRecordsOutcomes(c, init, adapter, p);
      assert required == init + [last];
      forall e ensures IsOutcome(c, required, adapter, e) <==>
        IsOutcome(c, init, adapter, e) || (!HasSucceeded(c, last.id) && Outcome(last, adapter, e))
      {
        assert last in required;
      }
    }
  }

  /** The plan's start, once per plan. */
  function StartEvent(plan: Plan): Event {
    Event(StartOf(plan.id), ExecutionStarted(plan.id))
  }

  /** What an execution that is not refused leaves behind: the start of the plan and the outcome of every
      action that had not succeeded before are on record, and nothing else is new; the case has failed
      exactly when one of these outcomes is a failure. */
  lemma ExecutionIsRecorded(c: Case, adapter: Action -> ActionStatus)
    requires MayExecute(c) && ExecutionUpdate(c, adapter).Ran?
    ensures var after, required := AfterExecution(c, adapter), RequiredActions(c.plan.value);
      && StartOf(c.plan.value.id) in EventIds(after.events)
      && (forall a, e :: a in required && !HasSucceeded(c, a.id) && Outcome(a, adapter, e) ==> e in after.events)
      && (forall e :: e in after.events ==>
            e in c.events || e == StartEvent(c.plan.value) || IsOutcome(c, required, adapter, e))
      && (StartOf(c.plan.value.id) in EventIds(c.events) ==>
            forall e :: e in after.events ==> e in c.events || IsOutcome(c, required, adapter, e))
      && after.status == (if exists a :: a in required && !HasSucceeded(c, a.id) && adapter(a) != Succeeded
                          then Failed else Executing)
  {
    var required := RequiredActions(c.plan.value);
    var start := Progress(c.actions, StartEvents(c, c.plan.value), []);
    AllSucceededMeaning(c, required, adapter, start);
    RunRecordsOutcomes(c, required, adapter, start);
    hide HasSucceeded, RunActions, RequiredActions, Outcome, NothingLeft;
    var after := AfterExecution(c, adapter);
    var started := StartEvents(c, c.plan.value);
    assert StartOf(c.plan.value.id) in EventIds(started) by {
      assert started == c.events || started[|c.events|] == StartEvent(c.plan.value);
    }
    forall e | e in StartEvents(c, c.plan.value) ensures e in after.events {
    }
  }

  /** An action counts as done exactly when a succeeded action with its id is stored. */
  lemma SuccessIsStored(c: Case, id: ActionId)
    requires DistinctActions(c.actions)
    ensures HasSucceeded(c, id) <==> exists a :: a in c.actions && a.id == id && a.status == Succeeded
  {
    LookMeaning(c.actions, id);
    HistoryIsTheLookup(c, id);
  }

  /** An execution that is not refused runs, unless the plan requires something and all of it is stored as
      succeeded. */
  lemma OnlyFinishedPlansAreNotRun(c: Case, adapter: Action -> ActionStatus)
    requires MayExecute(c) && DistinctActions(c.actions)
    ensures ExecutionUpdate(c, adapter).AlreadyExecuted? <==>
      && RequiredActions(c.plan.value) != []
      && forall r :: r in RequiredActions(c.plan.value) ==>
           exists a :: a in c.actions && a.id == r.id && a.status == Succeeded
    ensures !ExecutionUpdate(c, adapter).AlreadyExecuted? ==> ExecutionUpdate(c, adapter).Ran?
  {
    hide HasSucceeded, RequiredActions, RunActions, DistinctActions;
    forall id ensures HasSucceeded(c, id) <==> exists a :: a in c.actions && a.id == id && a.status == Succeeded {
      SuccessIsStored(c, id);
    }
  }

  // ---------------------------------------------------------------- an uninterrupted run

  /** The case an execution leaves behind when it did not refuse. */
  function AfterExecution(c: Case, adapter: Action -> ActionStatus): Case {
    match ExecutionUpdate(c, adapter)
    case Ran(after, _) => after
    case _ => c
  }

  lemma HistoryIsTheLookup(c: Case, id: ActionId)
    ensures HasSucceeded(c, id) <==> Look(c.actions, id).Some? && Look(c.actions, id).value.status.Succeeded?
  {
  }

  lemma ExecutionFinishesActions(c: Case, adapter: Action -> ActionStatus)
    requires MayExecute(c) && forall a :: a in RequiredActions(c.plan.value) ==> adapter(a).Succeeded?
    ensures var after := AfterExecution(c, adapter);
      && after == c.(actions := after.actions, events := after.events)
      && AllActionsDone(after)
  {
    hide HasSucceeded, RunActions, RequiredActions, StartEvents;
    var required := RequiredActions(c.plan.value);
    var after := AfterExecution(c, adapter);
    if !NothingLeft(c, required) {
      var start := Progress(c.actions, StartEvents(c, c.plan.value), []);
      AllSucceededMeaning(c, required, adapter, start);
      forall a | a in required ensures HasSucceeded(after, a.id) {
        LookAfterRun(c, required, adapter, start, a.id);
        HistoryIsTheLookup(c, a.id);
        HistoryIsTheLookup(after, a.id);
      }
    }
  }

  lemma ApprovalIsKept(c: Case, after: Case, planId: PlanId)
    requires after.approvals == c.approvals
    ensures ApprovedFor(after, planId) <==> ApprovedFor(c, planId)
  {
  }

  /** The plan was accepted from one the validator passed in this scenario. */
  ghost predicate AcceptedIn(sc: Scenario, plan: Plan) {
    exists proposed ::
      && Validation(sc, proposed).valid
      && plan == Validation(sc, proposed).plan.(id := plan.id, assumptions := plan.assumptions, state := plan.state)
  }

  /** An authorised case whose plan was accepted in the rebuilt scenario, executed without failures
      and without interruption, completes exactly when no caregiver segment of the plan overlaps an
      invalidated assumption about that caregiver. */
  lemma UninterruptedRunCompletes(c: Case, sc: Scenario, adapter: Action -> ActionStatus)
    requires MayExecute(c) && AcceptedIn(sc, c.plan.value)
    requires forall a :: a in RequiredActions(c.plan.value) ==> adapter(a).Succeeded?
    ensures CompletionErrors(AfterExecution(c, adapter), sc) == [] <==> ReliesOnNothingInvalid(c)
  {
    var plan := c.plan.value;
    var proposed :| Validation(sc, proposed).valid
      && plan == Validation(sc, proposed).plan.(id := plan.id, assumptions := plan.assumptions, state := plan.state);
    ValidationIsStable(sc, proposed, plan);
    ReasonsMeanApproval(sc, proposed);
    hide Validation, ExecutionUpdate, RequiredActions;
    ExecutionFinishesActions(c, adapter);
    var after := AfterExecution(c, adapter);
    ApprovalIsKept(c, after, plan.id);
    CompletionMeaning(after, sc);
  }

  lemma ReasonsMeanApproval(sc: Scenario, plan: Plan)
    ensures Validation(sc, plan).requiresApproval <==> Validation(sc, plan).plan.reasons != []
  {
  }
}
