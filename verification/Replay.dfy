/** Rebuilding the scenario of a stored case from its snapshot, its researched caregiver and the
    declines in its event log. */
module Replay {
  import opened Prelude
  import opened Intervals
  import opened Domain
  import opened Cases
  import opened PlanInvalidation
  import opened BackupCare

  datatype ReplayError = CannotAddCaregiver | UnknownDecliner

  function ReplayOne(sc: Scenario, e: Event): Result<Scenario, ReplayError> {
    match e.kind
    case CaregiverDeclined(who, window) =>
      (match ApplyDeclineToScenario(sc, Decline(e.id, who, window))
       case Ok(x) => Ok(x)
       case Err(_) => Err(UnknownDecliner))
    case _ => Ok(sc)
  }

  function ReplayEvents(sc: Scenario, events: seq<Event>): Result<Scenario, ReplayError> {
    if events == [] then Ok(sc)
    else
      match ReplayEvents(sc, events[..|events|-1])
      case Ok(x) => ReplayOne(x, events[|events|-1])
      case Err(e) => Err(e)
  }

  function BaseScenario(context: Context): Result<Scenario, ReplayError> {
    match context.researched
    case None => Ok(context.snapshot)
    case Some(c) =>
      (match AddResearchedCaregiver(context.snapshot, c)
       case Ok(x) => Ok(x)
       case Err(_) => Err(CannotAddCaregiver))
  }

  function ScenarioFor(c: Case): Result<Scenario, ReplayError> {
    match BaseScenario(c.context)
    case Ok(base) => ReplayEvents(base, c.events)
    case Err(e) => Err(e)
  }

  /** The loop that rebinds the scenario for every recorded decline. */
  method RebuildScenario(c: Case) returns (r: Result<Scenario, ReplayError>)
    ensures r == ScenarioFor(c)
  {
    var base := BaseScenario(c.context);
    if base.Err? {
      return base;
    }
    var scenario := base.value;
    for i := 0 to |c.events|
      invariant ReplayEvents(base.value, c.events[..i]) == Ok(scenario)
    {
      assert c.events[..i+1][..i] == c.events[..i];
      var next := ReplayOne(scenario, c.events[i]);
      if next.Err? {
        ReplayFailsForGood(base.value, c.events, i + 1);
        return next;
      }
      scenario := next.value;
    }
    assert c.events[..|c.events|] == c.events;
    r := Ok(scenario);
  }

  lemma {:induction false} ReplayFailsForGood(sc: Scenario, events: seq<Event>, i: nat)
    requires i <= |events| && ReplayEvents(sc, events[..i]).Err?
    ensures ReplayEvents(sc, events) == ReplayEvents(sc, events[..i])
  {
    if i < |events| {
      assert events[..|events|-1][..i] == events[..i];
      ReplayFailsForGood(sc, events[..|events|-1], i);
    } else {
      assert events[..i] == events;
    }
  }

  /** After a decline, the stored case rebuilds to exactly the scenario the replan worked in. */
  lemma ReplayMatchesDecline(c: Case, sc: Scenario, d: Decline, o: Outcome)
    requires ScenarioFor(c) == Ok(sc) && DeclineOutcome(c, sc, d) == Ok(o)
    ensures ScenarioFor(o.recovery) == Ok(o.scenario)
  {
    hide BaseScenario, Reasons, Impacted, AfterDecline, MaterializeAssumptions;
    var e := Event(d.id, CaregiverDeclined(d.caregiver, d.window));
    assert o.recovery.events == c.events + [e];
    assert o.recovery.events[..|o.recovery.events|-1] == c.events;
    FirstWithIdMeaning(sc.caregivers, d.caregiver);
  }

  // ---------------------------------------------------------------- a researched caregiver

  function DeclinesOf(events: seq<Event>, id: string): seq<Window> {
    FlatMap(events, (e: Event) =>
      if e.kind.CaregiverDeclined? && e.kind.who == id then [e.kind.window] else [])
  }

  function AvailabilityAfter(c: Caregiver, events: seq<Event>): Caregiver {
    if events == [] then c
    else
      var x := AvailabilityAfter(c, events[..|events|-1]);
      match events[|events|-1].kind
      case CaregiverDeclined(who, window) => DeclinedBy(x, Decline(events[|events|-1].id, who, window))
      case _ => x
  }

  /** Appending a caregiver before the replay appends their carved availability after it. */
  lemma {:induction false} ReplayWithOneMore(sc: Scenario, c: Caregiver, events: seq<Event>)
    requires ReplayEvents(sc, events).Ok?
    ensures ReplayEvents(WithCaregiver(sc, c), events)
         == Ok(WithCaregiver(ReplayEvents(sc, events).value, AvailabilityAfter(c, events)))
  {
    if events != [] {
      var init, last := events[..|events|-1], events[|events|-1];
      ReplayWithOneMore(sc, c, init);
      var x := ReplayEvents(sc, init).value;
      var y := AvailabilityAfter(c, init);
      if last.kind.CaregiverDeclined? {
        var d := Decline(last.id, last.kind.who, last.kind.window);
        var known :| known in x.caregivers && known.id == d.caregiver;
        assert known in WithCaregiver(x, y).caregivers;
        assert AfterDecline(WithCaregiver(x, y), d).caregivers
            == AfterDecline(x, d).caregivers + [DeclinedBy(y, d)];
      }
    }
  }

  lemma {:induction false} ReplayKeepsCount(sc: Scenario, events: seq<Event>)
    requires ReplayEvents(sc, events).Ok?
    ensures |ReplayEvents(sc, events).value.caregivers| == |sc.caregivers|
    ensures ReplayEvents(sc, events).value.policy == sc.policy
  {
    if events != [] {
      ReplayKeepsCount(sc, events[..|events|-1]);
    }
  }

  lemma {:induction false} OnlyAvailabilityChanges(c: Caregiver, events: seq<Event>)
    ensures AvailabilityAfter(c, events) == c.(availability := AvailabilityAfter(c, events).availability)
  {
    if events != [] {
      OnlyAvailabilityChanges(c, events[..|events|-1]);
    }
  }

  lemma {:induction false} AvailabilityPoints(c: Caregiver, events: seq<Event>, t: int)
    ensures Covers(AvailabilityAfter(c, events).availability, t)
      <==> Covers(c.availability, t) && !Covers(DeclinesOf(events, c.id), t)
  {
    if events != [] {
      hide Covers, CarveAll;
      var init, last := events[..|events|-1], events[|events|-1];
      AvailabilityPoints(c, init, t);
      OnlyAvailabilityChanges(c, init);
      var before := AvailabilityAfter(c, init).availability;
      if last.kind.CaregiverDeclined? && last.kind.who == c.id {
        var w := last.kind.window;
        assert AvailabilityAfter(c, events).availability == CarveAll(before, w);
        assert DeclinesOf(events, c.id) == DeclinesOf(init, c.id) + [w];
        CarveAllPoints(before, w);
        OneWindow(w);
        CoversConcat(DeclinesOf(init, c.id), [w], t);
      } else {
        assert DeclinesOf(events, c.id) == DeclinesOf(init, c.id) + [];
        assert DeclinesOf(events, c.id) == DeclinesOf(init, c.id);
      }
    } else {
      assert DeclinesOf(events, c.id) == [];
    }
  }

  predicate Untouched(availability: seq<Window>, declined: seq<Window>) {
    forall w, d :: w in availability && d in declined ==> !Overlap(w, d)
  }

  lemma {:induction false} CarveNothing(ws: seq<Window>, block: Window)
    requires forall w :: w in ws ==> !Overlap(w, block)
    ensures CarveAll(ws, block) == ws
  {
    if ws != [] {
      CarveNothing(ws[..|ws|-1], block);
    }
  }

  lemma {:induction false} UntouchedStays(c: Caregiver, events: seq<Event>)
    requires Untouched(c.availability, DeclinesOf(events, c.id))
    ensures AvailabilityAfter(c, events) == c
  {
    if events != [] {
      var init, last := events[..|events|-1], events[|events|-1];
      var earlier, all := DeclinesOf(init, c.id), DeclinesOf(events, c.id);
      assert forall d :: d in earlier ==> d in all;
      UntouchedStays(c, init);
      if last.kind.CaregiverDeclined? && last.kind.who == c.id {
        assert last.kind.window in all;
        CarveNothing(c.availability, last.kind.window);
      }
    }
  }

  lemma AvailabilityUnchanged(c: Caregiver, events: seq<Event>)
    ensures AvailabilityAfter(c, events) == c <==> Untouched(c.availability, DeclinesOf(events, c.id))
  {
    if Untouched(c.availability, DeclinesOf(events, c.id)) {
      UntouchedStays(c, events);
    } else {
      var w, d :| w in c.availability && d in DeclinesOf(events, c.id) && Overlap(w, d);
      var t := if w.start >= d.start then w.start else d.start;
      assert Holds(w, t) && Holds(d, t);
      AvailabilityPoints(c, events, t);
    }
  }

  /** Storing a researched caregiver keeps the rebuilt scenario equal to the one Plan B was
      validated in exactly when it is the first one researched for the case and no recorded decline
      under its id touches its availability. A second researched caregiver always breaks the replay. */
  lemma ReplayMatchesResearchedPlan(c: Case, o: Outcome, stored: Case, candidate: Candidate)
    requires ScenarioFor(o.recovery) == Ok(o.scenario) && o.recovery.context == c.context
    requires c.context.snapshot.policy.allowExternal
    requires stored.events == o.recovery.events
    requires stored.context == c.context.(researched := Some(candidate))
    ensures ScenarioFor(stored) == Ok(WithCaregiver(o.scenario, AsCaregiver(o.scenario, candidate))) <==>
      && c.context.researched.None?
      && Untouched(candidate.availability, DeclinesOf(stored.events, candidate.id))
  {
    var snapshot, events := c.context.snapshot, stored.events;
    var base := BaseScenario(c.context).value;
    ReplayKeepsCount(base, events);
    var added := AsCaregiver(snapshot, candidate);
    assert added == AsCaregiver(o.scenario, candidate);
    assert BaseScenario(stored.context) == Ok(WithCaregiver(snapshot, added));
    if c.context.researched.None? {
      ReplayWithOneMore(snapshot, added, events);
      AvailabilityUnchanged(added, events);
      var after := AvailabilityAfter(added, events);
      assert WithCaregiver(o.scenario, after).caregivers[|o.scenario.caregivers|] == after;
      assert WithCaregiver(o.scenario, added).caregivers[|o.scenario.caregivers|] == added;
    } else if ScenarioFor(stored).Ok? {
      ReplayKeepsCount(WithCaregiver(snapshot, added), events);
    }
  }
}
