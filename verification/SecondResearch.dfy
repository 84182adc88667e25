/** A run in which research is needed twice: nobody is known, the first caregiver found declines, and the
    repair with the second one is accepted and stored. The stored case keeps only the second one, so the
    decline of the first can no longer be replayed and the case can be neither executed nor verified. */
module SecondResearch {
  import opened Prelude
  import opened Sorting
  import opened Intervals
  import opened Domain
  import opened ValidationRules
  import opened Costs
  import opened PlanValidator
  import opened FeasibilityGraph
  import opened AssignmentMatrix
  import opened Materialization
  import opened MatrixSoundness
  import opened MatrixCompleteness
  import opened PlannableDays
  import opened Cases
  import opened PlanInvalidation
  import opened BackupCare
  import opened Replay
  import opened Workflow
  import opened StoredCases
  import opened RecoveryProtocol
  import opened RepairCompletion
  import opened PaidDay
  import opened ReachableResolution
  import opened StuckCases

  // ---------------------------------------------------------------- the people

  function Found(name: string): Candidate {
    Candidate(name, [ALL_DAY], Flat(0.0), true, true, 0, 17, true, "home", 0, false)
  }

  /** Nobody is known; two providers can be researched, and the family allows them. */
  function NobodyKnown(): Scenario {
    Scenario(ALL_DAY, [], [], [], [], LENIENT.(allowExternal := true), "home", [], 5, [Found("ann"), Found("bea")])
  }

  function Hired(name: string): Caregiver {
    AsCaregiver(NobodyKnown(), Found(name))
  }

  function WithAnn(): Scenario {
    WithCaregiver(NobodyKnown(), Hired("ann"))
  }

  const ANN_DECLINES := Decline(Named("decline"), "ann", ALL_DAY)

  function WithoutAnn(): Scenario {
    AfterDecline(WithAnn(), ANN_DECLINES)
  }

  function BeasDay(): Scenario {
    WithCaregiver(WithoutAnn(), Hired("bea"))
  }

  /** Ann as the decline leaves her. */
  function Gone(): Caregiver {
    Hired("ann").(availability := [])
  }

  lemma AnnIsGone()
    ensures WithoutAnn() == NobodyKnown().(caregivers := [Gone()])
  {
    CarveFromOne(ALL_DAY, ALL_DAY);
    assert CarveAll([ALL_DAY], ALL_DAY) == [];
  }

  // ---------------------------------------------------------------- days with one caregiver or none

  /** Nobody but c, if anybody, has hours on the day. */
  ghost predicate OnlyHas(sc: Scenario, hours: seq<Caregiver>) {
    && sc == NobodyKnown().(caregivers := sc.caregivers)
    && FeasibleCaregivers(sc) == hours && NoDriving(sc)
    && forall c :: c in hours ==> CareWindows(sc, c) == [ALL_DAY] && c.location == "home"
  }

  function AllDayBy(c: Caregiver): Primitive {
    CarePrimitive(CareId(c.id, 0), c.id, ByCaregiver, ALL_DAY, c.location, false)
  }

  lemma CareOfOne(sc: Scenario, hours: seq<Caregiver>)
    requires OnlyHas(sc, hours) && |hours| <= 1
    ensures TransportPrimitives(sc) == []
    ensures CarePrimitives(sc, []) == if hours == [] then [] else [AllDayBy(hours[0])]
  {
    NoTripsWithoutDrivers(sc);
    assert Parents(sc) == [];
    hide FeasibleCaregivers, CareWindows;
    if hours != [] {
      var c := hours[0];
      assert hours == [c];
      assert CareEnd([], c.location, sc.home, 7200) == 7200;
      FlatMapOne<Window, Primitive>(ALL_DAY, (w: Window) => CaregiverCareIn(sc, [], c, w));
      FlatMapOne(c, (x: Caregiver) => CaregiverCare(sc, [], x));
      SortOne(CareLeq, AllDayBy(c));
      assert [AllDayBy(c)] + [] == [AllDayBy(c)];
    }
  }

  lemma OffersOfOne(sc: Scenario, hours: seq<Caregiver>, scope: Option<Scope>)
    requires OnlyHas(sc, hours) && |hours| <= 1
    requires scope == None || scope == Some(Scope([ALL_DAY], []))
    ensures Offered(sc, scope) == OfferedCare(sc, scope) == if hours == [] then [] else [AllDayBy(hours[0])]
  {
    CareOfOne(sc, hours);
    hide TransportPrimitives, CarePrimitives, OnlyHas;
    if scope.Some? {
      NothingPreserved();
      if hours != [] {
        var p := AllDayBy(hours[0]);
        FlatMapOne<Window, Primitive>(ALL_DAY, (a: Window) => ClipTo(p, a));
        FlatMapOne(p, (q: Primitive) => FlatMap(scope.value.affected, (a: Window) => ClipTo(q, a)));
        assert ScopedCareItems([p], scope.value) == [p];
        OneStays(p, CareKeyOf, CareLeq);
      }
    }
  }

  lemma OneStays<K>(p: Primitive, key: Primitive -> K, leq: (Primitive, Primitive) -> bool)
    ensures Sort(leq, Values(ByKey([p], key))) == [p]
  {
    assert [p][..0] == [];
    assert Values(ByKey([p], key)) == [p];
    SortOne(leq, p);
  }

  lemma AnnHasHours()
    ensures OnlyHas(NobodyKnown(), []) && OnlyHas(WithAnn(), [Hired("ann")])
  {
    FullHours(WithAnn(), Hired("ann"));
    SortOne(CaregiverLeq, Hired("ann"));
    hide CareWindows, CaregiverLeq;
    assert Eligible(WithAnn(), Hired("ann"));
    assert [Hired("ann")][..0] == [];
  }

  lemma FullHours(sc: Scenario, c: Caregiver)
    requires sc.required == ALL_DAY && c.availability == [ALL_DAY]
    ensures CareWindows(sc, c) == [ALL_DAY]
  {
    FlatMapOne<Window, Window>(ALL_DAY, (w: Window) => Clipped(w, sc.required));
  }

  lemma NoHours(sc: Scenario, c: Caregiver)
    requires c.availability == []
    ensures CareWindows(sc, c) == []
  {
  }

  /** Of two people in any order only the one who passes is left. */
  lemma OnlyOnePasses<T>(leq: (T, T) -> bool, a: T, b: T, keep: T -> bool)
    requires !keep(a) && keep(b)
    ensures Filter(Sort(leq, [a, b]), keep) == [b]
  {
    SortTwo(leq, a, b);
    FilterTwo(a, b, keep);
    FilterTwo(b, a, keep);
    assert [] + [b] == [b] && [b] + [] == [b];
  }

  lemma NobodyHasHours()
    ensures OnlyHas(WithoutAnn(), [])
  {
    AnnIsGone();
    hide AfterDecline;
    NoHours(WithoutAnn(), Gone());
    SortOne(CaregiverLeq, Gone());
    hide CareWindows, CaregiverLeq, Sort;
    assert [Gone()][..0] == [];
  }

  lemma BeaIsFeasible(sc: Scenario)
    requires sc == NobodyKnown().(caregivers := [Gone(), Hired("bea")])
    ensures FeasibleCaregivers(sc) == [Hired("bea")] && CareWindows(sc, Hired("bea")) == [ALL_DAY]
  {
    FullHours(sc, Hired("bea"));
    NoHours(sc, Gone());
    assert Eligible(sc, Hired("bea"));
    hide CareWindows, CaregiverLeq, Sort, Eligible, Hired, Gone;
    OnlyOnePasses(CaregiverLeq, Gone(), Hired("bea"), (c: Caregiver) => Eligible(sc, c) && CareWindows(sc, c) != []);
  }

  lemma OnlyBeaHas(sc: Scenario)
    requires sc == NobodyKnown().(caregivers := [Gone(), Hired("bea")])
    ensures OnlyHas(sc, [Hired("bea")])
  {
    BeaIsFeasible(sc);
    hide FeasibleCaregivers, CareWindows;
  }

  lemma BeaHasHours()
    ensures OnlyHas(BeasDay(), [Hired("bea")])
  {
    AnnIsGone();
    hide AfterDecline, OnlyHas, Hired, Gone;
    assert [Gone()] + [Hired("bea")] == [Gone(), Hired("bea")];
    OnlyBeaHas(BeasDay());
  }

  // ---------------------------------------------------------------- when research can help

  /** Without anybody's hours known options are insufficient, and only the day itself is asked for. */
  lemma NobodySuffices(sc: Scenario, scope: Option<Scope>)
    requires OnlyHas(sc, []) && (scope == None || scope == Some(Scope([ALL_DAY], [])))
    ensures NeedOf(sc, scope).Ok? && !Service.KnownOptionsSuffice(sc, scope)
    ensures forall w :: w in NeedOf(sc, scope).value.requested ==> Within(w, ALL_DAY)
  {
    OffersOfOne(sc, [], scope);
    assert sc.required == ALL_DAY;
    hide Offered, OfferedCare, OnlyHas, MatrixOf;
    if HasFullDay([], sc.required, sc.home) {
      var path: seq<Primitive> :| FullDay([], sc.required, sc.home, path);
      FullDayNonempty([], sc.required, sc.home, path);
    }
    NoDayNoClash(sc, scope);
    var m := MatrixOf(sc, scope).value;
    MatrixIsEmptyWithoutFullDay(sc, scope, m);
    GapMeaning([], sc.required, sc.home, m.gap);
  }

  lemma BothQualify(sc: Scenario, requested: seq<Window>)
    requires sc == NobodyKnown().(caregivers := sc.caregivers) && forall w :: w in requested ==> Within(w, ALL_DAY)
    ensures EligibleCandidates(sc, requested) == [Found("ann"), Found("bea")]
  {
    forall name ensures Qualifies(sc, Found(name), requested) && Presented(sc, Found(name)) == Found(name) {
      assert ALL_DAY in Found(name).availability;
    }
    hide Qualifies, Presented, Found;
    FlatMapTwo(Found("ann"), Found("bea"), (c: Candidate) =>
      if Qualifies(sc, c, requested) then [Presented(sc, c)] else []);
  }

  lemma CompletesTheDay(sc: Scenario, c: Caregiver, scope: Option<Scope>)
    requires OnlyHas(sc, [c]) && (scope == None || scope == Some(Scope([ALL_DAY], [])))
    ensures MatrixOf(sc, scope).Ok? && GateAccepts(MatrixOf(sc, scope).value, c.id, [])
  {
    var p := AllDayBy(c);
    OffersOfOne(sc, [c], scope);
    assert sc.required == ALL_DAY && sc.home == "home" && c in [c] && c.location == "home";
    hide Offered, OfferedCare, OnlyHas, MatrixOf, FullDay;
    DistinctOffersDoNotClash(sc, scope);
    OnePrimitiveIsADay([p], p, sc.required, sc.home);
    assert p in [p] && OnFullDay([p], sc.required, sc.home, p);
    MatrixIsExact(sc, scope, MatrixOf(sc, scope).value, p);
  }

  /** Before the start: nobody known can look after the child, but Ann, once found, can. */
  lemma AnnIsFound()
    ensures NeedOf(NobodyKnown(), None).Ok? && !Service.KnownOptionsSuffice(NobodyKnown(), None)
    ensures Found("ann") in EligibleCandidates(NobodyKnown(), NeedOf(NobodyKnown(), None).value.requested)
    ensures Planable(NobodyKnown(), Found("ann"), None)
    ensures Service.Recoverable(NobodyKnown(), None, NeedOf(NobodyKnown(), None).value)
  {
    AnnHasHours();
    hide OnlyHas, MatrixOf, Offered, HasFullDay, GateAccepts, Found;
    NobodySuffices(NobodyKnown(), None);
    BothQualify(NobodyKnown(), NeedOf(NobodyKnown(), None).value.requested);
    CompletesTheDay(WithAnn(), Hired("ann"), None);
  }

  /** After Ann has declined the whole day: the same with Bea. */
  lemma BeaIsFound()
    ensures var sc, scope := WithoutAnn(), Some(Scope([ALL_DAY], []));
      && NeedOf(sc, scope).Ok? && !Service.KnownOptionsSuffice(sc, scope)
      && Found("bea") in EligibleCandidates(sc, NeedOf(sc, scope).value.requested)
      && Planable(sc, Found("bea"), scope) && Service.Recoverable(sc, scope, NeedOf(sc, scope).value)
  {
    AnnIsGone();
    NobodyHasHours();
    BeaHasHours();
    hide AfterDecline;
    BeaCompletes(WithoutAnn());
  }

  lemma BeaCompletes(sc: Scenario)
    requires sc == NobodyKnown().(caregivers := sc.caregivers)
    requires OnlyHas(sc, []) && OnlyHas(WithCaregiver(sc, Hired("bea")), [Hired("bea")])
    ensures var scope := Some(Scope([ALL_DAY], []));
      && NeedOf(sc, scope).Ok? && !Service.KnownOptionsSuffice(sc, scope)
      && Found("bea") in EligibleCandidates(sc, NeedOf(sc, scope).value.requested)
      && Planable(sc, Found("bea"), scope) && Service.Recoverable(sc, scope, NeedOf(sc, scope).value)
  {
    var scope := Some(Scope([ALL_DAY], []));
    BeaIsPlanable(sc);
    hide OnlyHas, MatrixOf, NeedFrom, Offered, HasFullDay, Planable, Found, NobodyKnown, EligibleCandidates,
         Service.KnownOptionsSuffice;
    NobodySuffices(sc, scope);
    BothQualify(sc, NeedOf(sc, scope).value.requested);
  }

  lemma BeaIsPlanable(sc: Scenario)
    requires sc == NobodyKnown().(caregivers := sc.caregivers)
    requires OnlyHas(WithCaregiver(sc, Hired("bea")), [Hired("bea")])
    ensures Planable(sc, Found("bea"), Some(Scope([ALL_DAY], [])))
  {
    assert AsCaregiver(sc, Found("bea")) == Hired("bea");
    assert Hired("bea").id == Found("bea").id == "bea";
    hide OnlyHas, MatrixOf, GateAccepts, Found, Hired, NobodyKnown, WithCaregiver, AsCaregiver;
    CompletesTheDay(WithCaregiver(sc, Hired("bea")), Hired("bea"), Some(Scope([ALL_DAY], [])));
  }

  // ---------------------------------------------------------------- plans made of what was found

  function CareBy(name: string): Segment {
    SegmentOf(AllDayBy(Hired(name)))
  }

  lemma CareByParts(name: string)
    ensures var s := CareBy(name);
      s.source.ByCaregiver? && s.kind.Care? && s.person == name && s.window == ALL_DAY && s.id == CareId(name, 0)
  {
  }

  /** Whoever was found may take the whole day, and is free of charge. */
  lemma CaresAllDay(sc: Scenario, name: string) returns (s: Segment)
    requires sc == NobodyKnown().(caregivers := sc.caregivers) && UniquePeople(sc) && Hired(name) in sc.caregivers
    ensures var v := Validation(sc, PlanOf([CareBy(name)]));
      && v.valid && v.plan.state.Valid? && !v.requiresApproval && v.plan.reasons == [] && v.cost == 0.0
      && v.plan.segments == [s] && v.plan.assumptions == [] && s == CareBy(name).(cost := s.cost)
    ensures RepairValidation(sc, PlanOf([CareBy(name)]), []) == Validation(sc, PlanOf([CareBy(name)]))
  {
    var c, care := Hired(name), CareBy(name);
    IsFree(sc, name);
    PassesAllDay(sc, name);
    CareByParts(name);
    OneInOrder(care);
    assert sc.required == ALL_DAY;
    hide SafeDay, Findings, InOrder, SegmentOk, SegmentPrice, NobodyKnown, Hired, CareBy;
    OnePartIsSafe(sc, care);
    ValidMeansSafe(sc, PlanOf([care]));
    s := OneFreeSegment(sc, care);
  }

  lemma PassesAllDay(sc: Scenario, name: string)
    requires sc == NobodyKnown().(caregivers := sc.caregivers) && UniquePeople(sc) && Hired(name) in sc.caregivers
    ensures SegmentOk(sc, CareBy(name), [])
  {
    var c := Hired(name);
    assert FitsOne(ALL_DAY, c.availability) by { assert ALL_DAY in c.availability; }
    hide CareId, SegmentOk;
    CaregiverCarePasses(sc, AllDayBy(c), c);
  }

  lemma IsFree(sc: Scenario, name: string)
    requires UniquePeople(sc) && Hired(name) in sc.caregivers
    ensures SegmentPrice(sc, CareBy(name), {}) == 0.0
  {
    UniqueFind(sc, Hired(name));
    hide Find, CareId;
  }

  lemma OneFreeSegment(sc: Scenario, s: Segment) returns (priced: Segment)
    requires SegmentPrice(sc, s, {}) == 0.0
    ensures Priced(sc, [s], {}) == [priced] && priced == s.(cost := priced.cost) && TotalCost(sc, [s]) == 0.0
  {
    hide SegmentPrice, ChargedAfter, Cents;
    assert [s][1..] == [];
    TenIsAThousandCents();
    priced := s.(cost := RoundToCent(SegmentPrice(sc, s, {})));
    assert TotalCents(sc, [], ChargedAfter(sc, s, {})) == 0;
    assert TotalCents(sc, [s], {}) == 0;
  }

  function AnnsVerdict(): Verdict {
    Validation(WithAnn(), PlanOf([CareBy("ann")]))
  }

  function AnnStarts(): Case {
    Stored(StartedCase("case", "grandmother", NobodyKnown(), AnnsVerdict().plan, Some(Found("ann"))), 0)
  }

  function AnnsChecked(): Verdict {
    AnnsVerdict().(plan := AcceptPlan(AnnsVerdict().plan, "case", []))
  }

  /** Ann's plan after its gate, which has no reason to ask. */
  function AnnsCase(): Case {
    Stored(AnnStarts().(status := Executing, plan := Some(AnnsChecked().plan)), 1)
  }

  /** What the replan asks for once Ann has declined: Bea for the whole day. */
  function BeaInstead(): Service.Proposal {
    Service.Proposal(PlanOf([CareBy("bea")]), Some(Found("bea")))
  }

  function BeasVerdict(): Verdict {
    RepairValidation(BeasDay(), PlanOf([CareBy("bea")]), [])
  }

  lemma AnnsPlan() returns (s: Segment)
    ensures var v := AnnsVerdict();
      && v.valid && v.plan.state.Valid? && !v.requiresApproval && v.plan.reasons == [] && v.cost == 0.0
      && v.plan.segments == [s] && v.plan.assumptions == []
    ensures s.source.ByCaregiver? && s.kind.Care? && s.person == "ann" && s.window == ALL_DAY
  {
    assert UniquePeople(WithAnn());
    hide Validation, CareBy;
    s := CaresAllDay(WithAnn(), "ann");
    CareByParts("ann");
  }

  lemma BeasPlan()
    ensures BeasVerdict().valid
  {
    AnnIsGone();
    hide AfterDecline, Validation, RepairValidation, CareBy;
    assert BeasDay().caregivers == [Gone()] + [Hired("bea")];
    assert UniquePeople(BeasDay());
    var s := CaresAllDay(BeasDay(), "bea");
  }

  // ---------------------------------------------------------------- the case

  lemma AnnStartsWith() returns (s: Segment)
    ensures var c := AnnStarts();
      && c.plan.Some? && c.plan.value == AnnsVerdict().plan.(id := c.plan.value.id, assumptions := c.assumptions)
      && c.assumptions == [AvailabilityAssumption(c.plan.value.id, s)] && c.plan.value.segments == [s]
      && NoDecline(c.events) && EventIds(c.events) == {DisruptionOf("case")}
      && c.context == Context(NobodyKnown(), Some(Found("ann"))) && c.version == 1 && c.approvals == []
    ensures s.source.ByCaregiver? && s.kind.Care? && s.person == "ann" && s.window == ALL_DAY
  {
    s := AnnsPlan();
    AnnsEvents();
    hide Validation, StartedCase, EventIds, CareBy, PlanOf;
    StartAssumes(AnnsVerdict().plan, s, NobodyKnown(), Some(Found("ann")));
  }

  lemma AnnsEvents()
    ensures NoDecline(AnnStarts().events) && AnnStarts().version == 1 && AnnStarts().approvals == []
  {
    hide Validation, AcceptPlan, MaterializeAssumptions;
  }

  lemma AcceptedPlanIsTheSame(plan: Plan)
    ensures var accepted := AcceptPlan(plan, "case", []);
      accepted == plan.(id := accepted.id, assumptions := accepted.assumptions)
    ensures var c := StartedCase("case", "grandmother", NobodyKnown(), plan, Some(Found("ann")));
      c.plan.Some? && c.plan.value.id == AcceptPlan(plan, "case", []).id
  {
    hide FreshSequence, NobodyKnown, Found;
  }

  lemma GateClearsAnn()
    ensures var gated := GateAttempt(AnnStarts(), AnnsChecked(), NobodyKnown().policy, "request");
      gated.Some? && AnnsCase() == Stored(gated.value, 1)
  {
    var s := AnnsPlan();
    AcceptedPlanIsTheSame(AnnsVerdict().plan);
    hide Validation, AcceptPlan, StartedCase, CareBy, PlanOf;
  }

  lemma AnnsCaseWith() returns (s: Segment)
    ensures var c := AnnsCase();
      && c.plan.Some? && c.plan.value.state.Valid? && c.plan.value.segments == [s]
      && c.assumptions == [AvailabilityAssumption(c.plan.value.id, s)]
      && NoDecline(c.events) && EventIds(c.events) == {DisruptionOf("case")}
      && c.context == Context(NobodyKnown(), Some(Found("ann"))) && c.version == 2
    ensures s.source.ByCaregiver? && s.kind.Care? && s.person == "ann" && s.window == ALL_DAY
  {
    var first := AnnStartsWith();
    s := AnnsPlan();
    AcceptedPlanIsTheSame(AnnsVerdict().plan);
    hide Validation, AcceptPlan, AnnStarts, CareBy, PlanOf, NoDecline, EventIds;
    assert AnnStarts().plan.value.id == AnnsChecked().plan.id by { AnnsIds(); }
  }

  lemma AnnsIds()
    ensures AnnStarts().plan.Some? && AnnStarts().plan.value.id == AnnsChecked().plan.id
  {
    AcceptedPlanIsTheSame(AnnsVerdict().plan);
    hide Validation, AcceptPlan, StartedCase;
  }

  lemma AnnsCaseReplays(c: Case)
    requires NoDecline(c.events) && c.context == Context(NobodyKnown(), Some(Found("ann")))
    ensures ScenarioFor(c) == Ok(WithAnn())
  {
    var base := WithAnn();
    assert BaseScenario(c.context) == Ok(base);
    ReplaySkipsOtherEvents(base, [], c.events);
    assert [] + c.events == c.events;
  }

  lemma AnnDeclines(c: Case, s: Segment) returns (o: Outcome)
    requires c.plan.Some? && c.plan.value.state.Valid? && c.plan.value.segments == [s]
    requires c.assumptions == [AvailabilityAssumption(c.plan.value.id, s)] && Named("decline") !in EventIds(c.events)
    requires s.source.ByCaregiver? && s.kind.Care? && s.person == "ann" && s.window == ALL_DAY
    ensures DeclineOutcome(c, WithAnn(), ANN_DECLINES) == Ok(o)
    ensures o.preserved == [] && o.uncovered == [ALL_DAY] && o.scenario == WithoutAnn()
  {
    hide DeclineOutcome, EventIds;
    assert Hired("ann") in WithAnn().caregivers;
    OnlySegmentDeclined(c, WithAnn(), ANN_DECLINES, s, AvailabilityAssumption(c.plan.value.id, s));
    o := DeclineOutcome(c, WithAnn(), ANN_DECLINES).value;
    OnlySegmentIsUncovered(c, WithAnn(), ANN_DECLINES, s, o);
  }

  /** The decline of somebody the snapshot does not know cannot be replayed. */
  lemma StrangersDeclineFails(c: Case, before: seq<Event>, e: Event)
    requires c.events == before + [e] && e.kind == CaregiverDeclined("ann", ALL_DAY) && NoDecline(before)
    requires c.context == Context(NobodyKnown(), Some(Found("bea")))
    ensures ScenarioFor(c) == Err(UnknownDecliner)
  {
    var base := WithCaregiver(NobodyKnown(), Hired("bea"));
    assert BaseScenario(c.context) == Ok(base);
    ReplaySkipsOtherEvents(base, [], before);
    assert [] + before == before;
    assert c.events[..|c.events|-1] == before;
    assert !Knows(base, "ann");
  }

  lemma BeasRepairIsLost(c: Case, o: Outcome, stored: Case)
    requires DeclineOutcome(c, WithAnn(), ANN_DECLINES) == Ok(o) && NoDecline(c.events)
    requires c.context == Context(NobodyKnown(), Some(Found("ann")))
    requires stored == Stored(AcceptedCase(c, o, BeasVerdict(), Some(Found("bea"))), c.version)
    ensures ScenarioFor(stored) == Err(UnknownDecliner)
  {
    hide RepairValidation, DeclineOutcome, NoDecline, AcceptedCase, ScenarioFor, WithAnn, BeasDay, Found, NobodyKnown;
    OutcomeKeepsContext(c, WithAnn(), ANN_DECLINES, o);
    DeclineIsRecorded(c, WithAnn(), ANN_DECLINES, o);
    AcceptedPlanIsFresh(c, o, BeasVerdict(), Some(Found("bea")));
    AcceptedContext(c, o, BeasVerdict(), Some(Found("bea")));
    StrangersDeclineFails(stored, c.events, Event(Named("decline"), CaregiverDeclined("ann", ALL_DAY)));
  }

  // ---------------------------------------------------------------- the run

  /** The case can be rebuilt into the scenario of its plan, Ann's decline opens the whole day, and the
      stored repair with Bea is the one the validator accepts for the scenario she was found for. */
  ghost predicate RepairedByResearch(before: Case, o: Outcome, after: Case) {
    && ScenarioFor(before) == Ok(WithAnn()) && DeclineOutcome(before, WithAnn(), ANN_DECLINES) == Ok(o)
    && o.preserved == [] && o.uncovered == [ALL_DAY] && o.scenario == WithoutAnn()
    && Service.ScenarioWith(o.scenario, BeaInstead()) == Ok(BeasDay())
    && RepairValidation(BeasDay(), BeaInstead().plan, o.preserved).valid
    && after == Stored(AcceptedCase(before, o, RepairValidation(BeasDay(), BeaInstead().plan, o.preserved),
                                    BeaInstead().researched), before.version)
  }

  lemma AnnsRun()
    ensures Moves(Empty(), System([AnnStarts()], map[0 := BeforeGate(AnnStarts(), AnnsChecked())]), "case")
    ensures Moves(System([AnnStarts()], map[0 := BeforeGate(AnnStarts(), AnnsChecked())]),
                  Quiet([AnnStarts()] + [AnnsCase()]), "case")
    ensures Sound(AnnsCase())
  {
    var policy := NobodyKnown().policy;
    var s := AnnStartsWith();
    var priced := AnnsPlan();
    GateClearsAnn();
    Service.ValidationIsFromValidator(WithAnn(), PlanOf([CareBy("ann")]));
    hide Validation, StartedCase, AcceptPlan, FromValidator, Moves, WithAnn, NobodyKnown, PlanOf, CareBy, Found,
         GateAttempt, AnnsCase, Sound, NoDecline, EventIds;
    StartMoves(AnnsVerdict(), NobodyKnown(), Some(Found("ann")), AnnStarts(), AnnsChecked());
    var next := GateAttempt(AnnStarts(), AnnsChecked(), policy, "request").value;
    GatedStartIsSound(AnnsVerdict(), NobodyKnown(), Some(Found("ann")), AnnStarts(), AnnsChecked(), policy,
                      "request", next);
    hide AnnStarts, AnnsChecked, AnnsVerdict;
    GateMoves([AnnStarts()], AnnStarts(), AnnsChecked(), policy, "request", next);
  }

  lemma BeasScenario()
    ensures Service.ScenarioWith(WithoutAnn(), BeaInstead()) == Ok(BeasDay())
  {
    AnnIsGone();
    hide AfterDecline;
  }

  function AskForBea(): Operation {
    AcceptReplan(ANN_DECLINES, WithAnn(), BeasVerdict(), Some(Found("bea")))
  }

  ghost predicate AnnHasTheDay(c: Case, s: Segment) {
    && c.plan.Some? && c.plan.value.state.Valid? && c.plan.value.segments == [s]
    && c.assumptions == [AvailabilityAssumption(c.plan.value.id, s)] && Named("decline") !in EventIds(c.events)
    && s.source.ByCaregiver? && s.kind.Care? && s.person == "ann" && s.window == ALL_DAY
    && c.context == Context(NobodyKnown(), Some(Found("ann"))) && NoDecline(c.events)
  }

  lemma BeaIsStored(c: Case, o: Outcome) returns (stored: Case)
    requires Sound(c) && DeclineOutcome(c, WithAnn(), ANN_DECLINES) == Ok(o) && o.preserved == []
    ensures Vetted(AskForBea()) && Attempt(c, AskForBea()).Some?
    ensures stored == Stored(Attempt(c, AskForBea()).value, c.version) && stored.plan.Some?
    ensures stored.status.Executing?
    ensures stored == Stored(AcceptedCase(c, o, BeasVerdict(), Some(Found("bea"))), c.version)
  {
    BeasPlan();
    hide Sound, WithAnn, BeasDay, RepairValidation, PlanOf, CareBy, Found, DeclineOutcome, AcceptedCase, Attempt,
         Vetted, GateReady;
    stored := RepairIsStored(c, AskForBea(), BeasDay(), PlanOf([CareBy("bea")]), o);
  }

  /** Ann declines, and the repair with Bea is accepted. */
  lemma BeaReplacesAnn(c: Case, s: Segment) returns (o: Outcome, stored: Case)
    requires Sound(c) && AnnHasTheDay(c, s)
    ensures Vetted(AskForBea()) && Attempt(c, AskForBea()).Some?
    ensures stored == Stored(Attempt(c, AskForBea()).value, c.version) && stored.plan.Some?
    ensures RepairedByResearch(c, o, stored) && stored.status.Executing? && ScenarioFor(stored) == Err(UnknownDecliner)
  {
    BeasPlan();
    BeasScenario();
    hide Sound, WithAnn, BeasDay, WithoutAnn, RepairValidation, NobodyKnown, PlanOf, CareBy, Found, DeclineOutcome,
         NoDecline, ScenarioFor, AcceptedCase, EventIds, Attempt, Vetted, Service.ScenarioWith, AvailabilityAssumption,
         AskForBea;
    AnnsCaseReplays(c);
    o := AnnDeclines(c, s);
    stored := BeaIsStored(c, o);
    BeasRepairIsLost(c, o, stored);
  }

  lemma StepsMakeARun(first: Case, checked: Verdict, c: Case, stored: Case, v: Verdict) returns (run: seq<System>)
    requires Moves(Empty(), System([first], map[0 := BeforeGate(first, checked)]), "case")
    requires Moves(System([first], map[0 := BeforeGate(first, checked)]), Quiet([first] + [c]), "case")
    requires Moves(Quiet([first] + [c]), Reading([first] + [c]), "case")
    requires Moves(Reading([first] + [c]), System([first] + [c] + [stored], map[0 := BeforeGate(stored, v)]), "case")
    ensures Run(run, "case") && run[|run|-1].log == [first, c, stored]
  {
    hide Moves;
    var log := [first] + [c];
    run := [Empty(), System([first], map[0 := BeforeGate(first, checked)]), Quiet(log), Reading(log),
            System(log + [stored], map[0 := BeforeGate(stored, v)])];
    hide Quiet, Reading;
  }

  lemma AnnsCaseIsHers() returns (s: Segment)
    ensures AnnHasTheDay(AnnsCase(), s)
  {
    s := AnnsCaseWith();
    hide AnnsCase, EventIds, NoDecline, AvailabilityAssumption;
  }

  /** A run ends with the repair stored and executing, and from then on the case can no longer be rebuilt
      into any scenario. */
  lemma SecondResearchIsLost() returns (run: seq<System>, o: Outcome)
    ensures Run(run, "case") && |run[|run|-1].log| == 3
    ensures var log := run[|run|-1].log;
      && RepairedByResearch(log[1], o, log[2]) && log[2].status.Executing?
      && ScenarioFor(log[2]) == Err(UnknownDecliner)
  {
    var c, stored := AnnsCase(), AnnsCase();
    var s := AnnsCaseIsHers();
    AnnsRun();
    AskParts();
    hide Moves, Sound, AnnsCase, AnnStarts, AnnsChecked, RepairedByResearch, AnnHasTheDay, ScenarioFor, AskForBea,
         Attempt, Vetted, Run;
    o, stored := BeaReplacesAnn(c, s);
    var v := BeasVerdict().(plan := stored.plan.value);
    hide BeasVerdict;
    ReadAndReplan([AnnStarts()] + [c], AskForBea(), v);
    run := StepsMakeARun(AnnStarts(), AnnsChecked(), c, stored, v);
  }

  lemma AskParts()
    ensures AskForBea().AcceptReplan? && AskForBea().verdict == BeasVerdict()
  {
  }
}
