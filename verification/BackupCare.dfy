/** When are known options enough, which researched providers qualify, and which of them can
    complete a day. Rankings come from outside and are arbitrary. */
module BackupCare {
  import opened Prelude
  import opened Sorting
  import opened Intervals
  import opened Domain
  import opened ValidationRules
  import opened FeasibilityGraph
  import opened AssignmentMatrix

  datatype RecoveryNeed = RecoveryNeed(
    requested: seq<Window>, insufficient: bool, researchNeeded: bool, considered: seq<string>)

  function NeedFrom(sc: Scenario, scope: Option<Scope>, m: Matrix): RecoveryNeed {
    var insufficient := m.care == [] && m.transport == [];
    var requested :=
      if insufficient && scope.Some? && scope.value.affected != [] then scope.value.affected
      else if insufficient then m.gap else [];
    RecoveryNeed(requested, insufficient, insufficient && sc.policy.allowExternal,
                 Map(sc.caregivers, (c: Caregiver) => c.id))
  }

  ghost function NeedOf(sc: Scenario, scope: Option<Scope>): Result<RecoveryNeed, MatrixError> {
    match MatrixOf(sc, scope)
    case Ok(m) => Ok(NeedFrom(sc, scope, m))
    case Err(e) => Err(e)
  }

  /** Known options are insufficient precisely when no complete day exists, and then there is always
      something to ask for. */
  lemma NeedMeansNoFullDay(sc: Scenario, scope: Option<Scope>, need: RecoveryNeed)
    requires NeedOf(sc, scope) == Ok(need)
    ensures need.insufficient <==> !HasFullDay(Offered(sc, scope), sc.required, sc.home)
    ensures need.requested == [] <==> !need.insufficient
    ensures need.researchNeeded <==> need.insufficient && sc.policy.allowExternal
  {
    MatrixIsEmptyWithoutFullDay(sc, scope, MatrixOf(sc, scope).value);
  }

  /** The need read off a freshly built matrix: insufficient exactly when no complete day of offered
      primitives exists; then the affected windows are requested, or else the smallest gap. */
  method AssessKnownOptionRecoveryNeed(sc: Scenario, scope: Option<Scope>)
    returns (r: Result<RecoveryNeed, MatrixError>)
    ensures r == NeedOf(sc, scope)
    ensures r.Ok? ==> (r.value.insufficient <==> !HasFullDay(Offered(sc, scope), sc.required, sc.home))
    ensures r.Ok? ==> (r.value.researchNeeded <==> r.value.insufficient && sc.policy.allowExternal)
    ensures r.Ok? ==> if !r.value.insufficient then r.value.requested == []
                      else if scope.Some? && scope.value.affected != [] then r.value.requested == scope.value.affected
                      else IsGap(Offered(sc, scope), sc.required, sc.home, r.value.requested)
    ensures r.Ok? ==> |r.value.considered| == |sc.caregivers|
    ensures r.Ok? ==> forall i :: 0 <= i < |sc.caregivers| ==> r.value.considered[i] == sc.caregivers[i].id
  {
    hide MatrixOf, HasFullDay, IsGap, Offered;
    var built := BuildFeasibleAssignmentMatrix(sc, scope);
    if built.Err? {
      return Err(built.error);
    }
    var m := built.value;
    MatrixIsEmptyWithoutFullDay(sc, scope, m);
    var insufficient := m.care == [] && m.transport == [];
    assert m.care + m.transport == [] <==> insufficient;
    var uncovered := [];
    if insufficient {
      uncovered := m.gap;
      if scope.Some? {
        if scope.value.affected != [] {
          uncovered := scope.value.affected;
        }
      }
    }
    var considered := CaregiverIds(sc);
    r := Ok(RecoveryNeed(uncovered, insufficient, insufficient && sc.policy.allowExternal, considered));
  }

  method CaregiverIds(sc: Scenario) returns (considered: seq<string>)
    ensures considered == Map(sc.caregivers, (c: Caregiver) => c.id)
  {
    considered := [];
    for i := 0 to |sc.caregivers|
      invariant considered == Map(sc.caregivers[..i], (c: Caregiver) => c.id)
    {
      considered := considered + [sc.caregivers[i].id];
    }
    assert sc.caregivers[..|sc.caregivers|] == sc.caregivers;
  }

  // ---------------------------------------------------------------- eligibility

  datatype Ineligibility =
    | ExternalDisabled | Unavailable | Unverified | BackgroundCheckRequired | AgeUnsupported

  function Presented(sc: Scenario, c: Candidate): Candidate {
    if sc.policy.allowProviderTransport then c else c.(drives := false)
  }

  predicate CoversAll(windows: seq<Window>, availability: seq<Window>) {
    forall w :: w in windows ==> FitsOne(w, availability)
  }

  predicate Qualifies(sc: Scenario, c: Candidate, requested: seq<Window>) {
    && sc.policy.allowExternal
    && CoversAll(requested, c.availability)
    && (sc.policy.requireVerified ==> c.verified)
    && (sc.policy.requireBackgroundCheck ==> c.backgroundChecked)
    && c.minimumAge <= sc.childAge <= c.maximumAge
  }

  function EligibleCandidates(sc: Scenario, requested: seq<Window>): seq<Candidate> {
    FlatMap(sc.candidates, (c: Candidate) => if Qualifies(sc, c, requested) then [Presented(sc, c)] else [])
  }

  method HardReasons(sc: Scenario, c: Candidate, requested: seq<Window>) returns (codes: seq<Ineligibility>)
    ensures codes == [] <==> Qualifies(sc, c, requested)
    ensures Unavailable in codes <==> exists w :: w in requested && forall a :: a in c.availability ==> !Within(w, a)
    ensures ExternalDisabled in codes <==> !sc.policy.allowExternal
    ensures Unverified in codes <==> sc.policy.requireVerified && !c.verified
    ensures BackgroundCheckRequired in codes <==> sc.policy.requireBackgroundCheck && !c.backgroundChecked
    ensures AgeUnsupported in codes <==> !(c.minimumAge <= sc.childAge <= c.maximumAge)
  {
    codes := [];
    if !sc.policy.allowExternal {
      codes := codes + [ExternalDisabled];
    }
    if !CoversAll(requested, c.availability) {
      codes := codes + [Unavailable];
    }
    if sc.policy.requireVerified && !c.verified {
      codes := codes + [Unverified];
    }
    if sc.policy.requireBackgroundCheck && !c.backgroundChecked {
      codes := codes + [BackgroundCheckRequired];
    }
    if !(c.minimumAge <= sc.childAge <= c.maximumAge) {
      codes := codes + [AgeUnsupported];
    }
  }

  /** Allowed by policy, available for each requested window in one piece, vetted as far as the family
      requires, and for children of this age. */
  predicate Recommended(sc: Scenario, c: Candidate, requested: seq<Window>) {
    && sc.policy.allowExternal
    && (forall w :: w in requested ==> exists a :: a in c.availability && a.start <= w.start && w.end <= a.end)
    && (c.verified || !sc.policy.requireVerified) && (c.backgroundChecked || !sc.policy.requireBackgroundCheck)
    && c.minimumAge <= sc.childAge && sc.childAge <= c.maximumAge
  }

  /** c is such a provider, who is not said to drive unless the family lets providers drive. */
  ghost predicate MayBeFound(sc: Scenario, requested: seq<Window>, c: Candidate) {
    exists x :: x in sc.candidates && Recommended(sc, x, requested) && c == AsTheFamilyAllows(sc, x)
  }

  function AsTheFamilyAllows(sc: Scenario, x: Candidate): Candidate {
    x.(drives := x.drives && sc.policy.allowProviderTransport)
  }

  lemma EligibleMeaning(sc: Scenario, requested: seq<Window>)
    ensures forall c :: c in EligibleCandidates(sc, requested) <==> MayBeFound(sc, requested, c)
  {
    var pick := (c: Candidate) => if Qualifies(sc, c, requested) then [Presented(sc, c)] else [];
    forall c: Candidate
      ensures Qualifies(sc, c, requested) <==> Recommended(sc, c, requested)
      ensures Presented(sc, c) == AsTheFamilyAllows(sc, c)
    {
    }
    hide Qualifies, Recommended, Presented, AsTheFamilyAllows;
    forall c: Candidate ensures c in EligibleCandidates(sc, requested) <==> MayBeFound(sc, requested, c) {
      FlatMapMember(sc.candidates, pick, c);
    }
  }

  method SearchBackupCareCandidates(sc: Scenario, requested: seq<Window>) returns (eligible: seq<Candidate>)
    ensures eligible == EligibleCandidates(sc, requested)
    ensures forall c :: c in eligible <==> MayBeFound(sc, requested, c)
  {
    EligibleMeaning(sc, requested);
    eligible := [];
    ghost var pick := (c: Candidate) => if Qualifies(sc, c, requested) then [Presented(sc, c)] else [];
    for i := 0 to |sc.candidates|
      invariant eligible == FlatMap(sc.candidates[..i], pick)
    {
      FlatMapStep(sc.candidates, i, pick);
      var codes := HardReasons(sc, Presented(sc, sc.candidates[i]), requested);
      if codes == [] {
        eligible := eligible + [Presented(sc, sc.candidates[i])];
      }
    }
    assert sc.candidates[..|sc.candidates|] == sc.candidates;
  }

  // ---------------------------------------------------------------- adding one

  function AsCaregiver(sc: Scenario, c: Candidate): Caregiver {
    Caregiver(c.id, c.verified && c.backgroundChecked, c.availability, c.price, 0, c.known, true,
              c.location, c.travelMinutes, c.drives && sc.policy.allowProviderTransport)
  }

  function WithCaregiver(sc: Scenario, c: Caregiver): Scenario {
    sc.(caregivers := sc.caregivers + [c])
  }

  /** What a researched provider may do in the scenario they are added to: look after the child when the
      family allows outsiders and either they are vetted or it asks for no vetting, in their own hours, at
      their own place, with no buffer of their own, and drive only where the family lets providers drive. */
  lemma ResearchedIsHeldToTheRules(sc: Scenario, c: Candidate, s: Segment)
    requires UniquePeople(WithCaregiver(sc, AsCaregiver(sc, c))) && s.source.ByCaregiver? && s.person == c.id
    ensures var after := WithCaregiver(sc, AsCaregiver(sc, c));
      && (AssignmentOk(after, s) <==>
            && c.id !in sc.unavailable && sc.policy.allowExternal
            && ((c.verified && c.backgroundChecked) || (!sc.policy.requireTrusted && sc.policy.allowUnapproved))
            && exists a :: a in c.availability && Within(s.window, a))
      && (s.kind.Care? ==> (PlaceOk(after, s) <==> s.location == c.location))
      && RequiredBuffer(after, s) == sc.policy.handoffMinutes
      && (forall trip :: DriverOk(after, c.id, trip) <==>
            c.drives && sc.policy.allowProviderTransport && sc.policy.allowExternal && FitsOne(trip, c.availability))
  {
    var after := WithCaregiver(sc, AsCaregiver(sc, c));
    assert after.caregivers[|sc.caregivers|] == AsCaregiver(sc, c);
    UniqueFind(after, AsCaregiver(sc, c));
    ByKeyLookup(after.transport, (t: ParentTransport) => t.parent, c.id);
  }

  /** ... and cost what they ask for, as somebody from outside. */
  lemma ResearchedIsPaidAsAsked(sc: Scenario, c: Candidate)
    ensures var added := AsCaregiver(sc, c);
      && added.id == c.id && added.price == c.price && added.external && added.known == c.known
      && added.travelMinutes == c.travelMinutes && added.location == c.location && added.availability == c.availability
      && (added.drives <==> c.drives && sc.policy.allowProviderTransport)
  {
  }

  datatype ResearchError = ExternalProvidersDisabled

  function AddResearchedCaregiver(sc: Scenario, c: Candidate): Result<Scenario, ResearchError> {
    if sc.policy.allowExternal then Ok(WithCaregiver(sc, AsCaregiver(sc, c)))
    else Err(ExternalProvidersDisabled)
  }

  /** A researched provider is added, behind everybody known, exactly when the family allows outsiders. */
  lemma ResearchNeedsPermission(sc: Scenario, c: Candidate)
    ensures AddResearchedCaregiver(sc, c).Ok? <==> sc.policy.allowExternal
    ensures AddResearchedCaregiver(sc, c).Ok? ==>
      AddResearchedCaregiver(sc, c).value == sc.(caregivers := sc.caregivers + [AsCaregiver(sc, c)])
  {
  }

  // ---------------------------------------------------------------- who can complete the day

  function PreservedIn(scope: Option<Scope>): seq<Segment> {
    if scope.Some? then scope.value.preserved else []
  }

  /** The gate: something survives, every preserved id is an immutable survivor, and the candidate
      has surviving care. */
  predicate GateAccepts(m: Matrix, candidateId: string, preserved: seq<Segment>) {
    && m.care + m.transport != []
    && (forall s :: s in preserved ==> exists p :: p in m.care + m.transport && p.immutable && p.id == s.id)
    && exists p :: p in m.care && p.person == candidateId
  }

  ghost predicate Planable(sc: Scenario, c: Candidate, scope: Option<Scope>) {
    var m := MatrixOf(WithCaregiver(sc, AsCaregiver(sc, c)), scope);
    m.Ok? && GateAccepts(m.value, c.id, PreservedIn(scope))
  }

  ghost predicate Buildable(sc: Scenario, c: Candidate, scope: Option<Scope>) {
    MatrixOf(WithCaregiver(sc, AsCaregiver(sc, c)), scope).Ok?
  }

  ghost function PlanableIds(sc: Scenario, eligible: seq<Candidate>, scope: Option<Scope>): seq<string> {
    FlatMap(eligible, (c: Candidate) => if Planable(sc, c, scope) then [c.id] else [])
  }

  /** The eligible candidates that can complete the day; research compares at least two, so with
      fewer eligible ones the answer is none. */
  method PlanableResearchCandidateIds(sc: Scenario, need: RecoveryNeed, scope: Option<Scope>)
    returns (r: Result<seq<string>, MatrixError>)
    ensures var eligible := EligibleCandidates(sc, need.requested);
      if |eligible| < 2 then r == Ok([])
      else if forall c :: c in eligible ==> Buildable(sc, c, scope) then
        r == Ok(PlanableIds(sc, eligible, scope))
      else r == Err(DuplicatePrimitiveIds)
  {
    hide MatrixOf, GateAccepts;
    var eligible := SearchBackupCareCandidates(sc, need.requested);
    if |eligible| < 2 {
      return Ok([]);
    }
    var planable: seq<string> := [];
    ghost var pick := (c: Candidate) => if Planable(sc, c, scope) then [c.id] else [];
    for i := 0 to |eligible|
      invariant planable == FlatMap(eligible[..i], pick)
      invariant forall j :: 0 <= j < i ==> Buildable(sc, eligible[j], scope)
    {
      FlatMapStep(eligible, i, pick);
      var candidate := eligible[i];
      var m := BuildFeasibleAssignmentMatrix(WithCaregiver(sc, AsCaregiver(sc, candidate)), scope);
      if m.Err? {
        assert !Buildable(sc, candidate, scope) && candidate in eligible;
        return Err(DuplicatePrimitiveIds);
      }
      if GateAccepts(m.value, candidate.id, PreservedIn(scope)) {
        planable := planable + [candidate.id];
      }
    }
    assert eligible[..|eligible|] == eligible;
    r := Ok(planable);
  }

  datatype Ranked = Ranked(candidate: Candidate, rank: int)

  predicate RankLeq(a: Ranked, b: Ranked) {
    a.rank <= b.rank
  }

  datatype SelectionOutcome =
    | Selected(candidate: Candidate, scenario: Scenario, matrix: Matrix)
    | NoPlanableCandidate
    | BrokenMatrix

  /** Walk the ranking in order and stop at the first candidate that can complete the day. */
  method SelectPlanableResearchCandidate(sc: Scenario, ranking: seq<Ranked>, scope: Option<Scope>)
    returns (outcome: SelectionOutcome)
    ensures outcome.Selected? ==>
      && Planable(sc, outcome.candidate, scope)
      && outcome.scenario == WithCaregiver(sc, AsCaregiver(sc, outcome.candidate))
      && MatrixOf(outcome.scenario, scope) == Ok(outcome.matrix)
      && (exists r :: r in ranking && r.candidate == outcome.candidate
            && forall q :: q in ranking && q.rank < r.rank ==> !Planable(sc, q.candidate, scope))
    ensures outcome.NoPlanableCandidate? ==> forall r :: r in ranking ==> !Planable(sc, r.candidate, scope)
    ensures outcome.BrokenMatrix? ==> exists r :: r in ranking && !Buildable(sc, r.candidate, scope)
  {
    hide MatrixOf, GateAccepts, Sort, AsCaregiver, WithCaregiver, Reachable;
    var ordered := Sort(RankLeq, ranking);
    SortPermutes(RankLeq, ranking);
    SortOrders(RankLeq, ranking);
    for i := 0 to |ordered|
      invariant forall j :: 0 <= j < i ==> !Planable(sc, ordered[j].candidate, scope)
    {
      var candidate := ordered[i].candidate;
      var scenario := WithCaregiver(sc, AsCaregiver(sc, candidate));
      var m := BuildFeasibleAssignmentMatrix(scenario, scope);
      if m.Err? {
        assert !Buildable(sc, candidate, scope) && ordered[i] in ranking;
        return BrokenMatrix;
      }
      if GateAccepts(m.value, candidate.id, PreservedIn(scope)) {
        forall q | q in ranking && q.rank < ordered[i].rank ensures !Planable(sc, q.candidate, scope) {
          assert q in ordered;
          var j :| 0 <= j < |ordered| && ordered[j] == q;
          assert j < i;
        }
        assert ordered[i] in ranking;
        return Selected(candidate, scenario, m.value);
      }
    }
    forall r | r in ranking ensures !Planable(sc, r.candidate, scope) {
      assert r in ordered;
    }
    outcome := NoPlanableCandidate;
  }
}
