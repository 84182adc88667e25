/** The records of the recovery domain, with the invariants their constructors enforce. */
module Domain {
  import opened Prelude
  import opened Intervals

  type Money = r: real | 0.0 <= r

  /** A caregiver has at most one kind of price. */
  datatype Price = Unpriced | Hourly(rate: Money) | Flat(rate: Money)

  datatype Caregiver = Caregiver(
    id: string, trusted: bool, availability: seq<Window>, price: Price, handoffMinutes: nat,
    known: bool, external: bool, location: string, travelMinutes: nat, drives: bool)

  datatype CalendarEvent = CalendarEvent(
    id: string, owner: string, window: Window, movable: bool, critical: bool)

  datatype ParentTransport = ParentTransport(parent: string, drives: bool, availability: seq<Window>)

  datatype Policy = Policy(
    requireTrusted: bool, allowUnapproved: bool, spendLimit: Money, handoffMinutes: nat,
    requireVerified: bool, requireBackgroundCheck: bool, approveUnfamiliarPaid: bool,
    allowExternal: bool, allowProviderTransport: bool)

  datatype RawCandidate = Candidate(
    id: string, availability: seq<Window>, price: Price, verified: bool, backgroundChecked: bool,
    minimumAge: nat, maximumAge: nat, known: bool, location: string, travelMinutes: nat, drives: bool)

  /** A provider record that backup-care research may recommend: it has one price and a range of ages. */
  type Candidate = c: RawCandidate | !c.price.Unpriced? && c.minimumAge <= c.maximumAge
    witness Candidate("", [], Flat(0.0), false, false, 0, 0, false, "", 0, false)

  /** All authoritative facts a plan is built from and checked against. */
  datatype Scenario = Scenario(
    required: Window, unavailable: seq<string>, parents: seq<string>, events: seq<CalendarEvent>,
    caregivers: seq<Caregiver>, policy: Policy, home: string, transport: seq<ParentTransport>,
    childAge: nat, candidates: seq<Candidate>)

  datatype Source = ByCaregiver | ByParent

  datatype Kind = Care | Transport

  datatype RawSegment = Segment(
    id: string, window: Window, person: string, source: Source, kind: Kind, location: string,
    destination: Option<string>, transporter: Option<string>, cost: Money)

  /** A transport segment names where it goes and who drives. */
  type Segment = s: RawSegment |
      s.kind.Transport? ==> s.destination.Some? && s.transporter.Some?
    witness Segment("", Window(0, 1), "", ByParent, Care, "", None, None, 0.0)

  /** Where the child is when a segment ends. */
  function EndPlace(s: Segment): string {
    if s.kind.Transport? then s.destination.value else s.location
  }

  datatype PlanId = Proposed(name: string) | Accepted(caseId: string, sequence: nat)

  datatype EventId =
    | Named(name: string)
    | DisruptionOf(caseId: string)
    | RequestOf(approvalId: string)
    | DecisionOn(approvalId: string, approved: bool)
    | StartOf(planId: PlanId)
    | OutcomeOf(actionId: ActionId, succeeded: bool)
    | VerificationOf(planId: PlanId)
    | ResolutionOf(caseId: string)

  datatype ActionId =
    | CalendarAction(planId: PlanId, eventId: string)
    | CaregiverAction(planId: PlanId, segmentId: string)

  datatype AssumptionId = AvailabilityFor(planId: PlanId, segmentId: string) | OtherAssumption(name: string)

  datatype AssumptionKind = CaregiverAvailable | CaregiverAvailability | OtherKind(name: string)

  datatype AssumptionStatus = Active | Invalidated(trigger: EventId)

  datatype Assumption = Assumption(
    id: AssumptionId, kind: AssumptionKind, subject: string, window: Option<Window>,
    status: AssumptionStatus)

  datatype ValidationState = NotValidated | Valid | Invalid

  datatype Reason = CostAboveLimit | UnfamiliarPaidCaregiver

  datatype Plan = Plan(
    id: PlanId, segments: seq<Segment>, changes: seq<CalendarEvent>, cost: Money,
    assumptions: seq<Assumption>, state: ValidationState, reasons: seq<Reason>)

  predicate SegmentLeq(a: Segment, b: Segment) {
    WindowLeq(a.window, b.window)
  }

  function CaregiversById(sc: Scenario): Dict<string, Caregiver> {
    ByKey(sc.caregivers, (c: Caregiver) => c.id)
  }

  function Find(sc: Scenario, id: string): Option<Caregiver> {
    Get(CaregiversById(sc), id)
  }

  /** The caregivers a lookup by id can still reach, in dictionary order. */
  function Reachable(sc: Scenario): seq<Caregiver> {
    Values(CaregiversById(sc))
  }

  lemma FindMeaning(sc: Scenario, id: string)
    ensures Find(sc, id).Some? ==> Find(sc, id).value in sc.caregivers && Find(sc, id).value.id == id
    ensures Find(sc, id).Some? <==> exists c :: c in sc.caregivers && c.id == id
    ensures forall c :: c in Reachable(sc) ==> c in sc.caregivers && Find(sc, c.id) == Some(c)
    ensures Find(sc, id).Some? ==> Find(sc, id).value in Reachable(sc)
  {
    var key := (c: Caregiver) => c.id;
    var d := CaregiversById(sc);
    ByKeyLookup(sc.caregivers, key, id);
    GetMember(d, id);
    forall c | c in Reachable(sc) ensures c in sc.caregivers && Find(sc, c.id) == Some(c) {
      ValuesMember(d, c);
      var e :| e in d && e.1 == c;
      GetMember(d, c.id);
    }
    if Find(sc, id).Some? {
      ValuesMember(d, Find(sc, id).value);
    }
  }

  lemma {:induction false} LastOfItsIdIsKept(cs: seq<Caregiver>, i: nat)
    requires i < |cs| && forall j :: i < j < |cs| ==> cs[j].id != cs[i].id
    ensures Get(ByKey(cs, (c: Caregiver) => c.id), cs[i].id) == Some(cs[i])
  {
    var init, last := cs[..|cs|-1], cs[|cs|-1];
    GetPut(ByKey(init, (c: Caregiver) => c.id), last.id, last, cs[i].id);
    if i < |init| {
      LastOfItsIdIsKept(init, i);
    }
  }

  /** Of several caregivers with one id a lookup finds the last. */
  lemma LastOneIsFound(sc: Scenario, i: nat)
    requires i < |sc.caregivers| && forall j :: i < j < |sc.caregivers| ==> sc.caregivers[j].id != sc.caregivers[i].id
    ensures Find(sc, sc.caregivers[i].id) == Some(sc.caregivers[i]) && sc.caregivers[i] in Reachable(sc)
    ensures forall c :: c in Reachable(sc) && c.id == sc.caregivers[i].id ==> c == sc.caregivers[i]
  {
    LastOfItsIdIsKept(sc.caregivers, i);
    FindMeaning(sc, sc.caregivers[i].id);
  }

  /** Ids tell caregivers apart, and nobody is both a caregiver and a parent. */
  ghost predicate UniquePeople(sc: Scenario) {
    && (forall c, d :: c in sc.caregivers && d in sc.caregivers && c.id == d.id ==> c == d)
    && (forall c :: c in sc.caregivers ==> c.id !in sc.parents)
    && (forall c, e :: c in sc.caregivers && e in sc.events ==> e.owner != c.id)
    && (forall c, t :: c in sc.caregivers && t in sc.transport ==> t.parent != c.id)
  }

  lemma UniqueFind(sc: Scenario, c: Caregiver)
    requires UniquePeople(sc) && c in sc.caregivers
    ensures Find(sc, c.id) == Some(c) && c in Reachable(sc)
  {
    ByKeyExact(sc.caregivers, (x: Caregiver) => x.id, c);
    FindMeaning(sc, c.id);
  }
}
