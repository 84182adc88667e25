# DayMend recovery core, verified

DayMend repairs a family's childcare day when a caregiver drops out. A language model proposes; everything
that decides whether a proposal is safe, affordable, permitted and finished is deterministic code. This
project models that deterministic core in Dafny and proves what it promises. Proposals, rankings, clocks,
fresh identifiers and the outcome of real-world actions are arbitrary inputs throughout.

Verify the whole project with `dafny verify dfyconfig.toml`.

## How it is laid out

| Files | What they hold |
|---|---|
| `Prelude`, `Sorting`, `Intervals`, `Domain` | Lists, insertion-ordered dictionaries, stable sorting, the algebra of time windows, and the domain records with the invariants their constructors enforce |
| `Costs`, `ValidationRules`, `PlanValidator`, `SupervisedDay` | The plan validator as it is written (checks appending to one shared list), an independent statement of a safe day, and what a valid plan means for the child |
| `FeasibilityGraph`, `AssignmentMatrix`, `Materialization` | Care and transport primitives as edges between places in time, the two fixpoint loops, the gap finder, the matrix builder and the conversion of a selection into a plan |
| `MatrixSoundness`, `MatrixCompleteness`, `PlannableDays`, `PreservedWork`, `BackupCare` | When a day through the matrix is a valid plan, what the matrix always offers, when a valid plan is a day through the matrix, repairs around preserved work, and backup-care research |
| `BlindSpots`, `OverlookedTrip`, `KeptMorning` | Exactly what the checks leave open, with concrete plans, and a day on which the theorems about repairs apply |
| `Cases`, `PlanInvalidation`, `Replay` | The stored case, the impact of a decline, and rebuilding the scenario from the event log |
| `Workflow`, `ExecutionHistory`, `StoredCases`, `RecoveryProtocol` | What each workflow step computes, the invariant of a stored case, and any number of clients interleaving reads and compare-and-swap saves |
| `CaseServices`, `RecoveryService`, `RepairCompletion` | The repository and the services that read, compute and save; whole requests; and when a repair completes |
| `PaidDay`, `ReachableResolution`, `StuckCases`, `SecondResearch` | One concrete day with a paid caregiver, a run that resolves it, and cases the workflow cannot finish |
| `ProgressBuffer` | The aliased, bounded, numbered progress log and a reader with a cursor |
| `SegmentViews`, `RepairZone`, `RejectedDay`, `PlanChange` | The interval sweeps of three front-end views |

Time is counted in whole seconds, because the validator floors overlaps to minutes and the remainder
matters. Money is a non-negative real. Composed identifiers (plan, action, event, assumption) are
datatypes. The digest in a materialised plan's id is a function parameter of the sorted ids. Code that
works by changing things step by step is a method or a class proved against a specification function;
what the code promises is then proved about that function.

## Main results

- **What the planner finds and what the validator accepts.** The two were written apart.
  `MatrixAgreesWithValidator` shows that every complete day through the matrix is a valid plan if and only
  if three things the matrix does not look at are in order; `MatrixSoundness` gives conditions on the inputs.
  The other way round, `ValidPlanIsAnOfferedDay` shows that a valid plan is such a day if and only if it
  starts at home, its segments do not overlap, and each coincides with an offered primitive.
  `MatrixCompleteness` shows what is always offered: somebody for every free instant of an eligible person,
  and every trip just in time for care.
- **The rules mean what they say.** What the validator, the price list, the impact analysis, the gate, a
  decision and an execution do is stated a second time, on the fields of the records and on instants, for all
  inputs: `PriceOfASegment`, `ReasonsMean`, `ValidPlanHonoursBuffers`, `DeclineApplies`, `ImpactIsExact`,
  `GateIsExact`, `DecisionIsExact`, `ActionsOfAPlan`, `ExecutionIsRecorded`, `StartMeans`.
- **Preserved work cannot be dropped.** Every complete repair uses every preserved segment, and what the
  planability gate accepts has a selection that passes repair validation.
- **Nothing runs unapproved, in any interleaving.** `RecoveryProtocol` lets any number of clients read, hold
  stale snapshots, and save by compare-and-swap, with a new plan stored as executing before its gate runs.
  In every stored state of every run, a succeeded action of a plan with approval reasons has an approval
  for that very plan id, a plan id names one plan for good, and a succeeded action is never lost or run again.
- **RESOLVED means resolved**, in every stored state of every run: every calendar change and every caregiver's
  segment has its succeeded action, the plan its approval, and nobody is used at a time they declined.
- **Whole requests are chains of those steps**, so the protocol's results apply to them; success of a decline
  means either that the planner had no way through the day or that the validator accepted the repair.

## Where an expected property does not hold

Each of these is stated with the exact condition under which the code does meet the expectation, and with a
concrete plan, run or case that shows the difference.

- A day the validator accepts may be recorded as having no recovery option, because primitives join only
  where one window ends and the next begins and trips exist only just in time
  (`PlannableDays.ValidPlanIsAnOfferedDay`, with two caregivers in `ASafeDayMayBeOverlooked`).
- A moved calendar event is checked only against segments that overlapped its old time
  (`BlindSpots.MovesAreCheckedAtTheOldTime`, with a colliding plan in `AMoveMayCollide`).
- The validator never checks that the child starts the day at home (`BlindSpots.ValidDayStartsAtHome`, with a
  plan that does not in `AValidDayMayStartAnywhere`); the planner's days do, and without any caregiver away
  from home every valid plan does (`ValidDayStaysAtHome`).
- The guard for calendar changes looks at care and not at transport (`BlindSpots.GuardOverlooksTrips`, with a
  rejected selection in `OverlookedTrip.GuardPassesAFailingDay`).
- A preserved care segment that carries trip fields cannot survive materialisation
  (`PreservedWork.ReplanAgreesWithValidator`, with such a repair in
  `KeptMorning.KeptCareMustNotNameADestination`).
- Adding a second researched caregiver, or one whose availability meets a decline recorded under its id,
  breaks the replay of the scenario (`Replay.ReplayMatchesResearchedPlan`, with a run in
  `SecondResearch.SecondResearchIsLost`).
- A replan that needs no approval, accepted while an older request is pending, is left neither executable
  nor decidable (`StoredCases.ClearedPlanRunsUnlessStaleRequest`, with a run in
  `StuckCases.AnOldRequestMayBlock`).
- A repair that uses the declined caregiver inside an invalidated assumption, even outside the declined
  window, is accepted but can never be verified as complete (`RepairCompletion.DeclinedCaregiverCannotReturn`,
  with such a repair in `StuckCases.ReturningSitterNeverCompletes`).
- A case key can be taken over by another channel when it is used as a progress id
  (`ProgressBuffer.RecoveryProgressBuffer.Start`, `CaseKeyTakenOver`).

## Model

| member | source | states |
|---|---|---|
| Intervals.CanonicalIsUnique | backend/app/services/plan_invalidation.py:326-351 | Two ordered lists of windows with real gaps between them are equal as soon as they hold the same instants |
| Intervals.WindowsAreInstants | backend/app/services/plan_invalidation.py:363-364 | Two windows overlap exactly when they share an instant, and one lies within the other exactly when its instants do |
| Intervals.SubtractMeaning | backend/app/agent/constraint_planner.py:256-271 | Subtracting blocks yields the ordered maximal pieces of exactly the set difference, each inside the window and clear of every block |
| Intervals.SubtractIgnoresOrder | backend/app/agent/constraint_planner.py:256-271 | The resulting list does not depend on the order, repetition or overlap of the blocks |
| Intervals.SubtractWindows | backend/app/agent/constraint_planner.py:256-271 | The sorted carving loop computes that list |
| Intervals.CarvingsCommute | backend/app/services/plan_invalidation.py:326-337 | Carving one availability list by two blocks gives the same list in either order |
| Intervals.JoinAllMeaning | backend/app/services/plan_invalidation.py:340-351 | Joining windows given in order of start separates them and keeps their instants |
| Intervals.MergeMeaning | backend/app/services/plan_invalidation.py:340-351 | Merging yields ordered, strictly separated windows with the same instants as the input |
| Intervals.MergeWindows | backend/app/services/plan_invalidation.py:340-351 | The loop that rewrites the last merged window computes that list |
| Domain.FindMeaning | backend/app/services/plan_validator.py:101-107 | A lookup by id finds a caregiver of the scenario with that id exactly when there is one, and the reachable caregivers are exactly those that lookups find |
| Domain.LastOneIsFound | backend/app/services/plan_validator.py:101-107 | Of several caregivers with one id, the last one is found and the others are unreachable |
| Costs.RecomputeCosts | backend/app/services/plan_validator.py:683-709 | The accumulating loop returns the repriced segments and their total; flat rates are charged on first use only |
| Costs.TotalIsTheSum | backend/app/services/plan_validator.py:683-709 | The total is exactly the sum of the segment costs it reports |
| Costs.TotalIgnoresOrder | backend/app/services/plan_validator.py:683-709 | Any reordering of the segments has the same total |
| Costs.FlatRateChargedOnce | backend/app/services/plan_validator.py:692-705 | A flat-rate segment costs the rounded rate at the first use of that caregiver and nothing at any later one |
| Costs.PriceOfASegment | backend/app/services/plan_validator.py:683-709 | Each segment costs, to the nearest cent with halves up, the hourly rate times the hours of its window, or the flat rate at the first use of that caregiver and nothing later; parents, unknown people and people without a price cost nothing |
| Costs.RoundingIsBounded | backend/app/services/plan_validator.py:699-709 | The total differs from the unrounded price by at most half a cent for each charged segment |
| Costs.CostNeedsCaregiver | backend/app/services/plan_validator.py:683-709 | A positive total comes from at least one caregiver segment |
| ValidationRules.HandoffAgrees | backend/app/services/plan_validator.py:277-337 | The floored-minute handoff checks accept exactly an overlap of the buffer up to less than one minute more, or an exact meeting of the same person |
| ValidationRules.AssignmentAgrees | backend/app/services/plan_validator.py:340-436 | The assignment checks find nothing exactly when the person may and can take the segment |
| ValidationRules.DriverAgrees | backend/app/services/plan_validator.py:622-680 | The transporter checks find nothing exactly when the driver may drive, is available for the trip and has no protected event in it |
| ValidationRules.PlaceAgrees | backend/app/services/plan_validator.py:525-619 | The location checks find nothing exactly when places are known, care is where its caregiver is, and a trip lasts its authoritative travel time |
| ValidationRules.CalendarAgrees | backend/app/services/plan_validator.py:478-522 | The calendar check finds nothing exactly when every event a parent segment overlaps is movable and moved clear of that segment |
| ValidationRules.CoverageAgrees | backend/app/services/plan_validator.py:232-337 | The coverage checks find nothing exactly when the segments start and end with the required window, stay inside it and hand over properly |
| ValidationRules.FindingsAgree | backend/app/services/plan_validator.py:104-109 | All checks together find nothing exactly for a safe day, which is stated without reference to the checks |
| PlanValidator.ValidateUniqueSegmentIds | backend/app/services/plan_validator.py:219-229 | Appends the duplicate-id issue to the shared list exactly when two segments share an id |
| PlanValidator.ValidateCoverageAndHandoffs | backend/app/services/plan_validator.py:232-337 | Leaves the shared list alone exactly when the segments span the required window, stay inside it and hand over properly; otherwise appends what is wrong |
| PlanValidator.ValidateAssignments | backend/app/services/plan_validator.py:340-436 | Leaves the shared list alone exactly when every assigned person may and can take the segment; otherwise appends what is wrong |
| PlanValidator.ValidateParentCalendars | backend/app/services/plan_validator.py:439-522 | Leaves the shared list alone exactly when every change is allowed and every event a parent segment overlaps is moved clear of it; otherwise appends what is wrong |
| PlanValidator.ValidateLocationsAndTransport | backend/app/services/plan_validator.py:525-619 | Leaves the shared list alone exactly when every segment is at a known and fitting place, every trip is drivable and long enough, and each segment starts where the one before it ended; otherwise appends what is wrong |
| PlanValidator.CollectIssues | backend/app/services/plan_validator.py:104-109 | Runs every check over one shared list of issues |
| PlanValidator.Validate | backend/app/services/plan_validator.py:92-169 | The whole validation: issues, authoritative prices, approval reasons and the validated plan |
| PlanValidator.ValidateRepair | backend/app/services/plan_validator.py:171-216 | Validation plus one issue for each preserved segment that does not survive |
| PlanValidator.ValidMeansSafe | backend/app/services/plan_validator.py:92-169 | A verdict is valid exactly when the ordered segments make a safe day |
| PlanValidator.ValidRepairMeansSafe | backend/app/services/plan_validator.py:171-216 | A repair is valid exactly when the day is safe and every preserved segment survives in it |
| PlanValidator.ValidRepairKeepsWork | backend/app/services/plan_validator.py:171-216 | A repair is valid exactly when the day is safe and each preserved segment is still done by the same person, in the same role, place and trip, for all of its time |
| PlanValidator.ReasonNeedsCaregiver | backend/app/services/plan_validator.py:121-148 | Any approval reason, cost or unfamiliarity, comes from a caregiver segment of the plan |
| PlanValidator.ReasonsMean | backend/app/services/plan_validator.py:121-148 | The cost reason is given exactly when the cost is above the limit; the unfamiliarity reason exactly when the family wants to be asked and an external, unknown caregiver with a positive price is used; approval is required exactly when there is a reason |
| PlanValidator.ValidationIsStable | backend/app/services/plan_validator.py:92-169 | Validating a validated plan again, under another id and other assumptions, changes neither verdict, prices, segments nor reasons |
| SupervisedDay.ValidPlanSupervises | backend/app/services/plan_validator.py:232-337 | The instants some segment of a valid plan covers are exactly the instants of the required window |
| SupervisedDay.ValidPlanHandsOver | backend/app/services/plan_validator.py:277-337 | Neighbouring segments of different people in a valid plan overlap by the required buffer and by less than one minute more |
| SupervisedDay.ValidPlanHonoursBuffers | backend/app/services/plan_validator.py:297-337 | A handoff in a valid plan overlaps by the longer of the family buffer and the buffer of the caregiver who takes over, and by less than one minute more |
| SupervisedDay.ValidPlanKeepsProtectedEvents | backend/app/services/plan_validator.py:478-522 | In a valid plan no parent segment and no driven trip shares an instant with an event of that person that is critical or not movable |
| SupervisedDay.ValidPlanMovesOnlyByTransport | backend/app/services/plan_validator.py:525-619 | Between two segments of a valid plan with different places there is a transport segment lasting at least the authoritative travel time |
| SupervisedDay.ValidTripsTakeTheirTime | backend/app/services/plan_validator.py:762-774 | Every trip of a valid plan runs between home and a place of a caregiver, and lasts at least the travel minutes of the last caregiver listed there, in both directions |
| FeasibilityGraph.GrowForward | backend/app/agent/constraint_planner.py:297-305 | The changed-flag loop ends, and holds exactly the states a chain of primitives reaches from the start |
| FeasibilityGraph.GrowBackward | backend/app/agent/constraint_planner.py:307-315 | The changed-flag loop ends, and holds exactly the states from which a chain reaches the required end |
| FeasibilityGraph.PruneToFullCoveragePaths | backend/app/agent/constraint_planner.py:274-325 | Keeps, in order, exactly the primitives between a forward and a backward state |
| FeasibilityGraph.PruningIsExact | backend/app/agent/constraint_planner.py:274-325 | A primitive is kept if and only if it lies on a chain from the start at home to the required end; what is kept lies inside the required window |
| FeasibilityGraph.PruningKeepsSomething | backend/app/agent/constraint_planner.py:274-325 | Something is kept exactly when a complete day exists |
| FeasibilityGraph.ConnectedUncoveredWindows | backend/app/agent/constraint_planner.py:328-390 | The gap finder returns nothing for a connected day, else the smallest bridge, else the whole required window |
| FeasibilityGraph.GapMeaning | backend/app/agent/constraint_planner.py:351-390 | Empty exactly when a complete day exists; otherwise one window inside the required one |
| FeasibilityGraph.GapIsUnique | backend/app/agent/constraint_planner.py:373-390 | The specification of the gap determines it |
| FeasibilityGraph.BridgeCompletesDay | backend/app/agent/constraint_planner.py:351-390 | A care primitive over the returned window at the shared place completes the day |
| FeasibilityGraph.SmallestBridge | backend/app/agent/constraint_planner.py:373-390 | No forward and backward state at one place are separated by a shorter window, nor by an equally short earlier one |
| AssignmentMatrix.CollectTrips | backend/app/agent/constraint_planner.py:639-712 | The loops over caregivers, parents and windows build the dictionary of trips, one per key: every trip of the specification has an entry under its key, and every entry is such a trip |
| AssignmentMatrix.CollectCare | backend/app/agent/constraint_planner.py:724-765 | The care loops list caregiver care that leaves time for the trip home, then parent care outside the parent's own trips, in the order in which they are found |
| AssignmentMatrix.ReplanningPrimitives | backend/app/agent/constraint_planner.py:429-519 | Every primitive of a replan is a preserved segment, or care clipped to an affected window or a trip that fits one; and every such clip, every fitting trip whoever drives it, and every preserved segment has a primitive with its person, time and places |
| AssignmentMatrix.PreservedMember | backend/app/agent/constraint_planner.py:476-498 | What enters for one kind of preserved work is exactly the immutable form of the preserved segments of that kind |
| AssignmentMatrix.NoDayNoClash | backend/app/agent/constraint_planner.py:781-808 | Without a complete day the matrix is built, and is empty |
| AssignmentMatrix.IdsTellMomentsApart | backend/app/agent/constraint_planner.py:649-765 | Ids of one person's care, and of trips on one route, differ when the moments differ |
| AssignmentMatrix.MatrixIsInOrder | backend/app/agent/constraint_planner.py:781-808 | Care and trips are listed in order of start and then of end |
| AssignmentMatrix.BuildFeasibleAssignmentMatrix | backend/app/agent/constraint_planner.py:522-808 | The builder returns the specified matrix, or an error exactly when primitive ids collide |
| AssignmentMatrix.MatrixIsExact | backend/app/agent/constraint_planner.py:781-808 | A primitive is in the matrix exactly when it was offered and lies on a complete day |
| AssignmentMatrix.MatrixIsEmptyWithoutFullDay | backend/app/agent/constraint_planner.py:781-808 | The matrix is empty exactly when no complete day exists, and exactly then it names a gap |
| Materialization.MaterializePrimitiveSelection | backend/app/agent/constraint_planner.py:1033-1084 | Unknown ids and missing immutable ids are refused; otherwise the selected primitives become the plan's ordered segments |
| Materialization.MaterializationIgnoresOrder | backend/app/agent/constraint_planner.py:1027-1084 | Any permutation of the same selected ids gives the same plan and plan id |
| Materialization.MaterializationIsExact | backend/app/agent/constraint_planner.py:1033-1084 | Success exactly when every id is known and every immutable primitive is chosen; then there is one segment per id, with that id and the person, time, places and driver of the primitive with that id |
| MatrixSoundness.OfferedIsJustified | backend/app/agent/constraint_planner.py:522-808 | Every primitive the builder offers is backed by the facts: availability, eligibility, driving permission and no protected event |
| MatrixSoundness.JustifiedPasses | backend/app/services/plan_validator.py:340-680 | A justified primitive passes all single-segment checks exactly when it is clear of movable events and long enough for the validator |
| MatrixSoundness.MatrixAgreesWithValidator | backend/app/agent/constraint_planner.py:522-808 | Every complete day through the matrix materialises, and the validator accepts it if and only if its primitives are clear of movable events and long enough and no change of person needs a buffer |
| MatrixSoundness.MatrixSoundness | backend/app/services/plan_validator.py:92-169 | With one travel time per place, no buffers and no parent primitive over a movable event, every complete day through the matrix is valid |
| MatrixCompleteness.FreeParentsAreOffered | backend/app/agent/constraint_planner.py:749-765 | Every instant of the required window at which a parent has no protected event is offered, with the parent at home or driving |
| MatrixCompleteness.DrivingParentsDoNotCare | backend/app/agent/constraint_planner.py:749-765 | No parent is offered for care while they are offered as a driver |
| MatrixCompleteness.EligibleAgreesWithValidator | backend/app/agent/constraint_planner.py:534-552 | A caregiver is eligible exactly when the validator would accept them for care within their own hours |
| MatrixCompleteness.DrivingAgreesWithValidator | backend/app/agent/constraint_planner.py:688-712 | An eligible caregiver is let drive by the validator exactly when they may be offered for their own trips |
| MatrixCompleteness.AvailableCaregiversAreOffered | backend/app/agent/constraint_planner.py:725-748 | Every available instant of an eligible caregiver inside the required window is offered, as care or as the trip home for which that care ends early |
| MatrixCompleteness.CareLeavesTimeForTheTrip | backend/app/agent/constraint_planner.py:725-748 | Care is offered from the start of each window up to its end or to the earliest offered trip home that ends with it |
| MatrixCompleteness.ParentTripsAreOffered | backend/app/agent/constraint_planner.py:649-686 | A parent who may drive is offered for the trip that arrives with a care window and the trip that ends with it |
| MatrixCompleteness.OwnTripsAreOffered | backend/app/agent/constraint_planner.py:688-712 | A caregiver who may drive the child is offered for the trip home at the end of a window long enough for it |
| MatrixCompleteness.PreservedWorkIsOffered | backend/app/agent/constraint_planner.py:476-498 | Every preserved segment is offered as it is, also where a feasible primitive coincides with it; of several with the same person, time and places the last one is |
| MatrixCompleteness.AffectedCareIsOffered | backend/app/agent/constraint_planner.py:437-459 | What was offered in an affected window is offered there again, clipped to it |
| MatrixCompleteness.AffectedTripsAreOffered | backend/app/agent/constraint_planner.py:462-476 | Every trip that was offered and lies inside an affected window is offered again with the same driver, source, time and route |
| MatrixCompleteness.QuietDayIsPlannable | backend/app/agent/constraint_planner.py:522-808 | A concrete scenario meets all conditions of the soundness theorem |
| PlannableDays.ValidPlanIsAnOfferedDay | backend/app/agent/constraint_planner.py:274-325 | A valid plan is a complete day of the offered primitives if and only if it starts at home, no two segments overlap, and every segment coincides in person, time and places with an offered primitive |
| PlannableDays.OfferedPlanSuffices | backend/app/services/backup_care.py:63-85 | For such a plan the known options are enough |
| PlannableDays.WholeWindowsWithoutDrivers | backend/app/agent/constraint_planner.py:725-748 | When nobody drives, every primitive is care by a caregiver at their own place for a whole availability window inside the day |
| PlannableDays.ASafeDayMayBeOverlooked | backend/app/application/recovery_service.py:677-691 | A concrete day the validator accepts, handed over in the middle of two overlapping availabilities, for which the planner sees no option and no recovery |
| PreservedWork.ScopedOrigin | backend/app/agent/constraint_planner.py:429-519 | Everything a replan offers is feasible work inside an affected window or exactly one preserved segment |
| PreservedWork.PreservedWorkIsUnavoidable | backend/app/agent/constraint_planner.py:429-519 | Every complete day through the replanning primitives uses every preserved segment |
| PreservedWork.GateFindsSelection | backend/app/agent/research_planability.py:48-67 | What the planability gate accepts has one complete selection holding the candidate's care and every immutable primitive |
| PreservedWork.GateIsExact | backend/app/agent/research_planability.py:48-67 | The gate accepts a candidate exactly when one complete day holds care by the candidate together with every immutable primitive |
| PreservedWork.GateChecksTheMatrix | backend/app/agent/research_planability.py:48-67 | The gate accepts exactly when the matrix holds something, all preserved ids are among its immutable ids and the candidate is among those who care |
| PreservedWork.ReplanAgreesWithValidator | backend/app/services/plan_validator.py:171-216 | A complete replanned day materialises and passes repair validation if and only if its segments pass one by one, no change of person needs a buffer and no preserved care carries trip fields |
| PreservedWork.KeptWorkPassesExactly | backend/app/services/plan_validator.py:340-680 | Work a decline preserved passes every single-segment check afterwards exactly when it does not need the declined caregiver's driving in the declined window, meets no movable event of its parent, and is no shorter than the travel time now known for its places |
| PreservedWork.PreservedPasses | backend/app/services/plan_validator.py:340-680 | With one travel time per place, a preserved segment passes every single-segment check after the decline exactly when it does not need the declined caregiver's driving in the declined window and meets no movable event of its parent |
| PreservedWork.WorkStaysApart | backend/app/services/plan_invalidation.py:234-242 | A valid plan without overlapping segments leaves its preserved work apart from the windows a decline opens |
| PreservedWork.AcceptedCandidateRepairsThePlan | backend/app/agent/research_planability.py:48-67 | The selection of an accepted candidate materialises into a plan that passes repair validation, under conditions on the inputs |
| BackupCare.AssessKnownOptionRecoveryNeed | backend/app/services/backup_care.py:52-85 | Known options are insufficient exactly when no complete day of offered primitives exists; then the affected windows are requested, or else the smallest gap; every known caregiver was considered |
| BackupCare.NeedMeansNoFullDay | backend/app/services/backup_care.py:63-85 | Known options are insufficient precisely when no complete day exists, and then the requested windows are never empty |
| BackupCare.HardReasons | backend/app/services/backup_care.py:88-129 | Each ineligibility code is reported exactly under its own condition, stated on the record's fields, and none exactly when the provider qualifies |
| BackupCare.ResearchNeedsPermission | backend/app/services/backup_care.py:132-177 | A researched provider is added behind everybody known, exactly when the family allows outsiders |
| BackupCare.ResearchedIsHeldToTheRules | backend/app/services/backup_care.py:132-177 | The validator lets an added provider look after the child exactly when outsiders are allowed and they are vetted, or no vetting is asked, in their own hours and place; lets them drive exactly where providers may; and asks no buffer for them beyond the family's |
| BackupCare.ResearchedIsPaidAsAsked | backend/app/services/backup_care.py:132-177 | An added provider keeps hours, place, price, travel time and familiarity, is external, and drives only where the family lets providers drive |
| BackupCare.SearchBackupCareCandidates | backend/app/services/backup_care.py:88-129 | Exactly the allowed, available, sufficiently vetted providers for the child's age, in order, with driving withheld where policy forbids it |
| BackupCare.PlanableResearchCandidateIds | backend/app/agent/research_planability.py:34-67 | With at least two eligible providers, the ids of exactly those that can complete the day |
| BackupCare.SelectPlanableResearchCandidate | backend/app/agent/research_planability.py:70-134 | The chosen provider can complete the day and none ranked before it can; none is chosen exactly when none can |
| PlanInvalidation.SpreadImpact | backend/app/services/plan_invalidation.py:182-233 | The walk that grows the impacted ids and their reasons |
| PlanInvalidation.InvalidateAssumptions | backend/app/services/plan_invalidation.py:125-146 | Invalidates in place exactly the standing availability assumptions about the caregiver that share an instant with the window |
| PlanInvalidation.ApplyCaregiverDecline | backend/app/services/plan_invalidation.py:103-297 | All refusals and the whole outcome of a decline |
| PlanInvalidation.DeclineApplies | backend/app/services/plan_invalidation.py:103-241 | A decline is heeded exactly when it is new, the active plan is valid, the caregiver is known and looks after the child at an instant of the window, and a recorded assumption, if any are recorded, counts on that |
| PlanInvalidation.RecordedAvailabilityIsEnough | backend/app/services/plan_invalidation.py:51-71 | With the availability of its segments on record, a case heeds every new decline of a known caregiver who looks after the child in the window |
| PlanInvalidation.AvailabilityIsAttached | backend/app/services/plan_invalidation.py:51-71 | Attaching availability leaves one assumption per caregiver segment, for its person and its whole window, besides whatever was assumed about anything else |
| PlanInvalidation.ReasonsAreRight | backend/app/services/plan_invalidation.py:148-233 | An impacted segment has lost availability exactly when it is the declined care; any other reason that names a segment names such care |
| PlanInvalidation.DeclineInvalidates | backend/app/services/plan_invalidation.py:125-146 | Exactly the standing availability assumptions about the caregiver that share an instant with the declined window are invalidated, in place, with this event as their trigger, and there is at least one |
| PlanInvalidation.DeclineIsRecorded | backend/app/services/plan_invalidation.py:243-297 | The case records the event once, its trigger, the gap it opened and, unless it is there already, the plan it set aside, and changes in nothing else |
| PlanInvalidation.ImpactPartitionsPlan | backend/app/services/plan_invalidation.py:148-241 | Impacted and preserved segments partition the plan, and every impacted segment has its own recorded reason |
| PlanInvalidation.ImpactIsExact | backend/app/services/plan_invalidation.py:148-234 | With distinct ids, what is impacted is exactly the care that shares an instant with the declined window, every unbroken run of trips leaving that place after it, and the trip that arrives there for one of these |
| PlanInvalidation.DeclineLeavesNoHole | backend/app/services/plan_invalidation.py:234-242 | Uncovered windows and preserved work together still hold exactly the instants of the required window |
| PlanInvalidation.PreservedCareStillFits | backend/app/services/plan_invalidation.py:300-337 | Preserved care of a caregiver still fits one availability window after the subtraction |
| PlanInvalidation.FindDeclined | backend/app/services/plan_invalidation.py:300-323 | After a decline every lookup finds the same caregiver, with only the declined one's availability carved |
| PlanInvalidation.CarveOnlyShrinks | backend/app/services/plan_invalidation.py:326-337 | What fits after a decline fitted before it and does not meet the declined window |
| PlanInvalidation.DeclinesCommute | backend/app/services/plan_invalidation.py:300-337 | Two declines leave the same scenario in either order |
| Replay.RebuildScenario | backend/app/application/recovery_service.py:922-944 | The loop that rebinds the scenario for every recorded decline, with its failures |
| Replay.ReplayMatchesDecline | backend/app/application/recovery_service.py:922-944 | After a decline the stored case rebuilds to exactly the scenario used for replanning |
| Replay.AvailabilityPoints | backend/app/application/recovery_service.py:941-944 | After replay a caregiver is available exactly at the original instants outside its own declined windows |
| Replay.ReplayMatchesResearchedPlan | backend/app/application/recovery_service.py:935-944 | With a stored researched caregiver the rebuilt scenario equals the validated one if and only if it is the first one researched and no recorded decline under its id touches its availability |
| Workflow.FreshSequenceIsFresh | backend/app/application/recovery_service.py:858-873 | The accepted plan id is used by no previous plan, and every smaller one from the first candidate on is |
| Workflow.FindSequence | backend/app/application/recovery_service.py:858-873 | The id search ends and finds that id |
| Workflow.StartRecordsAvailability | backend/app/services/plan_invalidation.py:74-97 | A started case waits for a response, with the validated plan under its first lifecycle id and the availability of its caregivers on record; nothing else has happened |
| Workflow.ActionsOfAPlan | backend/app/services/execution_service.py:159-183 | A plan requires one action per calendar change, for that event, and one per caregiver segment, for that person, and no other |
| Workflow.CompletionMeaning | backend/app/services/completion_verifier.py:44-104 | No completion error exactly when the case executes a valid plan, nothing is pending, the approval exists where required, all actions succeeded and nothing relies on an invalidated assumption |
| ExecutionHistory.LookAfterRun | backend/app/services/execution_service.py:115-141 | After a run, a succeeded action is found as it was, any other required one with the adapter's outcome, and everything else is untouched |
| ExecutionHistory.AllSucceededMeaning | backend/app/services/execution_service.py:115-142 | The run succeeds exactly when the adapter succeeds on every required action that had not succeeded before |
| ExecutionHistory.RunKeepsHistory | backend/app/services/execution_service.py:115-141 | A run never removes or alters a succeeded action, keeps action ids unique and only appends events |
| ExecutionHistory.ExecutionIsRecorded | backend/app/services/execution_service.py:90-156 | The plan's start and the outcome of every action that had not succeeded are on record and nothing else is new; the case has failed exactly when one of these outcomes is a failure |
| ExecutionHistory.OnlyFinishedPlansAreNotRun | backend/app/services/execution_service.py:90-114 | An execution that is not refused runs, unless the plan requires something and all of it is stored as succeeded |
| ExecutionHistory.SuccessIsStored | backend/app/services/execution_service.py:115-121 | An action counts as done exactly when a succeeded action with its id is stored |
| ExecutionHistory.UninterruptedRunCompletes | backend/app/services/completion_verifier.py:44-104 | An authorised plan accepted in the rebuilt scenario and run without failure leaves no completion error exactly when it relies on no invalidated assumption |
| StoredCases.AcceptedPlanIsFresh | backend/app/application/recovery_service.py:875-920 | The accepted plan is the validated one under an id no plan of the case ever had |
| StoredCases.DeclineKeepsSound | backend/app/application/recovery_service.py:610-636 | Storing a decline, stopped, failed or replanned, keeps the case invariant and its history |
| StoredCases.GateKeepsSound | backend/app/services/approval_service.py:55-160 | The autonomy gate keeps the case invariant and its history |
| StoredCases.GateIsExact | backend/app/services/approval_service.py:55-160 | The gate refuses exactly an invalid, foreign or inconsistent verdict; it clears only a plan without reasons and within the limit; otherwise it asks once, for that plan and its whole cost, and records the request |
| StoredCases.DecisionKeepsSound | backend/app/services/approval_service.py:187-260 | A decision keeps the case invariant; it decides one pending request and alters no other |
| StoredCases.DecisionIsExact | backend/app/services/approval_service.py:187-260 | A decision is taken exactly when the case waits for that request about its active plan; a yes lets the plan be executed, a no sends the case back to planning; only that request changes and the decision is recorded |
| StoredCases.ExecutionKeepsSound | backend/app/services/execution_service.py:69-156 | An execution keeps the case invariant: new actions belong to the authorised active plan |
| StoredCases.CompletionKeepsSound | backend/app/services/completion_verifier.py:44-138 | Only a complete case becomes resolved |
| StoredCases.ResolutionIsRecorded | backend/app/services/completion_verifier.py:106-138 | Resolving records the verification of the plan and, the first time, the resolution of the case |
| StoredCases.CompleteIsApproved | backend/app/services/execution_service.py:159-183 | If all actions of a plan with approval reasons succeeded, that very plan was approved |
| StoredCases.OperationKeepsSound | backend/app/application/recovery_service.py:542-797 | Whatever any client computes from a sound case is a sound case that keeps its history |
| StoredCases.SucceededActionIsNotRunAgain | backend/app/services/execution_service.py:115-121 | What an execution saves does not depend on the adapter's answer for an action that already succeeded |
| StoredCases.ClearedPlanRunsUnlessStaleRequest | backend/app/services/approval_service.py:76-88 | A replan cleared without approval can be executed exactly when no older request is pending, and such a request can no longer be decided |
| RecoveryProtocol.StepKeepsInv | backend/app/application/recovery_service.py:542-856 | Every read, save, gate run or give-up of any client keeps the invariant of the whole system |
| RecoveryProtocol.AuthorisedExecution | backend/app/services/execution_service.py:69-156 | In every stored state of every run, a succeeded action is one that a plan of the case required, and if that plan has approval reasons a stored approval names that plan id |
| RecoveryProtocol.ResolvedMeansComplete | backend/app/services/completion_verifier.py:126-138 | In every stored state of every run, RESOLVED means a valid active plan, nothing pending, its approval where it has reasons, a succeeded stored action for every calendar change and every caregiver segment with the right target, and no caregiver used at an instant of an invalidated assumption about them |
| RecoveryProtocol.NoLostUpdate | backend/app/repositories/in_memory_recovery_case_repository.py:23-42 | Versions count the stored states, and each state was computed from exactly the one before it |
| RecoveryProtocol.StoredStatesStay | backend/app/repositories/in_memory_recovery_case_repository.py:23-42 | Later steps only append to what was stored |
| RecoveryProtocol.DurableHistory | backend/app/services/execution_service.py:90-151 | Between any two stored states events and previous plans only grow, approvals change only by deciding a pending one, succeeded actions stay as they are, action ids are unique and a plan id names one plan for good |
| RecoveryProtocol.SucceededForGood | backend/app/services/execution_service.py:115-121 | A stored succeeded action is in every later state, and no later execution depends on running it again |
| RecoveryProtocol.AcceptedPlanIsNew | backend/app/application/recovery_service.py:858-873 | When the active plan id changes, no earlier stored state knows the new id, no action carries it and no approval names it |
| RecoveryProtocol.NothingRunsBeforeTheGate | backend/app/agent/replanning.py:152-159 | Between storing a replan as executing and running its gate, no execution gets through while the plan needs approval |
| ReachableResolution.SomeRunResolves | backend/app/application/recovery_service.py:308-449 | The protocol has a run in which a plan above the spending limit is stored, paused by its gate, approved, executed with a succeeding caregiver action and resolved |
| CaseServices.InMemoryRepository.Get | backend/app/repositories/in_memory_recovery_case_repository.py:17-21 | Returns the stored case or not-found |
| CaseServices.InMemoryRepository.Save | backend/app/repositories/in_memory_recovery_case_repository.py:23-42 | Compare-and-swap on the version: exactly when a save succeeds, what is stored, and that a conflict changes nothing |
| CaseServices.ApprovalService.ApplyAutonomyGate | backend/app/services/approval_service.py:55-160 | The branches of the gate, its result and the new store, for a fresh or stale case |
| CaseServices.ApprovalService.Decide | backend/app/services/approval_service.py:187-260 | The branches of a decision, its result and the new store |
| CaseServices.RecoveryExecutionService.Execute | backend/app/services/execution_service.py:69-156 | Runs exactly a valid plan of an executing case with nothing pending and, where it has reasons, a stored approval for its id; otherwise refuses and changes nothing; the run and the one save |
| CaseServices.RecoveryExecutionService.PerformActions | backend/app/services/execution_service.py:115-141 | The loop over required actions with its three accumulators |
| CaseServices.CompletionVerifier.VerifyAndResolve | backend/app/services/completion_verifier.py:44-138 | The verdict and the new store: resolved exactly when no error was collected |
| CaseServices.CompletionVerifier.CollectErrors | backend/app/services/completion_verifier.py:52-98 | The loops collect exactly the completion errors, in order |
| RecoveryService.UninterruptedRunResolves | backend/app/application/recovery_service.py:799-856 | Execution followed by verification resolves an authorised plan exactly when no caregiver segment shares an instant with an invalidated assumption about that caregiver |
| RecoveryService.GateParts | backend/app/services/approval_service.py:76-160 | A ready gate clears the plan or asks for the approval of that very plan, with its cost and the right kind; it changes neither plan nor case id |
| RecoveryService.GateOutcomeMeans | backend/app/application/recovery_service.py:425-449 | After the gate of a stored plan the case waits for permission for that plan and its cost, or the plan is cleared, run and verified, unless an older request is pending or the scenario cannot be rebuilt |
| RecoveryService.CanRecover | backend/app/application/recovery_service.py:677-691 | Says yes exactly when a complete day of known options exists or at least two eligible providers exist and one of them can complete the day; this is about days of primitives, see PlannableDays |
| RecoveryService.ReachedIsSound | backend/app/application/recovery_service.py:542-856 | What any chain of saves leaves behind satisfies the case invariant and keeps the history |
| RecoveryService.RecoveryApplicationService.ExecuteAndComplete | backend/app/application/recovery_service.py:799-856 | Execution in one save, verification in the rebuilt scenario in another, and the resulting store |
| RecoveryService.RecoveryApplicationService.DecideApproval | backend/app/application/recovery_service.py:759-797 | Version check, decision, then execution unless rejected or already resolved: the exact resulting store, when the answer is an error, and that the store moves by a chain of workflow steps |
| RecoveryService.RecoveryApplicationService.StopWhenNoRecoveryOption | backend/app/application/recovery_service.py:669-757 | Stops, and records the decline with no recovery option, exactly when no complete day of known primitives exists and no two eligible providers, one able to complete the day, do; and when it answers with an error |
| RecoveryService.RecoveryApplicationService.Replan | backend/app/application/recovery_service.py:571-667 | A proposal the validator rejects is recorded as a failed replan and nothing else; an accepted one is stored as validated, its gate run, and the plan run and verified when it is cleared; exactly when this fails |
| RecoveryService.RecoveryApplicationService.AcceptAndRun | backend/app/application/recovery_service.py:610-667 | The accepted plan is stored first, its gate run on that version, and the plan run and verified when it is cleared: the exact resulting store and when the answer is an error |
| RecoveryService.RecoveryApplicationService.ProcessEvent | backend/app/application/recovery_service.py:542-667 | A decline from end to end: no other case changes, the store moves by a chain of workflow steps, and success means either the recorded lack of options when the planner has no way through the day, or the accepted repair after its gate and run; and why a request can fail |
| RecoveryService.RecoveryApplicationService.StartRecovery | backend/app/application/recovery_service.py:308-449 | A start from end to end: an existing case is never overwritten; without a way through the day that is recorded, and otherwise the validated first plan is stored and, if it was researched or needs permission, its gate run; and why a start can fail |
| RecoveryService.StartMeans | backend/app/application/recovery_service.py:425-449 | A validated start ends waiting for permission for its plan and cost, or cleared and run when it was researched and needs none, or else stored and waiting for a response |
| RepairCompletion.StoredRepairReplays | backend/app/application/recovery_service.py:922-944 | An accepted repair rebuilds to the scenario it was validated in if and only if its research is the case's first and untouched by recorded declines |
| RepairCompletion.GateKeepsOnItsWay | backend/app/services/approval_service.py:55-160 | The gate changes neither the plan, the assumptions nor the scenario of a stored repair, and records no decline |
| RepairCompletion.DecisionKeepsOnItsWay | backend/app/services/approval_service.py:187-260 | A decision changes neither the plan, the assumptions nor the scenario of a stored repair |
| RepairCompletion.ApprovingResolves | backend/app/application/recovery_service.py:759-797 | Approving a plan accepted in the case's scenario runs it at once: with succeeding actions the case is resolved exactly when no caregiver is used in time they are known to have lost |
| RepairCompletion.UninterruptedRepairResolves | backend/app/application/recovery_service.py:542-856 | An accepted, authorised and replayable repair is resolved by one uninterrupted run of succeeding actions if and only if no caregiver segment shares an instant with an invalidated assumption about that caregiver |
| RepairCompletion.AcceptedAssumptionsAreRecorded | backend/app/application/recovery_service.py:888-904 | The accepted case records what was assumed before and what the accepted plan assumes, and nothing only assumed under the proposal's id |
| RepairCompletion.DeclinedCaregiverCannotReturn | backend/app/services/completion_verifier.py:82-97 | A repair that uses the declined caregiver anywhere inside an assumption the decline invalidated can never be verified |
| BlindSpots.MovesAreCheckedAtTheOldTime | backend/app/services/plan_validator.py:478-522 | A valid plan honours its moved events if and only if every segment that missed an event's old time also misses its new one |
| BlindSpots.AMoveMayCollide | backend/app/services/plan_validator.py:478-522 | A concrete valid plan whose parent is due at the moved event |
| BlindSpots.AValidDayMayStartAnywhere | backend/app/services/plan_validator.py:525-619 | A concrete valid plan that starts away from home, on a day for which the matrix is empty |
| BlindSpots.ValidDayStartsAtHome | backend/app/services/plan_validator.py:525-619 | A valid plan starts at home if and only if its first segment is care by somebody on record as a caregiver whose place is home, other care at a place without a travel time from home, or a trip whose destination is not home |
| BlindSpots.ValidDayStaysAtHome | backend/app/services/plan_validator.py:525-619 | When every reachable caregiver is at home, no valid plan has a trip or takes the child elsewhere |
| BlindSpots.GuardOverlooksTrips | backend/app/agent/constraint_planner.py:1000-1024 | With the calendar guard satisfied, a day replanned after a decline passes repair validation if and only if its trips and kept work meet no movable event and are long enough, no kept trip needs the declined caregiver's driving in the declined window, no change of person needs a buffer and no kept care carries trip fields |
| BlindSpots.GuardAfterDecline | backend/app/agent/constraint_planner.py:1000-1024 | The same at the scenario the decline itself leaves, with conditions on the scenario before it |
| BlindSpots.GuardMeansUnpassableCare | backend/app/agent/constraint_planner.py:1000-1024 | The guard steps in exactly when some parent care in the matrix meets an event of theirs that could be moved |
| OverlookedTrip.GuardPassesAFailingDay | backend/app/agent/constraint_planner.py:1000-1024 | A concrete day on which the guard passes and the one selection through the matrix fails repair validation |
| KeptMorning.KeptCareMustNotNameADestination | backend/app/services/plan_validator.py:171-216 | A concrete plan whose second half is declined, with the first half kept, meets all conditions of GuardAfterDecline, and its one replanned day passes repair validation if and only if the kept care names no destination |
| KeptMorning.CandidateMeetsTheConditions | backend/app/agent/research_planability.py:48-67 | A concrete decline with kept work after which a researched candidate meets all conditions of AcceptedCandidateRepairsThePlan |
| StuckCases.AnOldRequestMayBlock | backend/app/services/approval_service.py:76-88 | A concrete run: the caregiver declines while the price is waiting for approval, a repair that needs none is stored and cleared, and it can be neither executed nor unblocked by deciding the old request |
| StuckCases.ReturningSitterNeverCompletes | backend/app/services/completion_verifier.py:82-97 | A concrete repair that uses the declined caregiver outside the declined window: the validator accepts it, and every way on leaves a completion error |
| SecondResearch.AnnIsFound | backend/app/agent/research_planability.py:34-67 | On a day with nobody known and two eligible providers, known options are insufficient, the first provider can complete the day, and so the day counts as recoverable |
| SecondResearch.BeaIsFound | backend/app/agent/research_planability.py:34-67 | After the first provider declined that whole day, the same holds with the second one |
| SecondResearch.SecondResearchIsLost | backend/app/application/recovery_service.py:935-944 | A run on that day: the case is started with the first provider and cleared by its gate, the decline is recorded with the accepted repair by the second one, and the stored case can no longer be rebuilt into any scenario |
| ProgressBuffer.WellFormedMeans | backend/app/progress.py:18-18 | A well-formed id is a letter or digit followed by 7 to 127 of these or of the four marks |
| ProgressBuffer.ProgressChannel.Emit | backend/app/progress.py:103-122 | Numbers the event, and keeps exactly the newest 256 |
| ProgressBuffer.RecoveryProgressBuffer.Attach | backend/app/progress.py:137-142 | Attaching under a key that leads to another channel changes nothing |
| ProgressBuffer.RecoveryProgressBuffer.Start | backend/app/progress.py:69-80 | The keys and channels afterwards; a key is re-pointed exactly when it is the progress id and the case already has a different channel |
| ProgressBuffer.RecoveryProgressBuffer.Append | backend/app/progress.py:82-122 | One event is appended to the channel behind the key and to no other; no key is re-pointed |
| ProgressBuffer.RecoveryProgressBuffer.Snapshot | backend/app/progress.py:124-128 | The newest events of the channel behind the key, if any |
| ProgressBuffer.RecoveryProgressBuffer.After | backend/app/progress.py:130-131 | The held events past the cursor |
| ProgressBuffer.EventIdsAreUnique | backend/app/progress.py:103-107 | Between clears no two events of any channels ever made share an id |
| ProgressBuffer.CaseKeyTakenOver | backend/app/progress.py:69-80 | With two cases under way, starting progress under the first case's key for the second one takes that key over |
| ProgressBuffer.ReadIsAStretch | backend/app/progress.py:119-131 | A read yields one unbroken stretch of the channel up to its newest event |
| ProgressBuffer.NothingIsMissed | backend/app/progress.py:119-131 | A reader misses nothing if and only if it lags by at most 256 events |
| ProgressBuffer.Drain | backend/app/api/routes.py:171-173 | The stream loop yields what is past the cursor and leaves the cursor at the newest event |
| ProgressBuffer.ReaderGetsEveryEventOnce | backend/app/api/routes.py:168-177 | Over any number of reads a reader that never lags too far gets every event past its cursor once, in order and without a gap |
| RepairZone.AffectedWindows | frontend/src/app/components/repair-zone/repair-zone.ts:18-29 | The view sorts by start only and joins in place, and computes the very list the backend merge computes from the same windows in any order |
| RejectedDay.Span | frontend/src/app/pages/today.ts:92-103 | Earliest start and latest end of the prior plan |
| RejectedDay.SweepGaps | frontend/src/app/pages/today.ts:104-120 | The sweep keeps the preserved segments in order, and its gaps are the subtraction of them from the span |
| RejectedDay.ViewRejectedDay | frontend/src/app/pages/today.ts:77-125 | The unresolved entries hold exactly the instants of the prior span that no preserved segment covers |
| SegmentViews.MatchingIsOneWork | frontend/src/app/components/plan-change/plan-change.ts:130-146 | Two segments match for the views exactly when they are the work of one primitive |
| PlanChange.GroupsAreComponents | frontend/src/app/components/plan-change/plan-change.ts:63-73 | Two entries share a group if and only if a chain of overlapping entries links them |
| PlanChange.GroupChanges | frontend/src/app/components/plan-change/plan-change.ts:57-75 | The groups hold exactly the members of the components; every before and after segment is shown exactly once; kept means one segment on each side, both the work of one primitive |
| PlanChange.SweepCover | frontend/src/app/components/plan-change/plan-change.ts:81-88 | The covered-until sweep says yes exactly when only care overlaps the trip and covers all of it |
| PlanChange.Classify | frontend/src/app/components/plan-change/plan-change.ts:77-89 | "Transport no longer needed" exactly for an unaffected trip, under a valid active plan, that care alone overlaps and covers completely |

## Left out

- All model, agent and prompt code: a proposal is an arbitrary plan with an optional researched caregiver, a ranking an arbitrary list.
- The planner's repair loop of up to three attempts: only the last proposal and its verdict reach the stored case.
- DynamoDB, AgentCore, HTTP routing and the event-stream transport: only the atomic compare-and-swap of the repository and the cursor loop are kept.
- Logging, timestamps, labels, message wording, warnings, preference scoring and validator feedback text: none of them affects validity or state.
- Decimal context precision and float timestamps: prices and hours are exact reals and whole seconds, rounding to cents is written out.
- ISO rendering of moments inside primitive ids: a moment is rendered as its number of seconds, which is just as injective.
- AssignmentMatrix.BuildFeasibleAssignmentMatrix: leaves out the people list and the hard-unavailable windows of the matrix; they inform the planner and are not used by the code modelled here.
- The JSON form of stored cases and the fall-back to a default scenario when a case has no snapshot: every modelled case carries its snapshot, as every case the service creates does.
- The details dictionaries of events and the context entries that only repeat an event.
- Exactly-once effects in the real world: two concurrent executions may both call the adapter before one save loses; only the stored history is guaranteed.
- The family-profile endpoints and fixtures.
- The rest of the front end: templates, labels, the loading states, and the flags that decide whether a view is shown at all.
- Object identity in the views: segments are compared by value where the view compares references, and windows are copied rather than shared.
- RecoveryProtocol.AuthorisedExecution: assumes that the identifier drawn for a new approval is not yet used in that case; it is a random UUID in the code.
- RecoveryProtocol.NoLostUpdate: follows one case; the repository's contract says that saving one case leaves every other one alone.
- RecoveryService.RecoveryApplicationService.ProcessEvent: a request runs without other clients in between; interleavings are the subject of the protocol, whose steps it is a chain of.
- ProgressBuffer.ReaderGetsEveryEventOnce: speaks of one channel; a reader whose key is re-pointed goes on with the other channel's numbers.
- PreservedWork.AcceptedCandidateRepairsThePlan: asks that preserved and affected windows do not overlap, which WorkStaysApart derives for plans whose segments do not overlap.
