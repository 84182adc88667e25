/** The persistent recovery case. Timestamps, wording and presentation details are left out. */
module Cases {
  import opened Prelude
  import opened Intervals
  import opened Domain

  datatype Status =
    | WaitingForResponse | Executing | Replanning | NoRecoveryOption | ApprovalRequired
    | Resolved | Failed

  datatype EventKind =
    | Disruption(caregiver: string)
    | CaregiverDeclined(who: string, window: Window)
    | ApprovalRequested(request: string, requestPlan: PlanId)
    | ApprovalDecided(decided: string, decidedPlan: PlanId, approved: bool)
    | ExecutionStarted(startedPlan: PlanId)
    | ActionFinished(action: ActionId, succeeded: bool)
    | CompletionVerified(verifiedPlan: PlanId)
    | CaseResolved

  datatype Event = Event(id: EventId, kind: EventKind)

  datatype ApprovalStatus = Pending | Approved | Rejected

  datatype ApprovalType = SpendAboveLimit | UnfamiliarCaregiver

  datatype Approval = Approval(
    id: string, planId: PlanId, kind: ApprovalType, status: ApprovalStatus, amount: Money)

  datatype ActionStatus = Succeeded | NotSucceeded

  datatype Action = Action(id: ActionId, planId: PlanId, target: string, status: ActionStatus)

  /** The facts a case was started from, and the researched caregiver added since, if any. */
  datatype Context = Context(snapshot: Scenario, researched: Option<Candidate>)

  datatype Case = Case(
    id: string, status: Status, gap: Window, uncovered: seq<Window>, context: Context,
    plan: Option<Plan>, previous: seq<Plan>, assumptions: seq<Assumption>, events: seq<Event>,
    pending: Option<Approval>, approvals: seq<Approval>, actions: seq<Action>,
    trigger: Option<EventId>, verified: bool, version: nat)

  function PlanIds(plans: seq<Plan>): set<PlanId> {
    set p | p in plans :: p.id
  }

  function EventIds(events: seq<Event>): set<EventId> {
    set e | e in events :: e.id
  }
}
