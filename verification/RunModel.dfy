/** The durable run record (src/walter/models.py) and the checks that only read one task. */
module RunModel {
  import opened Base

  datatype Status =
    | Planned | Ready | Delegated | Running | Submitted | Reviewing
    | RevisionRequired | Accepted | Replaced | Blocked | Failed | Cancelled

  datatype Capability = ModelOnly | Researcher | RepoReader | DeveloperSandbox | Reviewer

  datatype FailureClass =
    | BadOutput | MissingEvidence | ConstraintViolation | TaskAmbiguity | DependencyFailure
    | ToolFailure | ProviderFailure | Timeout | CapabilityUnavailable | UnsupportedCapability
    | RepeatedBadOutput | StaleBase

  datatype Blocker =
    | CapabilityPrerequisitesMissing | ApprovalPrerequisitesSatisfied | ApprovalPendingBlocker
    | ApprovalRejectedBlocker | EscalationPending | CapabilityNotSupported | ToolFailed
    | ReplanRequired | ReplacementRequired | LegacyRegate | ReadinessLapsed | FreeText(text: Id)

  datatype ApprovalStatus = ApprovalPending | ApprovalGranted | ApprovalRejected | ApprovalSuperseded

  datatype RequestStatus = RequestPending | RequestApproved | RequestDenied | RequestEscalated

  datatype ArtifactStatus = Candidate | Canonical | Rejected | Superseded

  datatype RunStatus = Active | Completed | Abandoned

  datatype Action = ChangeCapability | ReplanAction | OtherAction(name: Id)

  /** Canonical scope JSON together with its digest: two scopes are equal exactly when
      both strings are. */
  datatype Scope =
    | CapabilityScope(task: Id, capability: Capability, workspace: Option<Id>)
    | ReplanScope(proposal: Id, base: int)
    | OtherScope(body: Id)

  datatype Gate = Gate(request: Id, action: Action, scope: Scope)

  datatype Approval = Approval(action: Action, scope: Scope, status: ApprovalStatus, required: bool)

  datatype Assignment = Assignment(id: Id, worker: Id)

  type Positive = n: int | 1 <= n witness 1

  datatype Task = Task(
    id: Id, deps: seq<Id>, inputs: seq<Id>, criteria: seq<Id>,
    capability: Capability, workspace: Option<Id>, requiredChecks: seq<Id>,
    reviewRequired: bool, highRisk: bool, status: Status,
    attempts: nat, revisions: nat, attemptBaseline: nat, revisionBaseline: nat,
    maxAttempts: Positive, maxRevisions: nat,
    assignment: Option<Assignment>, history: seq<Assignment>, artifactIds: seq<Id>,
    blocker: Option<Blocker>, gates: seq<Gate>, approvalIds: seq<Id>)

  datatype Validation = Validation(digest: Id, check: Id, passed: bool, validator: Id)

  datatype ReviewRecord = ReviewRecord(digest: Id, reviewer: Id, passed: bool)

  datatype Artifact = Artifact(
    runId: Id, taskId: Id, worker: Id, content: Id, digest: Id, fingerprint: Option<Id>,
    version: nat, predecessor: Option<Id>, inputIds: seq<Id>, status: ArtifactStatus,
    integrated: Option<Id>, validations: seq<Validation>, reviews: seq<ReviewRecord>)

  datatype Failure = Failure(id: Id, taskId: Id, kind: FailureClass, evidence: Id)

  datatype RecoveryAction = Retry | Revise | Replace | Escalate | Replan

  datatype Recovery = Recovery(failureId: Id, action: RecoveryAction)

  datatype CapabilityRequest = CapabilityRequest(
    taskId: Id, assignmentId: Id, worker: Id, requested: Capability, status: RequestStatus,
    approvalId: Option<Id>, workspace: Option<Id>)

  datatype Proposal = Proposal(
    id: Id, base: int, add: seq<Task>, remove: seq<Id>, reopen: seq<Id>, deps: map<Id, seq<Id>>,
    requiresApproval: bool, approvalId: Option<Id>)

  datatype Run = Run(
    id: Id, status: RunStatus, tasks: map<Id, Task>, artifacts: map<Id, Artifact>,
    accepted: seq<Id>, inputs: map<Id, Id>, approvals: map<Id, Approval>,
    decisions: map<Id, bool>, requests: map<Id, CapabilityRequest>,
    failures: seq<Failure>, recoveries: seq<Recovery>, replans: map<Id, Proposal>,
    revision: nat, maxReplans: nat, criteria: seq<Id>, usage: seq<Id>,
    unresolved: seq<Id>, finalResult: Option<Id>)

  /** sha256 of a text, an injective function. */
  function Digest(content: Id): Id { content }

  predicate Retired(s: Status) { s.Cancelled? || s.Replaced? }

  predicate InFlight(s: Status) { s.Delegated? || s.Running? || s.Submitted? || s.Reviewing? }

  /** The names a packet declares, in the order the kernel resolves them. */
  function Names(t: Task): seq<Id> { t.deps + t.inputs }

  function Workers(t: Task): set<Id> { set a | a in t.history :: a.worker }

  predicate Refreshable(t: Task) {
    t.blocker.Some? && (t.blocker.value.CapabilityPrerequisitesMissing?
      || t.blocker.value.ApprovalPrerequisitesSatisfied? || t.blocker.value.ReadinessLapsed?)
  }

  /** The transition table. */
  predicate Allowed(from: Status, to: Status) {
    match from
    case Planned => to.Ready? || to.Blocked?
    case Ready => to.Delegated? || to.Blocked?
    case Delegated => to.Running? || to.Failed? || to.Blocked?
    case Running => to.Submitted? || to.Failed? || to.Blocked?
    case Submitted => to.Reviewing? || to.Failed?
    case Reviewing => to.Accepted? || to.RevisionRequired? || to.Replaced? || to.Failed?
    case RevisionRequired => to.Delegated? || to.Blocked?
    case Blocked => to.Ready? || to.Replaced?
    case Failed => to.Ready? || to.RevisionRequired? || to.Replaced? || to.Blocked?
    case Accepted | Replaced | Cancelled => false
  }
}
