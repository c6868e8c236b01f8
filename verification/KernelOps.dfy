/** The control-plane operations of src/walter/orchestration.py as steps Run -> Result<Run>.
    Every operation works on a private copy of the snapshot that is kept only if the
    operation returns, so a refused operation changes nothing. */
module KernelOps {
  import opened Base
  import opened RunModel
  import Lineage
  import PlanGraph

  datatype GateError =
    | RunIsTerminal | UnknownKey | IllegalTransition | InvalidRecord
    | CriteriaTooLate | ReasonMissing | WorkInFlight | GatesPending | RequestsPending
    | UseReplan | NotFresh | CollidesWithInput | CollidesWithArtifact | ExecutableCheckMissing
    | GraphInvalid | InputNotImmutable | WorkspaceNotInitial | WorkspaceCannotResolve
    | WorkspaceReplacementRefused | WorkerNotDelegatable | AttemptBudgetExhausted | TaskNotReady
    | TaskNotDelegatable | ExecutionGatesLapsed | AssignmentMismatch | ResultMismatch
    | InputsUnavailable | FingerprintRequired | ProvisionalMismatch | RequestPayloadMissing
    | CapabilityAlreadyAssigned | ContentChanged | FingerprintMismatch | NotCurrentCandidate
    | NotReviewing | AuthorCannotJudge | AuthorityMismatch | NoCandidate | ManagerGaveEvidence
    | EvidenceDigestMismatch | ValidationGatesFailed | ReviewRequired | EvidenceRequired
    | InputsNoLongerAccepted | CandidateProvenanceMismatch | NotIntegrable | AlreadyIntegrated
    | UnknownFailure | AlreadyRecovered | RetryGatesUnresolved | ApprovalMissing
    | ApprovalBoundToActiveWork | LegacyGateUnrecoverable | GateMismatch | GateAlreadyAttached
    | GateTooLate | ApprovalDecided | ExactApprovalRequired | RequestNotLinkable
    | WorkspaceBindingRequired | RequestNotLinked | TaskIsActive | ApprovalNotGranted
    | RequestNotPending | CapabilityNotApplied | EscalationConflict | StaleReplan | ReplanDefective
    | WorkUnresolved | InputsInvalid | ApprovalOutstanding | CriterionEvidenceInvalid
    | FinalResultMissing

  type Outcome = Result<Run, GateError>

  // The checks that execute a developer's candidate.
  const COMPILE: Id := 1
  const PYTEST: Id := 2
  const PYTEST_CANDIDATE: Id := 3
  const PYTEST_REGRESSION: Id := 4
  const NODE_TEST: Id := 5
  const TSC: Id := 6
  const NPM_BUILD: Id := 7
  const EXECUTABLE_CHECKS: set<Id> :=
    {COMPILE, PYTEST, PYTEST_CANDIDATE, PYTEST_REGRESSION, NODE_TEST, TSC, NPM_BUILD}

  const INTERRUPTED: Id := 8   // the evidence text `resume` records
  const MANAGER: Id := 9       // the default recovery actor

  function Put(run: Run, k: Id, t: Task): Run { run.(tasks := run.tasks[k := t]) }

  // ---- readiness refresh -------------------------------------------------------------

  ghost function RefreshTask(run: Run, t: Task): Task {
    if t.status.Planned? && Lineage.IsReady(run, t) then t.(status := Ready)
    else if t.status.Blocked? && Refreshable(t) && Lineage.IsReady(run, t) then
      t.(status := Ready, blocker := None)
    else if t.status.Ready? && !Lineage.IsReady(run, t) then
      t.(status := Blocked, blocker := Some(ReadinessLapsed))
    else t
  }

  ghost function Refresh(run: Run): Run {
    run.(tasks := map k | k in run.tasks :: RefreshTask(run, run.tasks[k]))
  }

  // ---- planning ----------------------------------------------------------------------

  predicate ChecksFit(t: Task, c: Capability) {
    c.DeveloperSandbox? ==> exists x :: x in t.requiredChecks && x in EXECUTABLE_CHECKS
  }

  predicate IsFresh(run: Run, t: Task) {
    && t.id !in run.tasks && t.status.Planned? && t.attempts == 0 && t.artifactIds == []
    && t.assignment.None? && t.attemptBaseline == 0 && t.revisionBaseline == 0
  }

  predicate ExecutionBegan(run: Run) {
    exists k :: k in run.tasks && run.tasks[k].attempts != 0
  }

  function AddEach(run: Run, add: seq<Task>): Outcome
    decreases |add|
  {
    if add == [] then Ok(run)
    else
      var t := add[0];
      if !IsFresh(run, t) then Err(NotFresh)
      else if t.id in run.inputs then Err(CollidesWithInput)
      else if t.id in run.artifacts then Err(CollidesWithArtifact)
      else if !ChecksFit(t, t.capability) then Err(ExecutableCheckMissing)
      else AddEach(Put(run, t.id, t), add[1..])
  }

  ghost function AddTasks(run: Run, add: seq<Task>): Outcome {
    if run.revision != 0 || ExecutionBegan(run) then Err(UseReplan)
    else
      var run' :- AddEach(run, add);
      if !PlanGraph.GraphOk(run') then Err(GraphInvalid) else Ok(Refresh(run'))
  }

  function SetCriteria(run: Run, criteria: seq<Id>): Outcome {
    if criteria == [] || (exists c :: c in criteria && !Substantive(c)) || ExecutionBegan(run) then
      Err(CriteriaTooLate)
    else Ok(run.(criteria := criteria))
  }

  ghost function RegisterInput(run: Run, name: Id, reference: Id): Outcome {
    if !Substantive(reference) || name in run.inputs || name in run.tasks || name in run.artifacts then
      Err(InputNotImmutable)
    else Ok(Refresh(run.(inputs := run.inputs[name := reference])))
  }

  ghost function BindWorkspace(run: Run, k: Id, workspace: Id): Outcome {
    if k !in run.tasks then Err(UnknownKey)
    else
      var t := run.tasks[k];
      if Present(t.workspace) || t.attempts != 0
         || !(t.status.Planned? || t.status.Ready? || t.status.Blocked?) || !Substantive(workspace) then
        Err(WorkspaceNotInitial)
      else if t.status.Blocked? && t.blocker != Some(CapabilityPrerequisitesMissing) then
        Err(WorkspaceCannotResolve)
      else Ok(Refresh(Put(run, k, t.(workspace := Some(workspace)))))
  }

  function ReplaceWorkspace(run: Run, k: Id, expected: Id, replacement: Id, reason: Id): Outcome {
    if k !in run.tasks then Err(UnknownKey)
    else
      var t := run.tasks[k];
      if !t.capability.DeveloperSandbox? || !(t.status.Ready? || t.status.RevisionRequired?)
         || t.attempts == 0 || t.workspace != Some(expected)
         || !Substantive(replacement) || replacement == expected || !Substantive(reason) then
        Err(WorkspaceReplacementRefused)
      else if t.artifactIds != [] && Last(t.artifactIds) !in run.artifacts then Err(UnknownKey)
      else if t.artifactIds != [] && run.artifacts[Last(t.artifactIds)].status.Candidate? then
        Err(WorkspaceReplacementRefused)
      else Ok(Put(run, k, t.(workspace := Some(replacement))))
  }

  // ---- execution ---------------------------------------------------------------------

  ghost function Delegate(mgr: Id, run: Run, k: Id, worker: Id, assignment: Id): Outcome {
    if k !in run.tasks then Err(UnknownKey)
    else
      var t := run.tasks[k];
      if !Substantive(worker) || worker == mgr then Err(WorkerNotDelegatable)
      else if t.attempts - t.attemptBaseline >= t.maxAttempts then Err(AttemptBudgetExhausted)
      else if !Lineage.IsReady(run, t) then Err(TaskNotReady)
      else if !(t.status.Ready? || t.status.RevisionRequired?) then Err(TaskNotDelegatable)
      else
        var a := Assignment(assignment, worker);
        Ok(Put(run, k, t.(status := Delegated, assignment := Some(a),
                          history := t.history + [a], attempts := t.attempts + 1)))
  }

  ghost function Start(run: Run, k: Id): Outcome {
    if k !in run.tasks then Err(UnknownKey)
    else
      var t := run.tasks[k];
      if !Lineage.IsReady(run, t) then Err(ExecutionGatesLapsed)
      else if !Allowed(t.status, Running) then Err(IllegalTransition)
      else if t.assignment.None? then Err(UnknownKey)
      else Ok(Put(run, k, t.(status := Running)))
  }

  predicate AssignedTo(t: Task, assignment: Id, worker: Id) {
    t.assignment == Some(Assignment(assignment, worker))
  }

  ghost function Submit(run: Run, k: Id, assignment: Id, worker: Id, completed: bool, deliverable: Id,
                        fingerprint: Option<Id>, id: Id): Outcome {
    if k !in run.tasks then Err(UnknownKey)
    else
      var t := run.tasks[k];
      if !AssignedTo(t, assignment, worker) then Err(AssignmentMismatch)
      else if !completed || !Substantive(deliverable) then Err(ResultMismatch)
      else if !Lineage.InputsCanonical(run, t) then Err(InputsUnavailable)
      else if !Allowed(t.status, Submitted) then Err(IllegalTransition)
      else if t.capability.DeveloperSandbox? && !Present(fingerprint) then Err(FingerprintRequired)
      else
        var art := Artifact(run.id, k, worker, deliverable, Digest(deliverable), fingerprint,
          |t.artifactIds| + 1, if t.artifactIds == [] then None else Some(Last(t.artifactIds)),
          Lineage.InputList(run, t, |Names(t)|), Candidate, None, [], []);
        Ok(Put(run, k, t.(status := Submitted, artifactIds := t.artifactIds + [id]))
             .(artifacts := run.artifacts[id := art]))
  }

  function Provisional(run: Run, k: Id, assignment: Id, worker: Id, incomplete: bool, text: Id): Outcome {
    if k !in run.tasks then Err(UnknownKey)
    else
      var t := run.tasks[k];
      if !t.status.Running? || !AssignedTo(t, assignment, worker) || !incomplete then
        Err(ProvisionalMismatch)
      else Ok(Put(run, k, t.(blocker := Some(FreeText(text)))))
  }

  function RequestCapability(run: Run, k: Id, assignment: Id, worker: Id, incomplete: bool, text: Id,
                             wanted: Option<Capability>, id: Id): Outcome {
    var run' :- Provisional(run, k, assignment, worker, incomplete, text);
    if wanted.None? then Err(RequestPayloadMissing)
    else if wanted.value == run.tasks[k].capability then Err(CapabilityAlreadyAssigned)
    else
      Ok(run'.(requests := run.requests[id :=
        CapabilityRequest(k, assignment, worker, wanted.value, RequestPending, None, None)]))
  }

  ghost function ResumeTask(t: Task): Task {
    if t.status.Delegated? || t.status.Running? then
      t.(status := Failed, blocker := Some(FreeText(INTERRUPTED)))
    else t
  }

  /** `interrupted` holds one new failure record for each interrupted task. */
  ghost function Resume(run: Run, interrupted: seq<Failure>): Outcome {
    Ok(run.(tasks := map k | k in run.tasks :: ResumeTask(run.tasks[k]), failures := run.failures + interrupted))
  }

  function FailTask(run: Run, k: Id, kind: FailureClass, evidence: Id, id: Id): Outcome {
    if k !in run.tasks then Err(UnknownKey)
    else if !Truthy(evidence) then Err(InvalidRecord)
    else if !Allowed(run.tasks[k].status, Failed) then Err(IllegalTransition)
    else Ok(Put(run, k, run.tasks[k].(status := Failed, blocker := Some(FreeText(evidence))))
              .(failures := run.failures + [Failure(id, k, kind, evidence)]))
  }

  function FailAssignment(run: Run, k: Id, assignment: Id, worker: Id, kind: FailureClass,
                          evidence: Id, id: Id): Outcome {
    if k !in run.tasks then Err(UnknownKey)
    else if !AssignedTo(run.tasks[k], assignment, worker) then Err(AssignmentMismatch)
    else FailTask(run, k, kind, evidence, id)
  }

  // ---- evidence and acceptance ---------------------------------------------------------

  /** `_candidate`: the task is REVIEWING afterwards. */
  function CandidateCheck(run: Run, a: Id, fingerprint: Option<Id>): Outcome {
    if a !in run.artifacts || run.artifacts[a].taskId !in run.tasks then Err(UnknownKey)
    else
      var art := run.artifacts[a];
      var t := run.tasks[art.taskId];
      if Digest(art.content) != art.digest then Err(ContentChanged)
      else if Present(art.fingerprint) && art.fingerprint != fingerprint then Err(FingerprintMismatch)
      else if t.artifactIds == [] then Err(UnknownKey)
      else if Last(t.artifactIds) != a || !art.status.Candidate? then Err(NotCurrentCandidate)
      else if t.status.Submitted? then Ok(Put(run, art.taskId, t.(status := Reviewing)))
      else if !t.status.Reviewing? then Err(NotReviewing)
      else Ok(run)
  }

  function Validate(mgr: Id, run: Run, a: Id, check: Id, passed: bool, evidence: Id, validator: Id,
                    fingerprint: Option<Id>): Outcome {
    var run' :- CandidateCheck(run, a, fingerprint);
    var art := run.artifacts[a];
    if validator == mgr || validator in Workers(run.tasks[art.taskId]) then Err(AuthorCannotJudge)
    else if !Truthy(evidence) || !Truthy(validator) then Err(InvalidRecord)
    else
      var art' := art.(validations := art.validations + [Validation(art.digest, check, passed, validator)]);
      Ok(run'.(artifacts := run.artifacts[a := art']))
  }

  function Review(mgr: Id, run: Run, a: Id, reviewer: Id, passed: bool, evidence: Id,
                  fingerprint: Option<Id>): Outcome {
    var run' :- CandidateCheck(run, a, fingerprint);
    var art := run.artifacts[a];
    if reviewer == mgr || reviewer in Workers(run.tasks[art.taskId]) then Err(AuthorCannotJudge)
    else if !Truthy(evidence) || !Truthy(reviewer) then Err(InvalidRecord)
    else
      var art' := art.(reviews := art.reviews + [ReviewRecord(art.digest, reviewer, passed)]);
      Ok(run'.(artifacts := run.artifacts[a := art']))
  }

  predicate ReviewNeeded(t: Task) { t.reviewRequired || t.highRisk || t.capability.DeveloperSandbox? }

  predicate DigestsMatch(art: Artifact) {
    && (forall v :: v in art.validations ==> v.digest == art.digest)
    && (forall r :: r in art.reviews ==> r.digest == art.digest)
  }

  predicate ChecksPassed(t: Task, art: Artifact) {
    && (forall v :: v in art.validations ==> v.passed)
    && (forall c :: c in t.requiredChecks ==> exists v :: v in art.validations && v.check == c)
  }

  /** The people behind an artifact: its task's workers, its validators and its reviewers. */
  function Principals(t: Task, art: Artifact): set<Id> {
    Workers(t) + (set v | v in art.validations :: v.validator) + (set r | r in art.reviews :: r.reviewer)
  }

  /** The evidence gates of `accept`, in their order. */
  function EvidenceGate(mgr: Id, t: Task, art: Artifact): Option<GateError> {
    if mgr in Principals(t, art) then Some(ManagerGaveEvidence)
    else if !DigestsMatch(art) then Some(EvidenceDigestMismatch)
    else if !ChecksPassed(t, art) then Some(ValidationGatesFailed)
    else if ReviewNeeded(t) && (art.reviews == [] || !Last(art.reviews).passed) then Some(ReviewRequired)
    else if t.requiredChecks == [] && art.reviews == [] then Some(EvidenceRequired)
    else None
  }

  /** What `accept` does once the candidate is under review. */
  ghost function AcceptCandidate(mgr: Id, run: Run, a: Id, reason: Id): Outcome
    requires a in run.artifacts && run.artifacts[a].taskId in run.tasks
  {
    var art := run.artifacts[a];
    var t := run.tasks[art.taskId];
    if EvidenceGate(mgr, t, art).Some? then Err(EvidenceGate(mgr, t, art).value)
    else if !Lineage.IsReady(run, t) then Err(InputsNoLongerAccepted)
    else if !Lineage.ProvenanceMatches(run, t, a) then Err(CandidateProvenanceMismatch)
    else if !Truthy(reason) then Err(InvalidRecord)
    else
      Ok(Refresh(Put(run, art.taskId, t.(status := Accepted))
                   .(artifacts := run.artifacts[a := art.(status := Canonical)],
                     accepted := run.accepted + [a])))
  }

  ghost function Accept(mgr: Id, run: Run, k: Id, caller: Option<Id>, reason: Id,
                        fingerprint: Option<Id>): Outcome {
    if caller.Some? && caller.value != mgr then Err(AuthorityMismatch)
    else if k !in run.tasks then Err(UnknownKey)
    else if run.tasks[k].artifactIds == [] then Err(NoCandidate)
    else
      var a := Last(run.tasks[k].artifactIds);
      var run' :- CandidateCheck(run, a, fingerprint);
      AcceptCandidate(mgr, run', a, reason)
  }

  function RecordIntegration(run: Run, a: Id, commit: Id): Outcome {
    if !Substantive(commit) then Err(NotIntegrable)
    else if a in run.artifacts && run.artifacts[a].integrated == Some(commit) then Ok(run)
    else if !run.status.Active? then Err(RunIsTerminal)
    else if a !in run.artifacts || run.artifacts[a].taskId !in run.tasks then Err(NotIntegrable)
    else
      var art := run.artifacts[a];
      var t := run.tasks[art.taskId];
      if !art.status.Canonical? || a !in run.accepted || !t.status.Accepted? || t.artifactIds == []
         || Last(t.artifactIds) != a || !Present(art.fingerprint) then Err(NotIntegrable)
      else if art.integrated.Some? then Err(AlreadyIntegrated)
      else Ok(run.(artifacts := run.artifacts[a := art.(integrated := Some(commit))]))
  }

  // ---- recovery --------------------------------------------------------------------------

  function RecoveryFor(t: Task, kind: FailureClass): RecoveryAction {
    var action :=
      match kind
      case ProviderFailure | Timeout | StaleBase => Retry
      case BadOutput | MissingEvidence => Revise
      case RepeatedBadOutput | ConstraintViolation => Replace
      case CapabilityUnavailable | UnsupportedCapability | ToolFailure => Escalate
      case TaskAmbiguity | DependencyFailure => Replan;
    var action' := if (action.Retry? || action.Revise?) && t.attempts - t.attemptBaseline >= t.maxAttempts
                   then Replan else action;
    if action'.Revise? && t.revisions - t.revisionBaseline >= t.maxRevisions then Replace else action'
  }

  function RecoveredTask(t: Task, action: RecoveryAction, f: Failure): Task {
    match action
    case Retry => t.(status := Ready, blocker := None)
    case Revise => t.(status := RevisionRequired, revisions := t.revisions + 1,
                      blocker := Some(FreeText(f.evidence)))
    case Replace => t.(status := Replaced, blocker := Some(ReplacementRequired))
    case Escalate => t.(status := Blocked, blocker := Some(
        if f.kind.CapabilityUnavailable? then EscalationPending
        else if f.kind.UnsupportedCapability? then CapabilityNotSupported else ToolFailed))
    case Replan => t.(status := Blocked, blocker := Some(ReplanRequired))
  }

  /** The first failure record with this id. */
  function FindFailure(failures: seq<Failure>, id: Id): Option<Failure> {
    if failures == [] then None
    else if failures[0].id == id then Some(failures[0])
    else FindFailure(failures[1..], id)
  }

  ghost function Recover(mgr: Id, run: Run, id: Id, reason: Id, actor: Id): Outcome {
    if actor != MANAGER && actor != mgr then Err(AuthorityMismatch)
    else
      var found := FindFailure(run.failures, id);
      if found.None? then Err(UnknownFailure)
      else if found.value.taskId !in run.tasks then Err(UnknownKey)
      else
        var f := found.value;
        var t := run.tasks[f.taskId];
        if (exists r :: r in run.recoveries && r.failureId == id) || !t.status.Failed? then
          Err(AlreadyRecovered)
        else
          var action := RecoveryFor(t, f.kind);
          if action.Retry? && !Lineage.IsReady(run, t) then Err(RetryGatesUnresolved)
          else if t.artifactIds != [] && Last(t.artifactIds) !in run.artifacts then Err(UnknownKey)
          else if !Truthy(reason) then Err(InvalidRecord)
          else
            var artifacts := if t.artifactIds == [] then run.artifacts else
              run.artifacts[Last(t.artifactIds) :=
                run.artifacts[Last(t.artifactIds)].(status := Rejected)];
            Ok(Put(run, f.taskId, RecoveredTask(t, action, f))
                 .(artifacts := artifacts, recoveries := run.recoveries + [Recovery(id, action)]))
  }

  // ---- approvals and gates ---------------------------------------------------------------

  predicate HasGate(t: Task, request: Id) { exists g :: g in t.gates && g.request == request }

  function ReplaceGate(gates: seq<Gate>, prior: Id, successor: Gate): seq<Gate> {
    seq(|gates|, i requires 0 <= i < |gates| => if gates[i].request == prior then successor else gates[i])
  }

  function SupersedeInTask(t: Task, prior: Id, successor: Gate): Task {
    if HasGate(t, prior) then
      t.(gates := ReplaceGate(t.gates, prior, successor), blocker := Some(ApprovalPendingBlocker),
         status := if t.status.Ready? then Blocked else t.status)
    else t
  }

  function RequestApproval(run: Run, id: Id, action: Action, scope: Scope, reason: Id, required: bool,
                           supersedes: Option<Id>): Outcome {
    if !Truthy(reason) then Err(InvalidRecord)
    else if supersedes.None? then
      Ok(run.(approvals := run.approvals[id := Approval(action, scope, ApprovalPending, required)]))
    else
      var prior := supersedes.value;
      if prior !in run.approvals || run.approvals[prior].status.ApprovalSuperseded? then Err(ApprovalMissing)
      else if exists k :: k in run.tasks && InFlight(run.tasks[k].status) && HasGate(run.tasks[k], prior) then
        Err(ApprovalBoundToActiveWork)
      else
        Ok(run.(tasks := map k | k in run.tasks ::
                           SupersedeInTask(run.tasks[k], prior, Gate(id, action, scope)),
                approvals := run.approvals[prior := run.approvals[prior].(status := ApprovalSuperseded)]
                                          [id := Approval(action, scope, ApprovalPending, required)]))
  }

  predicate GateMatches(run: Run, id: Id, action: Action, scope: Scope) {
    && id in run.approvals && !run.approvals[id].status.ApprovalSuperseded?
    && run.approvals[id].action == action && run.approvals[id].scope == scope
  }

  function RemoveFirst(s: seq<Id>, x: Id): seq<Id> {
    if s == [] then [] else if s[0] == x then s[1..] else [s[0]] + RemoveFirst(s[1..], x)
  }

  function MissingOrSatisfied(t: Task): Blocker {
    if t.capability.DeveloperSandbox? && !Present(t.workspace) then CapabilityPrerequisitesMissing
    else ApprovalPrerequisitesSatisfied
  }

  /** One bare approval id gives way to an exact gate. */
  function Regated(t: Task, legacy: Id, gate: Gate, status: ApprovalStatus): Task {
    var left := RemoveFirst(t.approvalIds, legacy);
    t.(gates := t.gates + [gate], approvalIds := left, blocker := Some(
      if left != [] then LegacyRegate
      else if status.ApprovalGranted? then MissingOrSatisfied(t)
      else if status.ApprovalRejected? then ApprovalRejectedBlocker
      else ApprovalPendingBlocker))
  }

  ghost function RecoverLegacyGate(run: Run, k: Id, legacy: Id, id: Id, action: Action, scope: Scope): Outcome {
    if k !in run.tasks then Err(UnknownKey)
    else
      var t := run.tasks[k];
      if legacy !in t.approvalIds || !(t.status.Planned? || t.status.Ready? || t.status.Blocked?) then
        Err(LegacyGateUnrecoverable)
      else if !GateMatches(run, id, action, scope) then Err(GateMismatch)
      else if HasGate(t, id) then Err(GateAlreadyAttached)
      else
        Ok(Refresh(Put(run, k, Regated(t, legacy, Gate(id, action, scope), run.approvals[id].status))))
  }

  /** A gate whose approval is not granted blocks a READY task. */
  function Gated(t: Task, gate: Gate, status: ApprovalStatus): Task {
    var gated := t.(gates := t.gates + [gate]);
    if t.status.Ready? && !status.ApprovalGranted? then
      gated.(status := Blocked, blocker := Some(
        if status.ApprovalRejected? then ApprovalRejectedBlocker else ApprovalPendingBlocker))
    else gated
  }

  ghost function GateTask(run: Run, k: Id, id: Id, action: Action, scope: Scope): Outcome {
    if k !in run.tasks then Err(UnknownKey)
    else
      var t := run.tasks[k];
      if !(t.status.Planned? || t.status.Ready? || t.status.Blocked?) || t.attempts != 0 then Err(GateTooLate)
      else if !GateMatches(run, id, action, scope) then Err(GateMismatch)
      else if HasGate(t, id) then Err(GateAlreadyAttached)
      else
        Ok(Refresh(Put(run, k, Gated(t, Gate(id, action, scope), run.approvals[id].status))))
  }

  function DecideInTask(t: Task, id: Id, approved: bool): Task {
    if !HasGate(t, id) then t
    else if !approved then t.(blocker := Some(ApprovalRejectedBlocker))
    else if t.status.Blocked? && t.blocker == Some(ApprovalPendingBlocker) then
      t.(blocker := Some(MissingOrSatisfied(t)))
    else t
  }

  ghost function DecideApproval(run: Run, id: Id, approved: bool, human: Id, reason: Id): Outcome {
    if id !in run.approvals || !run.approvals[id].status.ApprovalPending? || id in run.decisions then
      Err(ApprovalDecided)
    else if !Truthy(human) || !Truthy(reason) then Err(InvalidRecord)
    else
      var status := if approved then ApprovalGranted else ApprovalRejected;
      Ok(Refresh(run.(decisions := run.decisions[id := approved],
                      approvals := run.approvals[id := run.approvals[id].(status := status)],
                      tasks := map k | k in run.tasks :: DecideInTask(run.tasks[k], id, approved))))
  }

  predicate Granted(run: Run, id: Option<Id>) {
    && id.Some? && id.value in run.approvals && run.approvals[id.value].status.ApprovalGranted?
    && id.value in run.decisions && run.decisions[id.value]
  }

  /** `_approved`: an exact scoped human approval. */
  predicate ExactlyApproved(run: Run, id: Option<Id>, action: Action, scope: Scope) {
    Granted(run, id) && run.approvals[id.value].action == action && run.approvals[id.value].scope == scope
  }

  // ---- capabilities ------------------------------------------------------------------------

  predicate NeedsWorkspace(c: Capability) { c.RepoReader? || c.DeveloperSandbox? }

  function LinkCapability(run: Run, r: Id, approval: Id, workspace: Option<Id>): Outcome {
    if r !in run.requests then Err(UnknownKey)
    else
      var req := run.requests[r];
      if !req.status.RequestPending? || req.approvalId.Some? then Err(RequestNotLinkable)
      else if NeedsWorkspace(req.requested) && !Present(workspace) then Err(WorkspaceBindingRequired)
      else if !GateMatches(run, approval, ChangeCapability,
                CapabilityScope(req.taskId, req.requested, workspace)) then Err(GateMismatch)
      else Ok(run.(requests := run.requests[r := req.(approvalId := Some(approval), workspace := workspace)]))
  }

  function EscalatedTask(t: Task, req: CapabilityRequest): Task {
    t.(capability := req.requested, workspace := req.workspace,
       blocker := if t.status.Blocked? && t.blocker == Some(EscalationPending)
                  then Some(ApprovalPrerequisitesSatisfied) else t.blocker)
  }

  ghost function ApplyEscalation(mgr: Id, run: Run, r: Id, caller: Option<Id>): Outcome {
    if caller.Some? && caller.value != mgr then Err(AuthorityMismatch)
    else if r !in run.requests || run.requests[r].taskId !in run.tasks then Err(UnknownKey)
    else
      var req := run.requests[r];
      var t := run.tasks[req.taskId];
      if req.status.RequestEscalated? then
        if t.capability != req.requested || t.workspace != req.workspace then Err(EscalationConflict)
        else Ok(run)
      else if !run.status.Active? then Err(RunIsTerminal)
      else if !(req.status.RequestPending? || req.status.RequestApproved?) || !Present(req.approvalId) then
        Err(RequestNotLinked)
      else if !(t.status.Blocked? || t.status.Ready? || t.status.RevisionRequired?) then Err(TaskIsActive)
      else if !ChecksFit(t, req.requested) then Err(ExecutableCheckMissing)
      else if !Granted(run, req.approvalId) then Err(ApprovalNotGranted)
      else if !ExactlyApproved(run, req.approvalId, ChangeCapability,
                CapabilityScope(t.id, req.requested, req.workspace)) then Err(ExactApprovalRequired)
      else if NeedsWorkspace(req.requested) && !Present(req.workspace) then Err(WorkspaceBindingRequired)
      else
        Ok(Refresh(Put(run, req.taskId, EscalatedTask(t, req))
                     .(requests := run.requests[r := req.(status := RequestEscalated)])))
  }

  function ApproveRequest(run: Run, r: Id): Outcome {
    if r !in run.requests then Err(UnknownKey)
    else
      var req := run.requests[r];
      if !req.status.RequestPending? || !Present(req.approvalId) then Err(RequestNotPending)
      else if !Granted(run, req.approvalId) then Err(ApprovalNotGranted)
      else Ok(run.(requests := run.requests[r := req.(status := RequestApproved)]))
  }

  function DenyRequest(run: Run, r: Id, reason: Id): Outcome {
    if r !in run.requests then Err(UnknownKey)
    else
      var req := run.requests[r];
      if !(req.status.RequestPending? || req.status.RequestApproved?) || !Substantive(reason) then
        Err(RequestNotPending)
      else Ok(run.(requests := run.requests[r := req.(status := RequestDenied)]))
  }

  function MarkEscalated(run: Run, r: Id): Outcome {
    if r !in run.requests || run.requests[r].taskId !in run.tasks then Err(UnknownKey)
    else
      var req := run.requests[r];
      if !req.status.RequestApproved? || run.tasks[req.taskId].capability != req.requested then
        Err(CapabilityNotApplied)
      else Ok(run.(requests := run.requests[r := req.(status := RequestEscalated)]))
  }

  /** The task with another capability: a pending escalation is settled, lost readiness blocks it. */
  ghost function ChangedTask(run: Run, k: Id, c: Capability, workspace: Option<Id>): Task requires k in run.tasks {
    var t1 := run.tasks[k].(capability := c, workspace := workspace);
    var t2 := if t1.status.Blocked? && t1.blocker == Some(EscalationPending)
              then t1.(blocker := Some(MissingOrSatisfied(t1))) else t1;
    if t2.status.Ready? && !Lineage.IsReady(Put(run, k, t2), t2)
    then t2.(status := Blocked, blocker := Some(CapabilityPrerequisitesMissing)) else t2
  }

  ghost function SetCapability(run: Run, k: Id, c: Capability, approval: Id, workspace: Option<Id>): Outcome {
    if k !in run.tasks then Err(UnknownKey)
    else
      var t := run.tasks[k];
      if !(t.status.Planned? || t.status.Ready? || t.status.RevisionRequired? || t.status.Blocked?) then
        Err(TaskIsActive)
      else if !ChecksFit(t, c) then Err(ExecutableCheckMissing)
      else if !ExactlyApproved(run, Some(approval), ChangeCapability, CapabilityScope(k, c, workspace)) then
        Err(ExactApprovalRequired)
      else
        Ok(Refresh(Put(run, k, ChangedTask(run, k, c, workspace))))
  }

  // ---- closing a run -------------------------------------------------------------------------

  function Abandon(run: Run, reason: Id): Outcome {
    if !Substantive(reason) then Err(ReasonMissing)
    else if exists k :: k in run.tasks && InFlight(run.tasks[k].status) then Err(WorkInFlight)
    else if exists r :: r in run.approvals && run.approvals[r].status.ApprovalPending? then Err(GatesPending)
    else if exists r :: r in run.requests && run.requests[r].status.RequestPending? then Err(RequestsPending)
    else Ok(run.(status := Abandoned))
  }

  /** The records `complete` must find resolved: every task that is not cancelled. */
  predicate StillCounts(run: Run, k: Id) { k in run.tasks && !run.tasks[k].status.Cancelled? }

  ghost predicate TaskSettled(run: Run, k: Id) requires k in run.tasks {
    && run.tasks[k].artifactIds != [] && Lineage.IsReady(run, run.tasks[k])
    && Lineage.IsCanonical(run, Last(run.tasks[k].artifactIds))
  }

  predicate CriteriaCovered(run: Run, evidence: map<Id, seq<Id>>) {
    && evidence.Keys == Elements(run.criteria)
    && forall c :: c in evidence ==> evidence[c] != [] && Elements(evidence[c]) <= Elements(run.accepted)
  }

  ghost function Complete(run: Run, result: Id, evidence: map<Id, seq<Id>>): Outcome {
    if (forall k :: k in run.tasks ==> !StillCounts(run, k))
       || (exists k :: StillCounts(run, k) && !run.tasks[k].status.Accepted?) || run.unresolved != [] then
      Err(WorkUnresolved)
    else if !PlanGraph.GraphOk(run) then Err(GraphInvalid)
    else if exists k :: StillCounts(run, k) && !TaskSettled(run, k) then Err(InputsInvalid)
    else if exists r :: r in run.approvals && run.approvals[r].required
                        && run.approvals[r].status.ApprovalPending? then Err(ApprovalOutstanding)
    else if !CriteriaCovered(run, evidence) then Err(CriterionEvidenceInvalid)
    else if exists c, a :: c in evidence && a in evidence[c] && !Lineage.IsCanonical(run, a) then
      Err(InputsInvalid)
    else if !Substantive(result) then Err(FinalResultMissing)
    else Ok(run.(finalResult := Some(result), status := Completed))
  }

  /** Usage accounting is the one append a terminal run still takes. */
  function RecordUsage(run: Run, record: Id): Outcome { Ok(run.(usage := run.usage + [record])) }
}
