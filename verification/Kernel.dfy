/** The control plane as one transition system: every public operation is a step. */
module Kernel {
  import opened Base
  import opened RunModel
  import opened KernelOps
  import R = Replanning

  datatype Op =
    | SetCriteriaOp(criteria: seq<Id>)
    | AddTasksOp(add: seq<Task>)
    | RegisterInputOp(name: Id, reference: Id)
    | BindWorkspaceOp(k: Id, workspace: Id)
    | ReplaceWorkspaceOp(k: Id, expected: Id, replacement: Id, reason: Id)
    | DelegateOp(k: Id, worker: Id, id: Id)
    | StartOp(k: Id)
    | SubmitOp(k: Id, assignment: Id, worker: Id, completed: bool, deliverable: Id, fingerprint: Option<Id>, id: Id)
    | ProvisionalOp(k: Id, assignment: Id, worker: Id, incomplete: bool, text: Id)
    | RequestCapabilityOp(k: Id, assignment: Id, worker: Id, incomplete: bool, text: Id,
                          wanted: Option<Capability>, id: Id)
    | ResumeOp(interrupted: seq<Failure>)
    | FailOp(k: Id, kind: FailureClass, evidence: Id, id: Id)
    | FailAssignmentOp(k: Id, assignment: Id, worker: Id, kind: FailureClass, evidence: Id, id: Id)
    | ValidateOp(a: Id, check: Id, passed: bool, evidence: Id, judge: Id, fingerprint: Option<Id>)
    | ReviewOp(a: Id, judge: Id, passed: bool, evidence: Id, fingerprint: Option<Id>)
    | AcceptOp(k: Id, caller: Option<Id>, reason: Id, fingerprint: Option<Id>)
    | RecordIntegrationOp(a: Id, commit: Id)
    | RecoverOp(failure: Id, reason: Id, actor: Id)
    | RequestApprovalOp(id: Id, action: Action, scope: Scope, reason: Id, required: bool, supersedes: Option<Id>)
    | RecoverLegacyGateOp(k: Id, legacy: Id, approval: Id, action: Action, scope: Scope)
    | GateTaskOp(k: Id, approval: Id, action: Action, scope: Scope)
    | DecideApprovalOp(approval: Id, approved: bool, human: Id, reason: Id)
    | LinkCapabilityOp(r: Id, approval: Id, binding: Option<Id>)
    | ApplyEscalationOp(r: Id, caller: Option<Id>)
    | ApproveRequestOp(r: Id)
    | DenyRequestOp(r: Id, reason: Id)
    | MarkEscalatedOp(r: Id)
    | SetCapabilityOp(k: Id, capability: Capability, approval: Id, binding: Option<Id>)
    | ProposeOp(p: Proposal)
    | ApplyOp(proposal: Id)
    | AbandonOp(reason: Id)
    | CompleteOp(result: Id, coverage: map<Id, seq<Id>>)
    | RecordUsageOp(record: Id)

  /** An operation once the run is known to be active. */
  ghost function Mutation(mgr: Id, run: Run, op: Op): Outcome {
    match op
    case SetCriteriaOp(c) => SetCriteria(run, c)
    case AddTasksOp(add) => AddTasks(run, add)
    case RegisterInputOp(n, r) => RegisterInput(run, n, r)
    case BindWorkspaceOp(k, w) => BindWorkspace(run, k, w)
    case ReplaceWorkspaceOp(k, e, w, r) => ReplaceWorkspace(run, k, e, w, r)
    case DelegateOp(k, w, id) => Delegate(mgr, run, k, w, id)
    case StartOp(k) => Start(run, k)
    case SubmitOp(k, a, w, c, d, f, id) => Submit(run, k, a, w, c, d, f, id)
    case ProvisionalOp(k, a, w, i, t) => Provisional(run, k, a, w, i, t)
    case RequestCapabilityOp(k, a, w, i, t, c, id) => RequestCapability(run, k, a, w, i, t, c, id)
    case ResumeOp(f) => Resume(run, f)
    case FailOp(k, c, e, id) => FailTask(run, k, c, e, id)
    case FailAssignmentOp(k, a, w, c, e, id) => FailAssignment(run, k, a, w, c, e, id)
    case ValidateOp(a, c, p, e, v, f) => Validate(mgr, run, a, c, p, e, v, f)
    case ReviewOp(a, v, p, e, f) => Review(mgr, run, a, v, p, e, f)
    case AcceptOp(k, c, r, f) => Accept(mgr, run, k, c, r, f)
    case RecordIntegrationOp(a, c) => RecordIntegration(run, a, c)
    case RecoverOp(f, r, a) => Recover(mgr, run, f, r, a)
    case RequestApprovalOp(id, a, s, r, q, p) => RequestApproval(run, id, a, s, r, q, p)
    case RecoverLegacyGateOp(k, l, id, a, s) => RecoverLegacyGate(run, k, l, id, a, s)
    case GateTaskOp(k, id, a, s) => GateTask(run, k, id, a, s)
    case DecideApprovalOp(id, a, h, r) => DecideApproval(run, id, a, h, r)
    case LinkCapabilityOp(r, id, w) => LinkCapability(run, r, id, w)
    case ApplyEscalationOp(r, c) => ApplyEscalation(mgr, run, r, c)
    case ApproveRequestOp(r) => ApproveRequest(run, r)
    case DenyRequestOp(r, t) => DenyRequest(run, r, t)
    case MarkEscalatedOp(r) => MarkEscalated(run, r)
    case SetCapabilityOp(k, c, id, w) => SetCapability(run, k, c, id, w)
    case ProposeOp(p) => R.Propose(run, p)
    case ApplyOp(id) => R.Apply(run, id)
    case AbandonOp(r) => Abandon(run, r)
    case CompleteOp(r, e) => Complete(run, r, e)
    case RecordUsageOp(u) => RecordUsage(run, u)
  }

  /** The three operations with a path that does not pass the terminal-run gate. */
  predicate ChecksRunItself(op: Op) {
    op.RecordUsageOp? || op.RecordIntegrationOp? || op.ApplyEscalationOp?
  }

  ghost function Step(mgr: Id, run: Run, op: Op): Outcome {
    if !run.status.Active? && !ChecksRunItself(op) then Err(RunIsTerminal) else Mutation(mgr, run, op)
  }

  /** An identifier `uid()` can return: it occurs nowhere in the record. */
  ghost predicate Unused(run: Run, id: Id) {
    && Truthy(id) && id !in run.tasks && id !in run.artifacts && id !in run.inputs
    && id !in run.approvals && id !in run.decisions && id !in run.requests
    && (forall f :: f in run.failures ==> f.id != id)
    && forall k :: k in run.tasks ==> id !in Names(run.tasks[k])
  }

  predicate Interruptible(t: Task) { t.status.Delegated? || t.status.Running? }

  ghost predicate InterruptionRecord(run: Run, f: Failure) {
    && f.taskId in run.tasks && Interruptible(run.tasks[f.taskId])
    && f.kind.Timeout? && f.evidence == INTERRUPTED && Unused(run, f.id)
  }

  /** One new failure record per interrupted task. */
  ghost predicate InterruptionRecords(run: Run, fs: seq<Failure>) {
    && (forall f :: f in fs ==> InterruptionRecord(run, f))
    && (forall k :: k in run.tasks && Interruptible(run.tasks[k]) ==> exists f :: f in fs && f.taskId == k)
    && forall i, j :: 0 <= i < j < |fs| ==> fs[i].id != fs[j].id && fs[i].taskId != fs[j].taskId
  }

  /** The identifiers the operation draws are new. */
  ghost predicate Drawn(run: Run, op: Op) {
    match op
    case SubmitOp(_, _, _, _, _, _, id) => Unused(run, id)
    case RequestCapabilityOp(_, _, _, _, _, _, id) => Unused(run, id)
    case ResumeOp(f) => InterruptionRecords(run, f)
    case FailOp(_, _, _, id) => Unused(run, id)
    case FailAssignmentOp(_, _, _, _, _, id) => Unused(run, id)
    case RequestApprovalOp(id, _, _, _, _, _) => Unused(run, id)
    case _ => true
  }

  /** A run as `create_run` stores it. */
  predicate Created(run: Run) {
    && run.status.Active? && run.tasks == map[] && run.artifacts == map[] && run.accepted == []
    && run.inputs == map[] && run.approvals == map[] && run.decisions == map[] && run.requests == map[]
    && run.failures == [] && run.recoveries == [] && run.replans == map[] && run.revision == 0
    && run.criteria != [] && (forall c :: c in run.criteria ==> Substantive(c))
    && run.usage == [] && run.unresolved == []
  }

  /** A history: runs[0] was just created and every later run is one committed step on. */
  ghost predicate History(mgr: Id, runs: seq<Run>, ops: seq<Op>) {
    && |runs| == |ops| + 1 && Created(runs[0])
    && forall i :: 0 <= i < |ops| ==> Committed(mgr, runs[i], ops[i], runs[i + 1])
  }

  ghost predicate Committed(mgr: Id, run: Run, op: Op, next: Run) {
    Drawn(run, op) && Step(mgr, run, op) == Ok(next)
  }

  lemma StepExtends(mgr: Id, runs: seq<Run>, ops: seq<Op>, op: Op, next: Run, i: nat)
    requires |runs| == |ops| + 1 && i <= |ops|
    requires if i < |ops| then Committed(mgr, runs[i], ops[i], runs[i + 1]) else Committed(mgr, Last(runs), op, next)
    ensures Committed(mgr, (runs + [next])[i], (ops + [op])[i], (runs + [next])[i + 1])
  {}

  lemma HistoryExtends(mgr: Id, runs: seq<Run>, ops: seq<Op>, op: Op, next: Run)
    requires History(mgr, runs, ops) && Committed(mgr, Last(runs), op, next)
    ensures History(mgr, runs + [next], ops + [op])
  {
    forall i | 0 <= i < |ops + [op]|
      ensures Committed(mgr, (runs + [next])[i], (ops + [op])[i], (runs + [next])[i + 1])
    {
      StepExtends(mgr, runs, ops, op, next, i);
    }
  }
}
