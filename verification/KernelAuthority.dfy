/** Who may widen what: capabilities change only under an exact human approval, and what humans
    decided is never rewritten. */
module KernelAuthority {
  import opened Base
  import opened RunModel
  import opened KernelOps
  import opened KernelInvariant
  import opened Kernel
  import opened KernelTheorems
  import KernelSteps
  import ReplanSteps
  import R = Replanning

  // ---- capabilities --------------------------------------------------------------------------------

  /** The same capability and artifacts, and a history that only grew. */
  predicate TaskStays(t: Task, t': Task) {
    && t'.id == t.id && t'.capability == t.capability && t'.artifactIds == t.artifactIds && HistoryGrows(t, t')
  }

  predicate HistoryGrows(t: Task, t': Task) {
    t.history <= t'.history && t.attempts <= t'.attempts && t.revisions <= t'.revisions
  }

  /** Tasks stay, and new ones have no artifacts. */
  ghost predicate TasksStay(r: Run, r': Run) {
    && (forall k :: k in r.tasks ==> k in r'.tasks && TaskStays(r.tasks[k], r'.tasks[k]))
    && NewTasksBare(r, r')
  }

  ghost predicate NewTasksBare(r: Run, r': Run) {
    forall k :: k in r'.tasks && k !in r.tasks ==> r'.tasks[k].artifactIds == []
  }

  /** An approved human decision on exactly this change. */
  predicate Approved(r: Run, k: Id, t: Task) {
    exists a :: a in r.approvals
      && ExactlyApproved(r, Some(a), ChangeCapability, CapabilityScope(k, t.capability, t.workspace))
  }

  lemma {:induction false} AddEachKeepsTasks(r: Run, add: seq<Task>)
    requires AddEach(r, add).Ok?
    ensures forall k :: k in r.tasks ==>
      k in AddEach(r, add).value.tasks && AddEach(r, add).value.tasks[k] == r.tasks[k]
    ensures NewTasksBare(r, AddEach(r, add).value)
    decreases |add|
  {
    if add != [] { AddEachKeepsTasks(Put(r, add[0].id, add[0]), add[1..]); }
  }

  lemma RefreshKeepsTasks(r: Run, r1: Run)
    requires TasksStay(r, r1)
    ensures TasksStay(r, Refresh(r1))
  {
    forall k | k in r1.tasks
      ensures k in r.tasks ==> TaskStays(r.tasks[k], Refresh(r1).tasks[k])
      ensures Refresh(r1).tasks[k].artifactIds == r1.tasks[k].artifactIds
    {
      assert Refresh(r1).tasks[k] == RefreshTask(r1, r1.tasks[k]);
    }
  }

  predicate WorkOp(op: Op) {
    op.ReplaceWorkspaceOp? || op.DelegateOp? || op.StartOp? || op.ProvisionalOp? || op.RequestCapabilityOp?
  }

  lemma DelegationTasks(mgr: Id, r: Run, k: Id, w: Id, id: Id)
    requires Delegate(mgr, r, k, w, id).Ok?
    ensures TasksStay(r, Delegate(mgr, r, k, w, id).value) && DecisionsStand(r, Delegate(mgr, r, k, w, id).value)
  {}

  lemma StartTasks(r: Run, k: Id)
    requires Start(r, k).Ok?
    ensures TasksStay(r, Start(r, k).value) && DecisionsStand(r, Start(r, k).value)
  {}

  lemma DelegateTasks(mgr: Id, r: Run, op: Op, r': Run)
    requires (op.DelegateOp? || op.StartOp?) && Mutation(mgr, r, op) == Ok(r')
    ensures TasksStay(r, r') && DecisionsStand(r, r')
  {
    match op
    case DelegateOp(k, w, id) => DelegationTasks(mgr, r, k, w, id);
    case StartOp(k) => StartTasks(r, k);
  }

  lemma AnswerTasks(r: Run, k: Id, a: Id, w: Id, i: bool, t: Id)
    requires Provisional(r, k, a, w, i, t).Ok?
    ensures TasksStay(r, Provisional(r, k, a, w, i, t).value) && DecisionsStand(r, Provisional(r, k, a, w, i, t).value)
  {}

  lemma ProvisionalTasks(mgr: Id, r: Run, op: Op, r': Run)
    requires (op.ProvisionalOp? || op.RequestCapabilityOp?) && Mutation(mgr, r, op) == Ok(r')
    ensures TasksStay(r, r') && DecisionsStand(r, r')
  {
    match op
    case ProvisionalOp(k, a, w, i, t) => AnswerTasks(r, k, a, w, i, t);
    case RequestCapabilityOp(k, a, w, i, t, _, _) => AnswerTasks(r, k, a, w, i, t);
  }

  lemma ReplaceWorkspaceTasks(r: Run, k: Id, expected: Id, replacement: Id, reason: Id)
    requires ReplaceWorkspace(r, k, expected, replacement, reason).Ok?
    ensures var r' := ReplaceWorkspace(r, k, expected, replacement, reason).value;
      TasksStay(r, r') && DecisionsStand(r, r')
  {}

  lemma WorkOpTasks(mgr: Id, r: Run, op: Op, r': Run)
    requires WorkOp(op) && Mutation(mgr, r, op) == Ok(r')
    ensures TasksStay(r, r') && DecisionsStand(r, r')
  {
    if op.DelegateOp? || op.StartOp? {
      DelegateTasks(mgr, r, op, r');
    } else if op.ReplaceWorkspaceOp? {
      ReplaceWorkspaceTasks(r, op.k, op.expected, op.replacement, op.reason);
    } else {
      ProvisionalTasks(mgr, r, op, r');
    }
  }

  /** Submission adds one artifact to one task. */
  ghost predicate Submitted(r: Run, r': Run, k: Id, id: Id) {
    && k in r.tasks && k in r'.tasks && r'.tasks == r.tasks[k := r'.tasks[k]]
    && TaskStays(r.tasks[k], r'.tasks[k].(artifactIds := r.tasks[k].artifactIds))
    && r'.tasks[k].artifactIds == r.tasks[k].artifactIds + [id]
    && id in r'.artifacts && r'.artifacts[id].version == |r.tasks[k].artifactIds| + 1
    && r'.artifacts[id].predecessor
       == (if r.tasks[k].artifactIds == [] then None else Some(Last(r.tasks[k].artifactIds)))
  }

  lemma SubmitTasks(mgr: Id, r: Run, op: Op, r': Run)
    requires op.SubmitOp? && Mutation(mgr, r, op) == Ok(r')
    ensures Submitted(r, r', op.k, op.id) && DecisionsStand(r, r')
  {}

  lemma FailureTasks(r: Run, k: Id, c: FailureClass, e: Id, id: Id)
    requires FailTask(r, k, c, e, id).Ok?
    ensures TasksStay(r, FailTask(r, k, c, e, id).value) && DecisionsStand(r, FailTask(r, k, c, e, id).value)
  {}

  lemma FailTasks(mgr: Id, r: Run, op: Op, r': Run)
    requires (op.FailOp? || op.FailAssignmentOp?) && Mutation(mgr, r, op) == Ok(r')
    ensures TasksStay(r, r') && DecisionsStand(r, r')
  {
    match op
    case FailOp(k, c, e, id) => FailureTasks(r, k, c, e, id);
    case FailAssignmentOp(k, _, _, c, e, id) => FailureTasks(r, k, c, e, id);
  }

  lemma RecoverTasks(mgr: Id, r: Run, id: Id, reason: Id, actor: Id)
    requires Recover(mgr, r, id, reason, actor).Ok?
    ensures var r' := Recover(mgr, r, id, reason, actor).value; TasksStay(r, r') && DecisionsStand(r, r')
  {
    var f := FindFailure(r.failures, id).value;
    assert TaskStays(r.tasks[f.taskId], RecoveredTask(r.tasks[f.taskId], RecoveryFor(r.tasks[f.taskId], f.kind), f));
  }

  lemma CandidateCheckKeepsTasks(r: Run, a: Id, f: Option<Id>)
    requires CandidateCheck(r, a, f).Ok?
    ensures TasksStay(r, CandidateCheck(r, a, f).value) && DecisionsStand(r, CandidateCheck(r, a, f).value)
    ensures a in CandidateCheck(r, a, f).value.artifacts
    ensures CandidateCheck(r, a, f).value.artifacts[a].taskId in CandidateCheck(r, a, f).value.tasks
  {
    CheckedTasksStay(r, r.artifacts[a].taskId, CandidateCheck(r, a, f).value);
  }

  lemma CheckedTasksStay(r: Run, k: Id, r': Run)
    requires k in r.tasks && (r' == r || r' == Put(r, k, r.tasks[k].(status := Reviewing)))
    ensures TasksStay(r, r')
  {}

  lemma ValidateTasks(mgr: Id, r: Run, a: Id, c: Id, p: bool, e: Id, v: Id, f: Option<Id>)
    requires Validate(mgr, r, a, c, p, e, v, f).Ok?
    ensures var r' := Validate(mgr, r, a, c, p, e, v, f).value; TasksStay(r, r') && DecisionsStand(r, r')
  {
    CandidateCheckKeepsTasks(r, a, f);
  }

  lemma ReviewTasks(mgr: Id, r: Run, a: Id, v: Id, p: bool, e: Id, f: Option<Id>)
    requires Review(mgr, r, a, v, p, e, f).Ok?
    ensures var r' := Review(mgr, r, a, v, p, e, f).value; TasksStay(r, r') && DecisionsStand(r, r')
  {
    CandidateCheckKeepsTasks(r, a, f);
  }

  lemma AcceptingTasks(r: Run, k: Id, a: Id)
    requires k in r.tasks && a in r.artifacts
    ensures TasksStay(r, KernelSteps.Accepting(r, k, a)) && DecisionsStand(r, KernelSteps.Accepting(r, k, a))
  {}

  lemma AcceptCandidateTasks(mgr: Id, r: Run, a: Id, reason: Id)
    requires a in r.artifacts && r.artifacts[a].taskId in r.tasks && AcceptCandidate(mgr, r, a, reason).Ok?
    ensures TasksStay(r, AcceptCandidate(mgr, r, a, reason).value)
    ensures DecisionsStand(r, AcceptCandidate(mgr, r, a, reason).value)
  {
    var r1 := KernelSteps.Accepting(r, r.artifacts[a].taskId, a);
    AcceptingTasks(r, r.artifacts[a].taskId, a);
    RefreshKeepsTasks(r, r1);
    assert AcceptCandidate(mgr, r, a, reason).value == Refresh(r1);
  }

  lemma AcceptTasks(mgr: Id, r: Run, k: Id, caller: Option<Id>, reason: Id, f: Option<Id>)
    requires Accept(mgr, r, k, caller, reason, f).Ok?
    ensures TasksStay(r, Accept(mgr, r, k, caller, reason, f).value)
    ensures DecisionsStand(r, Accept(mgr, r, k, caller, reason, f).value)
  {
    var a := Last(r.tasks[k].artifactIds);
    CandidateCheckKeepsTasks(r, a, f);
    AcceptCandidateTasks(mgr, CandidateCheck(r, a, f).value, a, reason);
  }

  lemma TaskOpTasks(mgr: Id, r: Run, op: Op, r': Run)
    requires TaskOp(op) && !op.SubmitOp? && Mutation(mgr, r, op) == Ok(r')
    ensures TasksStay(r, r') && DecisionsStand(r, r')
  {
    if op.AcceptOp? {
      AcceptTasks(mgr, r, op.k, op.caller, op.reason, op.fingerprint);
    } else if WorkOp(op) {
      WorkOpTasks(mgr, r, op, r');
    } else if op.ValidateOp? {
      ValidateTasks(mgr, r, op.a, op.check, op.passed, op.evidence, op.judge, op.fingerprint);
    } else if op.ReviewOp? {
      ReviewTasks(mgr, r, op.a, op.judge, op.passed, op.evidence, op.fingerprint);
    } else if op.RecoverOp? {
      RecoverTasks(mgr, r, op.failure, op.reason, op.actor);
    } else {
      FailTasks(mgr, r, op, r');
    }
  }

  lemma AddTasksTasks(r: Run, add: seq<Task>, r': Run)
    requires AddTasks(r, add) == Ok(r')
    ensures TasksStay(r, r')
  {
    AddEachKeepsTasks(r, add);
    RefreshKeepsTasks(r, AddEach(r, add).value);
  }

  lemma RewrittenStays(r: Run, p: Proposal, s: set<Id>, k: Id)
    requires k in r.tasks
    ensures TaskStays(r.tasks[k], ReplanSteps.Rewritten(r, p, s, k))
  {}

  lemma ReplannedTaskStays(r: Run, p: Proposal, s: set<Id>, k: Id)
    requires R.StructureOk(r, p) && k in r.tasks
    ensures var r1 := R.Replanned(r, p, s); k in r1.tasks && TaskStays(r.tasks[k], r1.tasks[k])
  {
    ReplanSteps.ReplannedTask(r, p, s, k);
    RewrittenStays(r, p, s, k);
  }

  lemma ReplannedTasksStay(r: Run, p: Proposal)
    requires R.StructureOk(r, p)
    ensures TasksStay(r, Refresh(R.Replanned(r, p, R.Affected(r, p)).(revision := r.revision + 1)))
  {
    var r1 := R.Replanned(r, p, R.Affected(r, p)).(revision := r.revision + 1);
    forall k | k in r.tasks ensures k in r1.tasks && TaskStays(r.tasks[k], r1.tasks[k]) {
      ReplannedTaskStays(r, p, R.Affected(r, p), k);
    }
    ReplanSteps.ReplannedOutcome(r, p);
    forall k | k in r1.tasks && k !in r.tasks ensures r1.tasks[k].artifactIds == [] {
      assert ReplanSteps.Introduced(r, k, r1.tasks[k]);
    }
    RefreshKeepsTasks(r, r1);
  }

  lemma ReplanTasks(r: Run, id: Id, r': Run)
    requires R.Apply(r, id) == Ok(r')
    ensures TasksStay(r, r')
  {
    ReplanSteps.ApplyIsRefresh(r, id);
    ReplannedTasksStay(r, r.replans[id]);
  }

  /** A task edited and then refreshed with all the others. */
  lemma EditAndRefresh(r: Run, r1: Run, k: Id, t: Task)
    requires k in r.tasks && r1.tasks == r.tasks[k := t] && TaskStays(r.tasks[k], t)
    ensures TasksStay(r, Refresh(r1))
  {
    RefreshKeepsTasks(r, r1);
  }

  lemma RegisterTasks(r: Run, name: Id, reference: Id)
    requires RegisterInput(r, name, reference).Ok?
    ensures TasksStay(r, RegisterInput(r, name, reference).value)
  {
    RefreshKeepsTasks(r, r.(inputs := r.inputs[name := reference]));
  }

  lemma BindTasks(r: Run, k: Id, w: Id)
    requires BindWorkspace(r, k, w).Ok?
    ensures TasksStay(r, BindWorkspace(r, k, w).value)
  {
    var t := r.tasks[k].(workspace := Some(w));
    EditAndRefresh(r, Put(r, k, t), k, t);
  }

  lemma ResumeTasks(r: Run, fs: seq<Failure>)
    ensures TasksStay(r, Resume(r, fs).value)
  {
    forall j | j in r.tasks ensures TaskStays(r.tasks[j], Resume(r, fs).value.tasks[j]) {
      assert Resume(r, fs).value.tasks[j] == ResumeTask(r.tasks[j]);
    }
  }

  lemma InputOpTasks(mgr: Id, r: Run, op: Op, r': Run)
    requires op.RegisterInputOp? || op.BindWorkspaceOp? || op.ResumeOp? || op.RecordIntegrationOp?
    requires Mutation(mgr, r, op) == Ok(r')
    ensures TasksStay(r, r')
  {
    if op.RegisterInputOp? { RegisterTasks(r, op.name, op.reference); }
    else if op.BindWorkspaceOp? { BindTasks(r, op.k, op.workspace); }
    else if op.ResumeOp? { ResumeTasks(r, op.interrupted); }
    else { assert r'.tasks == r.tasks; }
  }

  lemma LegacyGateTasks(r: Run, k: Id, legacy: Id, id: Id, action: Action, scope: Scope)
    requires RecoverLegacyGate(r, k, legacy, id, action, scope).Ok?
    ensures TasksStay(r, RecoverLegacyGate(r, k, legacy, id, action, scope).value)
  {
    var t := Regated(r.tasks[k], legacy, Gate(id, action, scope), r.approvals[id].status);
    EditAndRefresh(r, Put(r, k, t), k, t);
  }

  lemma GateTasks(r: Run, k: Id, id: Id, action: Action, scope: Scope)
    requires GateTask(r, k, id, action, scope).Ok?
    ensures TasksStay(r, GateTask(r, k, id, action, scope).value)
  {
    var t := Gated(r.tasks[k], Gate(id, action, scope), r.approvals[id].status);
    EditAndRefresh(r, Put(r, k, t), k, t);
  }

  lemma RequestTasks(r: Run, id: Id, action: Action, scope: Scope, reason: Id, required: bool, prior: Option<Id>)
    requires RequestApproval(r, id, action, scope, reason, required, prior).Ok?
    ensures TasksStay(r, RequestApproval(r, id, action, scope, reason, required, prior).value)
  {}

  lemma DecidedTasksStay(r: Run, r1: Run, id: Id, approved: bool)
    requires r1.tasks == map k | k in r.tasks :: DecideInTask(r.tasks[k], id, approved)
    ensures TasksStay(r, r1)
  {
    forall k | k in r.tasks ensures TaskStays(r.tasks[k], r1.tasks[k]) {
      assert r1.tasks[k] == DecideInTask(r.tasks[k], id, approved);
    }
  }

  lemma DecisionTasks(r: Run, id: Id, approved: bool, human: Id, reason: Id)
    requires DecideApproval(r, id, approved, human, reason).Ok?
    ensures TasksStay(r, DecideApproval(r, id, approved, human, reason).value)
  {
    var status := if approved then ApprovalGranted else ApprovalStatus.ApprovalRejected;
    var r1 := r.(decisions := r.decisions[id := approved],
                 approvals := r.approvals[id := r.approvals[id].(status := status)],
                 tasks := map k | k in r.tasks :: DecideInTask(r.tasks[k], id, approved));
    DecidedTasksStay(r, r1, id, approved);
    RefreshKeepsTasks(r, r1);
  }

  lemma OtherOpsKeepTasks(mgr: Id, r: Run, op: Op, r': Run)
    requires !op.SetCapabilityOp? && !op.ApplyEscalationOp? && !op.SubmitOp? && Mutation(mgr, r, op) == Ok(r')
    ensures TasksStay(r, r')
  {
    if op.AddTasksOp? {
      AddTasksTasks(r, op.add, r');
    } else if op.ApplyOp? {
      ReplanTasks(r, op.proposal, r');
    } else if SideOp(op) {
      SideOpFrame(mgr, r, op, r');
    } else if TaskOp(op) {
      TaskOpTasks(mgr, r, op, r');
    } else if op.RegisterInputOp? || op.BindWorkspaceOp? || op.ResumeOp? || op.RecordIntegrationOp? {
      InputOpTasks(mgr, r, op, r');
    } else if op.RequestApprovalOp? {
      RequestTasks(r, op.id, op.action, op.scope, op.reason, op.required, op.supersedes);
    } else if op.DecideApprovalOp? {
      DecisionTasks(r, op.approval, op.approved, op.human, op.reason);
    } else if op.RecoverLegacyGateOp? {
      LegacyGateTasks(r, op.k, op.legacy, op.approval, op.action, op.scope);
    } else {
      GateTasks(r, op.k, op.approval, op.action, op.scope);
    }
  }

  lemma SetCapabilityApproved(r: Run, k: Id, c: Capability, a: Id, w: Option<Id>, j: Id)
    requires SetCapability(r, k, c, a, w).Ok? && j in r.tasks
    ensures j in SetCapability(r, k, c, a, w).value.tasks
    ensures var t' := SetCapability(r, k, c, a, w).value.tasks[j];
      if j == k then t'.capability == c && t'.workspace == w && Approved(r, j, t')
      else t'.capability == r.tasks[j].capability
  {
    assert a in r.approvals && ExactlyApproved(r, Some(a), ChangeCapability, CapabilityScope(k, c, w));
  }

  lemma EscalationApproved(mgr: Id, r: Run, q: Id, caller: Option<Id>, j: Id)
    requires Inv(mgr, r) && ApplyEscalation(mgr, r, q, caller).Ok? && j in r.tasks
    ensures var t' := ApplyEscalation(mgr, r, q, caller).value.tasks[j];
      t'.capability != r.tasks[j].capability ==> Approved(r, j, t')
  {
    if r.requests[q].taskId in r.tasks { assert TaskHome(r, r.requests[q].taskId); }
  }

  /** No operation gives an existing task another capability unless a human approved exactly this
      task, this capability and this workspace. */
  lemma CapabilityNeedsApproval(mgr: Id, r: Run, op: Op, r': Run, k: Id)
    requires Inv(mgr, r) && Committed(mgr, r, op, r') && k in r.tasks
    ensures k in r'.tasks
    ensures r'.tasks[k].capability != r.tasks[k].capability ==> Approved(r, k, r'.tasks[k])
  {
    if op.SetCapabilityOp? || op.ApplyEscalationOp? {
      ChangeNeedsApproval(mgr, r, op, r', k);
    } else if op.SubmitOp? {
      SubmitTasks(mgr, r, op, r');
    } else {
      OtherOpsKeepTasks(mgr, r, op, r');
    }
  }

  lemma ChangeNeedsApproval(mgr: Id, r: Run, op: Op, r': Run, k: Id)
    requires Inv(mgr, r) && Mutation(mgr, r, op) == Ok(r') && (op.SetCapabilityOp? || op.ApplyEscalationOp?)
    requires k in r.tasks
    ensures k in r'.tasks
    ensures r'.tasks[k].capability != r.tasks[k].capability ==> Approved(r, k, r'.tasks[k])
  {
    match op
    case SetCapabilityOp(j, c, a, w) => SetCapabilityApproved(r, j, c, a, w, k);
    case ApplyEscalationOp(q, caller) => EscalationApproved(mgr, r, q, caller, k);
  }

  // ---- decisions --------------------------------------------------------------------------------------

  /** Every decision stands, and every approval request still asks for the same thing. */
  ghost predicate DecisionsStand(r: Run, r': Run) {
    && (forall a :: a in r.decisions ==> a in r'.decisions && r'.decisions[a] == r.decisions[a])
    && (forall a :: a in r.approvals ==>
          a in r'.approvals && r'.approvals[a].action == r.approvals[a].action
          && r'.approvals[a].scope == r.approvals[a].scope)
  }

  lemma {:induction false} AddEachKeepsApprovals(r: Run, add: seq<Task>)
    requires AddEach(r, add).Ok?
    ensures AddEach(r, add).value.approvals == r.approvals && AddEach(r, add).value.decisions == r.decisions
    decreases |add|
  {
    if add != [] { AddEachKeepsApprovals(Put(r, add[0].id, add[0]), add[1..]); }
  }

  lemma PlanOpDecisions(mgr: Id, r: Run, op: Op, r': Run)
    requires op.AddTasksOp? || op.ApplyOp? || op.RegisterInputOp? || op.BindWorkspaceOp? || op.ResumeOp?
    requires Mutation(mgr, r, op) == Ok(r')
    ensures DecisionsStand(r, r')
  {
    if op.AddTasksOp? { AddEachKeepsApprovals(r, op.add); }
  }

  lemma RequestDecisions(r: Run, id: Id, action: Action, scope: Scope, reason: Id, required: bool, prior: Option<Id>)
    requires Unused(r, id) && RequestApproval(r, id, action, scope, reason, required, prior).Ok?
    ensures DecisionsStand(r, RequestApproval(r, id, action, scope, reason, required, prior).value)
  {}

  lemma HumanDecisions(r: Run, id: Id, approved: bool, human: Id, reason: Id)
    requires DecideApproval(r, id, approved, human, reason).Ok?
    ensures DecisionsStand(r, DecideApproval(r, id, approved, human, reason).value)
  {}

  lemma GateOpDecisions(mgr: Id, r: Run, op: Op, r': Run)
    requires op.RecordIntegrationOp? || op.RecoverLegacyGateOp? || op.GateTaskOp?
    requires Mutation(mgr, r, op) == Ok(r')
    ensures DecisionsStand(r, r')
  {}

  lemma CapabilityOpDecisions(mgr: Id, r: Run, op: Op, r': Run)
    requires op.ApplyEscalationOp? || op.SetCapabilityOp?
    requires Mutation(mgr, r, op) == Ok(r')
    ensures DecisionsStand(r, r')
  {}

  /** No operation rewrites a human decision or changes what an approval was asked for. */
  lemma StepKeepsDecisions(mgr: Id, r: Run, op: Op, r': Run)
    requires Committed(mgr, r, op, r')
    ensures DecisionsStand(r, r')
  {
    if op.SubmitOp? {
      SubmitTasks(mgr, r, op, r');
    } else if TaskOp(op) {
      TaskOpTasks(mgr, r, op, r');
    } else if SideOp(op) {
      SideOpFrame(mgr, r, op, r');
    } else if op.AddTasksOp? || op.ApplyOp? || op.RegisterInputOp? || op.BindWorkspaceOp? || op.ResumeOp? {
      PlanOpDecisions(mgr, r, op, r');
    } else if op.RequestApprovalOp? {
      RequestDecisions(r, op.id, op.action, op.scope, op.reason, op.required, op.supersedes);
    } else if op.DecideApprovalOp? {
      HumanDecisions(r, op.approval, op.approved, op.human, op.reason);
    } else if op.ApplyEscalationOp? || op.SetCapabilityOp? {
      CapabilityOpDecisions(mgr, r, op, r');
    } else {
      GateOpDecisions(mgr, r, op, r');
    }
  }

  /** Over whole histories: a decision, once made, is the decision for ever. */
  lemma {:induction false} DecisionsAreFinal(mgr: Id, runs: seq<Run>, ops: seq<Op>, i: nat, j: nat)
    requires History(mgr, runs, ops) && i <= j < |runs|
    ensures DecisionsStand(runs[i], runs[j])
    decreases j
  {
    if i < j {
      DecisionsAreFinal(mgr, runs, ops, i, j - 1);
      StepKeepsDecisions(mgr, runs[j - 1], ops[j - 1], runs[j]);
    }
  }

  // ---- what is never rewritten ---------------------------------------------------------------------------

  ghost predicate OnlyCapabilityMoved(r: Run, r': Run) {
    && NewTasksBare(r, r')
    && forall k :: k in r.tasks ==>
         k in r'.tasks && TaskStays(r.tasks[k], r'.tasks[k].(capability := r.tasks[k].capability))
  }

  lemma RefreshedTaskStays(r: Run, t: Task, t1: Task)
    requires TaskStays(t, t1.(capability := t.capability))
    ensures TaskStays(t, RefreshTask(r, t1).(capability := t.capability))
    ensures RefreshTask(r, t1).artifactIds == t1.artifactIds
  {}

  lemma RefreshMovesNoCapability(r: Run, r1: Run, k: Id, t: Task)
    requires k in r.tasks && r1.tasks == r.tasks[k := t]
    requires TaskStays(r.tasks[k], t.(capability := r.tasks[k].capability))
    ensures OnlyCapabilityMoved(r, Refresh(r1))
  {
    forall j | j in r.tasks
      ensures TaskStays(r.tasks[j], Refresh(r1).tasks[j].(capability := r.tasks[j].capability))
    {
      assert Refresh(r1).tasks[j] == RefreshTask(r1, r1.tasks[j]);
      RefreshedTaskStays(r1, r.tasks[j], r1.tasks[j]);
    }
  }

  lemma SetCapabilityHistory(r: Run, k: Id, c: Capability, a: Id, w: Option<Id>)
    requires SetCapability(r, k, c, a, w).Ok?
    ensures OnlyCapabilityMoved(r, SetCapability(r, k, c, a, w).value)
  {
    var t := ChangedTask(r, k, c, w);
    RefreshMovesNoCapability(r, Put(r, k, t), k, t);
  }

  lemma EscalationHistory(mgr: Id, r: Run, q: Id, caller: Option<Id>)
    requires ApplyEscalation(mgr, r, q, caller).Ok?
    ensures OnlyCapabilityMoved(r, ApplyEscalation(mgr, r, q, caller).value)
  {
    var req := r.requests[q];
    if !req.status.RequestEscalated? {
      var t := EscalatedTask(r.tasks[req.taskId], req);
      RefreshMovesNoCapability(r,
        Put(r, req.taskId, t).(requests := r.requests[q := req.(status := RequestEscalated)]), req.taskId, t);
    }
  }

  /** The artifacts of a task are numbered 1, 2, ... and each names the one before it. */
  ghost predicate Versioned(r: Run, k: Id) requires k in r.tasks {
    forall i :: 0 <= i < |r.tasks[k].artifactIds| ==> VersionedAt(r, r.tasks[k].artifactIds, i)
  }

  predicate VersionedAt(r: Run, ids: seq<Id>, i: nat) requires i < |ids| {
    && ids[i] in r.artifacts && r.artifacts[ids[i]].version == i + 1
    && r.artifacts[ids[i]].predecessor == (if i == 0 then None else Some(ids[i - 1]))
  }

  lemma SameIdsStayVersioned(mgr: Id, r: Run, op: Op, r': Run, k: Id)
    requires Committed(mgr, r, op, r') && k in r.tasks && k in r'.tasks && Versioned(r, k)
    requires r'.tasks[k].artifactIds == r.tasks[k].artifactIds
    ensures Versioned(r', k)
  {
    var ids := r.tasks[k].artifactIds;
    forall i | 0 <= i < |ids| ensures VersionedAt(r', ids, i) {
      assert VersionedAt(r, ids, i);
      StepKeepsArtifacts(mgr, r, op, r', ids[i]);
    }
  }

  lemma SubmitKeepsVersions(mgr: Id, r: Run, op: Op, r': Run, k: Id)
    requires Committed(mgr, r, op, r') && op.SubmitOp? && Submitted(r, r', op.k, op.id)
    requires k in r.tasks && Versioned(r, k)
    ensures Versioned(r', k)
  {
    if k == op.k {
      var ids, ids' := r.tasks[k].artifactIds, r'.tasks[k].artifactIds;
      forall i | 0 <= i < |ids'| ensures VersionedAt(r', ids', i) {
        if i < |ids| {
          assert VersionedAt(r, ids, i);
          StepKeepsArtifacts(mgr, r, op, r', ids[i]);
        }
      }
    } else {
      SameIdsStayVersioned(mgr, r, op, r', k);
    }
  }

  /** What one step does to a task's record: at most one artifact is appended, by a submission. */
  ghost predicate RecordGrows(t: Task, t': Task) {
    HistoryGrows(t, t') && t.artifactIds <= t'.artifactIds
  }

  lemma StepKeepsRecords(mgr: Id, r: Run, op: Op, r': Run, k: Id)
    requires Committed(mgr, r, op, r') && (k in r.tasks || k in r'.tasks)
    ensures k in r'.tasks
    ensures k in r.tasks ==> RecordGrows(r.tasks[k], r'.tasks[k]) && (Versioned(r, k) ==> Versioned(r', k))
    ensures k !in r.tasks ==> Versioned(r', k)
  {
    if op.SubmitOp? {
      SubmitTasks(mgr, r, op, r');
      if Versioned(r, k) { SubmitKeepsVersions(mgr, r, op, r', k); }
    } else {
      OtherRecords(mgr, r, op, r', k);
      if k in r.tasks && Versioned(r, k) { SameIdsStayVersioned(mgr, r, op, r', k); }
    }
  }

  lemma OtherRecords(mgr: Id, r: Run, op: Op, r': Run, k: Id)
    requires Committed(mgr, r, op, r') && !op.SubmitOp? && (k in r.tasks || k in r'.tasks)
    ensures k in r'.tasks
    ensures k in r.tasks ==> HistoryGrows(r.tasks[k], r'.tasks[k]) && r'.tasks[k].artifactIds == r.tasks[k].artifactIds
    ensures k !in r.tasks ==> r'.tasks[k].artifactIds == []
  {
    if op.SetCapabilityOp? {
      SetCapabilityHistory(r, op.k, op.capability, op.approval, op.binding);
    } else if op.ApplyEscalationOp? {
      EscalationHistory(mgr, r, op.r, op.caller);
    } else {
      OtherOpsKeepTasks(mgr, r, op, r');
    }
  }

  /** In every reachable run the artifacts of each task form one chain of versions. */
  lemma {:induction false} VersionsAreChained(mgr: Id, runs: seq<Run>, ops: seq<Op>, i: nat, k: Id)
    requires History(mgr, runs, ops) && i < |runs| && k in runs[i].tasks
    ensures Versioned(runs[i], k)
  {
    if i > 0 {
      if k in runs[i - 1].tasks { VersionsAreChained(mgr, runs, ops, i - 1, k); }
      StepKeepsRecords(mgr, runs[i - 1], ops[i - 1], runs[i], k);
    }
  }

  /** Over whole histories the record only grows: artifacts, assignments, attempts and revisions of
      a task are never lost, and what was submitted, recorded as integrated, validated or reviewed
      stays as it was. */
  lemma {:induction false} RecordOnlyGrows(mgr: Id, runs: seq<Run>, ops: seq<Op>, i: nat, j: nat, k: Id, a: Id)
    requires History(mgr, runs, ops) && i <= j < |runs|
    ensures k in runs[i].tasks ==> k in runs[j].tasks && RecordGrows(runs[i].tasks[k], runs[j].tasks[k])
    ensures ArtifactStays(runs[i], runs[j], a)
    decreases j
  {
    if i < j {
      RecordOnlyGrows(mgr, runs, ops, i, j - 1, k, a);
      StepKeepsArtifacts(mgr, runs[j - 1], ops[j - 1], runs[j], a);
      if k in runs[i].tasks { StepKeepsRecords(mgr, runs[j - 1], ops[j - 1], runs[j], k); }
    }
  }

  // ---- what READY advertises ------------------------------------------------------------------------------

  /** In a reachable run a READY task can be delegated to any worker but the manager, unless its
      attempts are used up: nothing else is ever in the way. */
  lemma ReadyMeansDelegatable(mgr: Id, runs: seq<Run>, ops: seq<Op>, i: nat, k: Id, worker: Id, assignment: Id)
    requires History(mgr, runs, ops) && i < |runs|
    requires k in runs[i].tasks && runs[i].tasks[k].status.Ready?
    ensures var t := runs[i].tasks[k];
      Delegate(mgr, runs[i], k, worker, assignment).Ok?
      <==> Substantive(worker) && worker != mgr && t.attempts - t.attemptBaseline < t.maxAttempts
  {
    ReachableReadiness(mgr, runs, ops, i);
  }

  /** A scheduled retry always has an attempt left, so it can be delegated at once. */
  lemma RetryCanBeDelegated(mgr: Id, r: Run, failure: Id, reason: Id, actor: Id, worker: Id, assignment: Id)
    requires Inv(mgr, r) && Recover(mgr, r, failure, reason, actor).Ok?
    requires Substantive(worker) && worker != mgr
    ensures var r' := Recover(mgr, r, failure, reason, actor).value;
      var k := FindFailure(r.failures, failure).value.taskId;
      k in r'.tasks && (r'.tasks[k].status.Ready? ==> Delegate(mgr, r', k, worker, assignment).Ok?)
  {
    KernelSteps.RecoverKeeps(mgr, r, failure, reason, actor);
    var r' := Recover(mgr, r, failure, reason, actor).value;
    var k := FindFailure(r.failures, failure).value.taskId;
    if r'.tasks[k].status.Ready? {
      assert TaskRefreshed(r', r'.tasks[k]);
      ReadyIsOpen(r', r'.tasks[k]);
    }
  }

  predicate Transient(kind: FailureClass) { kind.ProviderFailure? || kind.Timeout? || kind.StaleBase? }

  predicate Correctable(kind: FailureClass) { kind.BadOutput? || kind.MissingEvidence? }

  predicate Hopeless(kind: FailureClass) { kind.RepeatedBadOutput? || kind.ConstraintViolation? }

  predicate AttemptsRemain(t: Task) { t.attempts - t.attemptBaseline < t.maxAttempts }

  predicate RevisionsRemain(t: Task) { t.revisions - t.revisionBaseline < t.maxRevisions }

  /** Where a failed task goes: a retry or a revision only within its budgets, a revision counted
      when it is granted; its current artifact is rejected, and nothing but one recovery record
      is added. */
  lemma RecoveryRoute(mgr: Id, r: Run, id: Id, reason: Id, actor: Id)
    requires Recover(mgr, r, id, reason, actor).Ok?
    ensures var f, r' := FindFailure(r.failures, id).value, Recover(mgr, r, id, reason, actor).value;
      var t, t' := r.tasks[f.taskId], r'.tasks[f.taskId];
      && (t'.status.Ready? <==> Transient(f.kind) && AttemptsRemain(t))
      && (t'.status.RevisionRequired? <==> Correctable(f.kind) && AttemptsRemain(t) && RevisionsRemain(t))
      && (t'.status.Replaced? <==>
            Hopeless(f.kind) || (Correctable(f.kind) && AttemptsRemain(t) && !RevisionsRemain(t)))
      && (t'.status.Ready? || t'.status.RevisionRequired? || t'.status.Replaced? || t'.status.Blocked?)
      && t'.revisions == t.revisions + (if t'.status.RevisionRequired? then 1 else 0)
      && (t.artifactIds != [] ==> r'.artifacts[Last(t.artifactIds)].status.Rejected?)
      && |r'.recoveries| == |r.recoveries| + 1 && r'.failures == r.failures && r'.accepted == r.accepted
  {}
}
