/** Planning, approvals, capabilities and closing keep the invariant. */
module KernelGates {
  import opened Base
  import opened RunModel
  import opened KernelOps
  import opened Lineage
  import opened KernelInvariant
  import opened Kernel
  import opened KernelSteps

  // ---- sweeping changes over all tasks ---------------------------------------------------------

  predicate CandidateStatus(s: Status) { s.Submitted? || s.Reviewing? || s.Failed? }

  /** Only status, blocker and gates may differ, and no standing is won or lost. */
  predicate Swept(t: Task, t': Task) {
    && t' == t.(status := t'.status, blocker := t'.blocker, gates := t'.gates)
    && (t.status.Accepted? <==> t'.status.Accepted?)
    && (CandidateStatus(t.status) ==> CandidateStatus(t'.status))
  }

  ghost predicate Sweep(r: Run, r': Run) {
    && r'.tasks.Keys == r.tasks.Keys && (forall k :: k in r.tasks ==> Swept(r.tasks[k], r'.tasks[k]))
    && r'.id == r.id && r'.artifacts == r.artifacts && r'.accepted == r.accepted && r'.inputs == r.inputs
    && r'.revision == r.revision && r'.maxReplans == r.maxReplans
  }

  lemma SweepView(r: Run, r': Run)
    requires Sweep(r, r') && Ledger(r)
    ensures SameView(r, r')
  {
    forall j | j in r.tasks ensures SameStanding(r.tasks[j], r'.tasks[j]) {
      assert Swept(r.tasks[j], r'.tasks[j]);
    }
  }

  lemma SweptTask(mgr: Id, r: Run, r': Run, k: Id)
    requires Core(mgr, r) && Sweep(r, r') && k in r.tasks
    requires InFlight(r'.tasks[k].status) ==>
      r'.tasks[k].status == r.tasks[k].status && GatesOpen(r', r'.tasks[k])
    ensures TaskHome(r', k) && TaskCore(r', r'.tasks[k])
  {
    var t, t' := r.tasks[k], r'.tasks[k];
    assert Swept(t, t') && TaskHome(r, k) && TaskCore(r, t);
    SweepView(r, r');
    ResolveFrame(r, r', k);
    if t'.status.Submitted? || t'.status.Reviewing? { CandidateFrame(r, r', k); }
  }

  lemma SweptArtifact(mgr: Id, r: Run, r': Run, a: Id)
    requires Core(mgr, r) && Sweep(r, r') && a in r.artifacts
    ensures ArtifactHome(r', a) && ArtifactOk(mgr, r', a)
  {
    assert ArtifactHome(r, a) && ArtifactOk(mgr, r, a);
    assert Swept(r.tasks[r.artifacts[a].taskId], r'.tasks[r.artifacts[a].taskId]);
  }

  lemma SweepKeeps(mgr: Id, r: Run, r': Run)
    requires Core(mgr, r) && Sweep(r, r') && ApprovalsOk(r')
    requires forall k :: k in r.tasks && InFlight(r'.tasks[k].status) ==>
      r'.tasks[k].status == r.tasks[k].status && GatesOpen(r', r'.tasks[k])
    ensures Core(mgr, r') && SameView(r, r')
  {
    SweepView(r, r');
    LedgerFrame(r, r');
    forall k | k in r.tasks ensures TaskHome(r', k) && TaskCore(r', r'.tasks[k]) {
      SweptTask(mgr, r, r', k);
    }
    forall a | a in r'.artifacts ensures ArtifactHome(r', a) && ArtifactOk(mgr, r', a) {
      SweptArtifact(mgr, r, r', a);
    }
  }

  /** A change to the side tables only. */
  lemma SideKeeps(mgr: Id, r: Run, r': Run)
    requires Inv(mgr, r) && Sweep(r, r') && r'.tasks == r.tasks
    requires r'.approvals == r.approvals && r'.decisions == r.decisions
    ensures Inv(mgr, r')
  {
    forall k | k in r.tasks && InFlight(r'.tasks[k].status) ensures GatesOpen(r', r'.tasks[k]) {
      assert TaskCore(r, r.tasks[k]);
    }
    SweepKeeps(mgr, r, r');
    forall k | k in r.tasks ensures TaskRefreshed(r', r'.tasks[k]) {
      ResolveFrame(r, r', k);
      assert TaskRefreshed(r, r.tasks[k]);
      assert GatesOpen(r, r.tasks[k]) <==> GatesOpen(r', r.tasks[k]);
    }
  }

  lemma ResumeSweeps(r: Run, fs: seq<Failure>)
    ensures Sweep(r, Resume(r, fs).value)
    ensures forall k :: k in r.tasks ==> Resume(r, fs).value.tasks[k] == ResumeTask(r.tasks[k])
  {
    var r' := Resume(r, fs).value;
    forall k | k in r.tasks ensures Swept(r.tasks[k], r'.tasks[k]) {
      assert r'.tasks[k] == ResumeTask(r.tasks[k]);
    }
  }

  /** A sweep under which gates are as open as before and only failed tasks get another status. */
  lemma FailingSweepKeeps(mgr: Id, r: Run, r': Run)
    requires Inv(mgr, r) && Sweep(r, r') && r'.approvals == r.approvals && r'.decisions == r.decisions
    requires forall k :: k in r.tasks ==> r'.tasks[k] == ResumeTask(r.tasks[k])
    ensures Inv(mgr, r')
  {
    forall k | k in r.tasks ensures GatesOpen(r, r.tasks[k]) <==> GatesOpen(r', r'.tasks[k]) {}
    forall k | k in r.tasks && InFlight(r'.tasks[k].status) ensures GatesOpen(r', r'.tasks[k]) {
      assert TaskCore(r, r.tasks[k]);
    }
    SweepKeeps(mgr, r, r');
    forall k | k in r.tasks ensures TaskRefreshed(r', r'.tasks[k]) { ResumedIsRefreshed(r, r', k); }
  }

  lemma ResumedIsRefreshed(r: Run, r': Run, k: Id)
    requires SameView(r, r') && k in r.tasks && r'.tasks[k] == ResumeTask(r.tasks[k]) && TaskRefreshed(r, r.tasks[k])
    requires GatesOpen(r, r.tasks[k]) <==> GatesOpen(r', r'.tasks[k])
    ensures TaskRefreshed(r', r'.tasks[k])
  {
    ResolveFrame(r, r', k);
  }

  lemma ResumeKeeps(mgr: Id, r: Run, fs: seq<Failure>)
    requires Inv(mgr, r)
    ensures Inv(mgr, Resume(r, fs).value)
  {
    ResumeSweeps(r, fs);
    FailingSweepKeeps(mgr, r, Resume(r, fs).value);
  }

  /** Only the commit of one artifact is new. */
  ghost predicate CommitNoted(r: Run, r': Run, a: Id) {
    && a in r.artifacts && r'.artifacts.Keys == r.artifacts.Keys && r' == r.(artifacts := r'.artifacts)
    && forall x :: x in r.artifacts ==> r'.artifacts[x] == r.artifacts[x].(integrated := r'.artifacts[x].integrated)
  }

  lemma NotedView(r: Run, r': Run, a: Id)
    requires CommitNoted(r, r', a)
    ensures SameView(r, r')
  {}

  lemma IntegratedTask(mgr: Id, r: Run, r': Run, a: Id, k: Id)
    requires Inv(mgr, r) && CommitNoted(r, r', a) && k in r.tasks
    ensures TaskHome(r', k) && TaskCore(r', r'.tasks[k]) && TaskRefreshed(r', r'.tasks[k])
  {
    NotedView(r, r', a);
    var t := r.tasks[k];
    assert TaskHome(r, k) && TaskCore(r, t) && TaskRefreshed(r, t);
    ResolveFrame(r, r', k);
    assert GatesOpen(r, t) <==> GatesOpen(r', t);
    if t.status.Submitted? || t.status.Reviewing? { CandidateFrame(r, r', k); }
  }

  lemma IntegratedArtifact(mgr: Id, r: Run, r': Run, a: Id, x: Id)
    requires Inv(mgr, r) && CommitNoted(r, r', a) && x in r.artifacts
    ensures ArtifactHome(r', x) && ArtifactOk(mgr, r', x)
    ensures r'.artifacts[x].status.Canonical? ==> x in r.accepted
  {
    assert ArtifactHome(r, x) && ArtifactOk(mgr, r, x);
  }

  lemma IntegratedLedger(mgr: Id, r: Run, r': Run, a: Id)
    requires Inv(mgr, r) && CommitNoted(r, r', a)
    ensures Ledger(r')
  {
    NotedView(r, r', a);
    forall x | x in r'.artifacts && r'.artifacts[x].status.Canonical? ensures x in r.accepted {
      IntegratedArtifact(mgr, r, r', a, x);
    }
    LedgerFrame(r, r');
  }

  lemma IntegratedKeeps(mgr: Id, r: Run, r': Run, a: Id)
    requires Inv(mgr, r) && CommitNoted(r, r', a)
    ensures Inv(mgr, r')
  {
    forall k | k in r'.tasks
      ensures TaskHome(r', k) && TaskCore(r', r'.tasks[k]) && TaskRefreshed(r', r'.tasks[k])
    {
      IntegratedTask(mgr, r, r', a, k);
    }
    forall x | x in r'.artifacts ensures ArtifactHome(r', x) && ArtifactOk(mgr, r', x) {
      IntegratedArtifact(mgr, r, r', a, x);
    }
    IntegratedLedger(mgr, r, r', a);
  }

  lemma RecordIntegrationKeeps(mgr: Id, r: Run, a: Id, commit: Id)
    requires Inv(mgr, r) && RecordIntegration(r, a, commit).Ok?
    ensures Inv(mgr, RecordIntegration(r, a, commit).value)
  {
    if RecordIntegration(r, a, commit).value != r {
      IntegratedKeeps(mgr, r, RecordIntegration(r, a, commit).value, a);
    }
  }

  // ---- approvals -------------------------------------------------------------------------------

  /** How a new request, superseding or not, changes the approvals. */
  ghost predicate Requested(r: Run, r': Run, id: Id, prior: Option<Id>) {
    && r'.decisions == r.decisions && id !in r.approvals
    && (forall q :: q in r.approvals && prior != Some(q) ==> q in r'.approvals && r'.approvals[q] == r.approvals[q])
    && (forall q :: q in r'.approvals ==> q in r.approvals || q == id)
    && id in r'.approvals && r'.approvals[id].status.ApprovalPending?
  }

  lemma UntouchedGates(r: Run, r': Run, id: Id, prior: Option<Id>, t: Task)
    requires Requested(r, r', id, prior)
    requires forall g :: g in t.gates ==> prior != Some(g.request)
    ensures GatesOpen(r', t) <==> GatesOpen(r, t)
  {
    forall g | g in t.gates ensures GateOpen(r', g) <==> GateOpen(r, g) {}
  }

  /** A task that held the superseded gate now waits for the new request. */
  lemma SupersededGates(r: Run, r': Run, id: Id, prior: Id, action: Action, scope: Scope, t: Task)
    requires Requested(r, r', id, Some(prior)) && HasGate(t, prior)
    ensures !GatesOpen(r', SupersedeInTask(t, prior, Gate(id, action, scope)))
  {
    var i :| 0 <= i < |t.gates| && t.gates[i].request == prior;
    var t' := SupersedeInTask(t, prior, Gate(id, action, scope));
    assert t'.gates[i] == Gate(id, action, scope) && !GateOpen(r', t'.gates[i]);
    assert t'.gates[i] in t'.gates;
  }

  lemma SupersededIsRefreshed(r: Run, r': Run, id: Id, prior: Id, action: Action, scope: Scope, k: Id)
    requires SameView(r, r') && Requested(r, r', id, Some(prior)) && k in r.tasks && TaskRefreshed(r, r.tasks[k])
    requires r'.tasks[k] == SupersedeInTask(r.tasks[k], prior, Gate(id, action, scope))
    ensures TaskRefreshed(r', r'.tasks[k])
  {
    if HasGate(r.tasks[k], prior) {
      SupersededGates(r, r', id, prior, action, scope, r.tasks[k]);
    } else {
      UntouchedGates(r, r', id, Some(prior), r.tasks[k]);
      ResolveFrame(r, r', k);
    }
  }

  lemma SupersedingKeeps(mgr: Id, r: Run, r': Run, id: Id, prior: Id, action: Action, scope: Scope)
    requires Inv(mgr, r) && Sweep(r, r') && Requested(r, r', id, Some(prior)) && ApprovalsOk(r')
    requires forall k :: k in r.tasks ==> r'.tasks[k] == SupersedeInTask(r.tasks[k], prior, Gate(id, action, scope))
    requires forall k :: k in r.tasks && InFlight(r.tasks[k].status) ==> !HasGate(r.tasks[k], prior)
    ensures Inv(mgr, r')
  {
    forall k | k in r.tasks && InFlight(r'.tasks[k].status) ensures GatesOpen(r', r'.tasks[k]) {
      assert TaskCore(r, r.tasks[k]);
      UntouchedGates(r, r', id, Some(prior), r.tasks[k]);
    }
    SweepKeeps(mgr, r, r');
    forall k | k in r.tasks ensures TaskRefreshed(r', r'.tasks[k]) {
      SupersededIsRefreshed(r, r', id, prior, action, scope, k);
    }
  }

  lemma PlainRequestKeeps(mgr: Id, r: Run, r': Run, id: Id)
    requires Inv(mgr, r) && Sweep(r, r') && Requested(r, r', id, None) && ApprovalsOk(r') && r'.tasks == r.tasks
    ensures Inv(mgr, r')
  {
    forall k | k in r.tasks ensures GatesOpen(r', r.tasks[k]) <==> GatesOpen(r, r.tasks[k]) {
      UntouchedGates(r, r', id, None, r.tasks[k]);
    }
    forall k | k in r.tasks && InFlight(r'.tasks[k].status) ensures GatesOpen(r', r'.tasks[k]) {
      assert TaskCore(r, r.tasks[k]);
    }
    SweepKeeps(mgr, r, r');
    forall k | k in r.tasks ensures TaskRefreshed(r', r'.tasks[k]) {
      ResolveFrame(r, r', k);
      assert TaskRefreshed(r, r.tasks[k]);
    }
  }

  lemma SupersedingSweeps(r: Run, r': Run, id: Id, prior: Id, action: Action, scope: Scope, reason: Id, required: bool)
    requires Unused(r, id) && RequestApproval(r, id, action, scope, reason, required, Some(prior)) == Ok(r')
    ensures Sweep(r, r') && Requested(r, r', id, Some(prior)) && prior in r.approvals
    ensures forall k :: k in r.tasks ==> r'.tasks[k] == SupersedeInTask(r.tasks[k], prior, Gate(id, action, scope))
    ensures forall k :: k in r.tasks && InFlight(r.tasks[k].status) ==> !HasGate(r.tasks[k], prior)
  {}

  lemma RequestedApprovals(r: Run, r': Run, id: Id, action: Action, scope: Scope, reason: Id, required: bool,
                           supersedes: Option<Id>)
    requires ApprovalsOk(r) && Unused(r, id)
    requires RequestApproval(r, id, action, scope, reason, required, supersedes) == Ok(r')
    ensures ApprovalsOk(r')
  {}

  lemma RequestApprovalKeeps(mgr: Id, r: Run, id: Id, action: Action, scope: Scope, reason: Id,
                             required: bool, supersedes: Option<Id>)
    requires Inv(mgr, r) && Unused(r, id)
    requires RequestApproval(r, id, action, scope, reason, required, supersedes).Ok?
    ensures Inv(mgr, RequestApproval(r, id, action, scope, reason, required, supersedes).value)
  {
    var r' := RequestApproval(r, id, action, scope, reason, required, supersedes).value;
    RequestedApprovals(r, r', id, action, scope, reason, required, supersedes);
    if supersedes.None? {
      PlainRequestKeeps(mgr, r, r', id);
    } else {
      SupersedingSweeps(r, r', id, supersedes.value, action, scope, reason, required);
      SupersedingKeeps(mgr, r, r', id, supersedes.value, action, scope);
    }
  }

  /** The state between a decision and the refresh that follows it. */
  function Deciding(r: Run, id: Id, approved: bool): Run requires id in r.approvals {
    r.(decisions := r.decisions[id := approved],
       approvals := r.approvals[id :=
                      r.approvals[id].(status := if approved then ApprovalGranted else ApprovalRejected)],
       tasks := map k | k in r.tasks :: DecideInTask(r.tasks[k], id, approved))
  }

  lemma DecidingKeeps(mgr: Id, r: Run, id: Id, approved: bool)
    requires Inv(mgr, r) && id in r.approvals && r.approvals[id].status.ApprovalPending?
    ensures Core(mgr, Deciding(r, id, approved))
  {
    var r' := Deciding(r, id, approved);
    forall k | k in r.tasks && InFlight(r'.tasks[k].status) ensures GatesOpen(r', r'.tasks[k]) {
      assert TaskCore(r, r.tasks[k]);
      DecidedGates(r, id, approved, r.tasks[k]);
    }
    SweepKeeps(mgr, r, r');
  }

  /** Deciding a pending approval closes no gate. */
  lemma DecidedGates(r: Run, id: Id, approved: bool, t: Task)
    requires id in r.approvals && r.approvals[id].status.ApprovalPending? && GatesOpen(r, t)
    ensures GatesOpen(Deciding(r, id, approved), DecideInTask(t, id, approved))
  {
    forall g | g in t.gates ensures GateOpen(Deciding(r, id, approved), g) { assert GateOpen(r, g); }
  }

  lemma DecideApprovalKeeps(mgr: Id, r: Run, id: Id, approved: bool, human: Id, reason: Id)
    requires Inv(mgr, r) && DecideApproval(r, id, approved, human, reason).Ok?
    ensures Inv(mgr, DecideApproval(r, id, approved, human, reason).value)
  {
    DecidingKeeps(mgr, r, id, approved);
    RefreshEstablishes(mgr, Deciding(r, id, approved));
  }

  // ---- one idle task, then a refresh -------------------------------------------------------------

  predicate Idle(s: Status) { s.Planned? || s.Ready? || s.Blocked? || s.RevisionRequired? }

  /** Workspace, capability, gates, blocker and idle status may differ. */
  predicate IdleBody(t: Task, t': Task) {
    && Idle(t.status) && Idle(t'.status)
    && t' == t.(status := t'.status, blocker := t'.blocker, gates := t'.gates, approvalIds := t'.approvalIds,
                capability := t'.capability, workspace := t'.workspace)
  }

  lemma IdleKeeps(mgr: Id, r: Run, r': Run, k: Id)
    requires Inv(mgr, r) && TaskEdit(r, r', k) && IdleBody(r.tasks[k], r'.tasks[k])
    requires r'.artifacts == r.artifacts
    ensures Core(mgr, r') && Inv(mgr, Refresh(r'))
  {
    assert TaskCore(r, r.tasks[k]);
    OwnArtifactsKept(mgr, r, r', k);
    EditKeeps(mgr, r, r', k);
    RefreshEstablishes(mgr, r');
  }

  /** An idle task edited in place, side tables aside, and then the refresh. */
  lemma IdlePutKeeps(mgr: Id, r: Run, r': Run, k: Id, t: Task)
    requires Inv(mgr, r) && k in r.tasks && IdleBody(r.tasks[k], t)
    requires r' == Put(r, k, t).(requests := r'.requests)
    ensures Inv(mgr, Refresh(r'))
  {
    assert TaskEdit(r, r', k);
    IdleKeeps(mgr, r, r', k);
  }

  lemma BindWorkspaceKeeps(mgr: Id, r: Run, k: Id, w: Id)
    requires Inv(mgr, r) && BindWorkspace(r, k, w).Ok?
    ensures Inv(mgr, BindWorkspace(r, k, w).value)
  {
    var t := r.tasks[k].(workspace := Some(w));
    IdlePutKeeps(mgr, r, Put(r, k, t), k, t);
  }

  lemma RecoverLegacyGateKeeps(mgr: Id, r: Run, k: Id, legacy: Id, id: Id, action: Action, scope: Scope)
    requires Inv(mgr, r) && RecoverLegacyGate(r, k, legacy, id, action, scope).Ok?
    ensures Inv(mgr, RecoverLegacyGate(r, k, legacy, id, action, scope).value)
  {
    var t := Regated(r.tasks[k], legacy, Gate(id, action, scope), r.approvals[id].status);
    IdlePutKeeps(mgr, r, Put(r, k, t), k, t);
  }

  lemma GateTaskKeeps(mgr: Id, r: Run, k: Id, id: Id, action: Action, scope: Scope)
    requires Inv(mgr, r) && GateTask(r, k, id, action, scope).Ok?
    ensures Inv(mgr, GateTask(r, k, id, action, scope).value)
  {
    var t := Gated(r.tasks[k], Gate(id, action, scope), r.approvals[id].status);
    IdlePutKeeps(mgr, r, Put(r, k, t), k, t);
  }

  lemma ApplyEscalationKeeps(mgr: Id, r: Run, q: Id, caller: Option<Id>)
    requires Inv(mgr, r) && ApplyEscalation(mgr, r, q, caller).Ok?
    ensures Inv(mgr, ApplyEscalation(mgr, r, q, caller).value)
  {
    var req := r.requests[q];
    if !req.status.RequestEscalated? {
      var t := EscalatedTask(r.tasks[req.taskId], req);
      var r' := Put(r, req.taskId, t).(requests := r.requests[q := req.(status := RequestEscalated)]);
      IdlePutKeeps(mgr, r, r', req.taskId, t);
    }
  }

  lemma ChangedIsIdle(r: Run, k: Id, c: Capability, w: Option<Id>)
    requires k in r.tasks && Idle(r.tasks[k].status)
    ensures IdleBody(r.tasks[k], ChangedTask(r, k, c, w))
  {}

  lemma SetCapabilityKeeps(mgr: Id, r: Run, k: Id, c: Capability, id: Id, w: Option<Id>)
    requires Inv(mgr, r) && SetCapability(r, k, c, id, w).Ok?
    ensures Inv(mgr, SetCapability(r, k, c, id, w).value)
  {
    var t := ChangedTask(r, k, c, w);
    ChangedIsIdle(r, k, c, w);
    IdlePutKeeps(mgr, r, Put(r, k, t), k, t);
  }

  // ---- planning ----------------------------------------------------------------------------------

  lemma RegisterInputKeeps(mgr: Id, r: Run, name: Id, reference: Id)
    requires Inv(mgr, r) && RegisterInput(r, name, reference).Ok?
    ensures Inv(mgr, RegisterInput(r, name, reference).value)
  {
    var r' := r.(inputs := r.inputs[name := reference]);
    GrowthKeeps(mgr, r, r');
    RefreshEstablishes(mgr, r');
  }

  /** Growth that leaves the accepted list, the artifacts and the existing tasks alone. */
  lemma GrowthKeeps(mgr: Id, r: Run, r': Run)
    requires Core(mgr, r) && Grows(r, r')
    requires r'.artifacts == r.artifacts && r'.accepted == r.accepted
    requires forall k :: k in r.tasks ==> r'.tasks[k] == r.tasks[k] && TaskHome(r', k)
    requires forall a :: a in r.artifacts ==> ArtifactHome(r', a)
    requires forall k :: k in r'.tasks && k !in r.tasks ==>
      TaskHome(r', k) && TaskCore(r', r'.tasks[k]) && !r'.tasks[k].status.Accepted?
    ensures Core(mgr, r')
  {
    forall k | k in r.tasks ensures TaskCore(r', r'.tasks[k]) {
      assert TaskHome(r, k) && TaskCore(r, r.tasks[k]);
      GrownTask(r, r', k);
    }
    forall i | 0 <= i < |r'.accepted| ensures Sourced(r', r'.accepted[i], r'.accepted[..i]) {
      assert Sourced(r, r.accepted[i], r.accepted[..i]);
      GrownLedgerEntry(r, r', i);
    }
    forall a | a in r'.artifacts ensures ArtifactOk(mgr, r', a) {
      assert ArtifactHome(r, a) && ArtifactOk(mgr, r, a);
    }
  }

  lemma AddOneKeeps(mgr: Id, r: Run, t: Task)
    requires Core(mgr, r) && IsFresh(r, t) && t.id !in r.inputs && t.id !in r.artifacts
    ensures Core(mgr, Put(r, t.id, t))
  {
    var r' := Put(r, t.id, t);
    forall k | k in r.tasks ensures SettledStay(r, r', k) && TaskHome(r', k) {
      assert TaskHome(r, k);
    }
    forall a | a in r.artifacts ensures ArtifactHome(r', a) { assert ArtifactHome(r, a); }
    GrowthKeeps(mgr, r, r');
  }

  lemma {:induction false} AddEachKeeps(mgr: Id, r: Run, add: seq<Task>)
    requires Core(mgr, r) && AddEach(r, add).Ok?
    ensures Core(mgr, AddEach(r, add).value)
    decreases |add|
  {
    if add != [] {
      AddOneKeeps(mgr, r, add[0]);
      AddEachKeeps(mgr, Put(r, add[0].id, add[0]), add[1..]);
    }
  }

  lemma AddTasksKeeps(mgr: Id, r: Run, add: seq<Task>)
    requires Inv(mgr, r) && AddTasks(r, add).Ok?
    ensures Inv(mgr, AddTasks(r, add).value)
  {
    AddEachKeeps(mgr, r, add);
    RefreshEstablishes(mgr, AddEach(r, add).value);
  }
}
