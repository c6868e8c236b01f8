/** The control plane as the object its callers use.  Each public method works step by step on
    a copy of the run and keeps the copy only if nothing refused it. */
module Orchestration {
  import opened Base
  import opened RunModel
  import opened KernelOps
  import opened Lineage
  import opened KernelInvariant
  import opened Kernel
  import opened Passes
  import KernelTheorems
  import PlanGraph
  import opened ReplanChecks
  import R = Replanning

  /** A call took the step the transition system allows, or changed nothing. */
  ghost predicate Took(mgr: Id, before: Run, op: Op, e: Option<GateError>, after: Run) {
    Step(mgr, before, op) == (if e.None? then Ok(after) else Err(e.value)) && (e.Some? ==> after == before)
  }

  function IdsOf(add: seq<Task>): seq<Id> { seq(|add|, i requires 0 <= i < |add| => add[i].id) }

  lemma GrownOrder(order: seq<Id>, tasks: map<Id, Task>, add: seq<Task>)
    requires Enumerates(order, tasks.Keys) && R.AddsAreUnique(add)
    requires forall t :: t in add ==> t.id !in tasks
    ensures Enumerates(order + IdsOf(add), R.AddAll(tasks, add).Keys)
  {
    var ids := IdsOf(add);
    forall x ensures x in ids <==> exists t :: t in add && t.id == x {
      if x in ids {
        var i :| 0 <= i < |ids| && ids[i] == x;
        assert add[i] in add;
      }
      if t :| t in add && t.id == x {
        var i :| 0 <= i < |add| && add[i] == t;
        assert ids[i] == x;
      }
    }
    forall i | 0 <= i < |ids| ensures ids[i] !in Elements(order) { assert add[i] in add; }
    assert Elements(order + ids) == Elements(order) + Elements(ids);
    forall i, j | 0 <= i < j < |order + ids| ensures (order + ids)[i] != (order + ids)[j] {
      if i < |order| <= j {
        assert (order + ids)[i] in Elements(order) && ids[j - |order|] == (order + ids)[j];
      }
    }
  }

  /** The removals of a projection. */
  method CancelPass(start: map<Id, Task>, remove: seq<Id>) returns (tasks: map<Id, Task>)
    requires Elements(remove) <= start.Keys
    ensures tasks == map k | k in start :: if k in remove then start[k].(status := Cancelled) else start[k]
  {
    tasks := start;
    for i := 0 to |remove|
      invariant tasks.Keys == start.Keys
      invariant tasks == map k | k in start :: if k in remove[..i] then start[k].(status := Cancelled) else start[k]
    {
      assert remove[i] in Elements(remove) && remove[..i + 1] == remove[..i] + [remove[i]];
      tasks := tasks[remove[i] := tasks[remove[i]].(status := Cancelled)];
    }
    assert remove[..|remove|] == remove;
  }

  lemma ProjectionInSteps(run: Run, p: Proposal, cancelled: Run)
    requires cancelled == run.(tasks := map k | k in run.tasks ::
               if k in p.remove then run.tasks[k].(status := Cancelled) else run.tasks[k])
    ensures (map k | k in cancelled.tasks :: R.Rewired(cancelled, p, k, cancelled.tasks[k]))
            == map k | k in run.tasks :: R.ProjectedTask(run, p, k)
  {}

  /** `_replan_defects`: every structural defect or, if there is none, the graph of the projection. */
  method ReplanDefects(run: Run, order: seq<Id>, p: Proposal) returns (defects: seq<Defect>)
    requires Enumerates(order, run.tasks.Keys)
    ensures defects == [] <==> R.NoDefects(run, p)
    ensures forall d :: d in defects <==>
              || IsDefect(run, p, d)
              || (d.UnsoundPlan? && R.StructureOk(run, p) && !PlanGraph.GraphOk(R.Projection(run, p)))
  {
    defects := StructuralDefects(run, p);
    DefectFreeIffSound(run, p);
    if defects != [] {
      assert defects[0] in defects;
      return;
    }
    var cancelled := CancelPass(run.tasks, p.remove);
    var projection := run.(tasks := cancelled);
    ProjectionInSteps(run, p, projection);
    projection := RewirePass(projection, p);
    GrownOrder(order, projection.tasks, p.add);
    projection := InsertPass(projection, p.add);
    var e := PlanGraph.Graph(projection, order + IdsOf(p.add));
    if e.Some? { defects := [UnsoundPlan]; }
  }

  /** The mutations of `apply_replan` in their order: invalidate, rewire, insert. */
  method ReplanPasses(run: Run, p: Proposal, affected: set<Id>) returns (next: Run)
    requires NoDuplicates(run.accepted) && affected <= run.tasks.Keys && p.deps.Keys <= run.tasks.Keys
    requires forall k, a :: k in run.tasks && a in run.tasks[k].artifactIds ==> a in run.artifacts
    ensures next == R.Replanned(run, p, affected)
  {
    next := InvalidatePass(run, p, affected);
    ghost var cleared := next;
    next := RewirePass(next, p);
    assert next.tasks == map k | k in cleared.tasks :: R.Rewired(run, p, k, cleared.tasks[k]);
    next := InsertPass(next, p.add);
  }

  // ---- the operations, each on its own copy of the run ----------------------------------------

  method AddTasksOn(start: Run, startOrder: seq<Id>, add: seq<Task>) returns (r: Outcome, order: seq<Id>)
    requires Enumerates(startOrder, start.tasks.Keys)
    ensures r == AddTasks(start, add)
    ensures r.Ok? ==> Enumerates(order, r.value.tasks.Keys)
  {
    if start.revision != 0 || ExecutionBegan(start) { return Err(UseReplan), startOrder; }
    r, order := AddPass(start, startOrder, add);
    if r.Err? { return; }
    var refused := PlanGraph.Graph(r.value, order);
    if refused.Some? { return Err(GraphInvalid), order; }
    var run := RefreshPass(r.value, order);
    return Ok(run), order;
  }

  method DelegateOn(mgr: Id, start: Run, k: Id, worker: Id, assignment: Id) returns (r: Outcome)
    ensures r == Delegate(mgr, start, k, worker, assignment)
  {
    if k !in start.tasks { return Err(UnknownKey); }
    var t := start.tasks[k];
    if !Substantive(worker) || worker == mgr { return Err(WorkerNotDelegatable); }
    if t.attempts - t.attemptBaseline >= t.maxAttempts { return Err(AttemptBudgetExhausted); }
    var ready := Lineage.Ready(start, t);
    if !ready { return Err(TaskNotReady); }
    if !(t.status.Ready? || t.status.RevisionRequired?) { return Err(TaskNotDelegatable); }
    var created := Assignment(assignment, worker);
    t := t.(status := Delegated);
    t := t.(assignment := Some(created), history := t.history + [created]);
    t := t.(attempts := t.attempts + 1);
    return Ok(Put(start, k, t));
  }

  method StartOn(start: Run, k: Id) returns (r: Outcome)
    ensures r == Start(start, k)
  {
    if k !in start.tasks { return Err(UnknownKey); }
    var t := start.tasks[k];
    var ready := Lineage.Ready(start, t);
    if !ready { return Err(ExecutionGatesLapsed); }
    if !Allowed(t.status, Running) { return Err(IllegalTransition); }
    if t.assignment.None? { return Err(UnknownKey); }
    return Ok(Put(start, k, t.(status := Running)));
  }

  method SubmitOn(start: Run, k: Id, assignment: Id, worker: Id, completed: bool, deliverable: Id,
                  fingerprint: Option<Id>, id: Id) returns (r: Outcome)
    ensures r == Submit(start, k, assignment, worker, completed, deliverable, fingerprint, id)
  {
    if k !in start.tasks { return Err(UnknownKey); }
    var t := start.tasks[k];
    if !AssignedTo(t, assignment, worker) { return Err(AssignmentMismatch); }
    if !completed || !Substantive(deliverable) { return Err(ResultMismatch); }
    var walk := new LineageWalk(start);
    var inputs := walk.InputArtifactIds(t);
    if inputs.Err? { return Err(InputsUnavailable); }
    if !Allowed(t.status, Submitted) { return Err(IllegalTransition); }
    if t.capability.DeveloperSandbox? && !Present(fingerprint) { return Err(FingerprintRequired); }
    var artifact := Artifact(start.id, k, worker, deliverable, Digest(deliverable), fingerprint,
      |t.artifactIds| + 1, if t.artifactIds == [] then None else Some(Last(t.artifactIds)),
      inputs.value, Candidate, None, [], []);
    t := t.(status := Submitted, artifactIds := t.artifactIds + [id]);
    return Ok(Put(start, k, t).(artifacts := start.artifacts[id := artifact]));
  }

  /** `_validate_task_inputs` */
  method TaskInputsMatch(run: Run, t: Task, a: Id) returns (ok: bool)
    requires a in run.artifacts
    ensures ok <==> InputsCanonical(run, t) && ProvenanceMatches(run, t, a)
  {
    var walk := new LineageWalk(run);
    var inputs := walk.InputArtifactIds(t);
    if inputs.Err? { return false; }
    InputListElements(run, t);
    return Elements(run.artifacts[a].inputIds) == Elements(inputs.value);
  }

  method AcceptCandidateOn(mgr: Id, start: Run, order: seq<Id>, a: Id, reason: Id) returns (r: Outcome)
    requires Enumerates(order, start.tasks.Keys)
    requires a in start.artifacts && start.artifacts[a].taskId in start.tasks
    ensures r == AcceptCandidate(mgr, start, a, reason)
  {
    var artifact := start.artifacts[a];
    var t := start.tasks[artifact.taskId];
    var refused := EvidenceGate(mgr, t, artifact);
    if refused.Some? { return Err(refused.value); }
    var ready := Lineage.Ready(start, t);
    if !ready { return Err(InputsNoLongerAccepted); }
    var cited := TaskInputsMatch(start, t, a);
    if !cited { return Err(CandidateProvenanceMismatch); }
    if !Truthy(reason) { return Err(InvalidRecord); }
    var accepted := Put(start, artifact.taskId, t.(status := Accepted))
                      .(artifacts := start.artifacts[a := artifact.(status := Canonical)],
                        accepted := start.accepted + [a]);
    var run := RefreshPass(accepted, order);
    return Ok(run);
  }

  method AcceptOn(mgr: Id, start: Run, order: seq<Id>, k: Id, caller: Option<Id>, reason: Id,
                  fingerprint: Option<Id>) returns (r: Outcome)
    requires Enumerates(order, start.tasks.Keys)
    ensures r == Accept(mgr, start, k, caller, reason, fingerprint)
  {
    if caller.Some? && caller.value != mgr { return Err(AuthorityMismatch); }
    if k !in start.tasks { return Err(UnknownKey); }
    if start.tasks[k].artifactIds == [] { return Err(NoCandidate); }
    var a := Last(start.tasks[k].artifactIds);
    r := CandidateCheck(start, a, fingerprint);
    if r.Err? { return; }
    r := AcceptCandidateOn(mgr, r.value, order, a, reason);
  }

  method AppliedOn(start: Run, startOrder: seq<Id>, p: Proposal) returns (r: Outcome, order: seq<Id>)
    requires Enumerates(startOrder, start.tasks.Keys) && NoDuplicates(start.accepted) && R.StructureOk(start, p)
    requires forall k, a :: k in start.tasks && a in start.tasks[k].artifactIds ==> a in start.artifacts
    ensures r == R.Applied(start, p)
    ensures r.Ok? ==> Enumerates(order, r.value.tasks.Keys)
  {
    R.AffectedIsLeast(start, p);
    var affected := R.ReplanAffected(start, p, startOrder);
    var run := ReplanPasses(start, p, affected);
    order := startOrder + IdsOf(p.add);
    ReplannedOrder(start, startOrder, p, affected);
    r := Checked(run, order);
  }

  /** The graph check, the new revision and the refresh that end an application. */
  method Checked(start: Run, order: seq<Id>) returns (r: Outcome)
    requires Enumerates(order, start.tasks.Keys)
    ensures r == if PlanGraph.GraphOk(start) then Ok(Refresh(start.(revision := start.revision + 1)))
                 else Err(GraphInvalid)
    ensures r.Ok? ==> r.value.tasks.Keys == start.tasks.Keys
  {
    var refused := PlanGraph.Graph(start, order);
    if refused.Some? { return Err(GraphInvalid); }
    var run := RefreshPass(start.(revision := start.revision + 1), order);
    return Ok(run);
  }

  method ApplyOn(start: Run, startOrder: seq<Id>, id: Id) returns (r: Outcome, order: seq<Id>)
    requires Enumerates(startOrder, start.tasks.Keys) && NoDuplicates(start.accepted)
    requires forall k, a :: k in start.tasks && a in start.tasks[k].artifactIds ==> a in start.artifacts
    ensures r == R.Apply(start, id)
    ensures r.Ok? ==> Enumerates(order, r.value.tasks.Keys)
  {
    order := startOrder;
    if id !in start.replans { return Err(UnknownKey), order; }
    var p := start.replans[id];
    if p.base != start.revision { return Err(StaleReplan), order; }
    var defects := ReplanDefects(start, order, p);
    if defects != [] { return Err(ReplanDefective), order; }
    if p.requiresApproval && !ExactlyApproved(start, p.approvalId, ReplanAction, ReplanScope(p.id, p.base)) {
      return Err(ExactApprovalRequired), order;
    }
    r, order := AppliedOn(start, order, p);
  }

  lemma ReplannedOrder(run: Run, order: seq<Id>, p: Proposal, affected: set<Id>)
    requires Enumerates(order, run.tasks.Keys) && R.StructureOk(run, p)
    ensures Enumerates(order + IdsOf(p.add), R.Replanned(run, p, affected).tasks.Keys)
  {
    var cleared := R.Invalidate(run, p, affected);
    GrownOrder(order, map k | k in cleared.tasks :: R.Rewired(run, p, k, cleared.tasks[k]), p.add);
  }

  /** Every task that still counts is settled, judged with one `checked` set for them all. */
  method TasksSettled(walk: LineageWalk, order: seq<Id>) returns (ok: bool)
    requires walk.Valid() && walk.path == [] && Elements(order) == walk.run.tasks.Keys
    modifies walk
    ensures ok <==> forall k :: StillCounts(walk.run, k) ==> TaskSettled(walk.run, k)
    ensures ok ==> walk.Valid() && walk.path == []
  {
    var run := walk.run;
    for i := 0 to |order|
      invariant walk.Valid() && walk.path == []
      invariant forall j :: 0 <= j < i && StillCounts(run, order[j]) ==> TaskSettled(run, order[j])
    {
      assert order[i] in Elements(order);
      var t := run.tasks[order[i]];
      if t.status.Cancelled? { continue; }
      assert StillCounts(run, order[i]);
      if t.artifactIds == [] { return false; }
      var ready := Lineage.Ready(run, t);
      if !ready { return false; }
      var refused := walk.ValidateAcceptedArtifact(Last(t.artifactIds));
      if refused.Some? { return false; }
    }
    forall k | StillCounts(run, k) ensures TaskSettled(run, k) { assert k in Elements(order); }
    return true;
  }

  /** Every cited artifact is canonical, still judged with the same `checked` set. */
  method EvidenceSettled(walk: LineageWalk, coverage: map<Id, seq<Id>>) returns (ok: bool)
    requires walk.Valid() && walk.path == []
    modifies walk
    ensures ok <==> forall c, a :: c in coverage && a in coverage[c] ==> IsCanonical(walk.run, a)
  {
    var pending := coverage.Keys;
    while pending != {}
      invariant pending <= coverage.Keys && walk.Valid() && walk.path == []
      invariant forall c, a :: c in coverage && c !in pending && a in coverage[c] ==> IsCanonical(walk.run, a)
    {
      Inhabited(pending);
      var c :| c in pending;
      for i := 0 to |coverage[c]|
        invariant walk.Valid() && walk.path == []
        invariant forall j :: 0 <= j < i ==> IsCanonical(walk.run, coverage[c][j])
      {
        var refused := walk.ValidateAcceptedArtifact(coverage[c][i]);
        if refused.Some? {
          assert coverage[c][i] in coverage[c];
          return false;
        }
      }
      pending := pending - {c};
    }
    return true;
  }

  predicate WorkRemains(run: Run) {
    || (forall k :: k in run.tasks ==> !StillCounts(run, k))
    || (exists k :: k in run.tasks && StillCounts(run, k) && !run.tasks[k].status.Accepted?)
    || run.unresolved != []
  }

  method CompleteOn(start: Run, order: seq<Id>, result: Id, coverage: map<Id, seq<Id>>) returns (r: Outcome)
    requires Enumerates(order, start.tasks.Keys)
    ensures r == Complete(start, result, coverage)
  {
    if WorkRemains(start) { return Err(WorkUnresolved); }
    var refused := PlanGraph.Graph(start, order);
    if refused.Some? { return Err(GraphInvalid); }
    var walk := new LineageWalk(start);
    var settled := TasksSettled(walk, order);
    if !settled { return Err(InputsInvalid); }
    if exists q :: q in start.approvals && start.approvals[q].required && start.approvals[q].status.ApprovalPending? {
      return Err(ApprovalOutstanding);
    }
    if !CriteriaCovered(start, coverage) { return Err(CriterionEvidenceInvalid); }
    settled := EvidenceSettled(walk, coverage);
    if !settled { return Err(InputsInvalid); }
    if !Substantive(result) { return Err(FinalResultMissing); }
    return Ok(start.(finalResult := Some(result), status := Completed));
  }

  method DecideOn(start: Run, order: seq<Id>, id: Id, approved: bool, human: Id, reason: Id) returns (r: Outcome)
    requires Enumerates(order, start.tasks.Keys)
    ensures r == DecideApproval(start, id, approved, human, reason)
  {
    if id !in start.approvals || !start.approvals[id].status.ApprovalPending? || id in start.decisions {
      return Err(ApprovalDecided);
    }
    if !Truthy(human) || !Truthy(reason) { return Err(InvalidRecord); }
    var request := start.approvals[id];
    var run := start.(decisions := start.decisions[id := approved]);
    run := run.(approvals := run.approvals[id :=
      request.(status := if approved then ApprovalGranted else ApprovalStatus.ApprovalRejected)]);
    var tasks := DecidePass(start.tasks, order, id, approved);
    run := RefreshPass(run.(tasks := tasks), order);
    return Ok(run);
  }

  method ReplaceOn(start: Run, order: seq<Id>, prior: Id, id: Id, action: Action, scope: Scope, reason: Id,
                   required: bool)
    returns (r: Outcome)
    requires Enumerates(order, start.tasks.Keys) && id !in start.approvals && Truthy(reason)
    ensures r == RequestApproval(start, id, action, scope, reason, required, Some(prior))
  {
    if prior !in start.approvals || start.approvals[prior].status.ApprovalSuperseded? { return Err(ApprovalMissing); }
    if exists k :: k in start.tasks && InFlight(start.tasks[k].status) && HasGate(start.tasks[k], prior) {
      return Err(ApprovalBoundToActiveWork);
    }
    var tasks := SupersedePass(start.tasks, order, prior, Gate(id, action, scope));
    var approvals := start.approvals[prior := start.approvals[prior].(status := ApprovalSuperseded)];
    approvals := approvals[id := Approval(action, scope, ApprovalPending, required)];
    return Ok(start.(tasks := tasks, approvals := approvals));
  }

  method RequestOn(start: Run, order: seq<Id>, id: Id, action: Action, scope: Scope, reason: Id, required: bool,
                   supersedes: Option<Id>) returns (r: Outcome)
    requires Enumerates(order, start.tasks.Keys) && id !in start.approvals
    ensures r == RequestApproval(start, id, action, scope, reason, required, supersedes)
  {
    if !Truthy(reason) { return Err(InvalidRecord); }
    if supersedes.Some? {
      r := ReplaceOn(start, order, supersedes.value, id, action, scope, reason, required);
      return;
    }
    return Ok(start.(approvals := start.approvals[id := Approval(action, scope, ApprovalPending, required)]));
  }

  /** These operations add and drop no task. */
  lemma KeysKept(mgr: Id, run: Run, op: Op, r: Outcome)
    requires op.DelegateOp? || op.StartOp? || op.SubmitOp? || op.AcceptOp? || op.DecideApprovalOp?
             || op.RequestApprovalOp?
    requires r == Mutation(mgr, run, op)
    ensures r.Ok? ==> r.value.tasks.Keys == run.tasks.Keys
  {
    if r.Ok? {
      if op.AcceptOp? { KeysKeptByAccept(mgr, run, op, r); }
      else if op.DecideApprovalOp? || op.RequestApprovalOp? { KeysKeptByApproval(mgr, run, op, r); }
      else { KeysKeptByWork(mgr, run, op, r); }
    }
  }

  lemma KeysKeptByAccept(mgr: Id, run: Run, op: Op, r: Outcome)
    requires op.AcceptOp? && r == Mutation(mgr, run, op) && r.Ok?
    ensures r.value.tasks.Keys == run.tasks.Keys
  {}

  lemma KeysKeptByApproval(mgr: Id, run: Run, op: Op, r: Outcome)
    requires (op.DecideApprovalOp? || op.RequestApprovalOp?) && r == Mutation(mgr, run, op) && r.Ok?
    ensures r.value.tasks.Keys == run.tasks.Keys
  {}

  lemma KeysKeptByWork(mgr: Id, run: Run, op: Op, r: Outcome)
    requires (op.DelegateOp? || op.StartOp? || op.SubmitOp?) && r == Mutation(mgr, run, op) && r.Ok?
    ensures r.value.tasks.Keys == run.tasks.Keys
  {}

  // ---- the object -----------------------------------------------------------------------------

  class Orchestrator {
    const mgr: Id
    var run: Run
    var order: seq<Id>

    ghost predicate Valid() reads this { Inv(mgr, run) && Enumerates(order, run.tasks.Keys) }

    constructor (mgr: Id, created: Run)
      requires Created(created)
      ensures Valid() && this.mgr == mgr && run == created
    {
      this.mgr, run, order := mgr, created, [];
    }

    /** The end of `_mutate`: a step that returned becomes the run, any other leaves it. */
    method Commit(ghost op: Op, r: Outcome, order': seq<Id>) returns (e: Option<GateError>)
      requires Valid() && Step(mgr, run, op) == r
      requires r.Ok? ==> Drawn(run, op) && Enumerates(order', r.value.tasks.Keys)
      modifies this
      ensures Valid() && Took(mgr, old(run), op, e, run)
    {
      if r.Err? { return Some(r.error); }
      KernelTheorems.StepKeeps(mgr, run, op, r.value);
      run, order := r.value, order';
      return None;
    }

    method AddTasks(add: seq<Task>) returns (e: Option<GateError>)
      requires Valid()
      modifies this
      ensures Valid() && Took(mgr, old(run), AddTasksOp(add), e, run)
    {
      if !run.status.Active? { return Some(RunIsTerminal); }
      var r, order' := AddTasksOn(run, order, add);
      e := Commit(AddTasksOp(add), r, order');
    }

    method Delegate(k: Id, worker: Id, assignment: Id) returns (e: Option<GateError>)
      requires Valid()
      modifies this
      ensures Valid() && Took(mgr, old(run), DelegateOp(k, worker, assignment), e, run)
    {
      if !run.status.Active? { return Some(RunIsTerminal); }
      var r := DelegateOn(mgr, run, k, worker, assignment);
      KeysKept(mgr, run, DelegateOp(k, worker, assignment), r);
      e := Commit(DelegateOp(k, worker, assignment), r, order);
    }

    method Start(k: Id) returns (e: Option<GateError>)
      requires Valid()
      modifies this
      ensures Valid() && Took(mgr, old(run), StartOp(k), e, run)
    {
      if !run.status.Active? { return Some(RunIsTerminal); }
      var r := StartOn(run, k);
      KeysKept(mgr, run, StartOp(k), r);
      e := Commit(StartOp(k), r, order);
    }

    method Submit(k: Id, assignment: Id, worker: Id, completed: bool, deliverable: Id, fingerprint: Option<Id>, id: Id)
      returns (e: Option<GateError>)
      requires Valid() && Unused(run, id)
      modifies this
      ensures Valid()
      ensures Took(mgr, old(run), SubmitOp(k, assignment, worker, completed, deliverable, fingerprint, id), e, run)
    {
      if !run.status.Active? { return Some(RunIsTerminal); }
      var r := SubmitOn(run, k, assignment, worker, completed, deliverable, fingerprint, id);
      ghost var op := SubmitOp(k, assignment, worker, completed, deliverable, fingerprint, id);
      KeysKept(mgr, run, op, r);
      e := Commit(op, r, order);
    }

    /** `ids` are the failure identifiers drawn on the way. */
    method Resume(ids: seq<Id>) returns (e: Option<GateError>, interrupted: seq<Failure>)
      requires Valid()
      requires |ids| == |order| && NoDuplicates(ids) && forall id :: id in ids ==> Unused(run, id)
      modifies this
      ensures Valid() && Took(mgr, old(run), ResumeOp(interrupted), e, run)
      ensures e.None? ==> InterruptionRecords(old(run), interrupted)
    {
      if !run.status.Active? { return Some(RunIsTerminal), []; }
      forall k | k in run.tasks ensures run.tasks[k].id == k { assert TaskHome(run, k); }
      var next;
      next, interrupted := ResumePass(run, order, ids);
      e := Commit(ResumeOp(interrupted), Ok(next), order);
    }

    method Accept(k: Id, caller: Option<Id>, reason: Id, fingerprint: Option<Id>) returns (e: Option<GateError>)
      requires Valid()
      modifies this
      ensures Valid() && Took(mgr, old(run), AcceptOp(k, caller, reason, fingerprint), e, run)
    {
      if !run.status.Active? { return Some(RunIsTerminal); }
      var r := AcceptOn(mgr, run, order, k, caller, reason, fingerprint);
      KeysKept(mgr, run, AcceptOp(k, caller, reason, fingerprint), r);
      e := Commit(AcceptOp(k, caller, reason, fingerprint), r, order);
    }

    method RequestApproval(id: Id, action: Action, scope: Scope, reason: Id, required: bool, supersedes: Option<Id>)
      returns (e: Option<GateError>)
      requires Valid() && Unused(run, id)
      modifies this
      ensures Valid()
      ensures Took(mgr, old(run), RequestApprovalOp(id, action, scope, reason, required, supersedes), e, run)
    {
      if !run.status.Active? { return Some(RunIsTerminal); }
      var r := RequestOn(run, order, id, action, scope, reason, required, supersedes);
      ghost var op := RequestApprovalOp(id, action, scope, reason, required, supersedes);
      KeysKept(mgr, run, op, r);
      e := Commit(op, r, order);
    }

    method DecideApproval(id: Id, approved: bool, human: Id, reason: Id) returns (e: Option<GateError>)
      requires Valid()
      modifies this
      ensures Valid() && Took(mgr, old(run), DecideApprovalOp(id, approved, human, reason), e, run)
    {
      if !run.status.Active? { return Some(RunIsTerminal); }
      var r := DecideOn(run, order, id, approved, human, reason);
      KeysKept(mgr, run, DecideApprovalOp(id, approved, human, reason), r);
      e := Commit(DecideApprovalOp(id, approved, human, reason), r, order);
    }

    method ApplyReplan(id: Id) returns (e: Option<GateError>)
      requires Valid()
      modifies this
      ensures Valid() && Took(mgr, old(run), ApplyOp(id), e, run)
    {
      if !run.status.Active? { return Some(RunIsTerminal); }
      assert forall k :: k in run.tasks ==> TaskHome(run, k);
      var r, order' := ApplyOn(run, order, id);
      e := Commit(ApplyOp(id), r, order');
    }

    method Complete(result: Id, coverage: map<Id, seq<Id>>) returns (e: Option<GateError>)
      requires Valid()
      modifies this
      ensures Valid() && Took(mgr, old(run), CompleteOp(result, coverage), e, run)
    {
      if !run.status.Active? { return Some(RunIsTerminal); }
      var r := CompleteOn(run, order, result, coverage);
      e := Commit(CompleteOp(result, coverage), r, order);
    }
  }
}
