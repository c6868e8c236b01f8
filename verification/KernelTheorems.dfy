/** What holds of every run the control plane can reach. */
module KernelTheorems {
  import opened Base
  import opened RunModel
  import opened KernelOps
  import opened Lineage
  import opened KernelInvariant
  import opened Kernel
  import KernelSteps
  import KernelGates
  import ReplanSteps
  import R = Replanning

  // ---- every step keeps the invariant -------------------------------------------------------------

  /** The operations that touch side tables only. */
  predicate SideOp(op: Op) {
    op.SetCriteriaOp? || op.LinkCapabilityOp? || op.ApproveRequestOp? || op.DenyRequestOp?
    || op.MarkEscalatedOp? || op.ProposeOp? || op.AbandonOp? || op.CompleteOp? || op.RecordUsageOp?
  }

  predicate RequestSideOp(op: Op) {
    op.LinkCapabilityOp? || op.ApproveRequestOp? || op.DenyRequestOp? || op.MarkEscalatedOp?
  }

  /** The step leaves tasks, approvals and decisions alone. */
  ghost predicate SideFrame(r: Run, r': Run) {
    r'.tasks == r.tasks && KernelGates.Sweep(r, r') && r'.approvals == r.approvals && r'.decisions == r.decisions
  }

  lemma RequestSideFrame(mgr: Id, r: Run, op: Op, r': Run)
    requires RequestSideOp(op) && Mutation(mgr, r, op) == Ok(r')
    ensures SideFrame(r, r')
  {}

  lemma ClosingSideFrame(mgr: Id, r: Run, op: Op, r': Run)
    requires (op.AbandonOp? || op.CompleteOp?) && Mutation(mgr, r, op) == Ok(r')
    ensures SideFrame(r, r')
  {}

  lemma PlanSideFrame(mgr: Id, r: Run, op: Op, r': Run)
    requires (op.SetCriteriaOp? || op.ProposeOp? || op.RecordUsageOp?) && Mutation(mgr, r, op) == Ok(r')
    ensures SideFrame(r, r')
  {}

  lemma SideOpFrame(mgr: Id, r: Run, op: Op, r': Run)
    requires SideOp(op) && Mutation(mgr, r, op) == Ok(r')
    ensures SideFrame(r, r')
  {
    if RequestSideOp(op) { RequestSideFrame(mgr, r, op, r'); }
    else if op.AbandonOp? || op.CompleteOp? { ClosingSideFrame(mgr, r, op, r'); }
    else { PlanSideFrame(mgr, r, op, r'); }
  }

  lemma JudgementStepKeeps(mgr: Id, r: Run, op: Op, r': Run)
    requires Inv(mgr, r) && Mutation(mgr, r, op) == Ok(r')
    requires op.ValidateOp? || op.ReviewOp? || op.AcceptOp? || op.RecoverOp?
    ensures Inv(mgr, r')
  {
    match op
    case ValidateOp(a, c, p, e, v, f) => KernelSteps.ValidateKeeps(mgr, r, a, c, p, e, v, f);
    case ReviewOp(a, v, p, e, f) => KernelSteps.ReviewKeeps(mgr, r, a, v, p, e, f);
    case AcceptOp(k, c, s, f) => KernelSteps.AcceptKeeps(mgr, r, k, c, s, f);
    case RecoverOp(f, s, a) => KernelSteps.RecoverKeeps(mgr, r, f, s, a);
  }

  lemma RequestCapabilityKeeps(mgr: Id, r: Run, k: Id, a: Id, w: Id, i: bool, t: Id, c: Option<Capability>, id: Id)
    requires Inv(mgr, r) && RequestCapability(r, k, a, w, i, t, c, id).Ok?
    ensures Inv(mgr, RequestCapability(r, k, a, w, i, t, c, id).value)
  {
    KernelSteps.ProvisionalKeeps(mgr, r, k, a, w, i, t);
    KernelGates.SideKeeps(mgr, Provisional(r, k, a, w, i, t).value, RequestCapability(r, k, a, w, i, t, c, id).value);
  }

  lemma WorkStepKeeps(mgr: Id, r: Run, op: Op, r': Run)
    requires Inv(mgr, r) && Drawn(r, op) && Mutation(mgr, r, op) == Ok(r')
    requires op.DelegateOp? || op.StartOp? || op.SubmitOp? || op.FailOp? || op.FailAssignmentOp?
    ensures Inv(mgr, r')
  {
    match op
    case DelegateOp(k, w, id) => KernelSteps.DelegateKeeps(mgr, r, k, w, id);
    case StartOp(k) => KernelSteps.StartKeeps(mgr, r, k);
    case SubmitOp(k, a, w, c, d, f, id) => KernelSteps.SubmitKeeps(mgr, r, k, a, w, c, d, f, id);
    case FailOp(k, c, e, id) => KernelSteps.FailKeeps(mgr, r, k, c, e, id);
    case FailAssignmentOp(k, a, w, c, e, id) => KernelSteps.FailKeeps(mgr, r, k, c, e, id);
  }

  lemma TaskStepKeeps(mgr: Id, r: Run, op: Op, r': Run)
    requires Inv(mgr, r) && Drawn(r, op) && Mutation(mgr, r, op) == Ok(r')
    requires TaskOp(op) && !op.ValidateOp? && !op.ReviewOp? && !op.AcceptOp? && !op.RecoverOp?
    ensures Inv(mgr, r')
  {
    if op.ReplaceWorkspaceOp? {
      KernelSteps.ReplaceWorkspaceKeeps(mgr, r, op.k, op.expected, op.replacement, op.reason);
    } else if op.ProvisionalOp? {
      KernelSteps.ProvisionalKeeps(mgr, r, op.k, op.assignment, op.worker, op.incomplete, op.text);
    } else if op.RequestCapabilityOp? {
      RequestCapabilityKeeps(mgr, r, op.k, op.assignment, op.worker, op.incomplete, op.text, op.wanted, op.id);
    } else {
      WorkStepKeeps(mgr, r, op, r');
    }
  }

  predicate TaskOp(op: Op) {
    op.ReplaceWorkspaceOp? || op.DelegateOp? || op.StartOp? || op.SubmitOp? || op.ProvisionalOp?
    || op.RequestCapabilityOp? || op.FailOp? || op.FailAssignmentOp? || op.ValidateOp? || op.ReviewOp?
    || op.AcceptOp? || op.RecoverOp?
  }

  lemma PlanStepKeeps(mgr: Id, r: Run, op: Op, r': Run)
    requires Inv(mgr, r) && Drawn(r, op) && Mutation(mgr, r, op) == Ok(r')
    requires !SideOp(op) && !TaskOp(op)
    ensures Inv(mgr, r')
  {
    match op
    case AddTasksOp(add) => KernelGates.AddTasksKeeps(mgr, r, add);
    case RegisterInputOp(n, s) => KernelGates.RegisterInputKeeps(mgr, r, n, s);
    case BindWorkspaceOp(k, w) => KernelGates.BindWorkspaceKeeps(mgr, r, k, w);
    case ResumeOp(f) => KernelGates.ResumeKeeps(mgr, r, f);
    case RecordIntegrationOp(a, c) => KernelGates.RecordIntegrationKeeps(mgr, r, a, c);
    case RequestApprovalOp(id, a, s, t, q, p) => KernelGates.RequestApprovalKeeps(mgr, r, id, a, s, t, q, p);
    case RecoverLegacyGateOp(k, l, id, a, s) => KernelGates.RecoverLegacyGateKeeps(mgr, r, k, l, id, a, s);
    case GateTaskOp(k, id, a, s) => KernelGates.GateTaskKeeps(mgr, r, k, id, a, s);
    case DecideApprovalOp(id, a, h, s) => KernelGates.DecideApprovalKeeps(mgr, r, id, a, h, s);
    case ApplyEscalationOp(q, c) => KernelGates.ApplyEscalationKeeps(mgr, r, q, c);
    case SetCapabilityOp(k, c, id, w) => KernelGates.SetCapabilityKeeps(mgr, r, k, c, id, w);
    case ApplyOp(id) => ReplanSteps.ApplyKeeps(mgr, r, id);
  }

  lemma StepKeeps(mgr: Id, r: Run, op: Op, r': Run)
    requires Inv(mgr, r) && Committed(mgr, r, op, r')
    ensures Inv(mgr, r')
  {
    if SideOp(op) {
      SideOpFrame(mgr, r, op, r');
      KernelGates.SideKeeps(mgr, r, r');
    } else if op.ValidateOp? || op.ReviewOp? || op.AcceptOp? || op.RecoverOp? {
      JudgementStepKeeps(mgr, r, op, r');
    } else if TaskOp(op) {
      TaskStepKeeps(mgr, r, op, r');
    } else {
      PlanStepKeeps(mgr, r, op, r');
    }
  }

  lemma {:induction false} HistoryKeeps(mgr: Id, runs: seq<Run>, ops: seq<Op>, i: nat)
    requires History(mgr, runs, ops) && i < |runs|
    ensures Inv(mgr, runs[i])
  {
    if i > 0 {
      HistoryKeeps(mgr, runs, ops, i - 1);
      StepKeeps(mgr, runs[i - 1], ops[i - 1], runs[i]);
    }
  }

  // ---- readiness ------------------------------------------------------------------------------------

  predicate MustBeReady(s: Status) { s.Ready? || InFlight(s) }

  /** In every reachable run: work that is ready or in flight has no readiness blocker, nothing
      planned or refreshably blocked is ready, and a refresh pass changes nothing. */
  lemma ReachableReadiness(mgr: Id, runs: seq<Run>, ops: seq<Op>, i: nat)
    requires History(mgr, runs, ops) && i < |runs|
    ensures var r := runs[i];
      && (forall k :: k in r.tasks && MustBeReady(r.tasks[k].status) ==> IsReady(r, r.tasks[k]))
      && (forall k :: k in r.tasks && r.tasks[k].status.Planned? ==> !IsReady(r, r.tasks[k]))
      && (forall k :: k in r.tasks && r.tasks[k].status.Blocked? && Refreshable(r.tasks[k]) ==>
            !IsReady(r, r.tasks[k]))
      && Refresh(r) == r
  {
    var r := runs[i];
    HistoryKeeps(mgr, runs, ops, i);
    forall k | k in r.tasks
      ensures (MustBeReady(r.tasks[k].status) ==> IsReady(r, r.tasks[k]))
        && (r.tasks[k].status.Planned? ==> !IsReady(r, r.tasks[k]))
        && (r.tasks[k].status.Blocked? && Refreshable(r.tasks[k]) ==> !IsReady(r, r.tasks[k]))
        && RefreshTask(r, r.tasks[k]) == r.tasks[k]
    {
      assert TaskCore(r, r.tasks[k]) && TaskRefreshed(r, r.tasks[k]);
      ReadyIsOpen(r, r.tasks[k]);
    }
    assert Refresh(r).tasks == r.tasks;
  }

  /** The re-check in `start` never refuses a delegated task: it always starts. */
  lemma StartIsNeverRefused(mgr: Id, runs: seq<Run>, ops: seq<Op>, i: nat, k: Id)
    requires History(mgr, runs, ops) && i < |runs|
    requires k in runs[i].tasks && runs[i].tasks[k].status.Delegated?
    ensures Start(runs[i], k) == Ok(Put(runs[i], k, runs[i].tasks[k].(status := Running)))
  {
    var r := runs[i];
    HistoryKeeps(mgr, runs, ops, i);
    assert TaskCore(r, r.tasks[k]);
    ReadyIsOpen(r, r.tasks[k]);
  }

  lemma SubmissionInputsStand(mgr: Id, r: Run, k: Id)
    requires Inv(mgr, r) && k in r.tasks && r.tasks[k].status.Running?
    ensures InputsCanonical(r, r.tasks[k])
  {
    assert TaskCore(r, r.tasks[k]);
    ReadyIsOpen(r, r.tasks[k]);
  }

  lemma CandidateInputsStand(mgr: Id, r: Run, k: Id, a: Id)
    requires Inv(mgr, r) && k in r.tasks && r.tasks[k].status.Reviewing? && Last(r.tasks[k].artifactIds) == a
    ensures IsReady(r, r.tasks[k]) && ProvenanceMatches(r, r.tasks[k], a)
  {
    assert TaskCore(r, r.tasks[k]);
    ReadyIsOpen(r, r.tasks[k]);
  }

  lemma CandidateIsNotRefused(mgr: Id, r: Run, a: Id, s: Id)
    requires a in r.artifacts && r.artifacts[a].taskId in r.tasks
    requires IsReady(r, r.tasks[r.artifacts[a].taskId]) && ProvenanceMatches(r, r.tasks[r.artifacts[a].taskId], a)
    ensures AcceptCandidate(mgr, r, a, s) != Err(InputsNoLongerAccepted)
    ensures AcceptCandidate(mgr, r, a, s) != Err(CandidateProvenanceMismatch)
  {}

  lemma AcceptanceInputsStand(mgr: Id, r: Run, k: Id, c: Option<Id>, s: Id, f: Option<Id>)
    requires Inv(mgr, r)
    ensures Accept(mgr, r, k, c, s, f) != Err(InputsNoLongerAccepted)
    ensures Accept(mgr, r, k, c, s, f) != Err(CandidateProvenanceMismatch)
  {
    if k in r.tasks && r.tasks[k].artifactIds != [] {
      var a := Last(r.tasks[k].artifactIds);
      if CandidateCheck(r, a, f).Ok? {
        assert TaskHome(r, k);
        KernelSteps.CandidateCheckKeeps(mgr, r, a, f);
        CandidateInputsStand(mgr, CandidateCheck(r, a, f).value, k, a);
        CandidateIsNotRefused(mgr, CandidateCheck(r, a, f).value, a, s);
      }
    }
  }

  /** The input re-checks in `submit` and `accept` are never what refuses. */
  lemma InputRechecksNeverRefuse(mgr: Id, runs: seq<Run>, ops: seq<Op>, i: nat, op: Op)
    requires History(mgr, runs, ops) && i < |runs|
    ensures op.AcceptOp? ==> Step(mgr, runs[i], op) != Err(InputsNoLongerAccepted)
    ensures op.AcceptOp? ==> Step(mgr, runs[i], op) != Err(CandidateProvenanceMismatch)
    ensures op.SubmitOp? && op.k in runs[i].tasks && runs[i].tasks[op.k].status.Running? ==>
      Step(mgr, runs[i], op) != Err(InputsUnavailable)
  {
    HistoryKeeps(mgr, runs, ops, i);
    if op.AcceptOp? {
      AcceptanceInputsStand(mgr, runs[i], op.k, op.caller, op.reason, op.fingerprint);
    } else if op.SubmitOp? && op.k in runs[i].tasks && runs[i].tasks[op.k].status.Running? {
      SubmissionInputsStand(mgr, runs[i], op.k);
    }
  }

  // ---- the accepted ledger ----------------------------------------------------------------------------

  /** The last artifacts of accepted tasks. */
  function LastOfAccepted(r: Run): set<Id> {
    set k | k in r.tasks && r.tasks[k].status.Accepted? && r.tasks[k].artifactIds != []
      :: Last(r.tasks[k].artifactIds)
  }

  function CanonicalArtifacts(r: Run): set<Id> {
    set a | a in r.artifacts && r.artifacts[a].status.Canonical?
  }

  /** In every reachable run, whatever replans it went through, the accepted list is free of
      repeats, is at once the artifacts marked accepted and the last artifacts of accepted
      tasks, and each entry's whole upstream closure is canonical. */
  lemma ReachableLedger(mgr: Id, runs: seq<Run>, ops: seq<Op>, i: nat)
    requires History(mgr, runs, ops) && i < |runs|
    ensures var r := runs[i];
      && NoDuplicates(r.accepted)
      && Elements(r.accepted) == CanonicalArtifacts(r) == LastOfAccepted(r)
      && (forall k :: k in r.tasks && r.tasks[k].status.Accepted? ==> r.tasks[k].artifactIds != [])
      && (forall a :: a in r.accepted ==> IsCanonical(r, a))
  {
    var r := runs[i];
    HistoryKeeps(mgr, runs, ops, i);
    forall a ensures a in r.accepted <==> a in CanonicalArtifacts(r) {
      if a in r.accepted { CanonicalIsListed(r, a); CanonicalUnfolds(r, a); }
    }
    forall a ensures a in r.accepted <==> a in LastOfAccepted(r) {
      if a in r.accepted {
        CanonicalIsListed(r, a);
        CanonicalUnfolds(r, a);
        assert r.artifacts[a].taskId in r.tasks;
      }
    }
    forall a | a in r.accepted ensures IsCanonical(r, a) { CanonicalIsListed(r, a); }
  }

  /** Following consumption from an accepted artifact only ever meets accepted artifacts whose
      recorded inputs are their declared inputs as resolved now. */
  lemma {:induction false} UpstreamClosure(mgr: Id, runs: seq<Run>, ops: seq<Op>, i: nat, path: seq<Id>)
    requires History(mgr, runs, ops) && i < |runs|
    requires |path| > 0 && path[0] in runs[i].accepted && ConsumptionPath(runs[i], path)
    ensures Last(path) in runs[i].accepted && LocallyAccepted(runs[i], Last(path))
    ensures ProvenanceMatches(runs[i], Producer(runs[i], Last(path)), Last(path))
    decreases |path|
  {
    var r := runs[i];
    HistoryKeeps(mgr, runs, ops, i);
    CanonicalIsListed(r, path[0]);
    CanonicalUnfolds(r, path[0]);
    if |path| > 1 {
      assert Consumes(r, path[1 - 1], path[1]);
      var t := Producer(r, path[0]);
      var n :| n in Names(t) && Resolve(r, t, n) == ToArtifact(path[1]);
      assert NameCanonical(r, t, n);
      CanonicalIsListed(r, path[1]);
      forall j | 0 < j < |path[1..]| ensures Consumes(r, path[1..][j - 1], path[1..][j]) {
        assert Consumes(r, path[j], path[j + 1]) by { assert Consumes(r, path[j + 1 - 1], path[j + 1]); }
      }
      UpstreamClosure(mgr, runs, ops, i, path[1..]);
    }
  }

  // ---- evidence ------------------------------------------------------------------------------------------

  /** Every accepted artifact has a passing record for each required check and no failing one, a
      passing last review when one is needed, evidence on its own digest only, and validators
      and reviewers who are neither the manager nor any worker ever assigned to the task. */
  lemma ReachableEvidence(mgr: Id, runs: seq<Run>, ops: seq<Op>, i: nat, a: Id)
    requires History(mgr, runs, ops) && i < |runs| && a in runs[i].accepted
    ensures LocallyAccepted(runs[i], a)
    ensures EvidenceComplete(mgr, Producer(runs[i], a), runs[i].artifacts[a])
  {
    var r := runs[i];
    HistoryKeeps(mgr, runs, ops, i);
    CanonicalIsListed(r, a);
    CanonicalUnfolds(r, a);
    assert ArtifactHome(r, a) && ArtifactOk(mgr, r, a);
  }

  ghost predicate HasFailure(r: Run, a: Id) {
    a in r.artifacts && exists v :: v in r.artifacts[a].validations && !v.passed
  }

  predicate EditsArtifacts(op: Op) {
    op.SubmitOp? || op.ValidateOp? || op.ReviewOp? || op.AcceptOp? || op.RecordIntegrationOp?
    || op.RecoverOp? || op.ApplyOp?
  }

  lemma TaskOpArtifacts(mgr: Id, r: Run, op: Op, r': Run)
    requires TaskOp(op) && Mutation(mgr, r, op) == Ok(r') && !EditsArtifacts(op)
    ensures r'.artifacts == r.artifacts
  {}

  predicate GateOp(op: Op) {
    op.RecoverLegacyGateOp? || op.GateTaskOp? || op.DecideApprovalOp? || op.RequestApprovalOp?
  }

  lemma GatingArtifacts(mgr: Id, r: Run, op: Op, r': Run)
    requires (op.RecoverLegacyGateOp? || op.GateTaskOp?) && Mutation(mgr, r, op) == Ok(r')
    ensures r'.artifacts == r.artifacts
  {}

  lemma GateOpArtifacts(mgr: Id, r: Run, op: Op, r': Run)
    requires GateOp(op) && Mutation(mgr, r, op) == Ok(r')
    ensures r'.artifacts == r.artifacts
  {
    if op.RecoverLegacyGateOp? || op.GateTaskOp? { GatingArtifacts(mgr, r, op, r'); }
  }

  lemma CapabilityOpArtifacts(mgr: Id, r: Run, op: Op, r': Run)
    requires (op.SetCapabilityOp? || op.ApplyEscalationOp?) && Mutation(mgr, r, op) == Ok(r')
    ensures r'.artifacts == r.artifacts
  {}

  lemma PlanOpArtifacts(mgr: Id, r: Run, op: Op, r': Run)
    requires op.RegisterInputOp? || op.BindWorkspaceOp? || op.ResumeOp? || op.SetCapabilityOp? || op.ApplyEscalationOp?
    requires Mutation(mgr, r, op) == Ok(r')
    ensures r'.artifacts == r.artifacts
  {
    if op.SetCapabilityOp? || op.ApplyEscalationOp? { CapabilityOpArtifacts(mgr, r, op, r'); }
  }

  lemma AddTasksArtifacts(r: Run, add: seq<Task>, r': Run)
    requires AddTasks(r, add) == Ok(r')
    ensures r'.artifacts == r.artifacts
  {
    AddEachKeepsArtifacts(r, add);
  }

  lemma ArtifactsUntouched(mgr: Id, r: Run, op: Op, r': Run)
    requires Mutation(mgr, r, op) == Ok(r') && !EditsArtifacts(op)
    ensures r'.artifacts == r.artifacts
  {
    if op.AddTasksOp? {
      AddTasksArtifacts(r, op.add, r');
    } else if SideOp(op) {
      SideOpFrame(mgr, r, op, r');
    } else if TaskOp(op) {
      TaskOpArtifacts(mgr, r, op, r');
    } else if GateOp(op) {
      GateOpArtifacts(mgr, r, op, r');
    } else {
      PlanOpArtifacts(mgr, r, op, r');
    }
  }

  /** What was submitted stays as it was, a recorded integration stays recorded, and validation
      and review records are only ever appended. */
  predicate ArtifactKept(x: Artifact, y: Artifact) {
    && y == x.(status := y.status, integrated := y.integrated, validations := y.validations, reviews := y.reviews)
    && (x.integrated.Some? ==> y.integrated == x.integrated)
    && x.validations <= y.validations && x.reviews <= y.reviews
  }

  ghost predicate ArtifactStays(r: Run, r': Run, a: Id) {
    a in r.artifacts ==> a in r'.artifacts && ArtifactKept(r.artifacts[a], r'.artifacts[a])
  }

  lemma ReplanKeepsArtifacts(r: Run, id: Id, r': Run, a: Id)
    requires R.Apply(r, id) == Ok(r')
    ensures ArtifactStays(r, r', a)
  {
    var p := r.replans[id];
    ReplanSteps.ReplannedOutcome(r, p);
    var next := R.Replanned(r, p, R.Affected(r, p)).(revision := r.revision + 1);
    if a in r.artifacts { assert ReplanSteps.ArtifactOutcome(r, next, R.Affected(r, p), a); }
  }

  lemma CandidateCheckArtifacts(r: Run, a: Id, f: Option<Id>)
    requires CandidateCheck(r, a, f).Ok?
    ensures CandidateCheck(r, a, f).value.artifacts == r.artifacts && a in r.artifacts
    ensures r.artifacts[a].taskId in CandidateCheck(r, a, f).value.tasks
  {}

  lemma ValidateKeepsArtifacts(mgr: Id, r: Run, c: Id, k: Id, p: bool, e: Id, v: Id, f: Option<Id>, a: Id)
    requires Validate(mgr, r, c, k, p, e, v, f).Ok?
    ensures ArtifactStays(r, Validate(mgr, r, c, k, p, e, v, f).value, a)
  {
    CandidateCheckArtifacts(r, c, f);
  }

  lemma ReviewKeepsArtifacts(mgr: Id, r: Run, c: Id, v: Id, p: bool, e: Id, f: Option<Id>, a: Id)
    requires Review(mgr, r, c, v, p, e, f).Ok?
    ensures ArtifactStays(r, Review(mgr, r, c, v, p, e, f).value, a)
  {
    CandidateCheckArtifacts(r, c, f);
  }

  lemma RecordIntegrationKeepsArtifacts(r: Run, c: Id, commit: Id, a: Id)
    requires RecordIntegration(r, c, commit).Ok?
    ensures ArtifactStays(r, RecordIntegration(r, c, commit).value, a)
  {}

  lemma AcceptCandidateArtifacts(mgr: Id, r: Run, c: Id, s: Id, a: Id)
    requires c in r.artifacts && r.artifacts[c].taskId in r.tasks && AcceptCandidate(mgr, r, c, s).Ok?
    ensures ArtifactStays(r, AcceptCandidate(mgr, r, c, s).value, a)
  {}

  lemma AcceptKeepsArtifacts(mgr: Id, r: Run, k: Id, c: Option<Id>, s: Id, f: Option<Id>, r': Run, a: Id)
    requires Accept(mgr, r, k, c, s, f) == Ok(r')
    ensures ArtifactStays(r, r', a)
  {
    var x := Last(r.tasks[k].artifactIds);
    CandidateCheckArtifacts(r, x, f);
    AcceptCandidateArtifacts(mgr, CandidateCheck(r, x, f).value, x, s, a);
  }

  lemma RecoverKeepsArtifacts(mgr: Id, r: Run, id: Id, s: Id, actor: Id, r': Run, a: Id)
    requires Recover(mgr, r, id, s, actor) == Ok(r')
    ensures ArtifactStays(r, r', a)
  {}

  lemma SubmitKeepsArtifacts(mgr: Id, r: Run, op: Op, r': Run, a: Id)
    requires op.SubmitOp? && Unused(r, op.id) && Mutation(mgr, r, op) == Ok(r')
    ensures ArtifactStays(r, r', a)
  {}

  lemma StepKeepsArtifacts(mgr: Id, r: Run, op: Op, r': Run, a: Id)
    requires Committed(mgr, r, op, r')
    ensures ArtifactStays(r, r', a)
  {
    if !EditsArtifacts(op) {
      ArtifactsUntouched(mgr, r, op, r');
    } else if op.SubmitOp? {
      SubmitKeepsArtifacts(mgr, r, op, r', a);
    } else if op.AcceptOp? {
      AcceptKeepsArtifacts(mgr, r, op.k, op.caller, op.reason, op.fingerprint, r', a);
    } else if op.RecoverOp? {
      RecoverKeepsArtifacts(mgr, r, op.failure, op.reason, op.actor, r', a);
    } else if op.ApplyOp? {
      ReplanKeepsArtifacts(r, op.proposal, r', a);
    } else if op.ValidateOp? {
      ValidateKeepsArtifacts(mgr, r, op.a, op.check, op.passed, op.evidence, op.judge, op.fingerprint, a);
    } else if op.ReviewOp? {
      ReviewKeepsArtifacts(mgr, r, op.a, op.judge, op.passed, op.evidence, op.fingerprint, a);
    } else {
      RecordIntegrationKeepsArtifacts(r, op.a, op.commit, a);
    }
  }

  lemma {:induction false} AddEachKeepsArtifacts(r: Run, add: seq<Task>)
    requires AddEach(r, add).Ok?
    ensures AddEach(r, add).value.artifacts == r.artifacts
    decreases |add|
  {
    if add != [] { AddEachKeepsArtifacts(Put(r, add[0].id, add[0]), add[1..]); }
  }

  /** A candidate with one recorded failure is accepted in no continuation. */
  lemma {:induction false} FailureIsFinal(mgr: Id, runs: seq<Run>, ops: seq<Op>, i: nat, j: nat, a: Id)
    requires History(mgr, runs, ops) && i <= j < |runs| && HasFailure(runs[i], a)
    ensures HasFailure(runs[j], a) && a !in runs[j].accepted
    decreases j
  {
    if i < j {
      FailureIsFinal(mgr, runs, ops, i, j - 1, a);
      StepKeepsArtifacts(mgr, runs[j - 1], ops[j - 1], runs[j], a);
      var v :| v in runs[j - 1].artifacts[a].validations && !v.passed;
      assert v in runs[j].artifacts[a].validations;
    }
    if a in runs[j].accepted { ReachableEvidence(mgr, runs, ops, j, a); }
  }

  // ---- budgets ----------------------------------------------------------------------------------------------

  /** Lifetime attempts never exceed max_attempts for each plan revision so far. */
  lemma LifetimeAttempts(mgr: Id, runs: seq<Run>, ops: seq<Op>, i: nat, k: Id)
    requires History(mgr, runs, ops) && i < |runs| && k in runs[i].tasks
    ensures runs[i].tasks[k].attempts <= runs[i].tasks[k].maxAttempts * (runs[i].revision + 1)
    ensures runs[i].revision <= runs[i].maxReplans
  {
    HistoryKeeps(mgr, runs, ops, i);
    var t := runs[i].tasks[k];
    assert TaskCore(runs[i], t);
    ReplanSteps.RebasedBudget(t.maxAttempts, runs[i].revision);
  }
}
