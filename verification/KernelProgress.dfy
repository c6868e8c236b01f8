/** In an endless run only finitely many steps move work along. */
module KernelProgress {
  import opened Base
  import opened RunModel
  import opened KernelOps
  import opened KernelInvariant
  import opened Kernel
  import opened KernelTheorems
  import opened KernelTermination
  import KernelSteps
  import ReplanSteps
  import R = Replanning

  // ---- steps that move no work ---------------------------------------------------------------------------

  predicate Waiting(s: Status) { s.Planned? || s.Ready? || s.Blocked? }

  /** The budgets stay, and so does the status unless the task waits before and after. */
  predicate Calm(t: Task, t': Task) {
    && t'.attempts == t.attempts && t'.attemptBaseline == t.attemptBaseline && t'.maxAttempts == t.maxAttempts
    && (t'.status == t.status || (Waiting(t.status) && Waiting(t'.status)))
  }

  ghost predicate CalmRun(r: Run, r': Run) {
    && r'.tasks.Keys == r.tasks.Keys && r'.revision == r.revision && r'.maxReplans == r.maxReplans
    && forall k :: k in r.tasks ==> Calm(r.tasks[k], r'.tasks[k])
  }

  lemma CalmRefresh(r: Run, r1: Run)
    requires CalmRun(r, r1)
    ensures CalmRun(r, Refresh(r1))
  {
    forall k | k in r.tasks ensures Calm(r.tasks[k], Refresh(r1).tasks[k]) {
      assert Refresh(r1).tasks[k] == RefreshTask(r1, r1.tasks[k]);
    }
  }

  lemma CalmEdit(r: Run, r1: Run, k: Id, t: Task)
    requires k in r.tasks && r1.tasks == r.tasks[k := t] && Calm(r.tasks[k], t)
    requires r1.revision == r.revision && r1.maxReplans == r.maxReplans
    ensures CalmRun(r, r1) && CalmRun(r, Refresh(r1))
  {
    CalmRefresh(r, r1);
  }

  lemma SideOpIsCalm(mgr: Id, r: Run, op: Op, r': Run)
    requires SideOp(op) && Mutation(mgr, r, op) == Ok(r')
    ensures CalmRun(r, r')
  {
    SideOpFrame(mgr, r, op, r');
  }

  predicate AnswerOp(op: Op) {
    op.ReplaceWorkspaceOp? || op.ProvisionalOp? || op.RequestCapabilityOp? || op.RecordIntegrationOp?
  }

  lemma AnswerIsCalm(mgr: Id, r: Run, op: Op, r': Run)
    requires AnswerOp(op) && Mutation(mgr, r, op) == Ok(r')
    ensures CalmRun(r, r')
  {}

  lemma JudgementIsCalm(mgr: Id, r: Run, op: Op, r': Run)
    requires (op.ValidateOp? || op.ReviewOp?) && !AwaitsReview(r, op.a) && Mutation(mgr, r, op) == Ok(r')
    ensures CalmRun(r, r')
  {}

  lemma InputIsCalm(r: Run, name: Id, reference: Id)
    requires RegisterInput(r, name, reference).Ok?
    ensures CalmRun(r, RegisterInput(r, name, reference).value)
  {
    CalmRefresh(r, r.(inputs := r.inputs[name := reference]));
  }

  lemma BindIsCalm(r: Run, k: Id, w: Id)
    requires BindWorkspace(r, k, w).Ok?
    ensures CalmRun(r, BindWorkspace(r, k, w).value)
  {
    var t := r.tasks[k].(workspace := Some(w));
    CalmEdit(r, Put(r, k, t), k, t);
  }

  lemma IdleResumeIsCalm(r: Run, fs: seq<Failure>)
    requires !exists k :: k in r.tasks && Interruptible(r.tasks[k])
    ensures CalmRun(r, Resume(r, fs).value)
  {
    ResumeFalls(r, fs);
  }

  lemma LegacyGateIsCalm(r: Run, k: Id, legacy: Id, id: Id, action: Action, scope: Scope)
    requires RecoverLegacyGate(r, k, legacy, id, action, scope).Ok?
    ensures CalmRun(r, RecoverLegacyGate(r, k, legacy, id, action, scope).value)
  {
    var t := Regated(r.tasks[k], legacy, Gate(id, action, scope), r.approvals[id].status);
    CalmEdit(r, Put(r, k, t), k, t);
  }

  lemma GateIsCalm(r: Run, k: Id, id: Id, action: Action, scope: Scope)
    requires GateTask(r, k, id, action, scope).Ok?
    ensures CalmRun(r, GateTask(r, k, id, action, scope).value)
  {
    var t := Gated(r.tasks[k], Gate(id, action, scope), r.approvals[id].status);
    CalmEdit(r, Put(r, k, t), k, t);
  }

  lemma RequestIsCalm(r: Run, id: Id, action: Action, scope: Scope, reason: Id, required: bool, prior: Option<Id>)
    requires RequestApproval(r, id, action, scope, reason, required, prior).Ok?
    ensures CalmRun(r, RequestApproval(r, id, action, scope, reason, required, prior).value)
  {}

  lemma DecisionIsCalm(r: Run, id: Id, approved: bool, human: Id, reason: Id)
    requires DecideApproval(r, id, approved, human, reason).Ok?
    ensures CalmRun(r, DecideApproval(r, id, approved, human, reason).value)
  {
    var status := if approved then ApprovalGranted else ApprovalStatus.ApprovalRejected;
    var r1 := r.(decisions := r.decisions[id := approved],
                 approvals := r.approvals[id := r.approvals[id].(status := status)],
                 tasks := map k | k in r.tasks :: DecideInTask(r.tasks[k], id, approved));
    forall k | k in r.tasks ensures Calm(r.tasks[k], r1.tasks[k]) {
      assert r1.tasks[k] == DecideInTask(r.tasks[k], id, approved);
    }
    CalmRefresh(r, r1);
  }

  lemma EscalationIsCalm(mgr: Id, r: Run, q: Id, caller: Option<Id>)
    requires ApplyEscalation(mgr, r, q, caller).Ok?
    ensures CalmRun(r, ApplyEscalation(mgr, r, q, caller).value)
  {
    var req := r.requests[q];
    if !req.status.RequestEscalated? {
      var t := EscalatedTask(r.tasks[req.taskId], req);
      CalmEdit(r, Put(r, req.taskId, t).(requests := r.requests[q := req.(status := RequestEscalated)]), req.taskId, t);
    }
  }

  lemma ChangeIsCalm(r: Run, k: Id, c: Capability, w: Option<Id>)
    requires k in r.tasks
    ensures Calm(r.tasks[k], ChangedTask(r, k, c, w))
  {}

  lemma CapabilityIsCalm(r: Run, k: Id, c: Capability, a: Id, w: Option<Id>)
    requires SetCapability(r, k, c, a, w).Ok?
    ensures CalmRun(r, SetCapability(r, k, c, a, w).value)
  {
    var t := ChangedTask(r, k, c, w);
    ChangeIsCalm(r, k, c, w);
    CalmEdit(r, Put(r, k, t), k, t);
  }

  lemma ApprovalStepIsCalm(mgr: Id, r: Run, op: Op, r': Run)
    requires (op.RequestApprovalOp? || op.DecideApprovalOp?) && Mutation(mgr, r, op) == Ok(r')
    ensures CalmRun(r, r')
  {
    match op
    case RequestApprovalOp(id, a, s, t, q, p) => RequestIsCalm(r, id, a, s, t, q, p);
    case DecideApprovalOp(id, a, h, s) => DecisionIsCalm(r, id, a, h, s);
  }

  lemma CapabilityStepIsCalm(mgr: Id, r: Run, op: Op, r': Run)
    requires (op.ApplyEscalationOp? || op.SetCapabilityOp?) && Mutation(mgr, r, op) == Ok(r')
    ensures CalmRun(r, r')
  {
    match op
    case ApplyEscalationOp(q, c) => EscalationIsCalm(mgr, r, q, c);
    case SetCapabilityOp(k, c, id, w) => CapabilityIsCalm(r, k, c, id, w);
  }

  lemma GateStepIsCalm(mgr: Id, r: Run, op: Op, r': Run)
    requires (op.RecoverLegacyGateOp? || op.GateTaskOp?) && Mutation(mgr, r, op) == Ok(r')
    ensures CalmRun(r, r')
  {
    match op
    case RecoverLegacyGateOp(k, l, id, a, s) => LegacyGateIsCalm(r, k, l, id, a, s);
    case GateTaskOp(k, id, a, s) => GateIsCalm(r, k, id, a, s);
  }

  /** Every operation that is no progress, other than adding tasks, is calm. */
  lemma OtherStepsAreCalm(mgr: Id, r: Run, op: Op, r': Run)
    requires Mutation(mgr, r, op) == Ok(r') && !Progress(r, op) && !op.AddTasksOp?
    ensures CalmRun(r, r')
  {
    if SideOp(op) { SideOpIsCalm(mgr, r, op, r'); }
    else if AnswerOp(op) { AnswerIsCalm(mgr, r, op, r'); }
    else if op.ValidateOp? || op.ReviewOp? { JudgementIsCalm(mgr, r, op, r'); }
    else if op.RegisterInputOp? { InputIsCalm(r, op.name, op.reference); }
    else if op.BindWorkspaceOp? { BindIsCalm(r, op.k, op.workspace); }
    else if op.ResumeOp? { IdleResumeIsCalm(r, op.interrupted); }
    else if op.RequestApprovalOp? || op.DecideApprovalOp? { ApprovalStepIsCalm(mgr, r, op, r'); }
    else if op.ApplyEscalationOp? || op.SetCapabilityOp? { CapabilityStepIsCalm(mgr, r, op, r'); }
    else { GateStepIsCalm(mgr, r, op, r'); }
  }

  lemma CalmIsNotAbove(r: Run, r': Run)
    requires CalmRun(r, r')
    ensures !Below(r, r')
  {
    forall k | k in r.tasks ensures Attempts(r')[k] == Attempts(r)[k] && Ranks(r')[k] <= Ranks(r)[k] {
      assert Calm(r.tasks[k], r'.tasks[k]);
    }
    assert Attempts(r') == Attempts(r);
    SumMonotone(Ranks(r'), Ranks(r));
  }

  // ---- adding tasks ends when work begins ---------------------------------------------------------------

  /** A task nobody was ever assigned to waits or is cancelled. */
  predicate Untried(t: Task) { t.attempts == 0 ==> Waiting(t.status) || t.status.Cancelled? }

  ghost predicate AllUntried(r: Run) { forall k :: k in r.tasks ==> Untried(r.tasks[k]) }

  /** `add_tasks` is refused from here on. */
  predicate Closed(r: Run) { r.revision != 0 || ExecutionBegan(r) }

  lemma UntriedRefresh(r: Run)
    requires AllUntried(r)
    ensures AllUntried(Refresh(r))
  {
    forall k | k in r.tasks ensures Untried(Refresh(r).tasks[k]) {
      assert Refresh(r).tasks[k] == RefreshTask(r, r.tasks[k]) && Untried(r.tasks[k]);
    }
  }

  lemma {:induction false} UntriedAdds(r: Run, add: seq<Task>)
    requires AllUntried(r) && AddEach(r, add).Ok?
    ensures AllUntried(AddEach(r, add).value)
    decreases |add|
  {
    if add != [] { UntriedAdds(Put(r, add[0].id, add[0]), add[1..]); }
  }

  lemma UntriedCalm(r: Run, r': Run)
    requires AllUntried(r) && CalmRun(r, r')
    ensures AllUntried(r')
  {
    forall k | k in r'.tasks ensures Untried(r'.tasks[k]) {
      assert Untried(r.tasks[k]) && Calm(r.tasks[k], r'.tasks[k]);
    }
  }

  /** One task was tried, and the others are as they were. */
  ghost predicate OneTried(r: Run, r': Run, k: Id) {
    && k in r.tasks && k in r'.tasks && r'.tasks == r.tasks[k := r'.tasks[k]] && r'.tasks[k].attempts != 0
  }

  lemma OneTriedUntried(r: Run, r': Run, k: Id)
    requires AllUntried(r) && OneTried(r, r', k)
    ensures AllUntried(r') && Closed(r')
  {}

  lemma ExecutionTries(mgr: Id, r: Run, op: Op, r': Run)
    requires AllUntried(r) && Mutation(mgr, r, op) == Ok(r')
    requires op.DelegateOp? || op.StartOp? || op.SubmitOp? || op.FailOp? || op.FailAssignmentOp?
    ensures AllUntried(r') && Closed(r')
  {
    assert Untried(r.tasks[op.k]);
    OneTriedUntried(r, r', op.k);
  }

  lemma RecoveryTries(mgr: Id, r: Run, id: Id, s: Id, actor: Id)
    requires AllUntried(r) && Recover(mgr, r, id, s, actor).Ok?
    ensures AllUntried(Recover(mgr, r, id, s, actor).value) && Closed(Recover(mgr, r, id, s, actor).value)
  {
    var k := FindFailure(r.failures, id).value.taskId;
    assert Untried(r.tasks[k]);
    OneTriedUntried(r, Recover(mgr, r, id, s, actor).value, k);
  }

  lemma CheckTries(r: Run, a: Id, f: Option<Id>)
    requires AllUntried(r) && CandidateCheck(r, a, f).Ok?
    ensures var r' := CandidateCheck(r, a, f).value;
      && a in r'.artifacts && r'.artifacts[a].taskId in r'.tasks && r'.tasks[r'.artifacts[a].taskId].attempts != 0
      && AllUntried(r') && Closed(r')
  {
    var k := r.artifacts[a].taskId;
    assert Untried(r.tasks[k]);
    OneTriedUntried(r, CandidateCheck(r, a, f).value, k);
  }

  lemma JudgementTries(mgr: Id, r: Run, op: Op, r': Run)
    requires AllUntried(r) && (op.ValidateOp? || op.ReviewOp?) && Mutation(mgr, r, op) == Ok(r')
    ensures AllUntried(r') && Closed(r')
  {
    CheckTries(r, op.a, op.fingerprint);
    assert r'.tasks == CandidateCheck(r, op.a, op.fingerprint).value.tasks;
  }

  lemma RefreshedIsClosed(r: Run, k: Id)
    requires k in r.tasks && r.tasks[k].attempts != 0
    ensures Closed(Refresh(r))
  {
    assert Refresh(r).tasks[k].attempts == r.tasks[k].attempts;
  }

  lemma AcceptanceTries(mgr: Id, r: Run, k: Id, c: Option<Id>, s: Id, f: Option<Id>)
    requires Inv(mgr, r) && AllUntried(r) && Accept(mgr, r, k, c, s, f).Ok?
    ensures AllUntried(Accept(mgr, r, k, c, s, f).value) && Closed(Accept(mgr, r, k, c, s, f).value)
  {
    var a := Last(r.tasks[k].artifactIds);
    CheckTries(r, a, f);
    KernelSteps.AcceptIsRefresh(mgr, r, k, c, s, f);
    var checked := CandidateCheck(r, a, f).value;
    var r1 := KernelSteps.Accepting(checked, k, a);
    OneTriedUntried(checked, r1, k);
    UntriedRefresh(r1);
    RefreshedIsClosed(r1, k);
  }

  lemma ResumptionTries(r: Run, fs: seq<Failure>, k: Id)
    requires AllUntried(r) && k in r.tasks && Interruptible(r.tasks[k])
    ensures AllUntried(Resume(r, fs).value) && Closed(Resume(r, fs).value)
  {
    var r' := Resume(r, fs).value;
    forall j | j in r'.tasks ensures Untried(r'.tasks[j]) {
      assert Untried(r.tasks[j]) && r'.tasks[j] == ResumeTask(r.tasks[j]);
    }
    assert Untried(r.tasks[k]) && r'.tasks[k] == ResumeTask(r.tasks[k]);
  }

  lemma ReplanTries(r: Run, id: Id, r': Run)
    requires AllUntried(r) && R.Apply(r, id) == Ok(r')
    ensures AllUntried(r') && Closed(r')
  {
    var p := r.replans[id];
    ReplanSteps.ApplyIsRefresh(r, id);
    ReplanSteps.ReplannedOutcome(r, p);
    var s := R.Affected(r, p);
    var r1 := R.Replanned(r, p, s).(revision := r.revision + 1);
    forall k | k in r1.tasks ensures Untried(r1.tasks[k]) {
      if k in r.tasks { assert ReplanSteps.TaskOutcome(r, r1, s, k) && Untried(r.tasks[k]); }
      else { assert ReplanSteps.Introduced(r, k, r1.tasks[k]); }
    }
    UntriedRefresh(r1);
  }

  /** A step that moves work starts from tried tasks or makes one, or applies a replan. */
  lemma ProgressCloses(mgr: Id, r: Run, op: Op, r': Run)
    requires Inv(mgr, r) && AllUntried(r) && Mutation(mgr, r, op) == Ok(r') && Progress(r, op)
    ensures AllUntried(r') && Closed(r')
  {
    if op.RecoverOp? {
      RecoveryTries(mgr, r, op.failure, op.reason, op.actor);
    } else if op.AcceptOp? {
      AcceptanceTries(mgr, r, op.k, op.caller, op.reason, op.fingerprint);
    } else if op.ResumeOp? {
      var k :| k in r.tasks && Interruptible(r.tasks[k]);
      ResumptionTries(r, op.interrupted, k);
    } else if op.ApplyOp? {
      ReplanTries(r, op.proposal, r');
    } else if op.ValidateOp? || op.ReviewOp? {
      JudgementTries(mgr, r, op, r');
    } else {
      ExecutionTries(mgr, r, op, r');
    }
  }

  lemma AddingKeepsUntried(r: Run, add: seq<Task>, r': Run)
    requires AllUntried(r) && AddTasks(r, add) == Ok(r')
    ensures AllUntried(r') && !Closed(r)
  {
    UntriedAdds(r, add);
    UntriedRefresh(AddEach(r, add).value);
  }

  lemma StepKeepsUntried(mgr: Id, r: Run, op: Op, r': Run)
    requires Inv(mgr, r) && AllUntried(r) && Committed(mgr, r, op, r')
    ensures AllUntried(r')
  {
    if Progress(r, op) { ProgressCloses(mgr, r, op, r'); }
    else if op.AddTasksOp? { AddingKeepsUntried(r, op.add, r'); }
    else {
      OtherStepsAreCalm(mgr, r, op, r');
      UntriedCalm(r, r');
    }
  }

  /** In every reachable run a task that was never assigned waits or is cancelled. */
  lemma {:induction false} ReachableUntried(mgr: Id, runs: seq<Run>, ops: seq<Op>, i: nat)
    requires History(mgr, runs, ops) && i < |runs|
    ensures AllUntried(runs[i])
  {
    if i > 0 {
      ReachableUntried(mgr, runs, ops, i - 1);
      HistoryKeeps(mgr, runs, ops, i - 1);
      StepKeepsUntried(mgr, runs[i - 1], ops[i - 1], runs[i]);
    }
  }

  lemma StaysClosed(mgr: Id, r: Run, op: Op, r': Run)
    requires Inv(mgr, r) && AllUntried(r) && Committed(mgr, r, op, r') && Closed(r)
    ensures Closed(r') && (Progress(r, op) ==> Below(r', r)) && !Below(r, r')
  {
    if Progress(r, op) {
      ProgressCloses(mgr, r, op, r');
      ProgressFalls(mgr, r, op, r');
    } else {
      if op.AddTasksOp? { AddingKeepsUntried(r, op.add, r'); }
      OtherStepsAreCalm(mgr, r, op, r');
      CalmIsNotAbove(r, r');
      if k :| k in r.tasks && r.tasks[k].attempts != 0 { assert Calm(r.tasks[k], r'.tasks[k]); }
    }
  }

  // ---- endless runs ----------------------------------------------------------------------------------------

  /** An endless run of committed steps of any kind. */
  ghost predicate Endless(mgr: Id, next: nat -> Run, step: nat -> Op) {
    forall n: nat :: StepAt(mgr, next, step, n)
  }

  ghost predicate StepAt(mgr: Id, next: nat -> Run, step: nat -> Op, n: nat) {
    Committed(mgr, next(n), step(n), next(n + 1))
  }

  ghost predicate MovesAt(next: nat -> Run, step: nat -> Op, n: nat) { Progress(next(n), step(n)) }

  lemma {:induction false} EndlessKeeps(mgr: Id, next: nat -> Run, step: nat -> Op, n: nat)
    requires Endless(mgr, next, step) && Inv(mgr, next(0)) && AllUntried(next(0))
    ensures Inv(mgr, next(n)) && AllUntried(next(n))
  {
    if n > 0 {
      EndlessKeeps(mgr, next, step, n - 1);
      assert StepAt(mgr, next, step, n - 1);
      StepKeeps(mgr, next(n - 1), step(n - 1), next(n));
      StepKeepsUntried(mgr, next(n - 1), step(n - 1), next(n));
    }
  }

  lemma ClosedStep(mgr: Id, next: nat -> Run, step: nat -> Op, n: nat)
    requires Endless(mgr, next, step) && Inv(mgr, next(0)) && AllUntried(next(0)) && Closed(next(n))
    ensures Closed(next(n + 1)) && !Below(next(n), next(n + 1))
    ensures MovesAt(next, step, n) ==> Below(next(n + 1), next(n))
  {
    EndlessKeeps(mgr, next, step, n);
    assert StepAt(mgr, next, step, n);
    StaysClosed(mgr, next(n), step(n), next(n + 1));
  }

  lemma {:induction false} ClosedFrom(mgr: Id, next: nat -> Run, step: nat -> Op, i: nat, n: nat)
    requires Endless(mgr, next, step) && Inv(mgr, next(0)) && AllUntried(next(0)) && i <= n && Closed(next(i))
    ensures Closed(next(n))
    decreases n
  {
    if i < n {
      ClosedFrom(mgr, next, step, i, n - 1);
      ClosedStep(mgr, next, step, n - 1);
    }
  }

  lemma NotBelowChains(a: Run, b: Run, c: Run)
    requires !Below(a, b) && !Below(b, c)
    ensures !Below(a, c)
  {}

  lemma {:induction false} NotBelowAlong(next: nat -> Run, i: nat, n: nat)
    requires i <= n && forall m: nat :: i <= m < n ==> !Below(next(m), next(m + 1))
    ensures !Below(next(i), next(n))
    decreases n
  {
    if i < n {
      NotBelowAlong(next, i, n - 1);
      assert !Below(next(n - 1), next(n - 1 + 1));
      NotBelowChains(next(i), next(n - 1), next(n));
    }
  }

  /** Once closed, the measure never rises. */
  lemma NeverRises(mgr: Id, next: nat -> Run, step: nat -> Op, i: nat, n: nat)
    requires Endless(mgr, next, step) && Inv(mgr, next(0)) && AllUntried(next(0)) && i <= n && Closed(next(i))
    ensures Closed(next(n)) && !Below(next(i), next(n))
  {
    ClosedFrom(mgr, next, step, i, n);
    forall m: nat | i <= m < n ensures !Below(next(m), next(m + 1)) {
      ClosedFrom(mgr, next, step, i, m);
      ClosedStep(mgr, next, step, m);
    }
    NotBelowAlong(next, i, n);
  }

  lemma {:induction false} LastMove(mgr: Id, next: nat -> Run, step: nat -> Op, i: nat) returns (n: nat)
    requires Endless(mgr, next, step) && Inv(mgr, next(0)) && AllUntried(next(0)) && Closed(next(i))
    ensures forall m: nat :: n <= m ==> !MovesAt(next, step, m)
    decreases ReplansLeft(next(i)), AttemptsLeft(next(i)), RankSum(next(i))
  {
    if m: nat :| i <= m && MovesAt(next, step, m) {
      NeverRises(mgr, next, step, i, m);
      ClosedStep(mgr, next, step, m);
      n := LastMove(mgr, next, step, m + 1);
    } else {
      n := i;
    }
  }

  /** However a reachable run goes on, and whatever else is interleaved, from some point on no step
      moves work any more: an endless run cannot delegate, start, submit, judge for the first time,
      accept, fail, interrupt, recover or replan for ever. */
  lemma ProgressIsFinite(mgr: Id, runs: seq<Run>, ops: seq<Op>, next: nat -> Run, step: nat -> Op) returns (n: nat)
    requires History(mgr, runs, ops) && next(0) == Last(runs) && Endless(mgr, next, step)
    ensures forall m: nat :: n <= m ==> !Progress(next(m), step(m))
  {
    HistoryKeeps(mgr, runs, ops, |runs| - 1);
    ReachableUntried(mgr, runs, ops, |runs| - 1);
    if i: nat :| Closed(next(i)) {
      n := LastMove(mgr, next, step, i);
      forall m: nat | n <= m ensures !Progress(next(m), step(m)) { assert !MovesAt(next, step, m); }
    } else {
      n := 0;
      forall m: nat ensures !Progress(next(m), step(m)) {
        EndlessKeeps(mgr, next, step, m);
        assert StepAt(mgr, next, step, m) && !Closed(next(m + 1));
        if Progress(next(m), step(m)) { ProgressCloses(mgr, next(m), step(m), next(m + 1)); }
      }
    }
  }
}
