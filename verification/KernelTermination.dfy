/** Execution, recovery and replanning cannot go on for ever. */
module KernelTermination {
  import opened Base
  import opened RunModel
  import opened KernelOps
  import opened KernelInvariant
  import opened Kernel
  import KernelSteps
  import KernelTheorems
  import ReplanSteps
  import R = Replanning

  /** The steps that move work along: a first validation or review is one on a candidate
      whose review has not begun, and a resume counts when it interrupts something. */
  predicate Progress(r: Run, op: Op) {
    match op
    case DelegateOp(_, _, _) => true
    case StartOp(_) => true
    case SubmitOp(_, _, _, _, _, _, _) => true
    case AcceptOp(_, _, _, _) => true
    case FailOp(_, _, _, _) => true
    case FailAssignmentOp(_, _, _, _, _, _) => true
    case RecoverOp(_, _, _) => true
    case ApplyOp(_) => true
    case ValidateOp(a, _, _, _, _, _) => AwaitsReview(r, a)
    case ReviewOp(a, _, _, _, _) => AwaitsReview(r, a)
    case ResumeOp(_) => exists k :: k in r.tasks && Interruptible(r.tasks[k])
    case _ => false
  }

  predicate AwaitsReview(r: Run, a: Id) {
    a in r.artifacts && r.artifacts[a].taskId in r.tasks && r.tasks[r.artifacts[a].taskId].status.Submitted?
  }

  function Rank(s: Status): nat {
    match s
    case Delegated => 6
    case Running => 5
    case Submitted => 4
    case Reviewing => 3
    case Failed => 2
    case Planned | Ready | Blocked | RevisionRequired => 1
    case Accepted | Replaced | Cancelled => 0
  }

  function TaskAttemptsLeft(t: Task): nat {
    if t.attempts <= t.attemptBaseline + t.maxAttempts then t.attemptBaseline + t.maxAttempts - t.attempts else 0
  }

  function Ranks(r: Run): map<Id, nat> { map k | k in r.tasks :: Rank(r.tasks[k].status) }

  function Attempts(r: Run): map<Id, nat> { map k | k in r.tasks :: TaskAttemptsLeft(r.tasks[k]) }

  function ReplansLeft(r: Run): nat { if r.revision <= r.maxReplans then r.maxReplans - r.revision else 0 }

  ghost function AttemptsLeft(r: Run): nat { Sum(Attempts(r)) }

  ghost function RankSum(r: Run): nat { Sum(Ranks(r)) }

  ghost predicate Below(r': Run, r: Run) {
    || ReplansLeft(r') < ReplansLeft(r)
    || (ReplansLeft(r') == ReplansLeft(r) &&
        (|| AttemptsLeft(r') < AttemptsLeft(r)
         || (AttemptsLeft(r') == AttemptsLeft(r) && RankSum(r') < RankSum(r))))
  }

  /** Same counters everywhere, no rank up, and task k's rank down. */
  ghost predicate RanksFall(r: Run, r': Run, k: Id) {
    && r'.tasks.Keys == r.tasks.Keys && r'.revision == r.revision && r'.maxReplans == r.maxReplans
    && k in r.tasks && Rank(r'.tasks[k].status) < Rank(r.tasks[k].status)
    && forall j :: j in r.tasks ==> NoHigher(r.tasks[j], r'.tasks[j])
  }

  predicate NoHigher(t: Task, t': Task) {
    TaskAttemptsLeft(t') == TaskAttemptsLeft(t) && Rank(t'.status) <= Rank(t.status)
  }

  lemma FallingRanks(r: Run, r': Run, k: Id)
    requires RanksFall(r, r', k)
    ensures Below(r', r)
  {
    forall j | j in r.tasks
      ensures Attempts(r')[j] == Attempts(r)[j] && Ranks(r')[j] <= Ranks(r)[j]
    {
      assert NoHigher(r.tasks[j], r'.tasks[j]);
    }
    assert Attempts(r') == Attempts(r);
    assert Ranks(r')[k] < Ranks(r)[k];
    SumMonotone(Ranks(r'), Ranks(r));
  }

  lemma DelegateFalls(mgr: Id, r: Run, k: Id, w: Id, id: Id)
    requires Inv(mgr, r) && Delegate(mgr, r, k, w, id).Ok?
    ensures Below(Delegate(mgr, r, k, w, id).value, r)
  {
    var r' := Delegate(mgr, r, k, w, id).value;
    assert Attempts(r')[k] < Attempts(r)[k];
    SumMonotone(Attempts(r'), Attempts(r));
  }

  lemma ApplyFalls(mgr: Id, r: Run, id: Id)
    requires Inv(mgr, r) && R.Apply(r, id).Ok?
    ensures Below(R.Apply(r, id).value, r)
  {}

  lemma RefreshedNoHigher(r: Run, k: Id)
    requires k in r.tasks
    ensures NoHigher(r.tasks[k], Refresh(r).tasks[k])
  {}

  lemma CheckNoHigher(r: Run, a: Id, f: Option<Id>, j: Id)
    requires CandidateCheck(r, a, f).Ok? && j in r.tasks
    ensures var r' := CandidateCheck(r, a, f).value;
      && r'.tasks.Keys == r.tasks.Keys && NoHigher(r.tasks[j], r'.tasks[j])
      && r'.revision == r.revision && r'.maxReplans == r.maxReplans && a in r'.artifacts
  {}

  lemma AcceptingNoHigher(r: Run, k: Id, a: Id, j: Id)
    requires k in r.tasks && a in r.artifacts && j in r.tasks
    ensures var r' := KernelSteps.Accepting(r, k, a);
      && r'.tasks.Keys == r.tasks.Keys && NoHigher(r.tasks[j], r'.tasks[j])
      && r'.tasks[k].status.Accepted? && r'.revision == r.revision && r'.maxReplans == r.maxReplans
  {}

  lemma AcceptingFalls(r: Run, k: Id, a: Id, f: Option<Id>)
    requires CandidateCheck(r, a, f).Ok? && r.artifacts[a].taskId == k
    ensures Below(Refresh(KernelSteps.Accepting(CandidateCheck(r, a, f).value, k, a)), r)
  {
    var checked := CandidateCheck(r, a, f).value;
    CheckNoHigher(r, a, f, k);
    var r1 := KernelSteps.Accepting(checked, k, a);
    var r' := Refresh(r1);
    forall j | j in r.tasks ensures j in r'.tasks && NoHigher(r.tasks[j], r'.tasks[j]) {
      CheckNoHigher(r, a, f, j);
      AcceptingNoHigher(checked, k, a, j);
      RefreshedNoHigher(r1, j);
    }
    AcceptingNoHigher(checked, k, a, k);
    UnderReviewOutranksAccepted(r, a, f, r'.tasks[k], k);
    FallingRanks(r, r', k);
  }

  lemma AcceptFalls(mgr: Id, r: Run, k: Id, c: Option<Id>, s: Id, f: Option<Id>)
    requires Inv(mgr, r) && Accept(mgr, r, k, c, s, f).Ok?
    ensures Below(Accept(mgr, r, k, c, s, f).value, r)
  {
    KernelSteps.AcceptIsRefresh(mgr, r, k, c, s, f);
    AcceptingFalls(r, k, Last(r.tasks[k].artifactIds), f);
  }

  lemma UnderReviewOutranksAccepted(r: Run, a: Id, f: Option<Id>, t': Task, k: Id)
    requires CandidateCheck(r, a, f).Ok? && r.artifacts[a].taskId == k && t'.status.Accepted?
    ensures Rank(t'.status) < Rank(r.tasks[k].status)
  {}

  lemma ResumeFalls(r: Run, fs: seq<Failure>)
    ensures (exists k :: k in r.tasks && Interruptible(r.tasks[k])) <==> Below(Resume(r, fs).value, r)
    ensures !(exists k :: k in r.tasks && Interruptible(r.tasks[k])) ==> Resume(r, fs).value.tasks == r.tasks
  {
    var r' := Resume(r, fs).value;
    if k :| k in r.tasks && Interruptible(r.tasks[k]) {
      FallingRanks(r, r', k);
    } else {
      forall k | k in r.tasks ensures r'.tasks[k] == r.tasks[k] {
        assert !Interruptible(r.tasks[k]) && r'.tasks[k] == ResumeTask(r.tasks[k]);
      }
      assert r'.tasks == r.tasks;
    }
  }

  lemma RecoverFalls(mgr: Id, r: Run, id: Id, s: Id, actor: Id)
    requires Recover(mgr, r, id, s, actor).Ok?
    ensures Below(Recover(mgr, r, id, s, actor).value, r)
  {
    FallingRanks(r, Recover(mgr, r, id, s, actor).value, FindFailure(r.failures, id).value.taskId);
  }

  lemma JudgementFalls(mgr: Id, r: Run, op: Op, r': Run)
    requires op.ValidateOp? || op.ReviewOp?
    requires Progress(r, op) && Mutation(mgr, r, op) == Ok(r')
    ensures Below(r', r)
  {
    FallingRanks(r, r', r.artifacts[op.a].taskId);
  }

  lemma StartFalls(r: Run, k: Id)
    requires Start(r, k).Ok?
    ensures Below(Start(r, k).value, r)
  {
    FallingRanks(r, Start(r, k).value, k);
  }

  lemma SubmitFalls(r: Run, k: Id, a: Id, w: Id, c: bool, d: Id, f: Option<Id>, id: Id)
    requires Submit(r, k, a, w, c, d, f, id).Ok?
    ensures Below(Submit(r, k, a, w, c, d, f, id).value, r)
  {
    FallingRanks(r, Submit(r, k, a, w, c, d, f, id).value, k);
  }

  lemma FailFalls(r: Run, k: Id, c: FailureClass, e: Id, id: Id)
    requires FailTask(r, k, c, e, id).Ok?
    ensures Below(FailTask(r, k, c, e, id).value, r)
  {
    FallingRanks(r, FailTask(r, k, c, e, id).value, k);
  }

  lemma ExecutionFalls(mgr: Id, r: Run, op: Op, r': Run)
    requires op.StartOp? || op.SubmitOp? || op.FailOp? || op.FailAssignmentOp?
    requires Mutation(mgr, r, op) == Ok(r')
    ensures Below(r', r)
  {
    match op
    case StartOp(k) => StartFalls(r, k);
    case SubmitOp(k, a, w, c, d, f, id) => SubmitFalls(r, k, a, w, c, d, f, id);
    case FailOp(k, c, e, id) => FailFalls(r, k, c, e, id);
    case FailAssignmentOp(k, _, _, c, e, id) => FailFalls(r, k, c, e, id);
  }

  lemma WorkFalls(mgr: Id, r: Run, op: Op, r': Run)
    requires Inv(mgr, r) && Mutation(mgr, r, op) == Ok(r')
    requires op.DelegateOp? || op.AcceptOp? || op.RecoverOp?
    ensures Below(r', r)
  {
    match op
    case DelegateOp(k, w, id) => DelegateFalls(mgr, r, k, w, id);
    case AcceptOp(k, c, s, f) => AcceptFalls(mgr, r, k, c, s, f);
    case RecoverOp(f, s, a) => RecoverFalls(mgr, r, f, s, a);
  }

  lemma DecisionFalls(mgr: Id, r: Run, op: Op, r': Run)
    requires Inv(mgr, r) && Mutation(mgr, r, op) == Ok(r') && Progress(r, op)
    requires op.DelegateOp? || op.AcceptOp? || op.RecoverOp? || op.ApplyOp? || op.ResumeOp?
    ensures Below(r', r)
  {
    if op.ApplyOp? { ApplyFalls(mgr, r, op.proposal); }
    else if op.ResumeOp? { ResumeFalls(r, op.interrupted); }
    else { WorkFalls(mgr, r, op, r'); }
  }

  /** Each such step lowers (replans left, attempts left, status ranks) lexicographically. */
  lemma ProgressFalls(mgr: Id, r: Run, op: Op, r': Run)
    requires Inv(mgr, r) && Committed(mgr, r, op, r') && Progress(r, op)
    ensures Below(r', r)
  {
    if op.ValidateOp? || op.ReviewOp? {
      JudgementFalls(mgr, r, op, r');
    } else if op.StartOp? || op.SubmitOp? || op.FailOp? || op.FailAssignmentOp? {
      ExecutionFalls(mgr, r, op, r');
    } else {
      DecisionFalls(mgr, r, op, r');
    }
  }

  ghost predicate ProgressStep(mgr: Id, r: Run, op: Op, r': Run) {
    Committed(mgr, r, op, r') && Progress(r, op)
  }

  /** No endless sequence of such steps starts from a reachable run. */
  lemma ProgressEnds(mgr: Id, runs: seq<Run>, ops: seq<Op>, next: nat -> Run, step: nat -> Op)
    requires History(mgr, runs, ops) && next(0) == Last(runs)
    ensures exists n: nat :: !ProgressStep(mgr, next(n), step(n), next(n + 1))
  {
    KernelTheorems.HistoryKeeps(mgr, runs, ops, |runs| - 1);
    ProgressEndsFrom(mgr, next, step, 0);
  }

  lemma {:induction false} ProgressEndsFrom(mgr: Id, next: nat -> Run, step: nat -> Op, i: nat)
    requires Inv(mgr, next(i))
    ensures exists n: nat :: !ProgressStep(mgr, next(n), step(n), next(n + 1))
    decreases ReplansLeft(next(i)), AttemptsLeft(next(i)), RankSum(next(i))
  {
    if ProgressStep(mgr, next(i), step(i), next(i + 1)) {
      ProgressFalls(mgr, next(i), step(i), next(i + 1));
      KernelTheorems.StepKeeps(mgr, next(i), step(i), next(i + 1));
      ProgressEndsFrom(mgr, next, step, i + 1);
    }
  }
}
