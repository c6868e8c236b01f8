/** What holds of every interleaving of accept and integrate with everything else. */
module IntegrationTheorems {
  import opened Base
  import opened Workspaces
  import opened Integration

  predicate FileOp(op: Op) { op.CreateOp? || op.WriteOp? || op.DeleteOp? || op.ReviewerOp? || op.FreezeOp? }

  predicate RunOp(op: Op) {
    op.NewRunOp? || op.RivalOp? || op.FinishOp? || op.GiveUpOp? || op.CompleteOp? || op.AbandonOp?
  }

  lemma FileStepKeeps(w: World, op: Op, w': World)
    requires Inv(w) && Steps(w, op, w') && FileOp(op)
    ensures Inv(w')
  {
    match op
    case CreateOp(c, g, worker) => CreateKeeps(w, c, g, worker);
    case WriteOp(g, path, content) =>
      if Writable(w.repo, g) {
        EditKeeps(w, g, w.repo.candidates[w.repo.grants[g].candidate].files[path := content]);
      }
    case DeleteOp(g, path) =>
      if Writable(w.repo, g) { EditKeeps(w, g, w.repo.candidates[w.repo.grants[g].candidate].files - {path}); }
    case ReviewerOp(g, worker, id) => ReviewerKeeps(w, g, worker, id);
    case FreezeOp(g) => if g in w.repo.grants { FreezeKeeps(w, g); }
  }

  /** Such a step changes the runs alone, and no status without the version. */
  lemma RunStepMoves(w: World, op: Op, w': World)
    requires Steps(w, op, w') && RunOp(op)
    ensures RunsMove(w, w')
  {}

  lemma OutsideKeepsProtocol(w: World, op: Op, w': World)
    requires Steps(w, op, w') && (FileOp(op) || RunOp(op))
    ensures w'.works == w.works && w'.pc == w.pc && w'.log == w.log && w'.crashed == w.crashed
    ensures w'.orphaned == w.orphaned && w'.repo.start == w.repo.start
  {}

  lemma ProtocolStepKeeps(w: World, op: Op, w': World)
    requires Inv(w) && Steps(w, op, w') && !FileOp(op) && !RunOp(op)
    ensures Inv(w')
  {
    match op
    case SubmitOp(g, a, r) => SubmitKeeps(w, g, a, r);
    case RetireOp(a) => RetireKeeps(w, a);
    case BeginOp(a, failed) => BeginKeeps(w, a, failed);
    case AcceptOp(granted) => AcceptKeeps(w, granted);
    case CommitOp(id) => CommitKeeps(w, id);
    case MoveOp => MoveKeeps(w);
    case LoadOp => LoadKeeps(w);
    case SaveOp => SaveKeeps(w);
    case CrashOp => CrashKeeps(w);
  }

  lemma StepKeeps(w: World, op: Op, w': World)
    requires Inv(w) && Steps(w, op, w')
    ensures Inv(w')
  {
    if FileOp(op) {
      FileStepKeeps(w, op, w');
    } else if RunOp(op) {
      RunStepMoves(w, op, w');
      RunsKeep(w, w');
    } else {
      ProtocolStepKeeps(w, op, w');
    }
  }

  lemma {:induction false} HistoryKeeps(worlds: seq<World>, ops: seq<Op>, i: nat)
    requires History(worlds, ops) && i < |worlds|
    ensures Inv(worlds[i])
  {
    if i > 0 {
      HistoryKeeps(worlds, ops, i - 1);
      StepKeeps(worlds[i - 1], ops[i - 1], worlds[i]);
    }
  }

  // ---- the theorems ------------------------------------------------------------------------------------

  /** `git merge-base --is-ancestor`: following parents from `from` for some steps meets `c`. */
  ghost predicate ReachesIn(r: Repo, from: CommitId, c: CommitId, n: nat)
    decreases n
  {
    if n == 0 then from == c
    else from in r.commits && r.commits[from].parent.Some? && ReachesIn(r, r.commits[from].parent.value, c, n - 1)
  }

  ghost predicate IsAncestor(r: Repo, c: CommitId, head: CommitId) { exists n: nat :: ReachesIn(r, head, c, n) }

  lemma {:induction false} LogReaches(w: World, i: nat, j: nat)
    requires Inv(w) && i <= j < |w.log|
    ensures ReachesIn(w.repo, w.log[j], w.log[i], j - i)
    decreases j
  {
    if i < j { LogReaches(w, i, j - 1); }
  }

  /** In every interleaving the branch is a chain of single-parent commits that starts at the
      repository's HEAD, and each commit after the start holds exactly the tree, on exactly the
      base, of the fingerprint of some candidate the kernel accepted. */
  lemma BranchIsAcceptedChain(worlds: seq<World>, ops: seq<Op>, i: nat)
    requires History(worlds, ops) && i < |worlds|
    ensures var w := worlds[i];
      && w.log != [] && LogOk(w.repo, w.log)
      && (forall j :: 0 < j < |w.log| ==> Explained(w, j))
      && (forall j :: 0 <= j < |w.log| ==> IsAncestor(w.repo, w.log[j], HeadOf(w.repo)))
  {
    HistoryKeeps(worlds, ops, i);
    var w := worlds[i];
    forall j | 0 <= j < |w.log| ensures IsAncestor(w.repo, w.log[j], HeadOf(w.repo)) {
      LogReaches(w, j, |w.log| - 1);
    }
  }

  /** Every recorded integration is an ancestor of the head and holds what was accepted. */
  lemma RecordedCommitsAreOnBranch(worlds: seq<World>, ops: seq<Op>, i: nat, a: Id)
    requires History(worlds, ops) && i < |worlds| && a in worlds[i].works && worlds[i].works[a].integrated.Some?
    ensures var w, x := worlds[i], worlds[i].works[a];
      && x.accepted && IsAncestor(w.repo, x.integrated.value, HeadOf(w.repo))
      && CommitOf(w, x.integrated.value, x.fingerprint)
  {
    HistoryKeeps(worlds, ops, i);
    var w := worlds[i];
    assert WorkOk(w, a);
    var j :| 0 <= j < |w.log| && w.log[j] == w.works[a].integrated.value;
    LogReaches(w, j, |w.log| - 1);
  }

  /** A submitted candidate never changes again, so acceptance and integration see the bytes that
      were fingerprinted. */
  lemma SubmittedCandidatesAreSealed(worlds: seq<World>, ops: seq<Op>, i: nat, a: Id)
    requires History(worlds, ops) && i < |worlds| && a in worlds[i].works
    ensures Sealed(worlds[i].repo, worlds[i].works[a].workspace, worlds[i].works[a].fingerprint)
  {
    HistoryKeeps(worlds, ops, i);
    assert WorkOk(worlds[i], a);
  }

  /** Once the kernel has accepted a candidate that is not integrated yet, `integrate` succeeds exactly
      when the candidate changed something and the branch still ends at its base; unless an earlier
      call for it was cut short or went unrecorded, a changed one is never refused as stale. */
  lemma ChangedCandidateIntegrates(worlds: seq<World>, ops: seq<Op>, i: nat, id: CommitId)
    requires History(worlds, ops) && i < |worlds| && id !in worlds[i].repo.commits
    requires worlds[i].pc.ToIntegrate? && worlds[i].pc.a in worlds[i].works
    requires worlds[i].works[worlds[i].pc.a].integrated.None?
    ensures Linked(worlds[i].repo)
    ensures var w := worlds[i];
      var x := w.works[w.pc.a];
      var r := Integrated(w.repo, x.workspace, x.fingerprint, id).1;
      && x.fingerprint.base in w.repo.commits
      && var changed := x.fingerprint.files != w.repo.commits[x.fingerprint.base].tree;
         && (r.Ok? <==> changed && x.fingerprint.base == HeadOf(w.repo))
         && (w.pc.a !in w.crashed + w.orphaned ==> (r.Ok? <==> changed))
         && (r.Err? ==> r == Err(NoChanges) || r == Err(IntegrationStale))
  {
    HistoryKeeps(worlds, ops, i);
    var w := worlds[i];
    AttemptOutcome(w, id);
    assert WorkOk(w, w.pc.a);
    assert CandidateOk(w, w.repo.grants[w.works[w.pc.a].workspace].candidate);
  }

  lemma {:induction false} OrphansStay(worlds: seq<World>, ops: seq<Op>, i: nat, j: nat, a: Id)
    requires History(worlds, ops) && i <= j < |worlds| && a in worlds[i].orphaned
    ensures a in worlds[j].orphaned
    decreases j
  {
    if i < j {
      OrphansStay(worlds, ops, i, j - 1, a);
      assert Steps(worlds[j - 1], ops[j - 1], worlds[j]);
    }
  }

  /** An orphan is stuck for ever: in no continuation is it recorded, and every further attempt to
      integrate it is refused as stale. */
  lemma OrphansAreStuck(worlds: seq<World>, ops: seq<Op>, i: nat, j: nat, a: Id, id: CommitId)
    requires History(worlds, ops) && i <= j < |worlds| && a in worlds[i].orphaned
    ensures Linked(worlds[j].repo) && a in worlds[j].works
    ensures var x := worlds[j].works[a];
      x.integrated.None?
      && Integrated(worlds[j].repo, x.workspace, x.fingerprint, id).1 == Err(IntegrationStale)
  {
    OrphansStay(worlds, ops, i, j, a);
    HistoryKeeps(worlds, ops, j);
    OrphanBaseIsBelowHead(worlds[j], a);
    assert WorkOk(worlds[j], a);
  }

  // ---- an attempt that was interrupted before the ref moved ---------------------------------------------

  lemma CommitKeepsOthers(w: World, id: CommitId, c: Id)
    requires Inv(w) && w.pc.ToIntegrate? && w.pc.a in w.works && id !in w.repo.commits
    requires c in w.repo.candidates && w.repo.candidates[c].head != w.repo.candidates[c].base
    ensures var w' := CommitStep(w, id);
      c in w'.repo.candidates && w'.repo.candidates[c] == w.repo.candidates[c]
  {
    if w.works[w.pc.a].integrated.None? { CommitOutcome(w, id); }
  }

  lemma CommittedCandidateStays(w: World, op: Op, w': World, c: Id)
    requires Inv(w) && Steps(w, op, w') && c in w.repo.candidates
    requires w.repo.candidates[c].head != w.repo.candidates[c].base
    ensures c in w'.repo.candidates && w'.repo.candidates[c] == w.repo.candidates[c]
  {
    assert CandidateOk(w, c);
    if op.WriteOp? || op.DeleteOp? {
      assert Writable(w.repo, op.g) ==> w.repo.grants[op.g].candidate != c;
    } else if op.CommitOp? {
      CommitKeepsOthers(w, op.id, c);
    }
  }

  lemma {:induction false} CommittedCandidatesStay(worlds: seq<World>, ops: seq<Op>, i: nat, j: nat, c: Id)
    requires History(worlds, ops) && i <= j < |worlds| && c in worlds[i].repo.candidates
    requires worlds[i].repo.candidates[c].head != worlds[i].repo.candidates[c].base
    ensures c in worlds[j].repo.candidates && worlds[j].repo.candidates[c] == worlds[i].repo.candidates[c]
    decreases j
  {
    if i < j {
      CommittedCandidatesStay(worlds, ops, i, j - 1, c);
      HistoryKeeps(worlds, ops, j - 1);
      CommittedCandidateStays(worlds[j - 1], ops[j - 1], worlds[j], c);
    }
  }

  /** A work keeps its submission, what is dead stays dead, and what is recorded stays recorded. */
  predicate WorkStays(w: World, w': World, a: Id) requires a in w.works {
    && a in w'.works && SameSubmission(w.works[a], w'.works[a])
    && (!w.works[a].live ==> !w'.works[a].live) && (w.works[a].integrated.Some? ==> w'.works[a].integrated.Some?)
  }

  lemma SubmissionStep(w: World, op: Op, w': World, a: Id)
    requires Steps(w, op, w') && a in w.works
    ensures WorkStays(w, w', a)
  {
    if FileOp(op) || RunOp(op) { OutsideKeepsProtocol(w, op, w'); }
  }

  lemma {:induction false} SubmissionStays(worlds: seq<World>, ops: seq<Op>, i: nat, j: nat, a: Id)
    requires History(worlds, ops) && i <= j < |worlds| && a in worlds[i].works
    ensures WorkStays(worlds[i], worlds[j], a)
    decreases j
  {
    if i < j {
      SubmissionStays(worlds, ops, i, j - 1, a);
      assert Steps(worlds[j - 1], ops[j - 1], worlds[j]);
      SubmissionStep(worlds[j - 1], ops[j - 1], worlds[j], a);
    }
  }

  lemma {:induction false} GrantStays(worlds: seq<World>, ops: seq<Op>, i: nat, j: nat, g: Id)
    requires History(worlds, ops) && i <= j < |worlds| && g in worlds[i].repo.grants
    ensures g in worlds[j].repo.grants && worlds[j].repo.grants[g].candidate == worlds[i].repo.grants[g].candidate
    decreases j
  {
    if i < j {
      GrantStays(worlds, ops, i, j - 1, g);
      assert Steps(worlds[j - 1], ops[j - 1], worlds[j]);
    }
  }

  /** After a process died with the candidate committed and the ref not yet moved: whenever the work
      is integrated later, the very same commit is used, and the attempt succeeds exactly if the
      branch still ends where it did. */
  lemma InterruptedCommitIsReused(worlds: seq<World>, ops: seq<Op>, i: nat, j: nat, id: CommitId)
    requires History(worlds, ops) && i < |ops| && ops[i].CommitOp? && worlds[i + 1].pc.Committed?
    requires i < j < |worlds| && worlds[j].pc == ToIntegrate(worlds[i + 1].pc.a) && id !in worlds[j].repo.commits
    requires worlds[i + 1].pc.a in worlds[j].works && worlds[j].works[worlds[i + 1].pc.a].integrated.None?
    ensures Linked(worlds[j].repo)
    ensures var was, w := worlds[i + 1].pc, worlds[j];
      var x := w.works[was.a];
      Integrated(w.repo, x.workspace, x.fingerprint, id).1
      == if HeadOf(w.repo) == was.head then Ok(was.commit) else Err(IntegrationStale)
  {
    HistoryKeeps(worlds, ops, i);
    HistoryKeeps(worlds, ops, j);
    assert Steps(worlds[i], ops[i], worlds[i + 1]);
    CommitOutcome(worlds[i], ops[i].id);
    var a := worlds[i + 1].pc.a;
    var g := worlds[i + 1].works[a].workspace;
    var c := worlds[i + 1].repo.grants[g].candidate;
    SubmissionStays(worlds, ops, i + 1, j, a);
    GrantStays(worlds, ops, i + 1, j, g);
    CommittedCandidatesStay(worlds, ops, i + 1, j, c);
    assert WorkOk(worlds[j], a) && CandidateOk(worlds[j], c);
    AttemptOutcome(worlds[j], id);
  }

  // ---- completion ------------------------------------------------------------------------------------------

  /** Accepted code that no call can integrate any more: it changed nothing, or the branch has left
      its base behind, and its record is not on the way. */
  ghost predicate Stuck(w: World, a: Id) {
    && a in w.works && w.works[a].accepted && w.works[a].live && w.works[a].integrated.None?
    && !((w.pc.Moved? || w.pc.Recording?) && w.pc.a == a)
    && (BaseOf(w, a) != HeadOf(w.repo) || !HasChanges(w, w.works[a].fingerprint))
  }

  lemma OrphanIsStuck(w: World, a: Id)
    requires Inv(w) && a in w.orphaned && w.works[a].accepted && w.works[a].live
    ensures Stuck(w, a)
  {
    OrphanBaseIsBelowHead(w, a);
  }

  lemma BaseIsOnBranch(w: World, a: Id)
    requires Inv(w) && a in w.works
    ensures BaseOf(w, a) in w.log && BaseOf(w, a) in w.repo.commits
  {
    assert WorkOk(w, a);
    assert CandidateOk(w, w.repo.grants[w.works[a].workspace].candidate);
  }

  lemma CommitKeepsStuck(w: World, id: CommitId, a: Id)
    requires Inv(w) && Stuck(w, a) && w.pc.ToIntegrate? && w.pc.a in w.works && id !in w.repo.commits
    ensures Stuck(CommitStep(w, id), a)
  {
    BaseIsOnBranch(w, a);
    if w.works[w.pc.a].integrated.None? { CommitOutcome(w, id); }
  }

  lemma MoveKeepsStuck(w: World, a: Id)
    requires Inv(w) && Stuck(w, a) && w.pc.Committed?
    ensures Stuck(MoveStep(w), a)
  {
    BaseIsOnBranch(w, a);
    SwapSucceeds(w);
  }

  lemma FileStepKeepsStuck(w: World, op: Op, w': World, a: Id)
    requires Inv(w) && Steps(w, op, w') && Stuck(w, a)
    requires FileOp(op)
    ensures Stuck(w', a)
  {}

  lemma RunStepKeepsStuck(w: World, op: Op, w': World, a: Id)
    requires Steps(w, op, w') && Stuck(w, a) && RunOp(op)
    ensures Stuck(w', a)
  {}

  lemma RecordStepKeepsStuck(w: World, op: Op, w': World, a: Id)
    requires Inv(w) && Steps(w, op, w') && Stuck(w, a) && (op.LoadOp? || op.SaveOp? || op.CrashOp?)
    ensures Stuck(w', a)
  {}

  lemma KernelStepKeepsStuck(w: World, op: Op, w': World, a: Id)
    requires Inv(w) && Steps(w, op, w') && Stuck(w, a) && a in w'.works && w'.works[a].live
    requires op.BeginOp? || op.AcceptOp?
    ensures Stuck(w', a)
  {}

  lemma WorkStepKeepsStuck(w: World, op: Op, w': World, a: Id)
    requires Steps(w, op, w') && Stuck(w, a) && a in w'.works && w'.works[a].live && (op.SubmitOp? || op.RetireOp?)
    ensures Stuck(w', a)
  {}

  lemma StuckStays(w: World, op: Op, w': World, a: Id)
    requires Inv(w) && Steps(w, op, w') && Stuck(w, a) && a in w'.works && w'.works[a].live
    ensures Stuck(w', a)
  {
    if op.CommitOp? { CommitKeepsStuck(w, op.id, a); }
    else if op.MoveOp? { MoveKeepsStuck(w, a); }
    else if FileOp(op) { FileStepKeepsStuck(w, op, w', a); }
    else if RunOp(op) { RunStepKeepsStuck(w, op, w', a); }
    else if op.LoadOp? || op.SaveOp? || op.CrashOp? { RecordStepKeepsStuck(w, op, w', a); }
    else if op.SubmitOp? || op.RetireOp? { WorkStepKeepsStuck(w, op, w', a); }
    else { KernelStepKeepsStuck(w, op, w', a); }
  }

  /** The run is not completed and no call that could complete it has passed its check. */
  predicate Unfinished(w: World, r: Id) {
    r in w.runs && !w.runs[r].status.Completed? && w.runs[r].finishing == 0
  }

  lemma StuckKeepsUnfinished(w: World, op: Op, w': World, a: Id)
    requires Steps(w, op, w') && Stuck(w, a) && Unfinished(w, w.works[a].run)
    ensures Unfinished(w', w.works[a].run)
  {
    assert !NothingUnintegrated(w, w.works[a].run);
  }

  lemma StuckStep(w: World, op: Op, w': World, a: Id)
    requires Inv(w) && Steps(w, op, w') && Stuck(w, a) && Unfinished(w, w.works[a].run)
    requires a in w'.works && w'.works[a].live && w'.works[a].run == w.works[a].run
    ensures Stuck(w', a) && Unfinished(w', w.works[a].run)
  {
    StuckStays(w, op, w', a);
    StuckKeepsUnfinished(w, op, w', a);
  }

  /** Accepted code that is stuck keeps its run from completing: in no continuation in which the work
      stays accepted is the run completed, unless a call to complete it was already past its check. */
  lemma {:induction false} StuckCodeBlocksCompletion(worlds: seq<World>, ops: seq<Op>, i: nat, j: nat, a: Id)
    requires History(worlds, ops) && i <= j < |worlds|
    requires Stuck(worlds[i], a) && Unfinished(worlds[i], worlds[i].works[a].run)
    requires a in worlds[j].works && worlds[j].works[a].live
    ensures Stuck(worlds[j], a) && worlds[j].works[a].run == worlds[i].works[a].run
    ensures Unfinished(worlds[j], worlds[i].works[a].run)
    decreases j
  {
    if i < j {
      assert Steps(worlds[j - 1], ops[j - 1], worlds[j]);
      SubmissionStays(worlds, ops, i, j - 1, a);
      SubmissionStep(worlds[j - 1], ops[j - 1], worlds[j], a);
      StuckCodeBlocksCompletion(worlds, ops, i, j - 1, a);
      HistoryKeeps(worlds, ops, j - 1);
      StuckStep(worlds[j - 1], ops[j - 1], worlds[j], a);
    }
  }
}
