/** The integration protocol's view of a run, and the run as the kernel keeps it
    (src/walter/orchestration.py): each guard and each effect of the one is that of the other. */
module IntegrationKernel {
  import opened Base
  import opened RunModel
  import opened KernelOps
  import opened KernelInvariant
  import opened Kernel
  import I = Integration
  import R = Replanning
  import ReplanSteps
  import T = KernelTheorems

  /** What `record_integration` asks of an artifact: accepted, the last one of an accepted task, and
      with a workspace fingerprint. */
  predicate Stands(run: Run, a: Id) {
    && a in run.artifacts && run.artifacts[a].status.Canonical? && a in run.accepted
    && Present(run.artifacts[a].fingerprint) && run.artifacts[a].taskId in run.tasks
    && var t := run.tasks[run.artifacts[a].taskId];
       t.status.Accepted? && t.artifactIds != [] && Last(t.artifactIds) == a
  }

  /** The work is this artifact of the run. */
  predicate Shows(x: I.Work, run: Run, a: Id) {
    && a in run.artifacts && Present(run.artifacts[a].fingerprint)
    && x.integrated == run.artifacts[a].integrated && (x.accepted && x.live <==> Stands(run, a))
  }

  /** The works of run r, and its status, are those of the kernel's record. */
  ghost predicate Mirrors(w: I.World, r: Id, run: Run) {
    && r in w.runs && w.runs[r].status == run.status
    && forall a :: a in w.works && w.works[a].run == r ==> Shows(w.works[a], run, a)
  }

  // ---- the record -----------------------------------------------------------------------------------------

  /** The record is made on the loaded run exactly if the kernel makes it, and the kernel refuses it as
      terminal, or as not integrable, exactly in the two cases of the protocol. */
  lemma LoadRefines(w: I.World, run: Run)
    requires I.Inv(w) && w.pc.Moved? && Mirrors(w, w.works[w.pc.a].run, run) && Substantive(w.pc.commit)
    requires w.works[w.pc.a].run in w.runs
    ensures var r := RecordIntegration(run, w.pc.a, w.pc.commit);
      && (I.LoadStep(w).pc.Recording? <==> r.Ok?)
      && (r == Err(RunIsTerminal) <==> !run.status.Active?)
      && (r == Err(NotIntegrable) <==> run.status.Active? && !w.works[w.pc.a].live)
  {
    assert Shows(w.works[w.pc.a], run, w.pc.a);
  }

  /** If nothing was saved on the run since, the save stores what the kernel made of it. */
  lemma SaveRefines(w: I.World, run: Run)
    requires I.Inv(w) && w.pc.Recording? && Mirrors(w, w.works[w.pc.a].run, run) && Substantive(w.pc.commit)
    requires w.runs[w.works[w.pc.a].run].version == w.pc.version
    ensures RecordIntegration(run, w.pc.a, w.pc.commit).Ok?
    ensures Mirrors(I.SaveStep(w), w.works[w.pc.a].run, RecordIntegration(run, w.pc.a, w.pc.commit).value)
  {
    var a := w.pc.a;
    assert Shows(w.works[a], run, a);
    var run', w' := RecordIntegration(run, a, w.pc.commit).value, I.SaveStep(w);
    forall b | b in w'.works && w'.works[b].run == w.works[a].run ensures Shows(w'.works[b], run', b) {
      assert Shows(w.works[b], run, b);
    }
  }

  // ---- everything else that is saved on the run ------------------------------------------------------------

  /** In a reachable run an artifact stands if it is accepted at all. */
  lemma StandsIfCanonical(mgr: Id, run: Run, a: Id)
    requires Inv(mgr, run)
    ensures Stands(run, a) <==>
            a in run.artifacts && run.artifacts[a].status.Canonical? && Present(run.artifacts[a].fingerprint)
  {
    if a in run.artifacts && run.artifacts[a].status.Canonical? {
      var i :| 0 <= i < |run.accepted| && run.accepted[i] == a;
      assert Sourced(run, a, run.accepted[..i]);
    }
  }

  /** The three fields of an artifact the protocol looks at. */
  predicate SameArtifact(x: Artifact, y: Artifact) {
    x.fingerprint == y.fingerprint && x.integrated == y.integrated && (x.status.Canonical? <==> y.status.Canonical?)
  }

  ghost predicate Untouched(r: Run, r': Run, a: Id) requires a in r.artifacts {
    a in r'.artifacts && SameArtifact(r.artifacts[a], r'.artifacts[a])
  }

  lemma JudgementUntouched(mgr: Id, r: Run, op: Op, r': Run, a: Id)
    requires (op.ValidateOp? || op.ReviewOp?) && Mutation(mgr, r, op) == Ok(r') && a in r.artifacts
    ensures Untouched(r, r', a)
  {}

  lemma SubmitUntouched(mgr: Id, r: Run, op: Op, r': Run, a: Id)
    requires op.SubmitOp? && Unused(r, op.id) && Mutation(mgr, r, op) == Ok(r') && a in r.artifacts
    ensures Untouched(r, r', a)
  {}

  /** Only a task that failed is recovered, and no artifact of such a task is accepted. */
  lemma RecoverUntouched(mgr: Id, r: Run, op: Op, r': Run, a: Id)
    requires Inv(mgr, r) && op.RecoverOp? && Recover(mgr, r, op.failure, op.reason, op.actor) == Ok(r')
    requires a in r.artifacts
    ensures Untouched(r, r', a)
  {
    var k := FindFailure(r.failures, op.failure).value.taskId;
    assert TaskHome(r, k);
    if r.artifacts[a].status.Canonical? {
      var i :| 0 <= i < |r.accepted| && r.accepted[i] == a;
      assert Sourced(r, a, r.accepted[..i]);
    }
  }

  lemma ReplanKeepsRecord(r: Run, id: Id, r': Run, a: Id)
    requires R.Apply(r, id) == Ok(r') && a in r.artifacts
    ensures a in r'.artifacts && r'.artifacts[a] == r.artifacts[a].(status := r'.artifacts[a].status)
    ensures r'.artifacts[a].status.Canonical? ==> r.artifacts[a].status.Canonical?
  {
    var p := r.replans[id];
    ReplanSteps.ReplannedOutcome(r, p);
    var next := R.Replanned(r, p, R.Affected(r, p)).(revision := r.revision + 1);
    assert ReplanSteps.ArtifactOutcome(r, next, R.Affected(r, p), a);
  }

  lemma AcceptKeepsRecord(mgr: Id, r: Run, op: Op, r': Run, a: Id)
    requires op.AcceptOp? && Accept(mgr, r, op.k, op.caller, op.reason, op.fingerprint) == Ok(r') && a in r.artifacts
    ensures a in r'.artifacts && r'.artifacts[a] == r.artifacts[a].(status := r'.artifacts[a].status)
    ensures r.artifacts[a].status.Canonical? ==> r'.artifacts[a].status.Canonical?
    ensures r'.artifacts[a].status.Canonical? && !r.artifacts[a].status.Canonical? ==>
              op.k in r.tasks && r.tasks[op.k].artifactIds != [] && a == Last(r.tasks[op.k].artifactIds)
  {
    T.CandidateCheckArtifacts(r, Last(r.tasks[op.k].artifactIds), op.fingerprint);
  }

  lemma RecordOfOne(r: Run, c: Id, commit: Id, r': Run, a: Id)
    requires RecordIntegration(r, c, commit) == Ok(r') && a in r.artifacts
    ensures a in r'.artifacts && r'.artifacts[a] == r.artifacts[a].(integrated := r'.artifacts[a].integrated)
    ensures r'.artifacts[a].integrated != r.artifacts[a].integrated ==>
              a == c && r'.artifacts[a].integrated == Some(commit)
  {}

  /** The artifact's fields in one committed step. */
  ghost predicate FieldsMove(r: Run, op: Op, r': Run, a: Id) requires a in r.artifacts {
    && a in r'.artifacts
    && var x, y := r.artifacts[a], r'.artifacts[a];
       && y.fingerprint == x.fingerprint
       && (y.integrated != x.integrated ==> op.RecordIntegrationOp? && op.a == a && y.integrated == Some(op.commit))
       && (y.status.Canonical? && !x.status.Canonical? ==> AcceptsIt(r, op, a))
       && (x.status.Canonical? && !y.status.Canonical? ==> op.ApplyOp?)
  }

  predicate AcceptsIt(r: Run, op: Op, a: Id) {
    op.AcceptOp? && op.k in r.tasks && r.tasks[op.k].artifactIds != [] && a == Last(r.tasks[op.k].artifactIds)
  }

  lemma EditMoves(mgr: Id, r: Run, op: Op, r': Run, a: Id)
    requires Inv(mgr, r) && Committed(mgr, r, op, r') && a in r.artifacts
    requires op.AcceptOp? || op.RecoverOp? || op.ApplyOp? || op.RecordIntegrationOp?
    ensures FieldsMove(r, op, r', a)
  {
    if op.AcceptOp? { AcceptKeepsRecord(mgr, r, op, r', a); }
    else if op.RecoverOp? { RecoverUntouched(mgr, r, op, r', a); }
    else if op.ApplyOp? { ReplanKeepsRecord(r, op.proposal, r', a); }
    else { RecordOfOne(r, op.a, op.commit, r', a); }
  }

  lemma StepMoves(mgr: Id, r: Run, op: Op, r': Run, a: Id)
    requires Inv(mgr, r) && Committed(mgr, r, op, r') && a in r.artifacts
    ensures FieldsMove(r, op, r', a)
  {
    if !T.EditsArtifacts(op) { T.ArtifactsUntouched(mgr, r, op, r'); }
    else if op.SubmitOp? { SubmitUntouched(mgr, r, op, r', a); }
    else if op.ValidateOp? || op.ReviewOp? { JudgementUntouched(mgr, r, op, r', a); }
    else { EditMoves(mgr, r, op, r', a); }
  }

  /** The artifact in one committed step: an integration is recorded only by `record_integration` for
      it, it comes to be accepted only by `accept` of its task, and stops being so only by a replan. */
  ghost predicate ArtifactMoves(r: Run, op: Op, r': Run, a: Id) requires a in r.artifacts {
    && a in r'.artifacts && r'.artifacts[a].fingerprint == r.artifacts[a].fingerprint
    && (r'.artifacts[a].integrated != r.artifacts[a].integrated ==>
          op.RecordIntegrationOp? && op.a == a && r'.artifacts[a].integrated == Some(op.commit))
    && (Stands(r', a) && !Stands(r, a) ==> AcceptsIt(r, op, a))
    && (Stands(r, a) && !Stands(r', a) ==> op.ApplyOp?)
  }

  lemma StandingMoves(mgr: Id, r: Run, op: Op, r': Run, a: Id)
    requires Inv(mgr, r) && Committed(mgr, r, op, r') && a in r.artifacts
    ensures ArtifactMoves(r, op, r', a)
  {
    T.StepKeeps(mgr, r, op, r');
    StandsIfCanonical(mgr, r, a);
    StandsIfCanonical(mgr, r', a);
    StepMoves(mgr, r, op, r', a);
  }

  ghost predicate AllMove(r: Run, op: Op, r': Run) { forall a :: a in r.artifacts ==> ArtifactMoves(r, op, r', a) }

  lemma StandingsMove(mgr: Id, r: Run, op: Op, r': Run)
    requires Inv(mgr, r) && Committed(mgr, r, op, r')
    ensures AllMove(r, op, r')
  {
    forall a | a in r.artifacts ensures ArtifactMoves(r, op, r', a) { StandingMoves(mgr, r, op, r', a); }
  }

  // ---- the status -----------------------------------------------------------------------------------------

  predicate JudgementOp(op: Op) { op.ValidateOp? || op.ReviewOp? || op.AcceptOp? || op.RecoverOp? }

  lemma JudgementStatus(mgr: Id, r: Run, op: Op, r': Run)
    requires JudgementOp(op) && Mutation(mgr, r, op) == Ok(r')
    ensures r'.status == r.status
  {}

  lemma TaskOpStatus(mgr: Id, r: Run, op: Op, r': Run)
    requires T.TaskOp(op) && !JudgementOp(op) && Mutation(mgr, r, op) == Ok(r')
    ensures r'.status == r.status
  {}

  lemma ClosingStatus(mgr: Id, r: Run, op: Op, r': Run)
    requires (op.AbandonOp? || op.CompleteOp?) && Mutation(mgr, r, op) == Ok(r')
    ensures r'.status == if op.AbandonOp? then Abandoned else Completed
  {}

  lemma SideOpStatus(mgr: Id, r: Run, op: Op, r': Run)
    requires T.SideOp(op) && !op.AbandonOp? && !op.CompleteOp? && Mutation(mgr, r, op) == Ok(r')
    ensures r'.status == r.status
  {}

  lemma GateOpStatus(mgr: Id, r: Run, op: Op, r': Run)
    requires T.GateOp(op) && Mutation(mgr, r, op) == Ok(r')
    ensures r'.status == r.status
  {}

  lemma {:induction false} AddEachStatus(r: Run, add: seq<Task>)
    requires AddEach(r, add).Ok?
    ensures AddEach(r, add).value.status == r.status
    decreases |add|
  {
    if add != [] { AddEachStatus(Put(r, add[0].id, add[0]), add[1..]); }
  }

  lemma PlanOpStatus(mgr: Id, r: Run, op: Op, r': Run)
    requires !T.SideOp(op) && !T.TaskOp(op) && !T.GateOp(op) && Mutation(mgr, r, op) == Ok(r')
    ensures r'.status == r.status
  {
    if op.AddTasksOp? { AddEachStatus(r, op.add); }
  }

  /** Completing and abandoning alone end a run. */
  lemma StatusMoves(mgr: Id, r: Run, op: Op, r': Run)
    requires Committed(mgr, r, op, r')
    ensures r'.status == if op.AbandonOp? then Abandoned else if op.CompleteOp? then Completed else r.status
  {
    if op.AbandonOp? || op.CompleteOp? { ClosingStatus(mgr, r, op, r'); }
    else if T.SideOp(op) { SideOpStatus(mgr, r, op, r'); }
    else if JudgementOp(op) { JudgementStatus(mgr, r, op, r'); }
    else if T.TaskOp(op) { TaskOpStatus(mgr, r, op, r'); }
    else if T.GateOp(op) { GateOpStatus(mgr, r, op, r'); }
    else { PlanOpStatus(mgr, r, op, r'); }
  }

  // ---- steps of the kernel are steps of the protocol ---------------------------------------------------------

  /** An operation that gives no artifact of these works standing and records nothing. */
  predicate Elsewhere(w: I.World, r: Run, op: Op) {
    && !op.RecordIntegrationOp?
    && (op.AcceptOp? && op.k in r.tasks && r.tasks[op.k].artifactIds != [] ==>
          Last(r.tasks[op.k].artifactIds) !in w.works)
  }

  /** Works of run r whose artifact a replan has superseded. */
  predicate Fell(w: I.World, r: Id, run: Run, run': Run, a: Id) {
    a in w.works && w.works[a].run == r && Stands(run, a) && !Stands(run', a)
  }

  /** The works after the kernel's step: the superseded ones are dead, all others are as they were. */
  ghost predicate Follows(w: I.World, w': I.World, r: Id, run: Run, run': Run) {
    && w'.works.Keys == w.works.Keys && r in w'.runs && w'.runs[r].status == run'.status
    && forall a :: a in w.works ==>
         w'.works[a] == if Fell(w, r, run, run', a) then w.works[a].(live := false) else w.works[a]
  }

  lemma FollowingMirrors(w: I.World, w': I.World, r: Id, run: Run, op: Op, run': Run)
    requires AllMove(run, op, run') && Mirrors(w, r, run) && Elsewhere(w, run, op)
    requires Follows(w, w', r, run, run')
    ensures Mirrors(w', r, run')
  {
    forall a | a in w.works && w.works[a].run == r ensures Shows(w'.works[a], run', a) {
      assert Shows(w.works[a], run, a) && ArtifactMoves(run, op, run', a);
    }
  }

  lemma NothingFalls(w: I.World, r: Id, run: Run, op: Op, run': Run)
    requires AllMove(run, op, run') && Mirrors(w, r, run) && !op.ApplyOp?
    ensures forall a :: !Fell(w, r, run, run', a)
  {
    forall a ensures !Fell(w, r, run, run', a) {
      if a in w.works && w.works[a].run == r {
        assert Shows(w.works[a], run, a) && ArtifactMoves(run, op, run', a);
      }
    }
  }

  /** Anything but a replan that is saved on the run is a rival's save to the protocol. */
  lemma SaveIsRival(mgr: Id, w: I.World, r: Id, run: Run, op: Op, run': Run)
    requires Inv(mgr, run) && Committed(mgr, run, op, run') && Mirrors(w, r, run) && Elsewhere(w, run, op)
    requires !op.ApplyOp? && !op.CompleteOp? && !op.AbandonOp?
    ensures Mirrors(I.Saved(w, r), r, run')
  {
    StatusMoves(mgr, run, op, run');
    StandingsMove(mgr, run, op, run');
    NothingFalls(w, r, run, op, run');
    FollowingMirrors(w, I.Saved(w, r), r, run, op, run');
  }

  /** A submitted candidate with a fingerprint is a new work. */
  lemma SubmitAddsWork(mgr: Id, w: I.World, r: Id, run: Run, op: Op, run': Run, g: Id)
    requires Inv(mgr, run) && Committed(mgr, run, op, run') && Mirrors(w, r, run)
    requires op.SubmitOp? && Present(op.fingerprint) && op.id !in w.works && g in w.frozen
    ensures run.status.Active?
    ensures Mirrors(I.Saved(I.SetWork(w, op.id, I.Work(r, g, w.frozen[g], true, false, None)), r), r, run')
  {
    SaveIsRival(mgr, w, r, run, op, run');
    SubmittedIsNew(mgr, run, op, run');
    var w' := I.Saved(I.SetWork(w, op.id, I.Work(r, g, w.frozen[g], true, false, None)), r);
    forall a | a in w'.works && w'.works[a].run == r ensures Shows(w'.works[a], run', a) {
      if a != op.id { assert Shows(I.Saved(w, r).works[a], run', a); }
    }
  }

  lemma SubmittedIsNew(mgr: Id, run: Run, op: Op, run': Run)
    requires Committed(mgr, run, op, run') && op.SubmitOp?
    ensures run.status.Active? && op.id in run'.artifacts && run'.artifacts[op.id].fingerprint == op.fingerprint
    ensures run'.artifacts[op.id].integrated.None? && !Stands(run', op.id)
  {}

  /** Completing or abandoning it closes it. */
  lemma EndIsClosing(mgr: Id, w: I.World, r: Id, run: Run, op: Op, run': Run)
    requires Inv(mgr, run) && Committed(mgr, run, op, run') && Mirrors(w, r, run)
    requires op.CompleteOp? || op.AbandonOp?
    ensures Mirrors(I.Closed(w, r, if op.CompleteOp? then Completed else Abandoned), r, run')
  {
    var w' := I.Closed(w, r, if op.CompleteOp? then Completed else Abandoned);
    StatusMoves(mgr, run, op, run');
    StandingsMove(mgr, run, op, run');
    NothingFalls(w, r, run, op, run');
    FollowingMirrors(w, w', r, run, op, run');
  }

  ghost function Pick(s: set<Id>): (a: Id)
    requires s != {}
    ensures a in s
  {
    assert (forall x :: x !in s) ==> s == {};
    var a :| a in s;
    a
  }

  /** These works retired one after the other. */
  ghost function RetiredAll(w: I.World, s: set<Id>): I.World
    decreases |s|
  {
    if s == {} then w
    else
      RetiredAll(I.RetiredWork(w, Pick(s)), s - {Pick(s)})
  }

  lemma {:induction false} RetiredAllOutcome(w: I.World, s: set<Id>, r: Id)
    requires I.ActiveRun(w, r) && forall a :: a in s ==> a in w.works && w.works[a].run == r && w.works[a].live
    ensures var w' := RetiredAll(w, s);
      && w'.works.Keys == w.works.Keys && I.ActiveRun(w', r)
      && forall a :: a in w.works ==>
           w'.works[a] == if a in s then w.works[a].(live := false) else w.works[a]
    decreases |s|
  {
    if s != {} {
      RetiredAllOutcome(I.RetiredWork(w, Pick(s)), s - {Pick(s)}, r);
    }
  }

  /** A replan retires exactly the works whose artifacts it supersedes. */
  lemma ReplanRetires(mgr: Id, w: I.World, r: Id, run: Run, op: Op, run': Run)
    requires Inv(mgr, run) && Committed(mgr, run, op, run') && Mirrors(w, r, run) && op.ApplyOp?
    ensures Mirrors(RetiredAll(w, set a | a in w.works && Fell(w, r, run, run', a)), r, run')
  {
    var s := set a | a in w.works && Fell(w, r, run, run', a);
    forall a | a in s ensures w.works[a].run == r && w.works[a].live { assert Shows(w.works[a], run, a); }
    StatusMoves(mgr, run, op, run');
    StandingsMove(mgr, run, op, run');
    RetiredAllOutcome(w, s, r);
    FollowingMirrors(w, RetiredAll(w, s), r, run, op, run');
  }

  lemma AcceptedWorks(w: I.World, r: Id)
    requires I.Inv(w) && w.pc.Checked? && w.works[w.pc.a].run == r && w.works[w.pc.a].live && I.ActiveRun(w, r)
    ensures var w' := I.Accepted(w, true);
      && w'.works == w.works[w.pc.a := w.works[w.pc.a].(accepted := true)]
      && r in w'.runs && w'.runs[r].status == w.runs[r].status
  {
    assert I.WorkOk(w, w.pc.a);
  }

  /** And acceptance of the candidate the lock holder has checked is its acceptance in the protocol. */
  lemma AcceptRefines(mgr: Id, w: I.World, r: Id, run: Run, op: Op, run': Run)
    requires Inv(mgr, run) && Committed(mgr, run, op, run') && Mirrors(w, r, run) && I.Inv(w)
    requires w.pc.Checked? && AcceptsIt(run, op, w.pc.a) && w.works[w.pc.a].run == r && w.works[w.pc.a].live
    ensures Mirrors(I.Accepted(w, true), r, run')
  {
    AcceptNeedsActive(mgr, run, op, run');
    StatusMoves(mgr, run, op, run');
    StandingsMove(mgr, run, op, run');
    assert Shows(w.works[w.pc.a], run, w.pc.a);
    AcceptedStands(mgr, run, op, run', w.pc.a);
    AcceptedMirrors(w, r, run, op, run');
  }

  lemma AcceptedMirrors(w: I.World, r: Id, run: Run, op: Op, run': Run)
    requires AllMove(run, op, run') && Mirrors(w, r, run) && I.Inv(w) && run'.status == run.status && run.status.Active?
    requires w.pc.Checked? && AcceptsIt(run, op, w.pc.a) && w.works[w.pc.a].run == r && w.works[w.pc.a].live
    requires Stands(run', w.pc.a)
    ensures Mirrors(I.Accepted(w, true), r, run')
  {
    AcceptedWorks(w, r);
    forall a | a in w.works && w.works[a].run == r ensures Shows(I.Accepted(w, true).works[a], run', a) {
      assert Shows(w.works[a], run, a) && ArtifactMoves(run, op, run', a);
    }
  }

  lemma AcceptNeedsActive(mgr: Id, run: Run, op: Op, run': Run)
    requires Committed(mgr, run, op, run') && op.AcceptOp?
    ensures run.status.Active? && Accept(mgr, run, op.k, op.caller, op.reason, op.fingerprint) == Ok(run')
  {}

  lemma AcceptMakesCanonical(mgr: Id, run: Run, op: Op, run': Run, a: Id)
    requires AcceptsIt(run, op, a) && Accept(mgr, run, op.k, op.caller, op.reason, op.fingerprint) == Ok(run')
    requires a in run.artifacts
    ensures a in run'.artifacts && run'.artifacts[a] == run.artifacts[a].(status := Canonical)
  {
    T.CandidateCheckArtifacts(run, a, op.fingerprint);
  }

  lemma AcceptedStands(mgr: Id, run: Run, op: Op, run': Run, a: Id)
    requires Inv(mgr, run) && Committed(mgr, run, op, run') && AcceptsIt(run, op, a) && a in run.artifacts
    requires Present(run.artifacts[a].fingerprint)
    ensures Stands(run', a) && run.status.Active?
  {
    T.StepKeeps(mgr, run, op, run');
    AcceptNeedsActive(mgr, run, op, run');
    AcceptMakesCanonical(mgr, run, op, run', a);
    StandsIfCanonical(mgr, run', a);
  }
}
