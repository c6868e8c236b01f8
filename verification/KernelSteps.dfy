/** Every operation keeps the invariant, one lemma per operation. */
module KernelSteps {
  import opened Base
  import opened RunModel
  import opened KernelOps
  import opened Lineage
  import opened KernelInvariant
  import opened Kernel

  // ---- editing one task that is not accepted ---------------------------------------------

  /** r' differs from r in task k, in artifacts of task k, and in the record's side tables. */
  ghost predicate TaskEdit(r: Run, r': Run, k: Id) {
    && k in r.tasks && k in r'.tasks && r'.tasks == r.tasks[k := r'.tasks[k]]
    && SamePacket(r.tasks[k], r'.tasks[k])
    && !r.tasks[k].status.Accepted? && !r'.tasks[k].status.Accepted?
    && r'.id == r.id && r'.inputs == r.inputs && r'.accepted == r.accepted
    && r'.approvals == r.approvals && r'.decisions == r.decisions
    && r'.revision == r.revision && r'.maxReplans == r.maxReplans
    && (forall a :: a in r.artifacts ==> a in r'.artifacts && KeptArtifact(r, r', k, a))
    && (forall a :: a in r'.artifacts && a !in r.artifacts ==> r'.artifacts[a].taskId == k && NewName(r, a))
  }

  ghost predicate KeptArtifact(r: Run, r': Run, k: Id, a: Id)
    requires a in r.artifacts && a in r'.artifacts
  {
    if r.artifacts[a].taskId == k then r'.artifacts[a].taskId == k else r'.artifacts[a] == r.artifacts[a]
  }

  ghost predicate NewName(r: Run, a: Id) {
    a !in r.tasks && a !in r.inputs && forall k :: k in r.tasks ==> a !in Names(r.tasks[k])
  }

  lemma EditView(mgr: Id, r: Run, r': Run, k: Id)
    requires Core(mgr, r) && TaskEdit(r, r', k)
    ensures SameView(r, r')
  {
    forall a | a in r.accepted && a in r.artifacts
      ensures a in r'.artifacts && SameSource(r.artifacts[a], r'.artifacts[a])
    {
      var i :| 0 <= i < |r.accepted| && r.accepted[i] == a;
      assert Sourced(r, a, r.accepted[..i]);
      assert KeptArtifact(r, r', k, a);
    }
  }

  ghost predicate OwnArtifactOk(mgr: Id, r': Run, k: Id, a: Id) {
    a in r'.artifacts && r'.artifacts[a].taskId == k ==>
      ArtifactHome(r', a) && ArtifactOk(mgr, r', a) && !r'.artifacts[a].status.Canonical?
  }

  lemma OtherTask(mgr: Id, r: Run, r': Run, k: Id, j: Id)
    requires Core(mgr, r) && TaskEdit(r, r', k) && j in r.tasks && j != k
    ensures TaskHome(r', j) && TaskCore(r', r'.tasks[j])
    ensures TaskRefreshed(r, r.tasks[j]) ==> TaskRefreshed(r', r'.tasks[j])
  {
    EditView(mgr, r, r', k);
    ResolveFrame(r, r', j);
    var t := r.tasks[j];
    assert TaskHome(r, j) && TaskCore(r, t);
    assert GatesOpen(r, t) <==> GatesOpen(r', t);
    forall a | a in t.artifactIds ensures a in r'.artifacts && r'.artifacts[a] == r.artifacts[a] {
      assert KeptArtifact(r, r', k, a);
    }
    if t.status.Submitted? || t.status.Reviewing? {
      assert Last(t.artifactIds) in t.artifactIds;
      CandidateFrame(r, r', j);
    }
  }

  /** Core survives an edit whose own task and artifacts are in order. */
  lemma EditKeeps(mgr: Id, r: Run, r': Run, k: Id)
    requires Core(mgr, r) && TaskEdit(r, r', k)
    requires TaskHome(r', k) && TaskCore(r', r'.tasks[k])
    requires forall a :: OwnArtifactOk(mgr, r', k, a)
    ensures Core(mgr, r')
    ensures forall j :: j in r.tasks && j != k && TaskRefreshed(r, r.tasks[j]) ==> TaskRefreshed(r', r'.tasks[j])
  {
    EditView(mgr, r, r', k);
    forall j | j in r.tasks && j != k
      ensures TaskHome(r', j) && TaskCore(r', r'.tasks[j])
      ensures TaskRefreshed(r, r.tasks[j]) ==> TaskRefreshed(r', r'.tasks[j])
    {
      OtherTask(mgr, r, r', k, j);
    }
    forall a | a in r'.artifacts ensures ArtifactHome(r', a) && ArtifactOk(mgr, r', a)
      ensures r'.artifacts[a].status.Canonical? ==> a in r.accepted
    {
      assert OwnArtifactOk(mgr, r', k, a);
      if r'.artifacts[a].taskId != k {
        assert KeptArtifact(r, r', k, a) && ArtifactHome(r, a) && ArtifactOk(mgr, r, a);
      }
    }
    LedgerFrame(r, r');
  }

  /** The task's own artifacts when the edit leaves them alone, its history included, and any
      candidate among them stays last on a task in a candidate status. */
  lemma OwnArtifactsKept(mgr: Id, r: Run, r': Run, k: Id)
    requires Core(mgr, r) && TaskEdit(r, r', k) && r'.artifacts == r.artifacts
    requires r'.tasks[k].artifactIds == r.tasks[k].artifactIds
    requires r'.tasks[k].history == r.tasks[k].history
    requires r.tasks[k].status.Submitted? || r.tasks[k].status.Reviewing? || r.tasks[k].status.Failed?
             ==> r'.tasks[k].status.Submitted? || r'.tasks[k].status.Reviewing? || r'.tasks[k].status.Failed?
    ensures TaskHome(r', k) && forall a :: OwnArtifactOk(mgr, r', k, a)
  {
    assert TaskHome(r, k);
    forall a ensures OwnArtifactOk(mgr, r', k, a) {
      if a in r.artifacts && r.artifacts[a].taskId == k {
        assert ArtifactHome(r, a) && ArtifactOk(mgr, r, a);
        NotCanonicalYet(mgr, r, k, a);
      }
    }
  }

  /** Only accepted tasks own canonical artifacts. */
  lemma NotCanonicalYet(mgr: Id, r: Run, k: Id, a: Id)
    requires Core(mgr, r) && a in r.artifacts && r.artifacts[a].taskId == k
    requires k in r.tasks && !r.tasks[k].status.Accepted?
    ensures !r.artifacts[a].status.Canonical? && a !in r.accepted
  {}

  // ---- execution ---------------------------------------------------------------------------

  lemma DelegatedTaskOk(mgr: Id, r: Run, k: Id, worker: Id, id: Id)
    requires Inv(mgr, r) && Delegate(mgr, r, k, worker, id).Ok?
    ensures var r' := Delegate(mgr, r, k, worker, id).value;
      TaskEdit(r, r', k) && TaskHome(r', k) && TaskCore(r', r'.tasks[k])
  {
    var r' := Delegate(mgr, r, k, worker, id).value;
    assert TaskEdit(r, r', k);
    EditView(mgr, r, r', k);
    ResolveFrame(r, r', k);
    ReadyIsOpen(r, r.tasks[k]);
    assert TaskHome(r, k) && TaskCore(r, r.tasks[k]);
    assert GatesOpen(r', r'.tasks[k]);
  }

  /** A task that waits owns no candidate. */
  lemma NoCandidateWaits(mgr: Id, r: Run, r': Run, k: Id, a: Id)
    requires Core(mgr, r) && TaskEdit(r, r', k) && r'.artifacts == r.artifacts
    requires r'.tasks[k].artifactIds == r.tasks[k].artifactIds
    requires !(r.tasks[k].status.Submitted? || r.tasks[k].status.Reviewing? || r.tasks[k].status.Failed?)
    ensures OwnArtifactOk(mgr, r', k, a)
  {
    if a in r.artifacts && r.artifacts[a].taskId == k {
      assert ArtifactHome(r, a) && ArtifactOk(mgr, r, a);
      NotCanonicalYet(mgr, r, k, a);
    }
  }

  lemma DelegateKeeps(mgr: Id, r: Run, k: Id, worker: Id, id: Id)
    requires Inv(mgr, r) && Delegate(mgr, r, k, worker, id).Ok?
    ensures Inv(mgr, Delegate(mgr, r, k, worker, id).value)
  {
    var r' := Delegate(mgr, r, k, worker, id).value;
    DelegatedTaskOk(mgr, r, k, worker, id);
    forall a ensures OwnArtifactOk(mgr, r', k, a) { NoCandidateWaits(mgr, r, r', k, a); }
    EditKeeps(mgr, r, r', k);
  }

  lemma StartKeeps(mgr: Id, r: Run, k: Id)
    requires Inv(mgr, r) && Start(r, k).Ok?
    ensures Inv(mgr, Start(r, k).value)
  {
    var r' := Start(r, k).value;
    assert TaskEdit(r, r', k);
    EditView(mgr, r, r', k);
    ResolveFrame(r, r', k);
    assert TaskCore(r, r.tasks[k]);
    assert GatesOpen(r', r'.tasks[k]);
    OwnArtifactsKept(mgr, r, r', k);
    EditKeeps(mgr, r, r', k);
  }

  lemma SubmitIsEdit(r: Run, k: Id, asg: Id, w: Id, c: bool, d: Id, f: Option<Id>, id: Id)
    requires Unused(r, id) && Submit(r, k, asg, w, c, d, f, id).Ok?
    ensures TaskEdit(r, Submit(r, k, asg, w, c, d, f, id).value, k)
  {}

  /** The submitted task and its new candidate. */
  ghost predicate SubmittedAs(r: Run, r': Run, k: Id, id: Id) {
    && k in r.tasks && k in r'.tasks && id !in r.artifacts && r.tasks[k].status.Running?
    && r'.tasks[k] == r.tasks[k].(status := Submitted, artifactIds := r.tasks[k].artifactIds + [id])
    && id in r'.artifacts && r'.artifacts == r.artifacts[id := r'.artifacts[id]]
    && var x := r'.artifacts[id];
       && x.runId == r.id && x.taskId == k && x.digest == Digest(x.content) && x.status.Candidate?
       && Elements(x.inputIds) == InputSet(r, r.tasks[k]) && x.validations == [] && x.reviews == []
  }

  lemma SubmitOutcome(r: Run, k: Id, asg: Id, w: Id, c: bool, d: Id, f: Option<Id>, id: Id)
    requires Unused(r, id) && Submit(r, k, asg, w, c, d, f, id).Ok?
    ensures SubmittedAs(r, Submit(r, k, asg, w, c, d, f, id).value, k, id) && id !in r.inputs
  {
    InputListElements(r, r.tasks[k]);
  }

  lemma SubmittedTaskOk(mgr: Id, r: Run, r': Run, k: Id, id: Id)
    requires Core(mgr, r) && TaskEdit(r, r', k) && SubmittedAs(r, r', k, id)
    ensures TaskHome(r', k) && TaskCore(r', r'.tasks[k])
  {
    EditView(mgr, r, r', k);
    ResolveFrame(r, r', k);
    assert TaskHome(r, k) && TaskCore(r, r.tasks[k]);
    assert GatesOpen(r', r'.tasks[k]);
    assert Last(r'.tasks[k].artifactIds) == id;
  }

  lemma SubmittedArtifactOk(mgr: Id, r: Run, r': Run, k: Id, id: Id, a: Id)
    requires Core(mgr, r) && TaskEdit(r, r', k) && SubmittedAs(r, r', k, id) && id !in r.inputs
    ensures OwnArtifactOk(mgr, r', k, a)
  {
    assert Last(r'.tasks[k].artifactIds) == id;
    if a in r.artifacts && r.artifacts[a].taskId == k {
      assert ArtifactHome(r, a) && ArtifactOk(mgr, r, a);
      NotCanonicalYet(mgr, r, k, a);
    }
  }

  lemma SubmitKeeps(mgr: Id, r: Run, k: Id, asg: Id, w: Id, c: bool, d: Id, f: Option<Id>, id: Id)
    requires Inv(mgr, r) && Unused(r, id) && Submit(r, k, asg, w, c, d, f, id).Ok?
    ensures Inv(mgr, Submit(r, k, asg, w, c, d, f, id).value)
  {
    var r' := Submit(r, k, asg, w, c, d, f, id).value;
    SubmitIsEdit(r, k, asg, w, c, d, f, id);
    SubmitOutcome(r, k, asg, w, c, d, f, id);
    SubmittedTaskOk(mgr, r, r', k, id);
    forall a ensures OwnArtifactOk(mgr, r', k, a) { SubmittedArtifactOk(mgr, r, r', k, id, a); }
    EditKeeps(mgr, r, r', k);
  }

  lemma ProvisionalKeeps(mgr: Id, r: Run, k: Id, asg: Id, w: Id, inc: bool, text: Id)
    requires Inv(mgr, r) && Provisional(r, k, asg, w, inc, text).Ok?
    ensures Inv(mgr, Provisional(r, k, asg, w, inc, text).value)
  {
    var r' := Provisional(r, k, asg, w, inc, text).value;
    assert TaskEdit(r, r', k);
    EditView(mgr, r, r', k);
    ResolveFrame(r, r', k);
    assert TaskCore(r, r.tasks[k]);
    assert GatesOpen(r', r'.tasks[k]);
    OwnArtifactsKept(mgr, r, r', k);
    EditKeeps(mgr, r, r', k);
  }

  lemma FailKeeps(mgr: Id, r: Run, k: Id, kind: FailureClass, evidence: Id, id: Id)
    requires Inv(mgr, r) && FailTask(r, k, kind, evidence, id).Ok?
    ensures Inv(mgr, FailTask(r, k, kind, evidence, id).value)
  {
    var r' := FailTask(r, k, kind, evidence, id).value;
    assert TaskEdit(r, r', k);
    assert TaskCore(r, r.tasks[k]);
    OwnArtifactsKept(mgr, r, r', k);
    EditKeeps(mgr, r, r', k);
  }

  lemma ReplaceWorkspaceKeeps(mgr: Id, r: Run, k: Id, expected: Id, replacement: Id, reason: Id)
    requires Inv(mgr, r) && ReplaceWorkspace(r, k, expected, replacement, reason).Ok?
    ensures Inv(mgr, ReplaceWorkspace(r, k, expected, replacement, reason).value)
  {
    var r' := ReplaceWorkspace(r, k, expected, replacement, reason).value;
    assert TaskEdit(r, r', k);
    EditView(mgr, r, r', k);
    ResolveFrame(r, r', k);
    assert TaskCore(r, r.tasks[k]) && TaskRefreshed(r, r.tasks[k]);
    assert r.tasks[k].status.Ready? ==> GatesOpen(r', r'.tasks[k]);
    OwnArtifactsKept(mgr, r, r', k);
    EditKeeps(mgr, r, r', k);
  }

  /** A recovery decision takes a failed task out of flight and changes neither inputs nor gates. */
  lemma RecoveredBody(t: Task, action: RecoveryAction, f: Failure)
    ensures var t' := RecoveredTask(t, action, f);
      && !InFlight(t'.status) && !t'.status.Planned? && (t'.status.Ready? <==> action.Retry?)
      && (t'.status.Blocked? ==> !Refreshable(t'))
      && t'.attempts == t.attempts && t'.attemptBaseline == t.attemptBaseline && t'.maxAttempts == t.maxAttempts
      && t'.gates == t.gates && t'.approvalIds == t.approvalIds && t'.criteria == t.criteria
      && t'.capability == t.capability && t'.workspace == t.workspace
  {}

  /** A failed task after its recovery decision. */
  lemma RecoveredTaskOk(mgr: Id, r: Run, r': Run, k: Id, action: RecoveryAction, f: Failure)
    requires Inv(mgr, r) && TaskEdit(r, r', k) && r.tasks[k].status.Failed?
    requires r'.tasks[k] == RecoveredTask(r.tasks[k], action, f)
    requires action.Retry? ==> IsReady(r, r.tasks[k])
    ensures TaskCore(r', r'.tasks[k]) && TaskRefreshed(r', r'.tasks[k])
  {
    RecoveredBody(r.tasks[k], action, f);
    EditView(mgr, r, r', k);
    ResolveFrame(r, r', k);
    ReadyIsOpen(r, r.tasks[k]);
    assert TaskCore(r, r.tasks[k]);
    assert GatesOpen(r, r.tasks[k]) <==> GatesOpen(r', r'.tasks[k]);
  }

  /** Its artifacts: the last one is rejected, so no candidate is left. */
  lemma RejectedArtifactsOk(mgr: Id, r: Run, r': Run, k: Id)
    requires Inv(mgr, r) && TaskEdit(r, r', k) && r.tasks[k].status.Failed?
    requires var ids := r.tasks[k].artifactIds;
      && r'.tasks[k].artifactIds == ids && (ids == [] || Last(ids) in r.artifacts)
      && r'.artifacts == if ids == [] then r.artifacts
                         else r.artifacts[Last(ids) := r.artifacts[Last(ids)].(status := Rejected)]
    ensures TaskHome(r', k) && forall a :: OwnArtifactOk(mgr, r', k, a)
  {
    assert TaskHome(r, k);
    forall a ensures OwnArtifactOk(mgr, r', k, a) {
      if a in r.artifacts && r.artifacts[a].taskId == k {
        assert ArtifactHome(r, a) && ArtifactOk(mgr, r, a);
        NotCanonicalYet(mgr, r, k, a);
      }
    }
  }

  lemma RecoverKeeps(mgr: Id, r: Run, id: Id, reason: Id, actor: Id)
    requires Inv(mgr, r) && Recover(mgr, r, id, reason, actor).Ok?
    ensures Inv(mgr, Recover(mgr, r, id, reason, actor).value)
  {
    var r' := Recover(mgr, r, id, reason, actor).value;
    var f := FindFailure(r.failures, id).value;
    var k := f.taskId;
    var action := RecoveryFor(r.tasks[k], f.kind);
    assert TaskHome(r, k);
    assert r'.tasks[k] == RecoveredTask(r.tasks[k], action, f);
    assert TaskEdit(r, r', k) by {
      forall a | a in r.artifacts ensures a in r'.artifacts && KeptArtifact(r, r', k, a) {}
    }
    RecoveredTaskOk(mgr, r, r', k, action, f);
    RejectedArtifactsOk(mgr, r, r', k);
    EditKeeps(mgr, r, r', k);
  }

  // ---- evidence ------------------------------------------------------------------------------

  lemma ReviewingKeeps(mgr: Id, r: Run, k: Id)
    requires Inv(mgr, r) && k in r.tasks && r.tasks[k].status.Submitted?
    ensures Inv(mgr, Put(r, k, r.tasks[k].(status := Reviewing)))
  {
    var r' := Put(r, k, r.tasks[k].(status := Reviewing));
    assert TaskHome(r, k);
    assert TaskEdit(r, r', k);
    ReviewingTaskOk(mgr, r, r', k);
    OwnArtifactsKept(mgr, r, r', k);
    EditKeeps(mgr, r, r', k);
  }

  lemma ReviewingTaskOk(mgr: Id, r: Run, r': Run, k: Id)
    requires Core(mgr, r) && TaskEdit(r, r', k) && r.tasks[k].status.Submitted?
    requires r' == Put(r, k, r.tasks[k].(status := Reviewing))
    ensures TaskCore(r', r'.tasks[k])
  {
    assert TaskCore(r, r.tasks[k]);
    EditView(mgr, r, r', k);
    ResolveFrame(r, r', k);
    assert GatesOpen(r', r'.tasks[k]);
    CandidateFrame(r, r', k);
  }

  lemma CandidateCheckKeeps(mgr: Id, r: Run, a: Id, f: Option<Id>)
    requires Inv(mgr, r) && CandidateCheck(r, a, f).Ok?
    ensures var r' := CandidateCheck(r, a, f).value;
      && Inv(mgr, r') && r'.tasks[r.artifacts[a].taskId].status.Reviewing?
      && r'.artifacts == r.artifacts && r'.accepted == r.accepted
      && r'.tasks.Keys == r.tasks.Keys
      && SameBody(r.tasks[r.artifacts[a].taskId], r'.tasks[r.artifacts[a].taskId])
  {
    var k := r.artifacts[a].taskId;
    if r.tasks[k].status.Submitted? { ReviewingKeeps(mgr, r, k); }
  }

  /** Appending independent evidence on its own digest to a task's current candidate. */
  lemma EvidenceKeeps(mgr: Id, r: Run, a: Id, art: Artifact)
    requires Inv(mgr, r) && a in r.artifacts
    requires var t := r.tasks[r.artifacts[a].taskId]; t.status.Reviewing?
    requires art == r.artifacts[a].(validations := art.validations, reviews := art.reviews)
    requires EvidenceIndependent(mgr, r.tasks[art.taskId], art)
    ensures Inv(mgr, r.(artifacts := r.artifacts[a := art]))
  {
    var r' := r.(artifacts := r.artifacts[a := art]);
    var k := art.taskId;
    assert ArtifactHome(r, a) && TaskHome(r, k);
    assert TaskEdit(r, r', k);
    EvidenceTaskOk(mgr, r, r', k);
    forall x ensures OwnArtifactOk(mgr, r', k, x) {
      if x in r.artifacts && r.artifacts[x].taskId == k {
        assert ArtifactHome(r, x) && ArtifactOk(mgr, r, x);
        NotCanonicalYet(mgr, r, k, x);
      }
    }
    EditKeeps(mgr, r, r', k);
  }

  lemma EvidenceTaskOk(mgr: Id, r: Run, r': Run, k: Id)
    requires Core(mgr, r) && TaskEdit(r, r', k) && r'.tasks == r.tasks && r.tasks[k].status.Reviewing?
    requires r'.artifacts.Keys == r.artifacts.Keys
    requires forall a :: a in r.artifacts ==> SameSource(r.artifacts[a], r'.artifacts[a])
    ensures TaskCore(r', r'.tasks[k])
  {
    assert TaskCore(r, r.tasks[k]);
    EditView(mgr, r, r', k);
    ResolveFrame(r, r', k);
    assert GatesOpen(r', r'.tasks[k]);
    CandidateFrame(r, r', k);
  }

  /** The evidence so far on a task's candidate is independent. */
  lemma UnderReview(mgr: Id, r: Run, a: Id)
    requires Core(mgr, r) && a in r.artifacts && r.artifacts[a].taskId in r.tasks && r.artifacts[a].status.Candidate?
    ensures EvidenceIndependent(mgr, r.tasks[r.artifacts[a].taskId], r.artifacts[a])
  {
    assert ArtifactOk(mgr, r, a);
  }

  lemma ValidateKeeps(mgr: Id, r: Run, a: Id, c: Id, p: bool, e: Id, v: Id, f: Option<Id>)
    requires Inv(mgr, r) && Validate(mgr, r, a, c, p, e, v, f).Ok?
    ensures Inv(mgr, Validate(mgr, r, a, c, p, e, v, f).value)
  {
    CandidateCheckKeeps(mgr, r, a, f);
    var r' := CandidateCheck(r, a, f).value;
    UnderReview(mgr, r', a);
    var art := r'.artifacts[a];
    var art' := art.(validations := art.validations + [Validation(art.digest, c, p, v)]);
    EvidenceKeeps(mgr, r', a, art');
  }

  lemma ReviewKeeps(mgr: Id, r: Run, a: Id, v: Id, p: bool, e: Id, f: Option<Id>)
    requires Inv(mgr, r) && Review(mgr, r, a, v, p, e, f).Ok?
    ensures Inv(mgr, Review(mgr, r, a, v, p, e, f).value)
  {
    CandidateCheckKeeps(mgr, r, a, f);
    var r' := CandidateCheck(r, a, f).value;
    UnderReview(mgr, r', a);
    var art := r'.artifacts[a];
    var art' := art.(reviews := art.reviews + [ReviewRecord(art.digest, v, p)]);
    EvidenceKeeps(mgr, r', a, art');
  }

  // ---- growth: what was settled stays settled --------------------------------------------------

  ghost predicate SettledStay(r: Run, r': Run, k: Id) requires k in r.tasks && k in r'.tasks {
    && SamePacket(r.tasks[k], r'.tasks[k])
    && forall n :: n in Names(r.tasks[k]) && Settles(r, r.tasks[k], n) ==>
         Resolve(r', r'.tasks[k], n) == Resolve(r, r.tasks[k], n)
  }

  ghost predicate Grows(r: Run, r': Run) {
    && r.id == r'.id && r.approvals == r'.approvals && r.decisions == r'.decisions
    && r.revision == r'.revision && r.maxReplans == r'.maxReplans
    && r.accepted <= r'.accepted
    && (forall k :: k in r.tasks ==> k in r'.tasks && SettledStay(r, r', k))
    && (forall a :: a in r.artifacts ==> a in r'.artifacts)
  }

  lemma GrownInputs(r: Run, r': Run, k: Id)
    requires Grows(r, r') && k in r.tasks && Settled(r, r.tasks[k])
    ensures Settled(r', r'.tasks[k]) && InputSet(r, r.tasks[k]) == InputSet(r', r'.tasks[k])
    ensures forall n :: n in Names(r.tasks[k]) ==> Resolve(r', r'.tasks[k], n) == Resolve(r, r.tasks[k], n)
  {
    assert SettledStay(r, r', k);
    forall n | n in Names(r.tasks[k])
      ensures Resolve(r', r'.tasks[k], n) == Resolve(r, r.tasks[k], n) && Settles(r', r'.tasks[k], n)
    {
      assert Settles(r, r.tasks[k], n);
    }
  }

  /** A task the growth did not touch. */
  lemma GrownTask(r: Run, r': Run, k: Id)
    requires Grows(r, r') && k in r.tasks && r'.tasks[k] == r.tasks[k]
    requires TaskHome(r, k) && TaskCore(r, r.tasks[k])
    requires forall a :: a in r.tasks[k].artifactIds ==> r'.artifacts[a] == r.artifacts[a]
    ensures TaskCore(r', r'.tasks[k])
  {
    var t := r.tasks[k];
    if InFlight(t.status) {
      GrownInputs(r, r', k);
      assert GatesOpen(r', t);
    }
  }

  lemma GrownLedgerEntry(r: Run, r': Run, i: nat)
    requires Ledger(r) && Grows(r, r') && i < |r.accepted|
    requires LocallyAccepted(r', r.accepted[i]) && r.accepted[i] in r.artifacts
    requires SameSource(r.artifacts[r.accepted[i]], r'.artifacts[r.accepted[i]])
    ensures Sourced(r', r'.accepted[i], r'.accepted[..i])
  {
    var a := r.accepted[i];
    assert Sourced(r, a, r.accepted[..i]);
    assert r'.accepted[..i] == r.accepted[..i];
    var k := r.artifacts[a].taskId;
    forall n | n in Names(r.tasks[k]) ensures Settles(r, r.tasks[k], n) {
      assert SourcedName(r, r.tasks[k], n, r.accepted[..i]);
    }
    GrownInputs(r, r', k);
    forall n | n in Names(Producer(r', a)) ensures SourcedName(r', Producer(r', a), n, r'.accepted[..i]) {
      assert SourcedName(r, Producer(r, a), n, r.accepted[..i]);
    }
  }

  // ---- acceptance ------------------------------------------------------------------------------

  /** The state between acceptance and the refresh that follows it. */
  function Accepting(r: Run, k: Id, a: Id): Run
    requires k in r.tasks && a in r.artifacts
  {
    Put(r, k, r.tasks[k].(status := Accepted))
      .(artifacts := r.artifacts[a := r.artifacts[a].(status := Canonical)], accepted := r.accepted + [a])
  }

  ghost predicate Acceptable(mgr: Id, r: Run, k: Id, a: Id) {
    && k in r.tasks && a in r.artifacts && r.artifacts[a].taskId == k
    && r.tasks[k].status.Reviewing? && EvidenceComplete(mgr, r.tasks[k], r.artifacts[a])
    && r.tasks[k].artifactIds != [] && Last(r.tasks[k].artifactIds) == a
  }

  lemma AcceptingGrows(mgr: Id, r: Run, k: Id, a: Id)
    requires Core(mgr, r) && Acceptable(mgr, r, k, a)
    ensures Grows(r, Accepting(r, k, a)) && a !in r.accepted
  {
    var r' := Accepting(r, k, a);
    NotCanonicalYet(mgr, r, k, a);
    forall j | j in r.tasks ensures SettledStay(r, r', j) {}
  }

  lemma AcceptingEntry(mgr: Id, r: Run, k: Id, a: Id, i: nat)
    requires Core(mgr, r) && Acceptable(mgr, r, k, a) && i <= |r.accepted|
    ensures var r' := Accepting(r, k, a); Sourced(r', r'.accepted[i], r'.accepted[..i])
  {
    var r' := Accepting(r, k, a);
    AcceptingGrows(mgr, r, k, a);
    if i < |r.accepted| {
      assert Sourced(r, r.accepted[i], r.accepted[..i]);
      GrownLedgerEntry(r, r', i);
    } else {
      assert ArtifactHome(r, a) && TaskCore(r, r.tasks[k]);
      GrownInputs(r, r', k);
      assert r'.accepted[..i] == r.accepted && r'.accepted[i] == a;
      forall n | n in Names(r.tasks[k]) ensures SourcedName(r', r'.tasks[k], n, r.accepted) {
        assert Settles(r, r.tasks[k], n);
      }
    }
  }

  lemma AcceptingLedger(mgr: Id, r: Run, k: Id, a: Id)
    requires Core(mgr, r) && Acceptable(mgr, r, k, a)
    ensures Ledger(Accepting(r, k, a))
  {
    var r' := Accepting(r, k, a);
    AcceptingGrows(mgr, r, k, a);
    forall i | 0 <= i < |r'.accepted| ensures Sourced(r', r'.accepted[i], r'.accepted[..i]) {
      AcceptingEntry(mgr, r, k, a, i);
    }
  }

  lemma AcceptingTask(mgr: Id, r: Run, k: Id, a: Id, j: Id)
    requires Core(mgr, r) && Acceptable(mgr, r, k, a) && j in r.tasks
    ensures TaskHome(Accepting(r, k, a), j) && TaskCore(Accepting(r, k, a), Accepting(r, k, a).tasks[j])
  {
    AcceptingGrows(mgr, r, k, a);
    assert TaskHome(r, j) && TaskCore(r, r.tasks[j]);
    if j != k { GrownTask(r, Accepting(r, k, a), j); }
  }

  lemma NewlyAccepted(mgr: Id, r: Run, k: Id, a: Id)
    requires Core(mgr, r) && Acceptable(mgr, r, k, a)
    ensures ArtifactHome(Accepting(r, k, a), a) && ArtifactOk(mgr, Accepting(r, k, a), a)
  {
    assert ArtifactHome(r, a);
  }

  lemma NotNewlyAccepted(mgr: Id, r: Run, k: Id, a: Id, x: Id)
    requires Core(mgr, r) && Acceptable(mgr, r, k, a) && x in r.artifacts && x != a
    ensures ArtifactHome(Accepting(r, k, a), x)
    ensures r.artifacts[x].taskId == k ==> !r.artifacts[x].status.Candidate? && !r.artifacts[x].status.Canonical?
  {
    assert ArtifactHome(r, x) && ArtifactOk(mgr, r, x);
    if r.artifacts[x].taskId == k { NotCanonicalYet(mgr, r, k, x); }
  }

  lemma AcceptingArtifact(mgr: Id, r: Run, k: Id, a: Id, x: Id)
    requires Core(mgr, r) && Acceptable(mgr, r, k, a) && x in r.artifacts
    ensures ArtifactHome(Accepting(r, k, a), x) && ArtifactOk(mgr, Accepting(r, k, a), x)
  {
    if x == a {
      NewlyAccepted(mgr, r, k, a);
    } else {
      assert ArtifactOk(mgr, r, x);
      NotNewlyAccepted(mgr, r, k, a, x);
    }
  }

  lemma AcceptingKeeps(mgr: Id, r: Run, k: Id, a: Id)
    requires Core(mgr, r) && Acceptable(mgr, r, k, a)
    ensures Core(mgr, Accepting(r, k, a))
  {
    var r' := Accepting(r, k, a);
    AcceptingLedger(mgr, r, k, a);
    forall j | j in r'.tasks ensures TaskHome(r', j) && TaskCore(r', r'.tasks[j]) {
      AcceptingTask(mgr, r, k, a, j);
    }
    forall x | x in r'.artifacts ensures ArtifactHome(r', x) && ArtifactOk(mgr, r', x) {
      AcceptingArtifact(mgr, r, k, a, x);
    }
  }

  lemma GatePassed(mgr: Id, t: Task, art: Artifact)
    requires EvidenceIndependent(mgr, t, art) && EvidenceGate(mgr, t, art).None?
    ensures EvidenceComplete(mgr, t, art)
  {}

  lemma AcceptIsRefresh(mgr: Id, r: Run, k: Id, caller: Option<Id>, reason: Id, f: Option<Id>)
    requires Inv(mgr, r) && Accept(mgr, r, k, caller, reason, f).Ok?
    ensures k in r.tasks && r.tasks[k].artifactIds != []
    ensures var a := Last(r.tasks[k].artifactIds);
      && CandidateCheck(r, a, f).Ok? && r.artifacts[a].taskId == k
      && var r' := CandidateCheck(r, a, f).value;
         Inv(mgr, r') && Acceptable(mgr, r', k, a)
         && Accept(mgr, r, k, caller, reason, f).value == Refresh(Accepting(r', k, a))
  {
    assert TaskHome(r, k);
    var a := Last(r.tasks[k].artifactIds);
    CandidateCheckKeeps(mgr, r, a, f);
    var r' := CandidateCheck(r, a, f).value;
    UnderReview(mgr, r', a);
    GatePassed(mgr, r'.tasks[k], r'.artifacts[a]);
  }

  lemma AcceptKeeps(mgr: Id, r: Run, k: Id, caller: Option<Id>, reason: Id, f: Option<Id>)
    requires Inv(mgr, r) && Accept(mgr, r, k, caller, reason, f).Ok?
    ensures Inv(mgr, Accept(mgr, r, k, caller, reason, f).value)
  {
    AcceptIsRefresh(mgr, r, k, caller, reason, f);
    var a := Last(r.tasks[k].artifactIds);
    var r' := CandidateCheck(r, a, f).value;
    AcceptingKeeps(mgr, r', k, a);
    RefreshEstablishes(mgr, Accepting(r', k, a));
  }
}
