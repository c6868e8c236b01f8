/** What every reachable run satisfies.  The lineage part is stated locally: the accepted
    list is in an order in which every artifact's inputs come earlier. */
module KernelInvariant {
  import opened Base
  import opened RunModel
  import opened KernelOps
  import opened Lineage

  // ---- the predicates ------------------------------------------------------------------

  ghost predicate ArtifactHome(run: Run, a: Id) requires a in run.artifacts {
    var art := run.artifacts[a];
    && art.runId == run.id && art.taskId in run.tasks && a in run.tasks[art.taskId].artifactIds
    && art.digest == Digest(art.content) && a !in run.inputs
  }

  ghost predicate TaskHome(run: Run, k: Id) requires k in run.tasks {
    && run.tasks[k].id == k && k !in run.artifacts && k !in run.inputs
    && forall a :: a in run.tasks[k].artifactIds ==> a in run.artifacts && run.artifacts[a].taskId == k
  }

  ghost predicate Shape(run: Run) {
    && (forall a :: a in run.artifacts ==> ArtifactHome(run, a))
    && (forall k :: k in run.tasks ==> TaskHome(run, k))
    && run.revision <= run.maxReplans
  }

  /** A declared name stands for a registered input or for an accepted artifact. */
  predicate Settles(run: Run, t: Task, n: Id) {
    var r := Resolve(run, t, n);
    r.External? || (r.ToArtifact? && r.id in run.accepted)
  }

  ghost predicate Settled(run: Run, t: Task) { forall n :: n in Names(t) ==> Settles(run, t, n) }

  /** Readiness, read off the accepted list. */
  ghost predicate Open(run: Run, t: Task) { Settled(run, t) && GatesOpen(run, t) }

  ghost predicate SourcedName(run: Run, t: Task, n: Id, earlier: seq<Id>) {
    var r := Resolve(run, t, n);
    r.External? || (r.ToArtifact? && r.id in earlier)
  }

  ghost predicate Sourced(run: Run, a: Id, earlier: seq<Id>) {
    && LocallyAccepted(run, a)
    && ProvenanceMatches(run, Producer(run, a), a)
    && forall n :: n in Names(Producer(run, a)) ==> SourcedName(run, Producer(run, a), n, earlier)
  }

  ghost predicate Ledger(run: Run) {
    && NoDuplicates(run.accepted)
    && (forall i :: 0 <= i < |run.accepted| ==> Sourced(run, run.accepted[i], run.accepted[..i]))
    && (forall a :: a in run.artifacts && run.artifacts[a].status.Canonical? ==> a in run.accepted)
    && (forall k :: k in run.tasks && run.tasks[k].status.Accepted? ==>
          run.tasks[k].artifactIds != [] && Last(run.tasks[k].artifactIds) in run.accepted)
  }

  ghost predicate ApprovalsOk(run: Run) {
    && (forall r :: r in run.decisions ==> r in run.approvals)
    && (forall r :: r in run.approvals && run.approvals[r].status.ApprovalGranted? ==>
          r in run.decisions && run.decisions[r])
    && (forall r :: r in run.approvals && run.approvals[r].status.ApprovalPending? ==> r !in run.decisions)
  }

  ghost predicate BudgetOk(run: Run, t: Task) {
    && t.attemptBaseline <= t.attempts <= t.attemptBaseline + t.maxAttempts
    && t.attemptBaseline <= t.maxAttempts * run.revision
  }

  /** A submitted candidate still cites exactly what its task's names resolve to. */
  ghost predicate CandidateOk(run: Run, t: Task) {
    && t.artifactIds != [] && Last(t.artifactIds) in run.artifacts
    && run.artifacts[Last(t.artifactIds)].status.Candidate?
    && ProvenanceMatches(run, t, Last(t.artifactIds))
  }

  ghost predicate TaskCore(run: Run, t: Task) {
    && (InFlight(t.status) ==> Open(run, t) && t.assignment.Some?)
    && (t.status.Submitted? || t.status.Reviewing? ==> CandidateOk(run, t))
    && BudgetOk(run, t)
  }

  /** What a refresh establishes: nothing left to promote or demote. */
  ghost predicate TaskRefreshed(run: Run, t: Task) {
    && (t.status.Ready? ==> Open(run, t))
    && (t.status.Planned? ==> !Open(run, t))
    && (t.status.Blocked? && Refreshable(t) ==> !Open(run, t))
  }

  /** Evidence is on the artifact's own digest and from neither manager nor workers. */
  ghost predicate EvidenceIndependent(mgr: Id, t: Task, art: Artifact) {
    && DigestsMatch(art)
    && (forall v :: v in art.validations ==> v.validator != mgr && v.validator !in Workers(t))
    && (forall r :: r in art.reviews ==> r.reviewer != mgr && r.reviewer !in Workers(t))
  }

  ghost predicate EvidenceComplete(mgr: Id, t: Task, art: Artifact) {
    && EvidenceIndependent(mgr, t, art) && mgr !in Workers(t)
    && ChecksPassed(t, art)
    && (ReviewNeeded(t) ==> art.reviews != [] && Last(art.reviews).passed)
    && (t.requiredChecks == [] ==> art.reviews != [])
  }

  ghost predicate ArtifactOk(mgr: Id, run: Run, a: Id)
    requires a in run.artifacts && run.artifacts[a].taskId in run.tasks
  {
    var art := run.artifacts[a];
    var t := run.tasks[art.taskId];
    && (art.status.Candidate? ==>
          && t.artifactIds != [] && Last(t.artifactIds) == a
          && (t.status.Submitted? || t.status.Reviewing? || t.status.Failed?)
          && EvidenceIndependent(mgr, t, art))
    && (art.status.Canonical? ==> EvidenceComplete(mgr, t, art))
  }

  ghost predicate Core(mgr: Id, run: Run) {
    && Shape(run) && Ledger(run) && ApprovalsOk(run)
    && (forall k :: k in run.tasks ==> TaskCore(run, run.tasks[k]))
    && (forall a :: a in run.artifacts ==> ArtifactOk(mgr, run, a))
  }

  ghost predicate Inv(mgr: Id, run: Run) {
    Core(mgr, run) && forall k :: k in run.tasks ==> TaskRefreshed(run, run.tasks[k])
  }

  // ---- from the accepted list to the full lineage --------------------------------------

  lemma {:induction false} AcceptedIsCanonicalWithin(run: Run, i: nat)
    requires Ledger(run) && i < |run.accepted|
    ensures CanonicalWithin(run, run.accepted[i], i + 1)
    decreases i
  {
    var a := run.accepted[i];
    assert Sourced(run, a, run.accepted[..i]);
    var t := Producer(run, a);
    forall n | n in Names(t) ensures NameWithin(run, t, n, i) {
      assert SourcedName(run, t, n, run.accepted[..i]);
      if Resolve(run, t, n).ToArtifact? {
        var x := Resolve(run, t, n).id;
        var j :| 0 <= j < i && run.accepted[j] == x;
        AcceptedIsCanonicalWithin(run, j);
        WithinMonotone(run, x, j + 1, i);
      }
    }
  }

  /** Under the ledger invariant, canonical means listed as accepted. */
  lemma CanonicalIsListed(run: Run, a: Id)
    requires Ledger(run)
    ensures IsCanonical(run, a) <==> a in run.accepted
  {
    if a in run.accepted {
      var i :| 0 <= i < |run.accepted| && run.accepted[i] == a;
      AcceptedIsCanonicalWithin(run, i);
      assert HasDepth(run, a, i + 1);
    }
    CanonicalUnfolds(run, a);
  }

  lemma ReadyIsOpen(run: Run, t: Task)
    requires Ledger(run)
    ensures InputsCanonical(run, t) <==> Settled(run, t)
    ensures IsReady(run, t) <==> Open(run, t)
  {
    forall n | n in Names(t) ensures NameCanonical(run, t, n) <==> Settles(run, t, n) {
      var r := Resolve(run, t, n);
      if r.ToArtifact? { CanonicalIsListed(run, r.id); }
    }
    if Settled(run, t) {
      forall n | n in Names(t) ensures NameCanonical(run, t, n) { assert Settles(run, t, n); }
    }
    if InputsCanonical(run, t) {
      forall n | n in Names(t) ensures Settles(run, t, n) { assert NameCanonical(run, t, n); }
    }
  }

  // ---- frames ----------------------------------------------------------------------------

  predicate SamePacket(t: Task, t': Task) { t.id == t'.id && t.deps == t'.deps && t.inputs == t'.inputs }

  /** Neither task is accepted, or both are, with the same artifacts. */
  predicate SameStanding(t: Task, t': Task) {
    && SamePacket(t, t') && (t.status.Accepted? <==> t'.status.Accepted?)
    && (t.status.Accepted? ==> t.artifactIds == t'.artifactIds)
  }

  predicate SameSource(x: Artifact, y: Artifact) {
    x.runId == y.runId && x.taskId == y.taskId && x.status == y.status && x.inputIds == y.inputIds
  }

  /** Every name declared in r resolves in r' as it did. */
  ghost predicate SameView(r: Run, r': Run) {
    && r.id == r'.id && r.tasks.Keys == r'.tasks.Keys && r.inputs.Keys == r'.inputs.Keys
    && r.accepted == r'.accepted
    && (forall k :: k in r.tasks ==> SameStanding(r.tasks[k], r'.tasks[k]))
    && (forall k, n :: k in r.tasks && n in Names(r.tasks[k]) ==> (n in r.artifacts <==> n in r'.artifacts))
    && (forall a :: a in r.accepted && a in r.artifacts ==>
          a in r'.artifacts && SameSource(r.artifacts[a], r'.artifacts[a]))
  }

  lemma ResolveFrame(r: Run, r': Run, k: Id)
    requires SameView(r, r') && k in r.tasks
    ensures forall n :: n in Names(r.tasks[k]) ==>
      Resolve(r, r.tasks[k], n) == Resolve(r', r'.tasks[k], n)
    ensures InputSet(r, r.tasks[k]) == InputSet(r', r'.tasks[k])
    ensures Settled(r, r.tasks[k]) <==> Settled(r', r'.tasks[k])
  {
    var t, t' := r.tasks[k], r'.tasks[k];
    assert SameStanding(t, t');
    forall n | n in Names(t) ensures Resolve(r, t, n) == Resolve(r', t', n) {
      if n in r.tasks { assert SameStanding(r.tasks[n], r'.tasks[n]); }
    }
    if Settled(r, t) {
      forall n | n in Names(t') ensures Settles(r', t', n) { assert Settles(r, t, n); }
    }
    if Settled(r', t') {
      forall n | n in Names(t) ensures Settles(r, t, n) { assert Settles(r', t', n); }
    }
  }

  lemma LedgerFrame(r: Run, r': Run)
    requires Ledger(r) && SameView(r, r')
    requires forall a :: a in r'.artifacts && r'.artifacts[a].status.Canonical? ==> a in r.accepted
    ensures Ledger(r')
  {
    forall i | 0 <= i < |r'.accepted| ensures Sourced(r', r'.accepted[i], r'.accepted[..i]) {
      var a := r.accepted[i];
      assert Sourced(r, a, r.accepted[..i]);
      var k := r.artifacts[a].taskId;
      assert SameStanding(r.tasks[k], r'.tasks[k]);
      ResolveFrame(r, r', k);
      forall n | n in Names(Producer(r', a)) ensures SourcedName(r', Producer(r', a), n, r'.accepted[..i]) {
        assert SourcedName(r, Producer(r, a), n, r.accepted[..i]);
      }
    }
    forall k | k in r'.tasks && r'.tasks[k].status.Accepted?
      ensures r'.tasks[k].artifactIds != [] && Last(r'.tasks[k].artifactIds) in r'.accepted
    {
      assert SameStanding(r.tasks[k], r'.tasks[k]);
    }
  }

  // ---- refresh ---------------------------------------------------------------------------

  lemma RefreshView(run: Run)
    ensures SameView(run, Refresh(run))
  {}

  /** Two tasks that agree on everything but status and blocker. */
  predicate SameBody(t: Task, t': Task) { t' == t.(status := t'.status, blocker := t'.blocker) }

  lemma CandidateFrame(r: Run, r': Run, k: Id)
    requires SameView(r, r') && k in r.tasks && CandidateOk(r, r.tasks[k])
    requires r'.tasks[k].artifactIds == r.tasks[k].artifactIds
    requires var a := Last(r.tasks[k].artifactIds); a in r'.artifacts && SameSource(r.artifacts[a], r'.artifacts[a])
    ensures CandidateOk(r', r'.tasks[k])
  {
    ResolveFrame(r, r', k);
  }

  lemma RefreshKeepsOpen(run: Run, k: Id)
    requires k in run.tasks
    ensures Open(Refresh(run), Refresh(run).tasks[k]) <==> Open(run, run.tasks[k])
  {
    RefreshView(run);
    ResolveFrame(run, Refresh(run), k);
    assert SameBody(run.tasks[k], Refresh(run).tasks[k]);
    assert GatesOpen(run, run.tasks[k]) <==> GatesOpen(Refresh(run), Refresh(run).tasks[k]);
  }

  lemma RefreshKeepsCandidate(run: Run, k: Id)
    requires k in run.tasks && CandidateOk(run, run.tasks[k])
    ensures CandidateOk(Refresh(run), Refresh(run).tasks[k])
  {
    RefreshView(run);
    assert SameBody(run.tasks[k], Refresh(run).tasks[k]);
    CandidateFrame(run, Refresh(run), k);
  }

  /** What a refresh makes of one task, given which tasks are open. */
  predicate RefreshOutcome(t: Task, t': Task, open: bool) {
    && SameBody(t, t')
    && (t'.status == t.status || (!InFlight(t.status) && !InFlight(t'.status)))
    && (t'.status.Ready? ==> open) && (t'.status.Planned? ==> !open)
    && (t'.status.Blocked? && Refreshable(t') ==> !open)
  }

  lemma RefreshDecides(run: Run, t: Task)
    requires Ledger(run)
    ensures RefreshOutcome(t, RefreshTask(run, t), Open(run, t))
  {
    ReadyIsOpen(run, t);
  }

  lemma RefreshedTask(mgr: Id, run: Run, k: Id)
    requires Core(mgr, run) && k in run.tasks
    ensures var r' := Refresh(run); TaskCore(r', r'.tasks[k]) && TaskRefreshed(r', r'.tasks[k])
  {
    assert TaskCore(run, run.tasks[k]);
    assert Refresh(run).tasks[k] == RefreshTask(run, run.tasks[k]);
    RefreshDecides(run, run.tasks[k]);
    RefreshKeepsOpen(run, k);
    if CandidateOk(run, run.tasks[k]) { RefreshKeepsCandidate(run, k); }
  }

  lemma RefreshedArtifact(mgr: Id, run: Run, a: Id)
    requires Core(mgr, run) && a in run.artifacts
    ensures var r' := Refresh(run); ArtifactHome(r', a) && ArtifactOk(mgr, r', a)
  {
    assert ArtifactHome(run, a) && ArtifactOk(mgr, run, a);
    var t := run.tasks[run.artifacts[a].taskId];
    assert SameBody(t, RefreshTask(run, t));
  }

  /** A refresh pass establishes the full invariant. */
  lemma RefreshEstablishes(mgr: Id, run: Run)
    requires Core(mgr, run)
    ensures Inv(mgr, Refresh(run))
  {
    var r' := Refresh(run);
    RefreshView(run);
    LedgerFrame(run, r');
    forall k | k in run.tasks
      ensures TaskCore(r', r'.tasks[k]) && TaskRefreshed(r', r'.tasks[k]) && TaskHome(r', k)
    {
      RefreshedTask(mgr, run, k);
      assert TaskHome(run, k) && SameBody(run.tasks[k], r'.tasks[k]);
    }
    forall a | a in run.artifacts ensures ArtifactHome(r', a) && ArtifactOk(mgr, r', a) {
      RefreshedArtifact(mgr, run, a);
    }
  }
}
