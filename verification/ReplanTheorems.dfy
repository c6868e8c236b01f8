/** What a replan leaves alone, and when it needs no human. */
module ReplanTheorems {
  import opened Base
  import opened RunModel
  import opened KernelOps
  import opened Lineage
  import opened PlanGraph
  import opened KernelInvariant
  import opened R = Replanning
  import opened ReplanSteps

  // ---- what a replan leaves alone ----------------------------------------------------------------

  predicate RefreshMayMove(s: Status) { s.Planned? || s.Ready? || s.Blocked? }

  lemma RefreshLeaves(run: Run, k: Id)
    requires k in run.tasks
    ensures k in Refresh(run).tasks && SameBody(run.tasks[k], Refresh(run).tasks[k])
    ensures !RefreshMayMove(run.tasks[k].status) ==> Refresh(run).tasks[k] == run.tasks[k]
  {}

  ghost predicate LeftAlone(r: Run, r': Run, s: set<Id>) {
    && (forall k :: k in r.tasks && k !in s ==> k in r'.tasks && Unmoved(r.tasks[k], r'.tasks[k]))
    && r'.artifacts.Keys == r.artifacts.Keys
    && (forall a :: a in r.artifacts && a !in ArtifactsOf(r, s) ==> r'.artifacts[a] == r.artifacts[a])
    && r'.accepted == Without(r.accepted, ArtifactsOf(r, s))
  }

  predicate Unmoved(t: Task, t': Task) { SameBody(t, t') && (!RefreshMayMove(t.status) ==> t' == t) }

  lemma OutcomeLeavesAlone(r: Run, r1: Run, s: set<Id>)
    requires ReplanOutcome(r, r1, s)
    ensures LeftAlone(r, Refresh(r1), s)
  {
    forall k | k in r.tasks && k !in s ensures k in r1.tasks && Unmoved(r.tasks[k], Refresh(r1).tasks[k]) {
      assert TaskOutcome(r, r1, s, k);
      RefreshLeaves(r1, k);
    }
    forall a | a in r.artifacts && a !in ArtifactsOf(r, s) ensures r1.artifacts[a] == r.artifacts[a] {
      assert ArtifactOutcome(r, r1, s, a);
    }
  }

  /** `apply_replan` touches no task and no artifact outside the affected closure: of such a task
      at most the status and blocker move, and those only by the final refresh; the accepted list
      loses exactly the artifacts of affected tasks and keeps its order. */
  lemma ReplanTouchesOnlyAffected(r: Run, id: Id)
    requires Apply(r, id).Ok?
    ensures LeftAlone(r, Apply(r, id).value, Affected(r, r.replans[id]))
  {
    ApplyIsRefresh(r, id);
    var p := r.replans[id];
    ReplannedOutcome(r, p);
    OutcomeLeavesAlone(r, Replanned(r, p, Affected(r, p)).(revision := r.revision + 1), Affected(r, p));
  }

  // ---- materiality -----------------------------------------------------------------------------

  /** The same packet, and everything a human was shown about the task besides its progress. */
  predicate SameDefinition(t: Task, t': Task) {
    && t'.id == t.id && t'.deps == t.deps && t'.inputs == t.inputs && t'.criteria == t.criteria
    && t'.capability == t.capability && t'.workspace == t.workspace && t'.requiredChecks == t.requiredChecks
    && t'.reviewRequired == t.reviewRequired && t'.highRisk == t.highRisk && t'.gates == t.gates
    && t'.maxAttempts == t.maxAttempts && t'.maxRevisions == t.maxRevisions
  }

  /** Such a proposal only invalidates. */
  lemma ImmaterialIsInvalidation(r: Run, p: Proposal, s: set<Id>)
    requires p.add == [] && p.deps == map[]
    ensures Replanned(r, p, s) == Invalidate(r, p, s)
  {
    var cleared := Invalidate(r, p, s);
    assert (map k | k in cleared.tasks :: Rewired(r, p, k, cleared.tasks[k])) == cleared.tasks;
  }

  lemma ImmaterialKeepsAccepted(mgr: Id, r: Run, p: Proposal)
    requires Inv(mgr, r) && Immaterial(r, p)
    ensures Invalidate(r, p, Affected(r, p)).accepted == r.accepted
  {
    var s := Affected(r, p);
    AffectedIsLeast(r, p);
    forall a | a in r.accepted ensures a !in ArtifactsOf(r, s) {
      var i :| 0 <= i < |r.accepted| && r.accepted[i] == a;
      assert Sourced(r, a, r.accepted[..i]);
      GoneArtifacts(mgr, r, s, a);
    }
    NothingGone(r.accepted, ArtifactsOf(r, s));
  }

  lemma ImmaterialTask(p: Proposal, k: Id, t: Task, r1: Run, t1: Task)
    requires t1 == t || (k !in p.remove && !t.status.Accepted? && t1 == InvalidatedTask(p, k, t))
    ensures SameDefinition(t, RefreshTask(r1, t1)) && (t.status.Accepted? ==> RefreshTask(r1, t1) == t)
  {}

  ghost predicate OnlyProgressMoved(r: Run, r': Run) {
    && r'.tasks.Keys == r.tasks.Keys
    && (forall k :: k in r.tasks ==> SameDefinition(r.tasks[k], r'.tasks[k]))
    && (forall k :: k in r.tasks && r.tasks[k].status.Accepted? ==> r'.tasks[k] == r.tasks[k])
    && r'.accepted == r.accepted
  }

  lemma RefreshedTasks(r1: Run)
    ensures Refresh(r1).tasks.Keys == r1.tasks.Keys
    ensures forall k :: k in r1.tasks ==> Refresh(r1).tasks[k] == RefreshTask(r1, r1.tasks[k])
  {}

  lemma ImmaterialTasks(r: Run, p: Proposal, r1: Run)
    requires Immaterial(r, p) && r1.tasks == Invalidate(r, p, Affected(r, p)).tasks
    ensures Refresh(r1).tasks.Keys == r.tasks.Keys
    ensures forall k :: k in r.tasks ==> SameDefinition(r.tasks[k], Refresh(r1).tasks[k])
    ensures forall k :: k in r.tasks && r.tasks[k].status.Accepted? ==> Refresh(r1).tasks[k] == r.tasks[k]
  {
    RefreshedTasks(r1);
    forall k | k in r.tasks
      ensures SameDefinition(r.tasks[k], RefreshTask(r1, r1.tasks[k]))
      ensures r.tasks[k].status.Accepted? ==> RefreshTask(r1, r1.tasks[k]) == r.tasks[k]
    {
      ImmaterialTask(p, k, r.tasks[k], r1, r1.tasks[k]);
    }
  }

  lemma ImmaterialOutcome(mgr: Id, r: Run, p: Proposal)
    requires Inv(mgr, r) && Immaterial(r, p)
    ensures OnlyProgressMoved(r, Refresh(Replanned(r, p, Affected(r, p)).(revision := r.revision + 1)))
  {
    ImmaterialIsInvalidation(r, p, Affected(r, p));
    ImmaterialKeepsAccepted(mgr, r, p);
    ImmaterialTasks(r, p, Replanned(r, p, Affected(r, p)).(revision := r.revision + 1));
  }

  /** Applying a proposal with no materiality reason changes no packet, adds and drops no task,
      and leaves accepted tasks and the accepted list exactly as they were. */
  lemma ImmaterialReplan(mgr: Id, r: Run, id: Id)
    requires Inv(mgr, r) && id in r.replans && Immaterial(r, r.replans[id]) && Apply(r, id).Ok?
    ensures OnlyProgressMoved(r, Apply(r, id).value)
  {
    ApplyIsRefresh(r, id);
    ImmaterialOutcome(mgr, r, r.replans[id]);
  }
}
