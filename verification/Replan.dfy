/** Replanning: structural defects, the affected closure, materiality and application. */
module Replanning {
  import opened Base
  import opened RunModel
  import opened KernelOps
  import Lineage
  import PlanGraph

  // ---- the affected closure ------------------------------------------------------------

  function Seeds(run: Run, p: Proposal): set<Id> {
    (Elements(p.reopen) + Elements(p.remove) + p.deps.Keys) * run.tasks.Keys
  }

  /** The artifacts of a set of tasks. */
  function ArtifactsOf(run: Run, s: set<Id>): set<Id> {
    set k, a | k in s && k in run.tasks && a in run.tasks[k].artifactIds :: a
  }

  predicate Declares(t: Task, pool: set<Id>) { exists n :: n in Names(t) && n in pool }

  /** Task k declares a member of s, or an artifact of one. */
  predicate ConsumesFrom(run: Run, s: set<Id>, k: Id) requires k in run.tasks {
    Declares(run.tasks[k], s + ArtifactsOf(run, s))
  }

  ghost predicate ClosedUnderConsumers(run: Run, s: set<Id>) {
    forall k :: k in run.tasks && ConsumesFrom(run, s, k) ==> k in s
  }

  ghost predicate Encloses(run: Run, p: Proposal, s: set<Id>) {
    Seeds(run, p) <= s && ClosedUnderConsumers(run, s)
  }

  ghost predicate InEveryEnclosure(run: Run, p: Proposal, k: Id) {
    forall s: set<Id> :: Encloses(run, p, s) ==> k in s
  }

  /** What a proposal resets: the tasks in every set that holds the seeds and is closed
      under consumption. */
  ghost function Affected(run: Run, p: Proposal): set<Id> {
    set k | k in run.tasks && InEveryEnclosure(run, p, k)
  }

  lemma {:induction false} AffectedIsLeast(run: Run, p: Proposal)
    ensures Encloses(run, p, Affected(run, p)) && Affected(run, p) <= run.tasks.Keys
    ensures forall s: set<Id> :: Encloses(run, p, s) ==> Affected(run, p) <= s
  {
    var least := Affected(run, p);
    forall k | k in run.tasks && ConsumesFrom(run, least, k) ensures k in least {
      forall s: set<Id> | Encloses(run, p, s) ensures k in s {
        assert least <= s;
        assert ArtifactsOf(run, least) <= ArtifactsOf(run, s);
        assert ConsumesFrom(run, s, k);
      }
    }
  }

  ghost predicate RoundSettled(run: Run, s: set<Id>, k: Id) {
    k in run.tasks && ConsumesFrom(run, s, k) ==> k in s
  }

  lemma PoolsGrow(run: Run, before: set<Id>, affected: set<Id>, least: set<Id>, k: Id)
    requires before <= affected <= least && k in run.tasks && ClosedUnderConsumers(run, least)
    requires Declares(run.tasks[k], affected + ArtifactsOf(run, before))
    ensures k in least
  {
    assert ArtifactsOf(run, before) <= ArtifactsOf(run, least);
    var n :| n in Names(run.tasks[k]) && n in affected + ArtifactsOf(run, before);
    assert n in least + ArtifactsOf(run, least);
    assert ConsumesFrom(run, least, k);
  }

  /** One round over the tasks: the tested set grows, the artifact set stays as it was at
      the start of the round. */
  method AffectedRound(run: Run, order: seq<Id>, before: set<Id>, ghost least: set<Id>)
    returns (affected: set<Id>, changed: bool)
    requires Elements(order) == run.tasks.Keys
    requires before <= least && ClosedUnderConsumers(run, least)
    ensures before <= affected <= least && (changed <==> affected != before)
    ensures !changed ==> ClosedUnderConsumers(run, before)
  {
    affected, changed := before, false;
    var artifactIds := ArtifactsOf(run, before);
    for i := 0 to |order|
      invariant before <= affected <= least
      invariant changed <==> affected != before
      invariant !changed ==> forall l :: 0 <= l < i ==> RoundSettled(run, before, order[l])
    {
      var key := order[i];
      assert key in Elements(order);
      if key !in affected && Declares(run.tasks[key], affected + artifactIds) {
        PoolsGrow(run, before, affected, least, key);
        affected := affected + {key};
        changed := true;
      }
    }
    if !changed {
      forall k | k in run.tasks && ConsumesFrom(run, before, k) ensures k in before {
        assert k in Elements(order);
        var l :| 0 <= l < |order| && order[l] == k;
        assert RoundSettled(run, before, order[l]);
      }
    }
  }

  /** `_replan_affected`: rounds until one adds nothing. */
  method ReplanAffected(run: Run, p: Proposal, order: seq<Id>) returns (affected: set<Id>)
    requires Elements(order) == run.tasks.Keys
    ensures affected == Affected(run, p)
  {
    AffectedIsLeast(run, p);
    ghost var least := Affected(run, p);
    affected := Seeds(run, p);
    var changed := true;
    while changed
      invariant Seeds(run, p) <= affected <= least
      invariant !changed ==> ClosedUnderConsumers(run, affected)
      decreases least - affected, changed
    {
      ghost var before := affected;
      affected, changed := AffectedRound(run, order, affected, least);
      if changed {
        assert least - affected < least - before;
      }
    }
    assert Encloses(run, p, affected);
  }

  // ---- defects and the projection ------------------------------------------------------

  predicate AddsAreUnique(add: seq<Task>) {
    forall i, j :: 0 <= i < j < |add| ==> add[i].id != add[j].id
  }

  predicate AddIsSound(run: Run, t: Task) {
    && IsFresh(run, t) && t.id !in run.inputs && t.id !in run.artifacts && ChecksFit(t, t.capability)
  }

  /** The checks `_replan_defects` makes before it looks at the resulting graph. */
  predicate StructureOk(run: Run, p: Proposal) {
    && Elements(p.reopen) <= run.tasks.Keys && Elements(p.remove) <= run.tasks.Keys
    && p.deps.Keys <= run.tasks.Keys
    && Elements(p.reopen) !! Elements(p.remove)
    && AddsAreUnique(p.add)
    && (forall t :: t in p.add ==> AddIsSound(run, t))
    && run.revision < run.maxReplans
  }

  function AddAll(tasks: map<Id, Task>, add: seq<Task>): (r: map<Id, Task>)
    decreases |add|
    ensures r.Keys == tasks.Keys + set t | t in add :: t.id
  {
    if add == [] then tasks else AddAll(tasks[add[0].id := add[0]], add[1..])
  }

  function Rewired(run: Run, p: Proposal, k: Id, t: Task): Task {
    if k in p.deps then t.(deps := p.deps[k]) else t
  }

  function ProjectedTask(run: Run, p: Proposal, k: Id): Task requires k in run.tasks {
    Rewired(run, p, k, if k in p.remove then run.tasks[k].(status := Cancelled) else run.tasks[k])
  }

  /** The plan `_replan_defects` checks: removals, rewiring and additions, no reopening. */
  function Projection(run: Run, p: Proposal): Run {
    run.(tasks := AddAll(map k | k in run.tasks :: ProjectedTask(run, p, k), p.add))
  }

  ghost predicate NoDefects(run: Run, p: Proposal) {
    StructureOk(run, p) && PlanGraph.GraphOk(Projection(run, p))
  }

  ghost function Propose(run: Run, p: Proposal): Outcome {
    if p.base != run.revision || p.id in run.replans then Err(StaleReplan)
    else if !NoDefects(run, p) then Err(ReplanDefective)
    else Ok(run.(replans := run.replans[p.id := p]))
  }

  // ---- application -----------------------------------------------------------------------

  /** An affected task loses its assignment and blocker; a reopened one gets new budgets. */
  function InvalidatedTask(p: Proposal, k: Id, t: Task): Task {
    if k in p.remove then t.(status := Cancelled, assignment := None, blocker := None)
    else t.(status := Planned, assignment := None, blocker := None,
            attemptBaseline := t.attempts, revisionBaseline := t.revisions)
  }

  function Without(s: seq<Id>, gone: set<Id>): (r: seq<Id>)
    ensures forall x :: x in r <==> x in s && x !in gone
  {
    if s == [] then [] else if s[0] in gone then Without(s[1..], gone) else [s[0]] + Without(s[1..], gone)
  }

  lemma {:induction false} NothingGone(s: seq<Id>, gone: set<Id>)
    requires Elements(s) !! gone
    ensures Without(s, gone) == s
  {
    if s != [] {
      assert s[0] in Elements(s) && Elements(s[1..]) <= Elements(s);
      NothingGone(s[1..], gone);
    }
  }

  lemma {:induction false} WithoutDistinct(s: seq<Id>, gone: set<Id>)
    requires NoDuplicates(s)
    ensures NoDuplicates(Without(s, gone))
  {
    if s != [] {
      WithoutDistinct(s[1..], gone);
      assert s[0] !in s[1..];
    }
  }

  function Invalidate(run: Run, p: Proposal, affected: set<Id>): Run {
    var gone := ArtifactsOf(run, affected);
    run.(
      tasks := map k | k in run.tasks ::
        if k in affected then InvalidatedTask(p, k, run.tasks[k]) else run.tasks[k],
      artifacts := map a | a in run.artifacts ::
        if a in gone then run.artifacts[a].(status := Superseded) else run.artifacts[a],
      accepted := Without(run.accepted, gone))
  }

  /** The plan as applied, before the graph check, the revision count and the refresh. */
  function Replanned(run: Run, p: Proposal, affected: set<Id>): Run {
    var cleared := Invalidate(run, p, affected);
    cleared.(tasks := AddAll(map k | k in cleared.tasks :: Rewired(run, p, k, cleared.tasks[k]), p.add))
  }

  ghost function Apply(run: Run, id: Id): Outcome {
    if id !in run.replans then Err(UnknownKey)
    else
      var p := run.replans[id];
      if p.base != run.revision then Err(StaleReplan)
      else if !NoDefects(run, p) then Err(ReplanDefective)
      else if p.requiresApproval && !ExactlyApproved(run, p.approvalId, ReplanAction, ReplanScope(p.id, p.base))
      then Err(ExactApprovalRequired)
      else Applied(run, p)
  }

  /** What application does once nothing stands against it. */
  ghost function Applied(run: Run, p: Proposal): Outcome {
    var run' := Replanned(run, p, Affected(run, p));
    if !PlanGraph.GraphOk(run') then Err(GraphInvalid)
    else Ok(Refresh(run'.(revision := run.revision + 1)))
  }

  // ---- materiality -----------------------------------------------------------------------

  /** `_replan_materiality` finds no reason for a human decision. */
  ghost predicate Immaterial(run: Run, p: Proposal) {
    && p.add == [] && p.remove == [] && p.deps == map[] && p.reopen != []
    && forall k :: k in Affected(run, p) ==> !run.tasks[k].status.Accepted?
  }
}
