/** The graph check at proposal time, which looks at a projection, against the check of the plan that
    application builds. */
module ProjectionTheorems {
  import opened Base
  import opened RunModel
  import opened KernelOps
  import opened PlanGraph
  import opened R = Replanning
  import opened ReplanSteps

  // ---- what the graph check looks at -----------------------------------------------------------------

  /** The graph check reads names, retirement and artifact producers only. */
  ghost predicate SameGraph(r: Run, r': Run) {
    && r.tasks.Keys == r'.tasks.Keys && r.artifacts.Keys == r'.artifacts.Keys
    && (forall k :: k in r.tasks ==> SameNode(r.tasks[k], r'.tasks[k]))
    && (forall a :: a in r.artifacts ==> r.artifacts[a].taskId == r'.artifacts[a].taskId)
  }

  predicate SameNode(t: Task, t': Task) {
    t.deps == t'.deps && t.inputs == t'.inputs && (Retired(t.status) <==> Retired(t'.status))
  }

  lemma SameGraphEdges(r: Run, r': Run, k: Id, j: Id)
    requires SameGraph(r, r') && Edge(r, k, j)
    ensures Edge(r', k, j)
  {
    assert SameNode(r.tasks[k], r'.tasks[k]) && SameNode(r.tasks[j], r'.tasks[j]);
    var n :| n in Names(r.tasks[k]) && Target(r, n) == Some(j);
    if n !in r.tasks && r.artifacts[n].taskId in r.tasks {
      assert SameNode(r.tasks[r.artifacts[n].taskId], r'.tasks[r.artifacts[n].taskId]);
    }
    assert n in Names(r'.tasks[k]) && Target(r', n) == Some(j);
  }

  lemma SameGraphVerdict(r: Run, r': Run)
    requires SameGraph(r, r') && GraphOk(r)
    ensures GraphOk(r')
  {
    forall k, n | Live(r', k) && n in Names(r'.tasks[k]) ensures NameAllowed(r', r'.tasks[k], n) {
      assert SameNode(r.tasks[k], r'.tasks[k]) && Live(r, k) && NamesAllowed(r, k);
      assert NameAllowed(r, r.tasks[k], n);
      assert n in r.tasks ==> SameNode(r.tasks[n], r'.tasks[n]);
    }
    forall k | Live(r', k) ensures NamesAllowed(r', k) {}
    var rank :| Ranked(r, rank);
    assert Ranked(r', rank) by {
      forall k | Live(r', k) ensures k in rank { assert SameNode(r.tasks[k], r'.tasks[k]) && Live(r, k); }
      forall k, j | Edge(r', k, j) ensures rank[j] < rank[k] {
        assert SameGraph(r', r) by {
          forall x | x in r.tasks ensures SameNode(r'.tasks[x], r.tasks[x]) {
            assert SameNode(r.tasks[x], r'.tasks[x]);
          }
        }
        SameGraphEdges(r', r, k, j);
      }
    }
  }

  // ---- one plan with more live tasks than the other ----------------------------------------------------

  /** The wide plan is the narrow one with the tasks of v back from retirement. */
  ghost predicate Revives(narrow: Run, wide: Run, v: set<Id>) {
    && narrow.tasks.Keys == wide.tasks.Keys && narrow.artifacts.Keys == wide.artifacts.Keys
    && v <= wide.tasks.Keys
    && (forall k :: k in wide.tasks ==> RevivesTask(narrow.tasks[k], wide.tasks[k], k in v))
    && (forall a :: a in wide.artifacts ==> narrow.artifacts[a].taskId == wide.artifacts[a].taskId)
  }

  predicate RevivesTask(t: Task, t': Task, back: bool) {
    && t.deps == t'.deps && t.inputs == t'.inputs
    && (if back then Retired(t.status) && !Retired(t'.status) else Retired(t.status) <==> Retired(t'.status))
  }

  predicate NamesOne(t: Task, v: set<Id>) { exists n :: n in Names(t) && n in v }

  /** A task that was live all along names one that comes back. */
  ghost predicate NamesRevived(wide: Run, v: set<Id>) {
    exists k :: Live(wide, k) && k !in v && NamesOne(wide.tasks[k], v)
  }

  /** The tasks that were live all along name what they may, and close no cycle among themselves. */
  ghost predicate RestOk(wide: Run, v: set<Id>) {
    && (forall k :: Live(wide, k) && k !in v ==> NamesAllowed(wide, k))
    && forall cycle :: IsCycle(wide, cycle) ==> exists k :: k in cycle && k in v
  }

  /** The tasks that come back name what they may, and no cycle goes through one of them. */
  ghost predicate RevivedFit(wide: Run, v: set<Id>) {
    && (forall k :: k in v && k in wide.tasks ==> NamesAllowed(wide, k))
    && forall cycle :: IsCycle(wide, cycle) ==> forall k :: k in cycle ==> k !in v
  }

  lemma WideVerdict(narrow: Run, wide: Run, v: set<Id>)
    requires Revives(narrow, wide, v)
    ensures GraphOk(wide) <==> RestOk(wide, v) && RevivedFit(wide, v)
  {
    RankedIffNoCycle(wide);
    forall k | k in v ensures Live(wide, k) { assert RevivesTask(narrow.tasks[k], wide.tasks[k], true); }
    forall cycle | GraphOk(wide) || (RestOk(wide, v) && RevivedFit(wide, v)) ensures !IsCycle(wide, cycle) {}
  }

  lemma NarrowLive(narrow: Run, wide: Run, v: set<Id>, k: Id)
    requires Revives(narrow, wide, v)
    ensures Live(narrow, k) <==> Live(wide, k) && k !in v
    ensures k in wide.tasks ==> k in narrow.tasks && Names(narrow.tasks[k]) == Names(wide.tasks[k])
  {
    if k in wide.tasks { assert RevivesTask(narrow.tasks[k], wide.tasks[k], k in v); }
  }

  lemma EdgesOutside(narrow: Run, wide: Run, v: set<Id>, k: Id, j: Id)
    requires Revives(narrow, wide, v) && k !in v && j !in v
    ensures Edge(narrow, k, j) <==> Edge(wide, k, j)
  {
    NarrowLive(narrow, wide, v, k);
    NarrowLive(narrow, wide, v, j);
    if Edge(wide, k, j) {
      var n :| n in Names(wide.tasks[k]) && Target(wide, n) == Some(j);
      assert n in Names(narrow.tasks[k]) && Target(narrow, n) == Some(j);
    }
    if Edge(narrow, k, j) {
      var n :| n in Names(narrow.tasks[k]) && Target(narrow, n) == Some(j);
      assert n in Names(wide.tasks[k]) && Target(wide, n) == Some(j);
    }
  }

  lemma CyclesOutside(narrow: Run, wide: Run, v: set<Id>, cycle: seq<Id>)
    requires Revives(narrow, wide, v) && forall k :: k in cycle ==> k !in v
    ensures IsCycle(narrow, cycle) <==> IsCycle(wide, cycle)
  {
    forall i | 0 < i < |cycle| ensures Edge(narrow, cycle[i - 1], cycle[i]) <==> Edge(wide, cycle[i - 1], cycle[i]) {
      EdgesOutside(narrow, wide, v, cycle[i - 1], cycle[i]);
    }
    if cycle != [] { EdgesOutside(narrow, wide, v, Last(cycle), cycle[0]); }
  }

  lemma {:induction false} NarrowCyclesAreLive(narrow: Run, wide: Run, v: set<Id>, cycle: seq<Id>)
    requires Revives(narrow, wide, v) && IsCycle(narrow, cycle)
    ensures forall k :: k in cycle ==> k !in v
  {
    forall i | 0 <= i < |cycle| ensures cycle[i] !in v {
      if i + 1 < |cycle| { assert Edge(narrow, cycle[i], cycle[i + 1]); }
      NarrowLive(narrow, wide, v, cycle[i]);
    }
  }

  lemma SameCycles(narrow: Run, wide: Run, v: set<Id>)
    requires Revives(narrow, wide, v)
    ensures HasCycle(narrow) <==> exists cycle :: IsCycle(wide, cycle) && forall k :: k in cycle ==> k !in v
  {
    if HasCycle(narrow) {
      var cycle :| IsCycle(narrow, cycle);
      NarrowCyclesAreLive(narrow, wide, v, cycle);
      CyclesOutside(narrow, wide, v, cycle);
    }
    if cycle :| IsCycle(wide, cycle) && forall k :: k in cycle ==> k !in v {
      CyclesOutside(narrow, wide, v, cycle);
      assert IsCycle(narrow, cycle);
    }
  }

  lemma NamesOutside(narrow: Run, wide: Run, v: set<Id>, k: Id)
    requires Revives(narrow, wide, v) && Live(wide, k) && k !in v
    ensures k in narrow.tasks
    ensures NamesAllowed(narrow, k) <==> NamesAllowed(wide, k) && !NamesOne(wide.tasks[k], v)
  {
    NarrowLive(narrow, wide, v, k);
    forall n | n in Names(wide.tasks[k])
      ensures NameAllowed(narrow, narrow.tasks[k], n) <==> NameAllowed(wide, wide.tasks[k], n) && n !in v
    {
      assert RevivesTask(narrow.tasks[k], wide.tasks[k], false);
      if n in wide.tasks { assert RevivesTask(narrow.tasks[n], wide.tasks[n], n in v); }
    }
  }

  lemma NarrowVerdict(narrow: Run, wide: Run, v: set<Id>)
    requires Revives(narrow, wide, v)
    ensures GraphOk(narrow) <==> RestOk(wide, v) && !NamesRevived(wide, v)
  {
    RankedIffNoCycle(narrow);
    SameCycles(narrow, wide, v);
    forall k
      ensures Live(narrow, k) <==> Live(wide, k) && k !in v
      ensures Live(narrow, k) ==> (NamesAllowed(narrow, k) <==> NamesAllowed(wide, k) && !NamesOne(wide.tasks[k], v))
    {
      NarrowLive(narrow, wide, v, k);
      if Live(narrow, k) { NamesOutside(narrow, wide, v, k); }
    }
  }

  // ---- the projection ---------------------------------------------------------------------------------------

  /** The tasks the proposal brings back: affected, not removed, and retired today. */
  ghost function Revived(r: Run, p: Proposal): set<Id> {
    set k | k in Affected(r, p) && k in r.tasks && k !in p.remove && Retired(r.tasks[k].status)
  }

  /** The plan as applied. */
  ghost function PlanAfter(r: Run, p: Proposal): Run { Replanned(r, p, Affected(r, p)) }

  lemma {:induction false} AddedLookup(tasks: map<Id, Task>, add: seq<Task>, t: Task)
    requires AddsAreUnique(add) && t in add
    ensures AddAll(tasks, add)[t.id] == t
    decreases |add|
  {
    var next := tasks[add[0].id := add[0]];
    if t in add[1..] {
      AddedLookup(next, add[1..], t);
    } else {
      assert forall x :: x in add[1..] ==> x.id != t.id by {
        forall x | x in add[1..] ensures x.id != t.id {
          var i :| 0 <= i < |add[1..]| && add[1..][i] == x;
          assert add[i + 1] == x;
        }
      }
      AddAllLookup(next, add[1..], t.id);
    }
  }

  lemma ExistingNode(r: Run, p: Proposal, k: Id)
    requires StructureOk(r, p) && k in r.tasks
    ensures var cleared := Invalidate(r, p, Affected(r, p));
      RevivesTask(ProjectedTask(r, p, k), Rewired(r, p, k, cleared.tasks[k]), k in Revived(r, p))
  {
    AffectedIsLeast(r, p);
    assert k in p.remove ==> k in Seeds(r, p);
  }

  lemma AddedIsNew(r: Run, p: Proposal, t: Task)
    requires StructureOk(r, p) && t in p.add
    ensures t.id !in Revived(r, p) && !Retired(t.status)
  {
    assert AddIsSound(r, t);
  }

  lemma ProjectedNode(r: Run, p: Proposal, k: Id)
    requires StructureOk(r, p) && k in Projection(r, p).tasks && k in PlanAfter(r, p).tasks
    ensures RevivesTask(Projection(r, p).tasks[k], PlanAfter(r, p).tasks[k], k in Revived(r, p))
  {
    var cleared := Invalidate(r, p, Affected(r, p));
    var base1 := map j | j in r.tasks :: ProjectedTask(r, p, j);
    var base2 := map j | j in cleared.tasks :: Rewired(r, p, j, cleared.tasks[j]);
    if t :| t in p.add && t.id == k {
      AddedLookup(base1, p.add, t);
      AddedLookup(base2, p.add, t);
      AddedIsNew(r, p, t);
    } else {
      AddAllLookup(base1, p.add, k);
      AddAllLookup(base2, p.add, k);
      ExistingNode(r, p, k);
    }
  }

  lemma ProjectionRevives(r: Run, p: Proposal)
    requires StructureOk(r, p)
    ensures Revives(Projection(r, p), PlanAfter(r, p), Revived(r, p))
  {
    var r1, r2 := Projection(r, p), PlanAfter(r, p);
    assert r1.tasks.Keys == r2.tasks.Keys;
    forall k | k in r1.tasks ensures RevivesTask(r1.tasks[k], r2.tasks[k], k in Revived(r, p)) {
      ProjectedNode(r, p, k);
    }
  }

  /** When the two checks agree, for every proposal whose structure is sound.  Each is the same
      condition on the rest of the plan and one more: the projection passes only if nothing names
      a revived task, the applied plan only if the revived tasks fit in.  So the check at proposal
      time lets a proposal through that application refuses, and refuses one that application
      would take, exactly as these two differ. */
  lemma ProjectionVerdict(r: Run, p: Proposal)
    requires StructureOk(r, p)
    ensures var plan, v := PlanAfter(r, p), Revived(r, p);
      && (GraphOk(Projection(r, p)) <==> RestOk(plan, v) && !NamesRevived(plan, v))
      && (GraphOk(plan) <==> RestOk(plan, v) && RevivedFit(plan, v))
      && ((GraphOk(Projection(r, p)) <==> GraphOk(plan)) <==>
            RestOk(plan, v) ==> (RevivedFit(plan, v) <==> !NamesRevived(plan, v)))
  {
    ProjectionRevives(r, p);
    NarrowVerdict(Projection(r, p), PlanAfter(r, p), Revived(r, p));
    WideVerdict(Projection(r, p), PlanAfter(r, p), Revived(r, p));
  }

  /** A proposal accepted at authoring time passes the graph check of application if and only if its
      revived tasks name what they may and close no cycle. */
  lemma AcceptedProposalVerdict(r: Run, p: Proposal)
    requires NoDefects(r, p)
    ensures GraphOk(PlanAfter(r, p)) <==> RevivedFit(PlanAfter(r, p), Revived(r, p))
  {
    ProjectionVerdict(r, p);
  }

  /** A proposal refused for the graph of its projection would have given a sound plan if and only if
      the revived tasks fit in, the rest is sound, and a task that was live all along names one. */
  lemma RefusedProposalVerdict(r: Run, p: Proposal)
    requires StructureOk(r, p) && !NoDefects(r, p)
    ensures var plan, v := PlanAfter(r, p), Revived(r, p);
      GraphOk(plan) <==> RestOk(plan, v) && RevivedFit(plan, v) && NamesRevived(plan, v)
  {
    ProjectionVerdict(r, p);
  }

  // ---- the projection put right --------------------------------------------------------------------------

  ghost function BroughtBack(r: Run, p: Proposal, k: Id): Task requires k in r.tasks {
    var t := ProjectedTask(r, p, k);
    if k in Revived(r, p) then t.(status := Planned) else t
  }

  /** The projection with the revived tasks planned again. */
  ghost function FullProjection(r: Run, p: Proposal): Run {
    r.(tasks := AddAll(map k | k in r.tasks :: BroughtBack(r, p, k), p.add))
  }

  lemma SameNodeOnceRevived(t: Task, t': Task, back: bool)
    requires RevivesTask(t, t', back)
    ensures SameNode(if back then t.(status := Planned) else t, t')
  {}

  lemma FullNode(r: Run, p: Proposal, k: Id)
    requires StructureOk(r, p) && k in FullProjection(r, p).tasks && k in PlanAfter(r, p).tasks
    ensures SameNode(FullProjection(r, p).tasks[k], PlanAfter(r, p).tasks[k])
  {
    var cleared := Invalidate(r, p, Affected(r, p));
    var base1 := map j | j in r.tasks :: BroughtBack(r, p, j);
    var base2 := map j | j in cleared.tasks :: Rewired(r, p, j, cleared.tasks[j]);
    if t :| t in p.add && t.id == k {
      AddedLookup(base1, p.add, t);
      AddedLookup(base2, p.add, t);
    } else {
      AddAllLookup(base1, p.add, k);
      AddAllLookup(base2, p.add, k);
      ExistingNode(r, p, k);
      SameNodeOnceRevived(ProjectedTask(r, p, k), base2[k], k in Revived(r, p));
      assert SameNode(base1[k], base2[k]);
    }
  }

  /** It has the verdict of the applied plan for every proposal whose structure is sound. */
  lemma FullProjectionVerdict(r: Run, p: Proposal)
    requires StructureOk(r, p)
    ensures GraphOk(FullProjection(r, p)) <==> GraphOk(PlanAfter(r, p))
  {
    var r1, r2 := FullProjection(r, p), PlanAfter(r, p);
    assert r1.tasks.Keys == r2.tasks.Keys;
    forall k | k in r1.tasks ensures SameNode(r1.tasks[k], r2.tasks[k]) && SameNode(r2.tasks[k], r1.tasks[k]) {
      FullNode(r, p, k);
    }
    if GraphOk(r1) { SameGraphVerdict(r1, r2); }
    if GraphOk(r2) { SameGraphVerdict(r2, r1); }
  }
}
