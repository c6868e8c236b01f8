/** A history whose last run takes a proposal that its application refuses, and refuses one whose
    plan would be sound. */
module ProjectionCases {
  import opened Base
  import opened RunModel
  import opened KernelOps
  import opened Lineage
  import opened PlanGraph
  import opened Kernel
  import opened R = Replanning
  import opened ProjectionTheorems
  import W = Walkthrough

  const HAND: Id := 21

  function Packet(id: Id, deps: seq<Id>): Task {
    Task(id, deps, [], [1], ModelOnly, None, [], false, false, Planned, 0, 0, 0, 0, 3, 2,
         None, [], [], None, [], [])
  }

  function Start0(): Run {
    Run(100, Active, map[], map[], [], map[], map[], map[], map[], [], [], map[], 0, 3, [1], [], [], None)
  }

  function Tasks(t10: Task, t20: Task, t30: Task): map<Id, Task> { map[10 := t10, 20 := t20, 30 := t30] }

  function With(t10: Task, t20: Task, t30: Task): Run { Start0().(tasks := Tasks(t10, t20, t30)) }

  function First(): Task { Packet(10, []).(status := Ready) }

  function Second(): Task { Packet(20, []).(status := Ready) }

  /** Task 30 names the other two. */
  function Third(): Task { Packet(30, [10, 20]) }

  function Tried(): Task {
    First().(status := Delegated, assignment := Some(Assignment(31, HAND)), history := [Assignment(31, HAND)],
             attempts := 1)
  }

  function Lost(): Task { Tried().(status := Failed, blocker := Some(FreeText(71))) }

  function AfterFailure(): Run { With(Lost(), Second(), Third()).(failures := [Failure(41, 10, BadOutput, 71)]) }

  /** Tasks 20 and 30 are given up. */
  function Prune(): Proposal { Proposal(5, 0, [], [20, 30], [], map[], false, None) }

  function Pruned(): Run {
    AfterFailure().(tasks := Tasks(Lost(), Second().(status := Cancelled), Third().(status := Cancelled)),
                    replans := map[5 := Prune()], revision := 1)
  }

  /** Task 10 is tried again. */
  function Reopen(): Proposal { Proposal(6, 1, [], [], [10], map[], false, None) }

  /** Task 20 is taken up again, and task 10 now needs it. */
  function Rewire(): Proposal { Proposal(7, 1, [], [], [20], map[10 := [20]], false, None) }

  // ---- the history up to the pruned plan --------------------------------------------------------------------

  lemma NamesHere()
    ensures Names(Packet(10, [])) == [] && Names(Packet(20, [])) == [] && Names(Third()) == [10, 20]
  {}

  lemma WaitsForArtifacts(run: Run, t: Task)
    requires t.deps == [10, 20] && t.inputs == [] && 10 in run.tasks && run.tasks[10].artifactIds == []
    ensures !IsReady(run, t)
  {
    assert Names(t)[0] == 10 && 10 in Names(t);
  }

  /** Live tasks without artifacts, each ranked above what it names. */
  lemma PlainPlanIsSound(plan: Run, rank: map<Id, nat>)
    requires plan.tasks.Keys <= rank.Keys && plan.artifacts == map[]
    requires forall k :: k in plan.tasks ==> !Retired(plan.tasks[k].status) && NamesLower(plan, rank, k)
    ensures GraphOk(plan)
  {
    forall k | Live(plan, k) ensures NamesAllowed(plan, k) { assert NamesLower(plan, rank, k); }
    forall k, j | Edge(plan, k, j) ensures rank[j] < rank[k] { assert NamesLower(plan, rank, k); }
    assert Ranked(plan, rank);
  }

  predicate NamesLower(plan: Run, rank: map<Id, nat>, k: Id) {
    && k in plan.tasks && k in rank
    && forall n :: n in Names(plan.tasks[k]) ==> n in plan.tasks && n in rank && rank[n] < rank[k]
  }

  function FullPlan(): Run { With(Packet(10, []), Packet(20, []), Third()) }

  function AddedPlan(): Run { With(First(), Second(), Third()) }

  lemma FullPlanIsSound()
    ensures GraphOk(FullPlan())
  {
    NamesHere();
    PlainPlanIsSound(FullPlan(), map[10 := 0, 20 := 0, 30 := 1]);
  }

  lemma AddEachThree()
    ensures AddEach(Start0(), [Packet(10, []), Packet(20, []), Third()]) == Ok(FullPlan())
  {
    var t10, t20, t30 := Packet(10, []), Packet(20, []), Third();
    assert [t10, t20, t30][1..] == [t20, t30] && [t20, t30][1..] == [t30] && [t30][1..] == [];
    var one := Put(Start0(), 10, t10);
    var two := Put(one, 20, t20);
    assert Put(two, 30, t30).tasks == FullPlan().tasks;
    assert AddEach(two, [t30]) == AddEach(FullPlan(), []) == Ok(FullPlan());
    assert AddEach(one, [t20, t30]) == AddEach(two, [t30]);
  }

  lemma FirstRefreshed()
    ensures RefreshTask(FullPlan(), Packet(10, [])) == First() && RefreshTask(FullPlan(), Packet(20, [])) == Second()
  {
    W.NothingDeclared(FullPlan(), Packet(10, []));
    W.NothingDeclared(FullPlan(), Packet(20, []));
  }

  lemma ThirdWaits()
    ensures RefreshTask(FullPlan(), Third()) == Third()
  {
    WaitsForArtifacts(FullPlan(), Third());
  }

  lemma RefreshOfThree(r: Run, t10: Task, t20: Task, t30: Task)
    requires r.tasks.Keys == {10, 20, 30}
    requires RefreshTask(r, r.tasks[10]) == t10 && RefreshTask(r, r.tasks[20]) == t20
    requires RefreshTask(r, r.tasks[30]) == t30
    ensures Refresh(r).tasks == Tasks(t10, t20, t30)
  {}

  lemma FirstRefresh()
    ensures Refresh(FullPlan()) == AddedPlan()
  {
    FirstRefreshed();
    ThirdWaits();
    RefreshOfThree(FullPlan(), First(), Second(), Third());
  }

  lemma Adding()
    ensures Committed(W.MGR, Start0(), AddTasksOp([Packet(10, []), Packet(20, []), Third()]), AddedPlan())
  {
    AddEachThree();
    FullPlanIsSound();
    FirstRefresh();
  }

  function TriedPlan(): Run { With(Tried(), Second(), Third()) }

  lemma Delegated10()
    ensures Delegate(W.MGR, AddedPlan(), 10, HAND, 31) == Ok(TriedPlan())
  {
    W.NothingDeclared(AddedPlan(), First());
    assert [] + [Assignment(31, HAND)] == [Assignment(31, HAND)];
    assert Put(AddedPlan(), 10, Tried()).tasks == TriedPlan().tasks;
  }

  lemma Failed10()
    ensures FailTask(TriedPlan(), 10, BadOutput, 71, 41) == Ok(AfterFailure()) && Unused(TriedPlan(), 41)
  {
    NamesHere();
    assert Names(Tried()) == [] && Names(Second()) == [];
    assert [] + [Failure(41, 10, BadOutput, 71)] == [Failure(41, 10, BadOutput, 71)];
    assert Put(TriedPlan(), 10, Lost()).tasks == AfterFailure().tasks;
  }

  lemma Trying()
    ensures Committed(W.MGR, AddedPlan(), DelegateOp(10, HAND, 31), TriedPlan())
    ensures Committed(W.MGR, TriedPlan(), FailOp(10, BadOutput, 71, 41), AfterFailure())
  {
    Delegated10();
    Failed10();
  }

  function WithPrune(): Run { AfterFailure().(replans := map[5 := Prune()]) }

  /** Dropping the two leaves a plan of one task. */
  lemma PrunedIsSound(run: Run)
    requires run.tasks == Tasks(Lost(), Second().(status := Cancelled), Third().(status := Cancelled))
    ensures GraphOk(run)
  {
    assert Names(run.tasks[10]) == [];
    assert Ranked(run, map[10 := 0]);
  }

  lemma PruneStructure(r: Run)
    requires r.tasks.Keys == {10, 20, 30} && r.revision == 0 && r.maxReplans == 3
    ensures StructureOk(r, Prune())
  {
    assert Prune().remove == [20, 30] && Elements(Prune().remove) == {20, 30} && Elements(Prune().reopen) == {};
  }

  lemma PruneProjection(r: Run)
    requires r.tasks == AfterFailure().tasks
    ensures Projection(r, Prune()).tasks == Pruned().tasks
  {
    assert Prune().remove[0] == 20 && Prune().remove[1] == 30 && 10 !in Prune().remove;
  }

  lemma PruneHasNoDefects(r: Run)
    requires r.tasks == AfterFailure().tasks && r.revision == 0 && r.maxReplans == 3
    ensures NoDefects(r, Prune())
  {
    assert r.tasks.Keys == {10, 20, 30};
    PruneStructure(r);
    PruneProjection(r);
    PrunedIsSound(Projection(r, Prune()));
  }

  lemma Proposing()
    ensures Committed(W.MGR, AfterFailure(), ProposeOp(Prune()), WithPrune())
  {
    PruneHasNoDefects(AfterFailure());
    assert map[][5 := Prune()] == map[5 := Prune()];
  }

  lemma PruneAffects(r: Run)
    requires r == WithPrune()
    ensures Affected(r, Prune()) == {20, 30}
  {
    AffectedIsLeast(r, Prune());
    assert Prune().remove == [20, 30] && Elements(Prune().remove) == {20, 30} && Seeds(r, Prune()) == {20, 30};
    assert Names(r.tasks[10]) == [] && Names(r.tasks[20]) == [];
    assert ClosedUnderConsumers(r, {20, 30});
    assert Encloses(r, Prune(), {20, 30});
  }

  lemma PruneOutcome()
    ensures Replanned(WithPrune(), Prune(), {20, 30}) == Pruned().(revision := 0)
  {
    var r := WithPrune();
    var run' := Replanned(r, Prune(), {20, 30});
    assert 20 in Prune().remove && 30 in Prune().remove by { assert Prune().remove == [20, 30]; }
    assert run'.tasks == Pruned().tasks;
    assert run'.artifacts == map[] && run'.accepted == [];
  }

  lemma PrunedIsRefreshed()
    ensures Refresh(Pruned()) == Pruned()
  {
    assert Refresh(Pruned()).tasks == Pruned().tasks;
  }

  lemma PruneIsApplied()
    ensures Apply(WithPrune(), 5) == Ok(Pruned())
  {
    PruneHasNoDefects(WithPrune());
    PruneAffects(WithPrune());
    PruneOutcome();
    PrunedIsSound(Pruned().(revision := 0));
    PrunedIsRefreshed();
    assert Pruned().(revision := 0).(revision := 1) == Pruned();
  }

  lemma Pruning()
    ensures Committed(W.MGR, WithPrune(), ApplyOp(5), Pruned())
  {
    PruneIsApplied();
  }

  /** The history: add three tasks, try and fail the first, give up the other two. */
  lemma PrunedIsReached() returns (runs: seq<Run>, ops: seq<Op>)
    ensures History(W.MGR, runs, ops) && Last(runs) == Pruned()
  {
    runs, ops := [Start0()], [];
    Adding();
    runs, ops := W.Extended(runs, ops, AddTasksOp([Packet(10, []), Packet(20, []), Third()]), AddedPlan());
    Trying();
    runs, ops := W.Extended(runs, ops, DelegateOp(10, HAND, 31), TriedPlan());
    runs, ops := W.Extended(runs, ops, FailOp(10, BadOutput, 71, 41), AfterFailure());
    Proposing();
    runs, ops := W.Extended(runs, ops, ProposeOp(Prune()), WithPrune());
    Pruning();
    runs, ops := W.Extended(runs, ops, ApplyOp(5), Pruned());
  }

  // ---- the two proposals --------------------------------------------------------------------------------------

  lemma PrunedNames()
    ensures Names(Pruned().tasks[10]) == [] && Names(Pruned().tasks[20]) == [] && Names(Pruned().tasks[30]) == [10, 20]
  {}

  /** Whoever needs task 10 or task 20 is task 30. */
  lemma PrunedConsumers(r: Run, s: set<Id>, k: Id)
    requires r.tasks == Pruned().tasks && k in r.tasks && ConsumesFrom(r, s, k)
    ensures k == 30
  {
    PrunedNames();
  }

  lemma ThirdConsumes(r: Run, s: set<Id>)
    requires r.tasks == Pruned().tasks && 10 in s
    ensures ConsumesFrom(r, s, 30)
  {
    PrunedNames();
    assert Names(r.tasks[30])[0] == 10;
  }

  lemma WithThirdIsClosed(r: Run, s: set<Id>)
    requires r.tasks == Pruned().tasks && 30 in s
    ensures ClosedUnderConsumers(r, s)
  {
    forall k | k in r.tasks && ConsumesFrom(r, s, k) ensures k in s { PrunedConsumers(r, s, k); }
  }

  lemma ReopenSeeds(r: Run)
    requires r.tasks == Pruned().tasks
    ensures Seeds(r, Reopen()) == {10}
  {
    assert Elements([10]) == {10} && r.tasks.Keys == {10, 20, 30};
  }

  lemma EnclosureHasThird(r: Run, p: Proposal, s: set<Id>)
    requires r.tasks == Pruned().tasks && Encloses(r, p, s) && 10 in Seeds(r, p)
    ensures 10 in s && 30 in s
  {
    ThirdConsumes(r, s);
  }

  lemma ReopenAffects(r: Run)
    requires r.tasks == Pruned().tasks
    ensures Affected(r, Reopen()) == {10, 30}
  {
    ReopenSeeds(r);
    WithThirdIsClosed(r, {10, 30});
    LeastEnclosure(r, Reopen(), {10, 30});
    EnclosureHasThird(r, Reopen(), Affected(r, Reopen()));
  }

  lemma LeastEnclosure(r: Run, p: Proposal, s: set<Id>)
    requires Encloses(r, p, s)
    ensures Encloses(r, p, Affected(r, p)) && Affected(r, p) <= s
  {
    AffectedIsLeast(r, p);
  }

  lemma ReopenHasNoDefects(r: Run)
    requires r.tasks == Pruned().tasks && r.revision == 1 && r.maxReplans == 3
    ensures NoDefects(r, Reopen())
  {
    assert Elements([10]) == {10} && r.tasks.Keys == {10, 20, 30};
    assert Projection(r, Reopen()).tasks == r.tasks;
    PrunedIsSound(Projection(r, Reopen()));
  }

  function WithReopen(): Run { Pruned().(replans := Pruned().replans[6 := Reopen()]) }

  lemma ReopenPlan(plan: Run)
    requires plan == Replanned(WithReopen(), Reopen(), {10, 30})
    ensures 20 in plan.tasks && Retired(plan.tasks[20].status) && Live(plan, 30) && 20 in Names(plan.tasks[30])
  {
    assert plan.tasks[30].deps == [10, 20] && Names(plan.tasks[30])[1] == 20;
  }

  lemma NamesRetired(plan: Run, k: Id, n: Id)
    requires Live(plan, k) && n in plan.tasks && Retired(plan.tasks[n].status) && n in Names(plan.tasks[k])
    ensures !NamesAllowed(plan, k) && !GraphOk(plan)
  {
    assert !NameAllowed(plan, plan.tasks[k], n);
  }

  lemma ReopenRevives()
    ensures Revived(WithReopen(), Reopen()) == {30}
  {
    ReopenAffects(WithReopen());
    assert Reopen().remove == [];
  }

  lemma ReopenIsRefused()
    ensures !GraphOk(PlanAfter(WithReopen(), Reopen()))
  {
    ReopenAffects(WithReopen());
    ReopenPlan(PlanAfter(WithReopen(), Reopen()));
    NamesRetired(PlanAfter(WithReopen(), Reopen()), 30, 20);
  }

  lemma ActiveProposal(run: Run, p: Proposal)
    requires run.status.Active?
    ensures Step(W.MGR, run, ProposeOp(p)) == Propose(run, p)
  {}

  lemma ActiveApplication(run: Run, id: Id)
    requires run.status.Active?
    ensures Step(W.MGR, run, ApplyOp(id)) == Apply(run, id)
  {}

  lemma ReopenIsProposed()
    ensures Committed(W.MGR, Pruned(), ProposeOp(Reopen()), WithReopen())
  {
    ReopenHasNoDefects(Pruned());
  }

  lemma ReopenApplication()
    ensures NoDefects(WithReopen(), Reopen()) && Apply(WithReopen(), 6) == Err(GraphInvalid)
  {
    ReopenHasNoDefects(WithReopen());
    ReopenIsRefused();
  }

  /** In a reachable run: reopening task 10 is accepted as a proposal and brings back task 30, which
      names the given-up task 20; so applying the very same proposal is refused for its graph. */
  lemma ReopeningDefeatsProjection() returns (runs: seq<Run>, ops: seq<Op>)
    ensures History(W.MGR, runs, ops) && ops != [] && Last(runs) == WithReopen()
    ensures Last(ops) == ProposeOp(Reopen()) && Revived(WithReopen(), Reopen()) == {30}
    ensures Step(W.MGR, WithReopen(), ApplyOp(6)) == Err(GraphInvalid)
  {
    var before, done := PrunedIsReached();
    ReopenIsProposed();
    HistoryExtends(W.MGR, before, done, ProposeOp(Reopen()), WithReopen());
    runs, ops := before + [WithReopen()], done + [ProposeOp(Reopen())];
    ReopenApplication();
    ReopenRevives();
    ActiveApplication(WithReopen(), 6);
  }

  lemma RewireSeeds(r: Run)
    requires r.tasks == Pruned().tasks
    ensures Seeds(r, Rewire()) == {10, 20}
  {
    assert Elements([20]) == {20} && r.tasks.Keys == {10, 20, 30};
  }

  lemma RewireAffects(r: Run)
    requires r.tasks == Pruned().tasks
    ensures Affected(r, Rewire()) == {10, 20, 30}
  {
    RewireSeeds(r);
    AffectedIsLeast(r, Rewire());
    EnclosureHasThird(r, Rewire(), Affected(r, Rewire()));
    assert r.tasks.Keys == {10, 20, 30};
  }

  lemma RewiredTask(k: Id)
    requires k in Pruned().tasks
    ensures var plan := Replanned(Pruned(), Rewire(), {10, 20, 30});
      && plan.tasks.Keys == Pruned().tasks.Keys && plan.artifacts == map[]
      && plan.tasks[k] == Rewired(Pruned(), Rewire(), k, InvalidatedTask(Rewire(), k, Pruned().tasks[k]))
  {}

  lemma RewiredPlan(plan: Run)
    requires plan == Replanned(Pruned(), Rewire(), {10, 20, 30})
    ensures plan.tasks.Keys == {10, 20, 30} && plan.artifacts == map[]
    ensures forall k :: k in plan.tasks ==> plan.tasks[k].status.Planned?
    ensures Names(plan.tasks[10]) == [20] && Names(plan.tasks[20]) == [] && Names(plan.tasks[30]) == [10, 20]
  {
    assert Rewire().remove == [] && Pruned().tasks.Keys == {10, 20, 30};
    RewiredTask(10);
    RewiredTask(20);
    RewiredTask(30);
  }

  lemma ThreeInALine(plan: Run)
    requires plan.tasks.Keys == {10, 20, 30} && plan.artifacts == map[]
    requires forall k :: k in plan.tasks ==> plan.tasks[k].status.Planned?
    requires Names(plan.tasks[10]) == [20] && Names(plan.tasks[20]) == [] && Names(plan.tasks[30]) == [10, 20]
    ensures GraphOk(plan)
  {
    PlainPlanIsSound(plan, map[20 := 0, 10 := 1, 30 := 2]);
  }

  lemma RewiredPlanIsSound()
    ensures GraphOk(PlanAfter(Pruned(), Rewire()))
  {
    RewireAffects(Pruned());
    RewiredPlan(PlanAfter(Pruned(), Rewire()));
    ThreeInALine(PlanAfter(Pruned(), Rewire()));
  }

  lemma RewiredProjection(projected: Run)
    requires projected == Projection(Pruned(), Rewire())
    ensures !GraphOk(projected)
  {
    assert projected.tasks[10].deps == [20] && Names(projected.tasks[10])[0] == 20;
    NamesRetired(projected, 10, 20);
  }

  lemma RewireIsRefused()
    ensures StructureOk(Pruned(), Rewire()) && Propose(Pruned(), Rewire()) == Err(ReplanDefective)
  {
    assert Elements([20]) == {20} && Pruned().tasks.Keys == {10, 20, 30};
    RewiredProjection(Projection(Pruned(), Rewire()));
  }

  /** In the same reachable run: taking up task 20 again and letting task 10 depend on it is refused
      as a proposal, although the plan it leads to is sound. */
  lemma SoundProposalIsRefused() returns (runs: seq<Run>, ops: seq<Op>)
    ensures History(W.MGR, runs, ops) && Last(runs) == Pruned() && StructureOk(Pruned(), Rewire())
    ensures Step(W.MGR, Pruned(), ProposeOp(Rewire())) == Err(ReplanDefective)
    ensures GraphOk(PlanAfter(Pruned(), Rewire()))
  {
    runs, ops := PrunedIsReached();
    RewiredPlanIsSound();
    RewireIsRefused();
    ActiveProposal(Pruned(), Rewire());
  }
}
