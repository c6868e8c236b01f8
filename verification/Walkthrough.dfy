/** One complete run, from creation to completion: the histories the theorems speak about exist
    and get all the way. */
module Walkthrough {
  import opened Base
  import opened RunModel
  import opened KernelOps
  import opened Lineage
  import opened PlanGraph
  import opened Kernel

  const MGR: Id := 9
  const TASK: Id := 10
  const WORKER: Id := 20
  const ARTIFACT: Id := 40
  const CHECK: Id := 50
  const VALIDATOR: Id := 60

  function Begun(): Run {
    Run(100, Active, map[], map[], [], map[], map[], map[], map[], [], [], map[], 0, 3, [1], [], [], None)
  }

  function Packet(): Task {
    Task(TASK, [], [], [1], ModelOnly, None, [CHECK], false, false, Planned, 0, 0, 0, 0, 3, 2,
         None, [], [], None, [], [])
  }

  function Work(): Assignment { Assignment(30, WORKER) }

  function Made(): Artifact {
    Artifact(100, TASK, WORKER, 70, 70, None, 1, None, [], Candidate, None, [], [])
  }

  function Checked(): Artifact { Made().(validations := [Validation(70, CHECK, true, VALIDATOR)]) }

  function With(t: Task): Run { Begun().(tasks := map[TASK := t]) }

  function Planned1(): Run { With(Packet().(status := Status.Ready)) }

  function Delegated1(): Task {
    Packet().(status := Delegated, assignment := Some(Work()), history := [Work()], attempts := 1)
  }

  function Submitted1(): Run {
    With(Delegated1().(status := Submitted, artifactIds := [ARTIFACT])).(artifacts := map[ARTIFACT := Made()])
  }

  function Checked1(): Run {
    With(Delegated1().(status := Reviewing, artifactIds := [ARTIFACT])).(artifacts := map[ARTIFACT := Checked()])
  }

  function Accepted1(): Run {
    With(Delegated1().(status := Accepted, artifactIds := [ARTIFACT]))
      .(artifacts := map[ARTIFACT := Checked().(status := Canonical)], accepted := [ARTIFACT])
  }

  function Completed1(): Run { Accepted1().(finalResult := Some(73), status := Completed) }

  lemma NothingDeclared(run: Run, t: Task)
    requires t.deps == [] && t.inputs == [] && t.criteria != [] && t.gates == [] && t.approvalIds == []
    requires t.capability.ModelOnly?
    ensures IsReady(run, t) && InputSet(run, t) == {} && InputList(run, t, |Names(t)|) == []
  {
    assert Names(t) == [];
  }

  lemma AloneIsAcyclic(t: Task, run: Run)
    requires run.tasks == map[TASK := t] && t.deps == [] && t.inputs == []
    ensures GraphOk(run)
  {
    assert Names(t) == [];
    assert Ranked(run, map[TASK := 0]);
  }

  lemma Planning()
    ensures Committed(MGR, Begun(), AddTasksOp([Packet()]), Planned1())
  {
    var run := With(Packet());
    assert [Packet()][1..] == [];
    assert AddEach(run, []) == Ok(run);
    assert Packet().requiredChecks[0] == CHECK;
    assert AddEach(Begun(), [Packet()]) == Ok(run);
    AloneIsAcyclic(Packet(), run);
    NothingDeclared(run, Packet());
    assert Refresh(run).tasks == Planned1().tasks;
  }

  lemma Delegating()
    ensures Committed(MGR, Planned1(), DelegateOp(TASK, WORKER, 30), With(Delegated1()))
    ensures Committed(MGR, With(Delegated1()), StartOp(TASK), With(Delegated1().(status := Running)))
  {
    NothingDeclared(Planned1(), Planned1().tasks[TASK]);
    NothingDeclared(With(Delegated1()), Delegated1());
    assert [] + [Work()] == [Work()];
    assert Delegate(MGR, Planned1(), TASK, WORKER, 30).value.tasks == With(Delegated1()).tasks;
    assert Start(With(Delegated1()), TASK).value.tasks == With(Delegated1().(status := Running)).tasks;
  }

  lemma Submitting()
    ensures Committed(MGR, With(Delegated1().(status := Running)),
                      SubmitOp(TASK, 30, WORKER, true, 70, None, ARTIFACT), Submitted1())
  {
    var run := With(Delegated1().(status := Running));
    NothingDeclared(run, run.tasks[TASK]);
    assert [] + [ARTIFACT] == [ARTIFACT];
    var next := Submit(run, TASK, 30, WORKER, true, 70, None, ARTIFACT).value;
    assert next.tasks == Submitted1().tasks && next.artifacts == Submitted1().artifacts;
  }

  lemma Checking()
    ensures Committed(MGR, Submitted1(), ValidateOp(ARTIFACT, CHECK, true, 71, VALIDATOR, None), Checked1())
  {
    assert Workers(Submitted1().tasks[TASK]) == {WORKER};
    assert [] + [Validation(70, CHECK, true, VALIDATOR)] == [Validation(70, CHECK, true, VALIDATOR)];
    var next := Validate(MGR, Submitted1(), ARTIFACT, CHECK, true, 71, VALIDATOR, None).value;
    assert next.tasks == Checked1().tasks && next.artifacts == Checked1().artifacts;
  }

  lemma EvidenceIsThere()
    ensures EvidenceGate(MGR, Checked1().tasks[TASK], Checked()).None?
  {
    var t := Checked1().tasks[TASK];
    assert Principals(t, Checked()) == {WORKER, VALIDATOR};
    assert Checked().validations[0].check == CHECK;
    assert t.requiredChecks == [CHECK];
  }

  lemma CandidateAccepted()
    ensures AcceptCandidate(MGR, Checked1(), ARTIFACT, 72) == Ok(Accepted1())
  {
    var run := Checked1();
    NothingDeclared(run, run.tasks[TASK]);
    EvidenceIsThere();
    assert [] + [ARTIFACT] == [ARTIFACT];
    var next := AcceptCandidate(MGR, run, ARTIFACT, 72).value;
    assert next.tasks == Accepted1().tasks && next.artifacts == Accepted1().artifacts;
  }

  lemma Accepting()
    ensures Committed(MGR, Checked1(), AcceptOp(TASK, None, 72, None), Accepted1())
  {
    assert CandidateCheck(Checked1(), ARTIFACT, None) == Ok(Checked1());
    CandidateAccepted();
  }

  lemma SettledAtTheEnd()
    ensures StillCounts(Accepted1(), TASK) && TaskSettled(Accepted1(), TASK) && GraphOk(Accepted1())
    ensures IsCanonical(Accepted1(), ARTIFACT)
  {
    var run := Accepted1();
    var t := run.tasks[TASK];
    NothingDeclared(run, t);
    AloneIsAcyclic(t, run);
    assert Names(t) == [];
    assert LocallyAccepted(run, ARTIFACT) && Producer(run, ARTIFACT) == t;
    assert CanonicalWithin(run, ARTIFACT, 1);
    assert HasDepth(run, ARTIFACT, 1);
  }

  lemma CompletionIsTaken()
    ensures Complete(Accepted1(), 73, map[1 := [ARTIFACT]]) == Ok(Completed1())
  {
    SettledAtTheEnd();
    assert Elements([1]) == {1} && Elements([ARTIFACT]) == {ARTIFACT};
  }

  lemma Completing()
    ensures Committed(MGR, Accepted1(), CompleteOp(73, map[1 := [ARTIFACT]]), Completed1())
  {
    CompletionIsTaken();
  }

  lemma WorkIsSubmitted() returns (runs: seq<Run>, ops: seq<Op>)
    ensures History(MGR, runs, ops) && Last(runs) == Submitted1()
  {
    runs, ops := [Begun()], [];
    Planning();
    runs, ops := Extended(runs, ops, AddTasksOp([Packet()]), Planned1());
    Delegating();
    runs, ops := Extended(runs, ops, DelegateOp(TASK, WORKER, 30), With(Delegated1()));
    runs, ops := Extended(runs, ops, StartOp(TASK), With(Delegated1().(status := Running)));
    Submitting();
    runs, ops := Extended(runs, ops, SubmitOp(TASK, 30, WORKER, true, 70, None, ARTIFACT), Submitted1());
  }

  /** A history that ends with a completed run and one accepted artifact. */
  lemma ARunCompletes() returns (runs: seq<Run>, ops: seq<Op>)
    ensures History(MGR, runs, ops)
    ensures Last(runs).status.Completed? && Last(runs).accepted == [ARTIFACT]
  {
    runs, ops := WorkIsSubmitted();
    Checking();
    runs, ops := Extended(runs, ops, ValidateOp(ARTIFACT, CHECK, true, 71, VALIDATOR, None), Checked1());
    Accepting();
    runs, ops := Extended(runs, ops, AcceptOp(TASK, None, 72, None), Accepted1());
    Completing();
    runs, ops := Extended(runs, ops, CompleteOp(73, map[1 := [ARTIFACT]]), Completed1());
  }

  lemma Extended(runs: seq<Run>, ops: seq<Op>, op: Op, next: Run) returns (runs': seq<Run>, ops': seq<Op>)
    requires History(MGR, runs, ops) && Committed(MGR, Last(runs), op, next)
    ensures History(MGR, runs', ops') && Last(runs') == next
  {
    HistoryExtends(MGR, runs, ops, op, next);
    runs', ops' := runs + [next], ops + [op];
  }
}
