/** Histories that end with a commit no artifact names, or with a branch delivery refuses. */
module IntegrationCases {
  import opened Base
  import opened Workspaces
  import opened Integration
  import opened IntegrationTheorems
  import opened IntegrationRecord
  import opened IntegrationDelivery
  import M = RunModel

  const WRITER: Id := 3

  lemma Extended(worlds: seq<World>, ops: seq<Op>, op: Op) returns (worlds': seq<World>, ops': seq<Op>)
    requires History(worlds, ops) && Linked(Last(worlds).repo) && Enabled(Last(worlds), op)
    ensures History(worlds', ops') && ops' == ops + [op] && worlds' == worlds + [Next(Last(worlds), op)]
    ensures Plain(ops) ==> NoCrash(ops) && NoRetirement(ops)
    ensures (Plain(ops) && Calm(op) ==> Plain(ops')) && (NoCrash(ops) && !op.CrashOp? ==> NoCrash(ops'))
    ensures NoRetirement(ops) && !op.RetireOp? ==> NoRetirement(ops')
  {
    var next := Next(Last(worlds), op);
    worlds', ops' := worlds + [next], ops + [op];
    PlainExtends(ops, op);
    forall i | 0 <= i < |ops'| ensures Steps(worlds'[i], ops'[i], worlds'[i + 1]) {
      if i < |ops| { assert Steps(worlds[i], ops[i], worlds[i + 1]); }
    }
  }

  predicate Calm(op: Op) { !op.CrashOp? && !op.RetireOp? && !op.AbandonOp? }

  /** Nothing was cut short, retired or abandoned. */
  predicate Plain(ops: seq<Op>) { forall i :: 0 <= i < |ops| ==> Calm(ops[i]) }

  predicate NoCrash(ops: seq<Op>) { forall i :: 0 <= i < |ops| ==> !ops[i].CrashOp? }

  predicate NoRetirement(ops: seq<Op>) { forall i :: 0 <= i < |ops| ==> !ops[i].RetireOp? }

  lemma PlainExtends(ops: seq<Op>, op: Op)
    ensures Plain(ops) && Calm(op) ==> Plain(ops + [op])
    ensures Plain(ops) ==> NoCrash(ops) && NoRetirement(ops)
    ensures NoCrash(ops) && !op.CrashOp? ==> NoCrash(ops + [op])
    ensures NoRetirement(ops) && !op.RetireOp? ==> NoRetirement(ops + [op])
  {}

  lemma TwoMore(worlds: seq<World>, ops: seq<Op>, op1: Op, op2: Op) returns (worlds': seq<World>, ops': seq<Op>)
    requires History(worlds, ops) && Linked(Last(worlds).repo) && Enabled(Last(worlds), op1)
    requires Linked(Next(Last(worlds), op1).repo) && Enabled(Next(Last(worlds), op1), op2)
    ensures History(worlds', ops') && ops' == ops + [op1, op2]
    ensures worlds' == worlds + [Next(Last(worlds), op1), Next(Next(Last(worlds), op1), op2)]
    ensures Plain(ops) ==> NoCrash(ops) && NoRetirement(ops)
    ensures Plain(ops) && Calm(op1) && Calm(op2) ==> Plain(ops')
    ensures NoCrash(ops) && !op1.CrashOp? && !op2.CrashOp? ==> NoCrash(ops')
    ensures NoRetirement(ops) && !op1.RetireOp? && !op2.RetireOp? ==> NoRetirement(ops')
  {
    worlds', ops' := Extended(worlds, ops, op1);
    worlds', ops' := Extended(worlds', ops', op2);
  }

  // ---- one candidate from its creation to the branch ------------------------------------------------------

  function Edited(w: World, content: int): Tree requires HeadOf(w.repo) in w.repo.commits {
    w.repo.commits[HeadOf(w.repo)].tree[0 := content]
  }

  /** Nothing in the world is called n, the run is active, and the new content is one. */
  predicate Unknown(w: World, r: Id, n: Id, content: int) {
    && n !in w.repo.candidates && n !in w.repo.grants && n !in w.works && n !in w.repo.commits && ActiveRun(w, r)
    && HeadOf(w.repo) in w.repo.commits && Edited(w, content) != w.repo.commits[HeadOf(w.repo)].tree
  }

  function PrintOf(w: World, content: int): Fingerprint requires HeadOf(w.repo) in w.repo.commits {
    Fingerprint(HeadOf(w.repo), Edited(w, content))
  }

  /** The runs after some saves on one of them. */
  function Bumped(w: World, r: Id, saves: nat): map<Id, RunState> requires r in w.runs {
    w.runs[r := w.runs[r].(version := w.runs[r].version + saves)]
  }

  /** Created and written to under the name n. */
  function Drafted(w: World, n: Id, content: int): World requires HeadOf(w.repo) in w.repo.commits {
    var head := HeadOf(w.repo);
    w.(repo := WithBranch(w.repo).(candidates := w.repo.candidates[n := Candidate(head, Edited(w, content), head)],
                                   grants := w.repo.grants[n := Grant(n, WRITER, false)]))
  }

  /** Frozen and submitted as well. */
  function Handed(w: World, r: Id, n: Id, content: int): World
    requires HeadOf(w.repo) in w.repo.commits && r in w.runs
  {
    var w1 := Drafted(w, n, content);
    w1.(repo := w1.repo.(grants := w.repo.grants[n := Grant(n, WRITER, true)]),
        frozen := w.frozen[n := PrintOf(w, content)], runs := Bumped(w, r, 1),
        works := w.works[n := Work(r, n, PrintOf(w, content), true, false, None)])
  }

  lemma DraftSteps(w: World, n: Id, content: int, r: Id)
    requires Linked(w.repo) && Unknown(w, r, n, content)
    ensures Linked(Next(w, CreateOp(n, n, WRITER)).repo)
    ensures Next(Next(w, CreateOp(n, n, WRITER)), WriteOp(n, 0, content)) == Drafted(w, n, content)
  {
    var head := HeadOf(w.repo);
    assert w.repo.candidates[n := Candidate(head, w.repo.commits[head].tree, head)]
                            [n := Candidate(head, Edited(w, content), head)]
           == w.repo.candidates[n := Candidate(head, Edited(w, content), head)];
  }

  lemma FrozenGrants(w: World, n: Id, content: int)
    requires Linked(w.repo) && n !in w.repo.candidates && HeadOf(w.repo) in w.repo.commits
    ensures Frozen(Drafted(w, n, content).repo, n).grants == w.repo.grants[n := Grant(n, WRITER, true)]
  {
    var grants := Frozen(Drafted(w, n, content).repo, n).grants;
    forall g | g in grants ensures grants[g] == w.repo.grants[n := Grant(n, WRITER, true)][g] {}
  }

  lemma HandOverSteps(w: World, r: Id, n: Id, content: int)
    requires Linked(w.repo) && Unknown(w, r, n, content)
    ensures Linked(Drafted(w, n, content).repo)
    ensures var w1 := Next(Drafted(w, n, content), FreezeOp(n));
      && Linked(w1.repo) && Enabled(w1, SubmitOp(n, n, r)) && Next(w1, SubmitOp(n, n, r)) == Handed(w, r, n, content)
  {
    FrozenGrants(w, n, content);
    var w1 := Next(Drafted(w, n, content), FreezeOp(n));
    assert w1.repo.grants == w.repo.grants[n := Grant(n, WRITER, true)];
  }

  lemma HandOver(worlds: seq<World>, ops: seq<Op>, r: Id, n: Id, content: int)
    returns (worlds': seq<World>, ops': seq<Op>)
    requires History(worlds, ops) && Unknown(Last(worlds), r, n, content)
    ensures History(worlds', ops') && worlds <= worlds' && (Plain(ops) ==> Plain(ops'))
    ensures Last(worlds') == Handed(Last(worlds), r, n, content)
  {
    var w := Last(worlds);
    HistoryKeeps(worlds, ops, |worlds| - 1);
    DraftSteps(w, n, content, r);
    HandOverSteps(w, r, n, content);
    worlds', ops' := TwoMore(worlds, ops, CreateOp(n, n, WRITER), WriteOp(n, 0, content));
    worlds', ops' := TwoMore(worlds', ops', FreezeOp(n), SubmitOp(n, n, r));
  }

  /** Accepted, with the lock held. */
  function Passed(w: World, r: Id, n: Id, content: int): World
    requires HeadOf(w.repo) in w.repo.commits && r in w.runs
  {
    Handed(w, r, n, content).(works := w.works[n := Work(r, n, PrintOf(w, content), true, true, None)],
                              runs := Bumped(w, r, 2), pc := ToIntegrate(n))
  }

  /** On the branch at the commit n, and not recorded yet. */
  function Landed(w: World, r: Id, n: Id, content: int): World
    requires HeadOf(w.repo) in w.repo.commits && r in w.runs
  {
    var head := HeadOf(w.repo);
    var w1 := Passed(w, r, n, content);
    w1.(repo := w1.repo.(commits := w.repo.commits[n := CommitRec(Some(head), Edited(w, content))],
                         candidates := w.repo.candidates[n := Candidate(head, Edited(w, content), n)],
                         branch := Some(n)),
        pc := Moved(n, n), log := w.log + [n])
  }

  lemma BeginThenAccept(w: World, r: Id, n: Id)
    requires Linked(w.repo) && w.pc.Idle? && w.repo.branch.Some? && ActiveRun(w, r)
    requires n in w.works && w.works[n].live && !w.works[n].accepted && w.works[n].run == r
    requires BaseOf(w, n) == HeadOf(w.repo) && w.works[n].workspace in w.repo.grants
    requires FingerprintOf(w.repo, w.works[n].workspace) == w.works[n].fingerprint
    ensures var w1 := Next(w, BeginOp(n, false));
      && w1 == w.(pc := Checked(n)) && Linked(w1.repo) && Enabled(w1, AcceptOp(true))
      && Next(w1, AcceptOp(true))
         == w.(pc := ToIntegrate(n), works := w.works[n := w.works[n].(accepted := true)], runs := Bumped(w, r, 1))
  {}

  lemma PassSteps(w: World, r: Id, n: Id, content: int)
    requires Linked(w.repo) && Unknown(w, r, n, content) && w.pc.Idle?
    ensures Linked(Handed(w, r, n, content).repo)
    ensures var w1 := Next(Handed(w, r, n, content), BeginOp(n, false));
      && Linked(w1.repo) && Enabled(w1, AcceptOp(true)) && Next(w1, AcceptOp(true)) == Passed(w, r, n, content)
  {
    var w1 := Handed(w, r, n, content);
    BeginThenAccept(w1, r, n);
    assert w1.works[n := Work(r, n, PrintOf(w, content), true, true, None)] == Passed(w, r, n, content).works;
    assert Bumped(w1, r, 1) == Bumped(w, r, 2);
  }

  lemma CommitsFirst(w: World, r: Id, n: Id, content: int)
    requires Linked(w.repo) && Unknown(w, r, n, content)
    ensures var repo := Passed(w, r, n, content).repo;
      && Linked(repo) && n !in repo.commits
      && Committing(WithBranch(repo), n, n) == Ok((Landed(w, r, n, content).repo.(branch := Some(HeadOf(w.repo))), n))
  {
    var repo := Passed(w, r, n, content).repo;
    var head := HeadOf(w.repo);
    assert repo.candidates[n] == Candidate(head, Edited(w, content), head);
    assert repo.candidates[n := Candidate(head, Edited(w, content), n)]
           == w.repo.candidates[n := Candidate(head, Edited(w, content), n)];
  }

  lemma CommitLands(w: World, r: Id, n: Id, content: int)
    requires Linked(w.repo) && Unknown(w, r, n, content)
    ensures Linked(Passed(w, r, n, content).repo)
    ensures CommitStep(Passed(w, r, n, content), n)
            == Passed(w, r, n, content).(repo := Landed(w, r, n, content).repo.(branch := Some(HeadOf(w.repo))),
                                         pc := Committed(n, HeadOf(w.repo), n))
  {
    CommitsFirst(w, r, n, content);
  }

  lemma LandSteps(w: World, r: Id, n: Id, content: int)
    requires Linked(w.repo) && Unknown(w, r, n, content)
    ensures Linked(Passed(w, r, n, content).repo) && Enabled(Passed(w, r, n, content), CommitOp(n))
    ensures var w1 := Next(Passed(w, r, n, content), CommitOp(n));
      && Linked(w1.repo) && Enabled(w1, MoveOp) && Next(w1, MoveOp) == Landed(w, r, n, content)
  {
    CommitsFirst(w, r, n, content);
    CommitLands(w, r, n, content);
  }

  lemma PassOn(worlds: seq<World>, ops: seq<Op>, w: World, r: Id, n: Id, content: int)
    returns (worlds': seq<World>, ops': seq<Op>)
    requires History(worlds, ops) && Linked(w.repo) && Unknown(w, r, n, content) && w.pc.Idle?
    requires Last(worlds) == Handed(w, r, n, content)
    ensures History(worlds', ops') && worlds <= worlds' && (Plain(ops) ==> Plain(ops'))
    ensures Last(worlds') == Passed(w, r, n, content)
  {
    PassSteps(w, r, n, content);
    worlds', ops' := TwoMore(worlds, ops, BeginOp(n, false), AcceptOp(true));
  }

  lemma MoveOn(worlds: seq<World>, ops: seq<Op>, w: World, r: Id, n: Id, content: int)
    returns (worlds': seq<World>, ops': seq<Op>)
    requires History(worlds, ops) && Linked(w.repo) && Unknown(w, r, n, content)
    requires Last(worlds) == Passed(w, r, n, content)
    ensures History(worlds', ops') && worlds <= worlds' && (Plain(ops) ==> Plain(ops'))
    ensures Last(worlds') == Landed(w, r, n, content)
  {
    LandSteps(w, r, n, content);
    worlds', ops' := TwoMore(worlds, ops, CommitOp(n), MoveOp);
  }

  /** From any idle moment a new candidate of an active run with a change can get to the branch. */
  lemma Land(worlds: seq<World>, ops: seq<Op>, r: Id, n: Id, content: int)
    returns (worlds': seq<World>, ops': seq<Op>)
    requires History(worlds, ops) && Unknown(Last(worlds), r, n, content) && Last(worlds).pc.Idle?
    ensures History(worlds', ops') && worlds <= worlds' && (Plain(ops) ==> Plain(ops'))
    ensures Last(worlds') == Landed(Last(worlds), r, n, content)
  {
    var w := Last(worlds);
    HistoryKeeps(worlds, ops, |worlds| - 1);
    var worlds1, ops1 := HandOver(worlds, ops, r, n, content);
    var worlds2, ops2 := PassOn(worlds1, ops1, w, r, n, content);
    worlds', ops' := MoveOn(worlds2, ops2, w, r, n, content);
  }

  // ---- four ways to lose a commit -------------------------------------------------------------------------

  function Empty(): World {
    World(Repo(map[0 := CommitRec(None, map[])], 0, None, map[], map[]), map[], map[], map[], Idle, [0], {}, {})
  }

  /** A project with the runs 1 and 2. */
  function Project(): World {
    Empty().(runs := map[1 := RunState(M.Active, 1, 0), 2 := RunState(M.Active, 1, 0)])
  }

  lemma Started() returns (worlds: seq<World>, ops: seq<Op>)
    ensures History(worlds, ops) && Plain(ops) && Last(worlds) == Project()
  {
    worlds, ops := TwoMore([Empty()], [], NewRunOp(1), NewRunOp(2));
    assert Last(worlds).runs == Project().runs;
  }

  /** Work 8 of run 1 is on the branch. */
  lemma FirstLanded() returns (worlds: seq<World>, ops: seq<Op>)
    ensures History(worlds, ops) && Plain(ops)
    ensures Unknown(Project(), 1, 8, 5) && Last(worlds) == Landed(Project(), 1, 8, 5)
  {
    assert 0 in Edited(Project(), 5);
    worlds, ops := Started();
    worlds, ops := Land(worlds, ops, 1, 8, 5);
  }

  predicate Unnamed(w: World) { w.pc.Idle? && w.log == [0, 8] }

  /** The record of commit 8 has just failed. */
  ghost predicate Lost(worlds: seq<World>, ops: seq<Op>) {
    History(worlds, ops) && |ops| > 0 && Unnamed(Last(worlds)) && !IsRecorded(Last(worlds), 8)
  }

  lemma LostNow(worlds: seq<World>, ops: seq<Op>)
    requires History(worlds, ops) && |ops| > 0 && Unnamed(Last(worlds)) && LostAt(worlds, ops, |ops| - 1, 8)
    ensures Lost(worlds, ops)
  {
    LostIsNeverRecorded(worlds, ops, |ops| - 1, |worlds| - 1, 8);
  }

  /** A process that dies right after moving the ref leaves a commit on the branch that no artifact
      names, now or later. */
  lemma CrashLosesACommit() returns (worlds: seq<World>, ops: seq<Op>)
    ensures Lost(worlds, ops) && LostToCrash(worlds, ops, |ops| - 1, 8)
  {
    worlds, ops := FirstLanded();
    worlds, ops := Extended(worlds, ops, CrashOp);
    LostNow(worlds, ops);
  }

  /** The branch has moved to a live work of an active run. */
  predicate Arrived(w: World, r: Id, n: Id) {
    && w.pc == Moved(n, n) && n in w.works && w.works[n].run == r && w.works[n].live && ActiveRun(w, r)
  }

  lemma LandedArrives(w: World, r: Id, n: Id, content: int)
    requires Linked(w.repo) && Unknown(w, r, n, content)
    ensures Linked(Landed(w, r, n, content).repo) && Arrived(Landed(w, r, n, content), r, n)
  {
    CommitsFirst(w, r, n, content);
  }

  lemma RetiredLoad(w: World, r: Id, n: Id)
    requires Linked(w.repo) && Arrived(w, r, n)
    ensures var w1 := Next(w, RetireOp(n));
      && Linked(w1.repo) && Enabled(w1, LoadOp) && Next(w1, LoadOp).pc.Idle? && Next(w1, LoadOp).log == w.log
  {}

  lemma ClosedLoad(w: World, r: Id, n: Id, op: Op)
    requires Linked(w.repo) && Arrived(w, r, n) && (op == AbandonOp(r) || op == CompleteOp(r)) && Enabled(w, op)
    ensures var w1 := Next(w, op);
      && Linked(w1.repo) && Enabled(w1, LoadOp) && Next(w1, LoadOp).pc.Idle? && Next(w1, LoadOp).log == w.log
      && r in Next(w1, LoadOp).runs && (op.CompleteOp? ==> Next(w1, LoadOp).runs[r].status.Completed?)
  {}

  /** With nobody dying: a replan retires the task while the lock is held, and recording is refused. */
  lemma RetirementLosesACommit() returns (worlds: seq<World>, ops: seq<Op>)
    ensures Lost(worlds, ops) && LostToRetirement(worlds, ops, |ops| - 1, 8) && NoCrash(ops)
  {
    var before, done := FirstLanded();
    LandedArrives(Project(), 1, 8, 5);
    RetiredLoad(Last(before), 1, 8);
    worlds, ops := TwoMore(before, done, RetireOp(8), LoadOp);
    RetiredHere(before, done, worlds, ops);
    LostNow(worlds, ops);
  }

  lemma RetiredHere(before: seq<World>, done: seq<Op>, worlds: seq<World>, ops: seq<Op>)
    requires |before| == |done| + 1 && Last(before) == Landed(Project(), 1, 8, 5)
    requires |worlds| == |before| + 2 && before <= worlds && ops == done + [RetireOp(8), LoadOp]
    requires worlds[|before|] == Next(Last(before), RetireOp(8))
    ensures LostToRetirement(worlds, ops, |ops| - 1, 8) && LostAt(worlds, ops, |ops| - 1, 8)
  {
    assert worlds[|done|] == Last(before) && ops[|done|] == RetireOp(8);
    assert RetiredAt(worlds, ops, |done|, 8);
  }

  lemma ClosedHere(w: World, before: seq<World>, done: seq<Op>, op: Op, worlds: seq<World>, ops: seq<Op>)
    requires HeadOf(w.repo) in w.repo.commits && 1 in w.runs && (op == AbandonOp(1) || op == CompleteOp(1))
    requires |before| == |done| + 1 && Last(before) == Landed(w, 1, 8, 5) && Linked(Last(before).repo)
    requires |worlds| == |before| + 2 && before <= worlds && ops == done + [op, LoadOp]
    requires Enabled(Last(before), op) && worlds[|before|] == Next(Last(before), op)
    ensures LostToClosing(worlds, ops, |ops| - 1, 8) && LostAt(worlds, ops, |ops| - 1, 8)
  {
    assert ops[|done|] == op;
  }

  /** With nobody dying and nothing retired: the run is abandoned while the lock is held. */
  lemma AbandonmentLosesACommit() returns (worlds: seq<World>, ops: seq<Op>)
    ensures Lost(worlds, ops) && LostToClosing(worlds, ops, |ops| - 1, 8) && NoCrash(ops) && NoRetirement(ops)
  {
    var before, done := FirstLanded();
    LandedArrives(Project(), 1, 8, 5);
    ClosedLoad(Last(before), 1, 8, AbandonOp(1));
    worlds, ops := TwoMore(before, done, AbandonOp(1), LoadOp);
    ClosedHere(Project(), before, done, AbandonOp(1), worlds, ops);
    LostNow(worlds, ops);
  }

  lemma RivalLoad(w: World, r: Id, n: Id)
    requires Linked(w.repo) && Arrived(w, r, n)
    ensures var w1 := Next(w, LoadOp);
      && Linked(w1.repo) && Enabled(w1, RivalOp(r)) && w1 == w.(pc := Recording(n, n, w.runs[r].version))
      && Next(w1, RivalOp(r)) == w1.(runs := Bumped(w, r, 1))
  {}

  lemma RacedSave(w: World, r: Id, n: Id)
    requires Linked(w.repo) && n in w.works && w.works[n].run == r && ActiveRun(w, r)
    requires w.pc.Recording? && w.pc.a == n && w.pc.version != w.runs[r].version
    ensures Enabled(w, SaveOp) && Next(w, SaveOp) == w.(pc := Idle, orphaned := w.orphaned + {n})
  {}

  lemma RacedHere(worlds: seq<World>, ops: seq<Op>, k: nat)
    requires |worlds| == |ops| + 1 && |ops| == k + 2 && ops[k + 1].SaveOp? && SavedAt(worlds, k, 1)
    requires worlds[k + 1].pc == worlds[k].pc && worlds[k].pc.Recording? && worlds[k].pc.commit == 8
    requires worlds[k].pc.a in worlds[k + 1].works && RunOf(worlds[k + 1], worlds[k].pc.a) == 1
    ensures LostToRace(worlds, ops, k + 1, 8) && LostAt(worlds, ops, k + 1, 8)
  {}

  lemma RivalSaved() returns (worlds: seq<World>, ops: seq<Op>)
    ensures History(worlds, ops) && Plain(ops) && |ops| > 0 && Unknown(Project(), 1, 8, 5)
    ensures var w := Landed(Project(), 1, 8, 5);
      && Arrived(w, 1, 8) && Last(worlds) == w.(pc := Recording(8, 8, w.runs[1].version), runs := Bumped(w, 1, 1))
    ensures Linked(Last(worlds).repo) && worlds[|ops| - 1].pc == Last(worlds).pc && SavedAt(worlds, |ops| - 1, 1)
  {
    var before, done := FirstLanded();
    LandedArrives(Project(), 1, 8, 5);
    RivalLoad(Last(before), 1, 8);
    worlds, ops := TwoMore(before, done, LoadOp, RivalOp(1));
  }

  /** With nobody dying, nothing retired and the run as active as ever: another process saves on the
      run between the load and the save of the record. */
  lemma RaceLosesACommit() returns (worlds: seq<World>, ops: seq<Op>)
    ensures Lost(worlds, ops) && LostToRace(worlds, ops, |ops| - 1, 8) && Plain(ops)
    ensures ActiveRun(Last(worlds), 1) && 8 in Last(worlds).works && Last(worlds).works[8].live
  {
    var before, done := RivalSaved();
    RacedSave(Last(before), 1, 8);
    worlds, ops := Extended(before, done, SaveOp);
    RacedHere(worlds, ops, |ops| - 2);
    LostNow(worlds, ops);
  }

  // ---- deliveries that are refused ------------------------------------------------------------------------

  /** On the branch and recorded. */
  function Done(w: World, r: Id, n: Id, content: int): World
    requires HeadOf(w.repo) in w.repo.commits && r in w.runs
  {
    Landed(w, r, n, content).(works := w.works[n := Work(r, n, PrintOf(w, content), true, true, Some(n))],
                              runs := Bumped(w, r, 3), pc := Idle)
  }

  lemma LoadThenSave(w: World, r: Id, n: Id)
    requires Linked(w.repo) && Arrived(w, r, n)
    ensures Enabled(w, LoadOp)
    ensures var w1 := Next(w, LoadOp);
      && w1 == w.(pc := Recording(n, n, w.runs[r].version)) && Linked(w1.repo) && Enabled(w1, SaveOp)
      && Next(w1, SaveOp)
         == w.(pc := Idle, works := w.works[n := w.works[n].(integrated := Some(n))], runs := Bumped(w, r, 1))
  {}

  lemma RecordSteps(w: World, r: Id, n: Id, content: int)
    requires Linked(w.repo) && Unknown(w, r, n, content)
    ensures Linked(Landed(w, r, n, content).repo) && Enabled(Landed(w, r, n, content), LoadOp)
    ensures var w1 := Next(Landed(w, r, n, content), LoadOp);
      && Linked(w1.repo) && Enabled(w1, SaveOp) && Next(w1, SaveOp) == Done(w, r, n, content)
  {
    LandedArrives(w, r, n, content);
    LoadThenSave(Landed(w, r, n, content), r, n);
    var w1 := Next(Landed(w, r, n, content), LoadOp);
    assert w1.works[n := Work(r, n, PrintOf(w, content), true, true, Some(n))] == Done(w, r, n, content).works;
    assert Bumped(w1, r, 1) == Bumped(w, r, 3);
  }

  /** From any idle moment a new candidate of an active run with a change can be integrated. */
  lemma LandAndRecord(worlds: seq<World>, ops: seq<Op>, r: Id, n: Id, content: int)
    returns (worlds': seq<World>, ops': seq<Op>)
    requires History(worlds, ops) && Unknown(Last(worlds), r, n, content) && Last(worlds).pc.Idle?
    ensures History(worlds', ops') && worlds <= worlds' && (Plain(ops) ==> Plain(ops'))
    ensures Last(worlds') == Done(Last(worlds), r, n, content)
  {
    var w := Last(worlds);
    HistoryKeeps(worlds, ops, |worlds| - 1);
    RecordSteps(w, r, n, content);
    worlds', ops' := Land(worlds, ops, r, n, content);
    worlds', ops' := TwoMore(worlds', ops', LoadOp, SaveOp);
  }

  /** Work 8 of run 1 is integrated. */
  lemma FirstDone() returns (worlds: seq<World>, ops: seq<Op>)
    ensures History(worlds, ops) && Plain(ops)
    ensures Unknown(Project(), 1, 8, 5) && Last(worlds) == Done(Project(), 1, 8, 5)
  {
    assert 0 in Edited(Project(), 5);
    worlds, ops := Started();
    worlds, ops := LandAndRecord(worlds, ops, 1, 8, 5);
  }

  function First(): World requires Unknown(Project(), 1, 8, 5) { Done(Project(), 1, 8, 5) }

  lemma FirstLeavesRoom(r: Id)
    requires r == 1 || r == 2
    ensures Unknown(Project(), 1, 8, 5) && Unknown(First(), r, 9, 6)
  {
    assert 0 in Edited(Project(), 5);
    assert Edited(First(), 6)[0] == 6;
  }

  /** Both commits are recorded, and the accepted code of the run is integrated. */
  ghost predicate BothRecorded(w: World, r: Id) {
    w.pc.Idle? && w.log == [0, 8, 9] && IsRecorded(w, 8) && IsRecorded(w, 9) && DeliversBranch(w, r)
  }

  /** Both works are integrated, 9 last. */
  predicate TwoDone(w: World, r: Id) {
    && w.pc.Idle? && w.log == [0, 8, 9] && HeadOf(w.repo) == 9 && ActiveRun(w, r) && w.works.Keys == {8, 9}
    && w.works[8].run == 1 && w.works[8].live && w.works[8].accepted && w.works[8].integrated == Some(8)
    && w.works[9].run == r && w.works[9].live && w.works[9].accepted && w.works[9].integrated == Some(9)
  }

  lemma LastRetired(w: World)
    requires TwoDone(w, 1)
    ensures BothRecorded(RetiredWork(w, 9), 1) && !DeliveryPasses(RetiredWork(w, 9), 1)
  {
    var w' := RetiredWork(w, 9);
    assert RecordedBy(w', 8, 8) && RecordedBy(w', 9, 9) && Counts(w', 1, 8);
  }

  /** Every commit is recorded and nobody died; the work of the last integration is retired by a later
      replan, and the branch that Cavman alone has moved is refused. */
  lemma LateRetirementBlocksDelivery() returns (worlds: seq<World>, ops: seq<Op>)
    ensures History(worlds, ops) && NoCrash(ops) && BothRecorded(Last(worlds), 1) && !DeliveryPasses(Last(worlds), 1)
  {
    worlds, ops := BothDone();
    LastRetired(Last(worlds));
    HistoryKeeps(worlds, ops, |worlds| - 1);
    worlds, ops := Extended(worlds, ops, RetireOp(9));
  }

  lemma BothDone() returns (worlds: seq<World>, ops: seq<Op>)
    ensures History(worlds, ops) && NoCrash(ops)
    ensures TwoDone(Last(worlds), 1)
  {
    FirstLeavesRoom(1);
    var worlds1, ops1 := FirstDone();
    worlds, ops := LandAndRecord(worlds1, ops1, 1, 9, 6);
  }

  /** Run 1 was completed with its work integrated. */
  function FirstClosed(): World requires Unknown(Project(), 1, 8, 5) {
    First().(runs := First().runs[1 := RunState(M.Completed, 5, 0)])
  }

  lemma CloseSteps()
    requires Unknown(Project(), 1, 8, 5) && Linked(First().repo)
    ensures Enabled(First(), FinishOp(1))
    ensures var w1 := Next(First(), FinishOp(1));
      Linked(w1.repo) && Enabled(w1, CompleteOp(1)) && Next(w1, CompleteOp(1)) == FirstClosed()
    ensures DeliversBranch(FirstClosed(), 1) && DeliveryPasses(FirstClosed(), 1)
  {
    var w1 := Next(First(), FinishOp(1));
    assert First().works.Keys == {8};
    assert w1 == Finishing(First(), 1) && NothingUnintegrated(First(), 1);
    assert Counts(FirstClosed(), 1, 8);
    assert ReachesIn(FirstClosed().repo, 8, 8, 0);
    assert Next(w1, CompleteOp(1)).runs == FirstClosed().runs;
  }

  lemma HeadOfOther(w: World)
    requires TwoDone(w, 2)
    ensures BothRecorded(w, 1) && !DeliveryPasses(w, 1)
  {
    assert RecordedBy(w, 8, 8) && RecordedBy(w, 9, 9) && Counts(w, 1, 8);
  }

  lemma HeadOfOwner(w: World)
    requires TwoDone(w, 2)
    ensures BothRecorded(w, 2) && DeliveryPasses(w, 2)
  {
    assert RecordedBy(w, 8, 8) && RecordedBy(w, 9, 9) && Counts(w, 2, 9);
    assert ReachesIn(w.repo, 9, 9, 0);
  }

  /** The run is completed and its delivery passes. */
  ghost predicate Delivered(w: World, r: Id) {
    r in w.runs && w.runs[r].status.Completed? && DeliversBranch(w, r) && DeliveryPasses(w, r)
  }

  lemma FirstDelivered() returns (worlds: seq<World>, ops: seq<Op>)
    ensures History(worlds, ops) && Plain(ops)
    ensures Unknown(Project(), 1, 8, 5) && Last(worlds) == FirstClosed() && Delivered(Last(worlds), 1)
  {
    worlds, ops := FirstDone();
    HistoryKeeps(worlds, ops, |worlds| - 1);
    CloseSteps();
    worlds, ops := TwoMore(worlds, ops, FinishOp(1), CompleteOp(1));
  }

  lemma ClosedLeavesRoom()
    ensures Unknown(Project(), 1, 8, 5) && Unknown(FirstClosed(), 2, 9, 6)
    ensures TwoDone(Done(FirstClosed(), 2, 9, 6), 2)
  {
    FirstLeavesRoom(2);
  }

  lemma OneOfEach() returns (worlds: seq<World>, ops: seq<Op>, k: nat)
    ensures History(worlds, ops) && Plain(ops) && TwoDone(Last(worlds), 2) && k < |worlds| && Delivered(worlds[k], 1)
  {
    var worlds1, ops1 := FirstDelivered();
    ClosedLeavesRoom();
    k := |worlds1| - 1;
    worlds, ops := LandAndRecord(worlds1, ops1, 2, 9, 6);
    assert worlds[k] == Last(worlds1);
  }

  /** Nobody died, nothing was retired and every commit is recorded.  Run 1 is completed and could be
      delivered; then another run of the project integrates its own work, and the delivery of run 1 is
      refused from there on, while that of run 2 passes. */
  lemma OtherRunBlocksDelivery() returns (worlds: seq<World>, ops: seq<Op>, k: nat)
    ensures History(worlds, ops) && Plain(ops) && k < |worlds| && Delivered(worlds[k], 1)
    ensures BothRecorded(Last(worlds), 1) && !DeliveryPasses(Last(worlds), 1)
    ensures BothRecorded(Last(worlds), 2) && DeliveryPasses(Last(worlds), 2)
  {
    worlds, ops, k := OneOfEach();
    HeadOfOther(Last(worlds));
    HeadOfOwner(Last(worlds));
  }

  // ---- a completion that overtakes an integration ---------------------------------------------------------

  /** The call to complete looks for accepted code that is not integrated while there is none yet, the
      work is accepted and the branch moves, and the run is completed before the record: the run ends
      completed with code on the branch that no artifact names. */
  lemma CompletionLosesACommit() returns (worlds: seq<World>, ops: seq<Op>)
    ensures Lost(worlds, ops) && LostToClosing(worlds, ops, |ops| - 1, 8) && Plain(ops)
    ensures 1 in Last(worlds).runs && Last(worlds).runs[1].status.Completed?
  {
    var before, done := OvertakenLanding();
    LandedArrives(Ending(), 1, 8, 5);
    ClosedLoad(Last(before), 1, 8, CompleteOp(1));
    worlds, ops := TwoMore(before, done, CompleteOp(1), LoadOp);
    ClosedHere(Ending(), before, done, CompleteOp(1), worlds, ops);
    LostNow(worlds, ops);
  }

  /** Run 1 is being completed, and nothing was accepted yet. */
  function Ending(): World { Project().(runs := Project().runs[1 := RunState(M.Active, 1, 1)]) }

  lemma EndsNow()
    ensures Linked(Project().repo) && Enabled(Project(), FinishOp(1)) && Next(Project(), FinishOp(1)) == Ending()
  {
    assert NothingUnintegrated(Project(), 1);
  }

  lemma OvertakenLanding() returns (worlds: seq<World>, ops: seq<Op>)
    ensures History(worlds, ops) && Plain(ops)
    ensures Unknown(Ending(), 1, 8, 5) && Last(worlds) == Landed(Ending(), 1, 8, 5)
  {
    assert 0 in Edited(Ending(), 5);
    worlds, ops := Started();
    EndsNow();
    worlds, ops := Extended(worlds, ops, FinishOp(1));
    worlds, ops := Land(worlds, ops, 1, 8, 5);
  }
}
