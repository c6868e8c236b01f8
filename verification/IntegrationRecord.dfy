/** Which commits of the branch the record names. */
module IntegrationRecord {
  import opened Base
  import opened Workspaces
  import opened Integration
  import opened IntegrationTheorems

  predicate RecordedBy(w: World, a: Id, c: CommitId) { a in w.works && w.works[a].integrated == Some(c) }

  ghost predicate IsRecorded(w: World, c: CommitId) { exists a :: RecordedBy(w, a, c) }

  /** The commit is on the branch and its recording is still to come. */
  predicate Pending(w: World, c: CommitId) { (w.pc.Moved? || w.pc.Recording?) && w.pc.commit == c }

  function RunOf(w: World, a: Id): Id requires a in w.works { w.works[a].run }

  /** At step k the commit is on the branch, and the call is cut short. */
  ghost predicate LostToCrash(worlds: seq<World>, ops: seq<Op>, k: nat, c: CommitId)
    requires k < |worlds| && k < |ops|
  {
    Pending(worlds[k], c) && ops[k].CrashOp?
  }

  /** At step k the record is begun for the commit. */
  predicate LoadsAt(worlds: seq<World>, ops: seq<Op>, k: nat, c: CommitId)
    requires k < |worlds| && k < |ops|
  {
    worlds[k].pc.Moved? && worlds[k].pc.commit == c && ops[k].LoadOp? && worlds[k].pc.a in worlds[k].works
  }

  /** And refused, because its work was retired meanwhile. */
  ghost predicate LostToRetirement(worlds: seq<World>, ops: seq<Op>, k: nat, c: CommitId)
    requires k < |worlds| && k < |ops|
  {
    LoadsAt(worlds, ops, k, c) && RetiredDuringCall(worlds, ops, k, worlds[k].pc.a)
  }

  /** Or refused, because its run was completed or abandoned before. */
  ghost predicate LostToClosing(worlds: seq<World>, ops: seq<Op>, k: nat, c: CommitId)
    requires k < |worlds| && k < |ops|
  {
    LoadsAt(worlds, ops, k, c) && ClosedBefore(worlds, ops, k, RunOf(worlds[k], worlds[k].pc.a))
  }

  /** At step k the record is saved, and refused, because something else was saved on the run since
      it was loaded. */
  ghost predicate LostToRace(worlds: seq<World>, ops: seq<Op>, k: nat, c: CommitId)
    requires k < |worlds| && k < |ops|
  {
    && worlds[k].pc.Recording? && worlds[k].pc.commit == c && ops[k].SaveOp? && worlds[k].pc.a in worlds[k].works
    && RacedBefore(worlds, ops, k, RunOf(worlds[k], worlds[k].pc.a))
  }

  /** The work was failed, recovered or replanned while the lock was held for its integration. */
  ghost predicate RetiredDuringCall(worlds: seq<World>, ops: seq<Op>, k: nat, a: Id)
    requires k < |worlds| && k <= |ops|
  {
    exists m :: 0 <= m < k && RetiredAt(worlds, ops, m, a) && Busy(worlds[m].pc, a)
  }

  ghost predicate RetiredAt(worlds: seq<World>, ops: seq<Op>, m: nat, a: Id)
    requires m < |worlds| && m < |ops|
  {
    ops[m] == RetireOp(a) && a in worlds[m].works && ActiveRun(worlds[m], RunOf(worlds[m], a))
  }

  ghost predicate ClosedBefore(worlds: seq<World>, ops: seq<Op>, k: nat, r: Id)
    requires k < |worlds| && k <= |ops|
  {
    exists m :: 0 <= m < k && (ops[m] == CompleteOp(r) || ops[m] == AbandonOp(r))
  }

  /** While the record that is about to be saved was being made, something was saved on the run. */
  ghost predicate RacedBefore(worlds: seq<World>, ops: seq<Op>, k: nat, r: Id)
    requires k < |worlds| && k <= |ops|
  {
    exists m :: 0 <= m < k && worlds[m].pc == worlds[k].pc && SavedAt(worlds, m, r)
  }

  predicate SavedAt(worlds: seq<World>, m: nat, r: Id) requires m + 1 < |worlds| {
    && r in worlds[m].runs && r in worlds[m + 1].runs
    && worlds[m].runs[r].version < worlds[m + 1].runs[r].version
  }

  ghost predicate LostAt(worlds: seq<World>, ops: seq<Op>, k: nat, c: CommitId)
    requires k < |worlds| && k < |ops|
  {
    || LostToCrash(worlds, ops, k, c) || LostToRetirement(worlds, ops, k, c)
    || LostToClosing(worlds, ops, k, c) || LostToRace(worlds, ops, k, c)
  }

  ghost predicate LostBefore(worlds: seq<World>, ops: seq<Op>, i: nat, c: CommitId)
    requires i < |worlds| && i <= |ops|
  {
    exists k :: 0 <= k < i && LostAt(worlds, ops, k, c)
  }

  // ---- retirement while the lock is held --------------------------------------------------------------

  lemma EntersAlive(w: World, op: Op, w': World, a: Id)
    requires Inv(w) && Steps(w, op, w') && Busy(w'.pc, a) && !Busy(w.pc, a)
    ensures a in w'.works && w'.works[a].live
  {
    if FileOp(op) || RunOp(op) { OutsideKeepsProtocol(w, op, w'); }
  }

  lemma StaysAlive(w: World, op: Op, w': World, a: Id)
    requires Inv(w) && Steps(w, op, w') && Busy(w.pc, a) && Busy(w'.pc, a) && a in w.works
    requires !(op == RetireOp(a) && ActiveRun(w, RunOf(w, a)))
    ensures a in w'.works && w'.works[a].live == w.works[a].live
  {
    if FileOp(op) || RunOp(op) { OutsideKeepsProtocol(w, op, w'); }
  }

  lemma RetiredIsDead(worlds: seq<World>, ops: seq<Op>, m: nat, k: nat, a: Id)
    requires History(worlds, ops) && m < k < |worlds| && RetiredAt(worlds, ops, m, a)
    ensures a in worlds[k].works && !worlds[k].works[a].live
  {
    HistoryKeeps(worlds, ops, m);
    assert Steps(worlds[m], ops[m], worlds[m + 1]);
    SubmissionStays(worlds, ops, m + 1, k, a);
  }

  lemma BusyIsKnown(w: World, a: Id)
    requires Inv(w) && Busy(w.pc, a)
    ensures a in w.works
  {}

  lemma {:induction false} DeadWasRetired(worlds: seq<World>, ops: seq<Op>, k: nat, a: Id)
    requires History(worlds, ops) && k < |worlds| && Busy(worlds[k].pc, a)
    requires a in worlds[k].works && !worlds[k].works[a].live
    ensures RetiredDuringCall(worlds, ops, k, a)
    decreases k
  {
    HistoryKeeps(worlds, ops, k - 1);
    var w, op := worlds[k - 1], ops[k - 1];
    assert Steps(w, op, worlds[k]);
    if !Busy(w.pc, a) {
      EntersAlive(w, op, worlds[k], a);
      return;
    }
    BusyIsKnown(w, a);
    if op == RetireOp(a) && ActiveRun(w, RunOf(w, a)) {
      assert RetiredAt(worlds, ops, k - 1, a);
    } else {
      StaysAlive(w, op, worlds[k], a);
      DeadWasRetired(worlds, ops, k - 1, a);
    }
  }

  /** A work that is being integrated is dead exactly if it was retired since the lock was taken. */
  lemma RetirementIsSeen(worlds: seq<World>, ops: seq<Op>, k: nat, a: Id)
    requires History(worlds, ops) && k < |worlds| && Busy(worlds[k].pc, a)
    ensures a in worlds[k].works && (!worlds[k].works[a].live <==> RetiredDuringCall(worlds, ops, k, a))
  {
    HistoryKeeps(worlds, ops, k);
    BusyIsKnown(worlds[k], a);
    if m :| 0 <= m < k && RetiredAt(worlds, ops, m, a) && Busy(worlds[m].pc, a) {
      RetiredIsDead(worlds, ops, m, k, a);
    }
    if !worlds[k].works[a].live { DeadWasRetired(worlds, ops, k, a); }
  }

  // ---- closed runs and races ------------------------------------------------------------------------------

  lemma ClosingSteps(w: World, op: Op, w': World, r: Id)
    requires Steps(w, op, w')
    ensures (r in w'.runs && !w'.runs[r].status.Active?) <==>
            (r in w.runs && !w.runs[r].status.Active?) || op == CompleteOp(r) || op == AbandonOp(r)
  {}

  lemma {:induction false} ClosedIsSeen(worlds: seq<World>, ops: seq<Op>, k: nat, r: Id)
    requires History(worlds, ops) && k < |worlds|
    ensures (r in worlds[k].runs && !worlds[k].runs[r].status.Active?) <==> ClosedBefore(worlds, ops, k, r)
    decreases k
  {
    if k > 0 {
      ClosedIsSeen(worlds, ops, k - 1, r);
      ClosingSteps(worlds[k - 1], ops[k - 1], worlds[k], r);
    }
  }

  lemma RunsStay(w: World, op: Op, w': World, r: Id)
    requires Steps(w, op, w') && r in w.runs
    ensures r in w'.runs && w.runs[r].version <= w'.runs[r].version
  {}

  lemma WorkKeepsRun(w: World, op: Op, w': World, a: Id)
    requires Steps(w, op, w') && a in w.works
    ensures a in w'.works && RunOf(w', a) == RunOf(w, a)
  {}

  lemma EntersRecording(w: World, op: Op, w': World)
    requires Inv(w) && Steps(w, op, w') && w'.pc.Recording? && w.pc != w'.pc
    ensures op.LoadOp? && w'.pc.a in w'.works && RunOf(w', w'.pc.a) in w'.runs
    ensures w'.pc.version == w'.runs[RunOf(w', w'.pc.a)].version
  {
    if FileOp(op) || RunOp(op) { OutsideKeepsProtocol(w, op, w'); }
  }

  ghost predicate Raced(worlds: seq<World>, ops: seq<Op>, k: nat)
    requires k < |worlds| && k <= |ops| && worlds[k].pc.Recording? && worlds[k].pc.a in worlds[k].works
  {
    RacedBefore(worlds, ops, k, RunOf(worlds[k], worlds[k].pc.a))
  }

  lemma RecordingIsKnown(w: World)
    requires Inv(w) && w.pc.Recording?
    ensures w.pc.a in w.works && RunOf(w, w.pc.a) in w.runs && w.pc.version <= w.runs[RunOf(w, w.pc.a)].version
  {}

  lemma RacedNext(worlds: seq<World>, ops: seq<Op>, k: nat)
    requires History(worlds, ops) && k + 1 < |worlds| && worlds[k].pc.Recording? && worlds[k + 1].pc == worlds[k].pc
    requires worlds[k].pc.a in worlds[k].works
    ensures worlds[k].pc.a in worlds[k + 1].works
    ensures Raced(worlds, ops, k + 1) <==>
            Raced(worlds, ops, k) || SavedAt(worlds, k, RunOf(worlds[k], worlds[k].pc.a))
  {
    assert Steps(worlds[k], ops[k], worlds[k + 1]);
    WorkKeepsRun(worlds[k], ops[k], worlds[k + 1], worlds[k].pc.a);
  }

  lemma LogStep(w: World, op: Op, w': World)
    requires Steps(w, op, w')
    ensures w.log <= w'.log && w.repo.start == w'.repo.start
  {
    if FileOp(op) || RunOp(op) { OutsideKeepsProtocol(w, op, w'); }
  }

  lemma {:induction false} LogGrows(worlds: seq<World>, ops: seq<Op>, i: nat, j: nat)
    requires History(worlds, ops) && i <= j < |worlds|
    ensures worlds[i].log <= worlds[j].log && worlds[i].repo.start == worlds[j].repo.start
    decreases j
  {
    if i < j {
      LogGrows(worlds, ops, i, j - 1);
      assert Steps(worlds[j - 1], ops[j - 1], worlds[j]);
      LogStep(worlds[j - 1], ops[j - 1], worlds[j]);
    }
  }

  lemma MovesNewCommits(w: World, op: Op, w': World, c: CommitId)
    requires Inv(w) && Steps(w, op, w') && c in w.log && w'.pc.Moved? && w'.pc.commit == c
    ensures w.pc == w'.pc
  {
    if op.MoveOp? { SwapSucceeds(w); }
    else if FileOp(op) || RunOp(op) { OutsideKeepsProtocol(w, op, w'); }
  }

  lemma PendingStaysOnBranch(worlds: seq<World>, ops: seq<Op>, m: nat, n: nat)
    requires History(worlds, ops) && m <= n < |worlds| && (worlds[m].pc.Moved? || worlds[m].pc.Recording?)
    ensures worlds[m].pc.commit in worlds[n].log && Inv(worlds[n])
  {
    HistoryKeeps(worlds, ops, m);
    HistoryKeeps(worlds, ops, n);
    LogGrows(worlds, ops, m, n);
    assert Last(worlds[m].log) in worlds[m].log;
  }

  /** A commit whose record is being made does not go back to waiting for one. */
  lemma {:induction false} RecordingIsOnce(worlds: seq<World>, ops: seq<Op>, m: nat, n: nat, c: CommitId)
    requires History(worlds, ops) && m <= n < |worlds| && worlds[m].pc.Recording? && worlds[m].pc.commit == c
    ensures !(worlds[n].pc.Moved? && worlds[n].pc.commit == c)
    decreases n
  {
    if m < n && worlds[n].pc.Moved? && worlds[n].pc.commit == c {
      RecordingIsOnce(worlds, ops, m, n - 1, c);
      PendingStaysOnBranch(worlds, ops, m, n - 1);
      assert Steps(worlds[n - 1], ops[n - 1], worlds[n]);
      MovesNewCommits(worlds[n - 1], ops[n - 1], worlds[n], c);
    }
  }

  lemma FreshRecordNotRaced(worlds: seq<World>, ops: seq<Op>, k: nat)
    requires History(worlds, ops) && 0 < k < |worlds| && worlds[k].pc.Recording? && worlds[k - 1].pc != worlds[k].pc
    requires worlds[k].pc.a in worlds[k].works
    ensures !Raced(worlds, ops, k)
  {
    HistoryKeeps(worlds, ops, k - 1);
    assert Steps(worlds[k - 1], ops[k - 1], worlds[k]);
    EntersRecording(worlds[k - 1], ops[k - 1], worlds[k]);
    forall m | 0 <= m < k ensures worlds[m].pc != worlds[k].pc {
      if worlds[m].pc == worlds[k].pc { RecordingIsOnce(worlds, ops, m, k - 1, worlds[k].pc.commit); }
    }
  }

  /** The save is refused exactly if something was saved on the run since the record was loaded. */
  lemma {:induction false} RaceIsSeen(worlds: seq<World>, ops: seq<Op>, k: nat)
    requires History(worlds, ops) && k < |worlds| && worlds[k].pc.Recording?
    ensures worlds[k].pc.a in worlds[k].works && RunOf(worlds[k], worlds[k].pc.a) in worlds[k].runs
    ensures Raced(worlds, ops, k) <==>
            worlds[k].runs[RunOf(worlds[k], worlds[k].pc.a)].version != worlds[k].pc.version
    decreases k
  {
    HistoryKeeps(worlds, ops, k);
    RecordingIsKnown(worlds[k]);
    assert k > 0;
    var w, w' := worlds[k - 1], worlds[k];
    HistoryKeeps(worlds, ops, k - 1);
    assert Steps(w, ops[k - 1], w');
    if w.pc == w'.pc {
      RaceIsSeen(worlds, ops, k - 1);
      RecordingIsKnown(w);
      WorkKeepsRun(w, ops[k - 1], w', w.pc.a);
      RunsStay(w, ops[k - 1], w', RunOf(w, w.pc.a));
      RacedNext(worlds, ops, k - 1);
    } else {
      EntersRecording(w, ops[k - 1], w');
      FreshRecordNotRaced(worlds, ops, k);
    }
  }

  // ---- what gets recorded ---------------------------------------------------------------------------------

  /** No commit is recorded for two works, and the one about to be recorded is recorded for none. */
  ghost predicate OneRecord(w: World) {
    && (forall a, b, c :: RecordedBy(w, a, c) && RecordedBy(w, b, c) ==> a == b)
    && (w.pc.Moved? || w.pc.Recording? ==> !IsRecorded(w, w.pc.commit))
  }

  ghost predicate SameRecords(w: World, w': World) { forall a, c :: RecordedBy(w', a, c) <==> RecordedBy(w, a, c) }

  lemma BranchStepKeepsWorks(w: World, op: Op, w': World)
    requires Inv(w) && Steps(w, op, w') && (op.CommitOp? || op.MoveOp? || op.LoadOp? || op.CrashOp?)
    ensures w'.works == w.works
  {}

  lemma KernelStepKeepsRecords(w: World, op: Op, w': World)
    requires Steps(w, op, w') && (op.BeginOp? || op.AcceptOp? || op.RetireOp? || op.SubmitOp?)
    ensures SameRecords(w, w')
  {
    forall a, c ensures RecordedBy(w', a, c) <==> RecordedBy(w, a, c) {}
  }

  lemma OnlySaveRecords(w: World, op: Op, w': World)
    requires Inv(w) && Steps(w, op, w') && !op.SaveOp?
    ensures SameRecords(w, w')
  {
    if op.CommitOp? || op.MoveOp? || op.LoadOp? || op.CrashOp? { BranchStepKeepsWorks(w, op, w'); }
    else if FileOp(op) || RunOp(op) { OutsideKeepsProtocol(w, op, w'); }
    else { KernelStepKeepsRecords(w, op, w'); }
  }

  /** The save goes through. */
  predicate Unraced(w: World) {
    && w.pc.Recording? && w.pc.a in w.works && RunOf(w, w.pc.a) in w.runs
    && w.runs[RunOf(w, w.pc.a)].version == w.pc.version
  }

  lemma SaveNames(w: World, w': World)
    requires Inv(w) && Steps(w, SaveOp, w')
    ensures forall a, c :: RecordedBy(w', a, c) <==>
              RecordedBy(w, a, c) || (a == w.pc.a && c == w.pc.commit && Unraced(w))
    ensures w'.pc.Idle?
  {
    assert WorkOk(w, w.pc.a);
    forall a, c ensures RecordedBy(w', a, c) <==>
                        RecordedBy(w, a, c) || (a == w.pc.a && c == w.pc.commit && Unraced(w)) {}
  }

  lemma MovedIsNew(w: World, w': World)
    requires Inv(w) && Steps(w, MoveOp, w')
    ensures w'.pc.Moved? && w'.pc.commit == w.pc.commit && !IsRecorded(w, w.pc.commit)
  {
    SwapSucceeds(w);
    forall a | a in w.works ensures w.works[a].integrated != Some(w.pc.commit) { assert WorkOk(w, a); }
  }

  lemma PendingSince(w: World, op: Op, w': World)
    requires Inv(w) && Steps(w, op, w') && (w'.pc.Moved? || w'.pc.Recording?) && !op.MoveOp?
    ensures (w.pc.Moved? || w.pc.Recording?) && w.pc.a == w'.pc.a && w.pc.commit == w'.pc.commit && !op.SaveOp?
  {
    if FileOp(op) || RunOp(op) { OutsideKeepsProtocol(w, op, w'); }
  }

  lemma OneRecordKept(w: World, op: Op, w': World)
    requires Inv(w) && OneRecord(w) && Steps(w, op, w')
    ensures OneRecord(w')
  {
    if op.SaveOp? {
      SaveNames(w, w');
    } else {
      OnlySaveRecords(w, op, w');
      if op.MoveOp? { MovedIsNew(w, w'); }
      else if w'.pc.Moved? || w'.pc.Recording? { PendingSince(w, op, w'); }
    }
  }

  lemma {:induction false} OneRecordAlways(worlds: seq<World>, ops: seq<Op>, i: nat)
    requires History(worlds, ops) && i < |worlds|
    ensures OneRecord(worlds[i])
  {
    if i > 0 {
      OneRecordAlways(worlds, ops, i - 1);
      HistoryKeeps(worlds, ops, i - 1);
      OneRecordKept(worlds[i - 1], ops[i - 1], worlds[i]);
    }
  }

  /** How one step changes whether a commit of the branch is recorded. */
  ghost predicate RecordMoves(worlds: seq<World>, ops: seq<Op>, k: nat, c: CommitId)
    requires k < |ops| && k + 1 < |worlds|
  {
    var w, w' := worlds[k], worlds[k + 1];
    if Pending(w, c) && !Pending(w', c) then !IsRecorded(w, c) && (IsRecorded(w', c) <==> !LostAt(worlds, ops, k, c))
    else (Pending(w', c) <==> Pending(w, c)) && (IsRecorded(w', c) <==> IsRecorded(w, c)) && !LostAt(worlds, ops, k, c)
  }

  lemma SaveMoves(worlds: seq<World>, ops: seq<Op>, k: nat, c: CommitId)
    requires History(worlds, ops) && k < |ops| && c in worlds[k].log && ops[k].SaveOp?
    ensures RecordMoves(worlds, ops, k, c)
  {
    var w, w' := worlds[k], worlds[k + 1];
    HistoryKeeps(worlds, ops, k);
    OneRecordAlways(worlds, ops, k);
    assert Steps(w, ops[k], w');
    RaceIsSeen(worlds, ops, k);
    SaveNames(w, w');
    if Unraced(w) { assert RecordedBy(w', w.pc.a, w.pc.commit); }
  }

  lemma LoadMoves(worlds: seq<World>, ops: seq<Op>, k: nat, c: CommitId)
    requires History(worlds, ops) && k < |ops| && c in worlds[k].log && ops[k].LoadOp?
    ensures RecordMoves(worlds, ops, k, c)
  {
    var w, w' := worlds[k], worlds[k + 1];
    HistoryKeeps(worlds, ops, k);
    OneRecordAlways(worlds, ops, k);
    assert Steps(w, ops[k], w');
    RetirementIsSeen(worlds, ops, k, w.pc.a);
    ClosedIsSeen(worlds, ops, k, RunOf(w, w.pc.a));
    OnlySaveRecords(w, ops[k], w');
  }

  lemma RecordStep(worlds: seq<World>, ops: seq<Op>, k: nat, c: CommitId)
    requires History(worlds, ops) && k < |ops| && c in worlds[k].log
    ensures RecordMoves(worlds, ops, k, c)
  {
    var w, op, w' := worlds[k], ops[k], worlds[k + 1];
    if op.SaveOp? {
      SaveMoves(worlds, ops, k, c);
    } else if op.LoadOp? {
      LoadMoves(worlds, ops, k, c);
    } else {
      HistoryKeeps(worlds, ops, k);
      OneRecordAlways(worlds, ops, k);
      assert Steps(w, op, w');
      OnlySaveRecords(w, op, w');
      if op.MoveOp? { SwapSucceeds(w); }
      else if w'.pc.Moved? || w'.pc.Recording? { PendingSince(w, op, w'); }
    }
  }

  /** A commit that has just reached the branch was never lost before. */
  lemma NewIsNotLost(worlds: seq<World>, ops: seq<Op>, i: nat, c: CommitId)
    requires History(worlds, ops) && i < |worlds| && c !in worlds[i].log
    ensures !LostBefore(worlds, ops, i, c)
  {
    forall k | 0 <= k < i ensures !LostAt(worlds, ops, k, c) {
      LogGrows(worlds, ops, k, i);
      HistoryKeeps(worlds, ops, k);
    }
  }

  lemma NewOnBranch(w: World, op: Op, w': World, c: CommitId)
    requires Inv(w) && Steps(w, op, w') && c !in w.log && c in w'.log
    ensures op.MoveOp? && Pending(w', c) && !Pending(w, c)
  {
    if op.MoveOp? { SwapSucceeds(w); }
  }

  lemma LostBeforeNext(worlds: seq<World>, ops: seq<Op>, i: nat, c: CommitId)
    requires i < |ops| && i + 1 < |worlds| && |worlds| == |ops| + 1
    ensures LostBefore(worlds, ops, i + 1, c) <==> LostBefore(worlds, ops, i, c) || LostAt(worlds, ops, i, c)
  {}

  ghost predicate Accounted(worlds: seq<World>, ops: seq<Op>, i: nat, c: CommitId)
    requires i < |worlds| && i <= |ops|
  {
    if Pending(worlds[i], c) then !IsRecorded(worlds[i], c) && !LostBefore(worlds, ops, i, c)
    else IsRecorded(worlds[i], c) <==> !LostBefore(worlds, ops, i, c)
  }

  lemma StillAccounted(worlds: seq<World>, ops: seq<Op>, k: nat, c: CommitId)
    requires History(worlds, ops) && k < |ops| && c in worlds[k].log && Accounted(worlds, ops, k, c)
    ensures Accounted(worlds, ops, k + 1, c)
  {
    RecordStep(worlds, ops, k, c);
    LostBeforeNext(worlds, ops, k, c);
  }

  lemma NewlyAccounted(worlds: seq<World>, ops: seq<Op>, k: nat, c: CommitId)
    requires History(worlds, ops) && k < |ops| && c !in worlds[k].log && c in worlds[k + 1].log
    ensures Accounted(worlds, ops, k + 1, c)
  {
    HistoryKeeps(worlds, ops, k);
    assert Steps(worlds[k], ops[k], worlds[k + 1]);
    NewIsNotLost(worlds, ops, k, c);
    NewOnBranch(worlds[k], ops[k], worlds[k + 1], c);
    LostBeforeNext(worlds, ops, k, c);
    OneRecordAlways(worlds, ops, k + 1);
  }

  lemma {:induction false} EveryCommitAccounted(worlds: seq<World>, ops: seq<Op>, i: nat, c: CommitId)
    requires History(worlds, ops) && i < |worlds| && c in worlds[i].log && c != worlds[i].repo.start
    ensures Accounted(worlds, ops, i, c)
    decreases i
  {
    if i > 0 {
      LogGrows(worlds, ops, i - 1, i);
      if c in worlds[i - 1].log {
        EveryCommitAccounted(worlds, ops, i - 1, c);
        StillAccounted(worlds, ops, i - 1, c);
      } else {
        NewlyAccounted(worlds, ops, i - 1, c);
      }
    }
  }

  /** While nobody holds the lock, a commit of the branch after the start is named by an artifact if
      and only if none of four things happened while its record was pending: the call was cut short,
      its work had been retired since the lock was taken, its run had been completed or abandoned, or
      something else was saved on its run between the load and the save of the record. */
  lemma RecordedUnlessLost(worlds: seq<World>, ops: seq<Op>, i: nat, j: nat)
    requires History(worlds, ops) && i < |worlds| && worlds[i].pc.Idle? && 0 < j < |worlds[i].log|
    ensures IsRecorded(worlds[i], worlds[i].log[j]) <==> !LostBefore(worlds, ops, i, worlds[i].log[j])
  {
    HistoryKeeps(worlds, ops, i);
    EveryCommitAccounted(worlds, ops, i, worlds[i].log[j]);
  }

  /** And what was lost is never named by an artifact in any continuation. */
  lemma LostIsNeverRecorded(worlds: seq<World>, ops: seq<Op>, k: nat, i: nat, c: CommitId)
    requires History(worlds, ops) && k < i < |worlds| && LostAt(worlds, ops, k, c)
    ensures c in worlds[i].log && !IsRecorded(worlds[i], c)
  {
    HistoryKeeps(worlds, ops, k);
    HistoryKeeps(worlds, ops, i);
    LogGrows(worlds, ops, k, i);
    var n := |worlds[k].log| - 1;
    assert worlds[i].log[n] == c && worlds[i].log[0] == worlds[i].repo.start;
    EveryCommitAccounted(worlds, ops, i, c);
  }
}
