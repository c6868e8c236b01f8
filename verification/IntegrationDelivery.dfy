/** When a run of a project can be delivered from the branch that all runs of the project share. */
module IntegrationDelivery {
  import opened Base
  import opened Workspaces
  import opened Integration
  import opened IntegrationTheorems
  import opened IntegrationRecord

  /** A work whose artifact is among the run's accepted ones. */
  predicate Counts(w: World, r: Id, a: Id) {
    a in w.works && w.works[a].run == r && w.works[a].accepted && w.works[a].live
  }

  /** All accepted code of the run is integrated, so its delivery looks at the branch. */
  ghost predicate DeliversBranch(w: World, r: Id) {
    (exists a :: Counts(w, r, a)) && forall a :: Counts(w, r, a) ==> w.works[a].integrated.Some?
  }

  /** Its two checks: the head is the commit of an accepted artifact of this run, and every such
      commit is an ancestor of the head. */
  ghost predicate DeliveryPasses(w: World, r: Id) requires DeliversBranch(w, r) {
    && (exists a :: Counts(w, r, a) && w.works[a].integrated == Some(HeadOf(w.repo)))
    && forall a :: Counts(w, r, a) ==> IsAncestor(w.repo, w.works[a].integrated.value, HeadOf(w.repo))
  }

  // ---- whose commit it is -------------------------------------------------------------------------------

  /** Step k moved the branch to the commit, for this work. */
  predicate MadeAt(worlds: seq<World>, ops: seq<Op>, k: nat, c: CommitId, a: Id)
    requires k < |worlds| && k < |ops|
  {
    ops[k].MoveOp? && worlds[k].pc.Committed? && worlds[k].pc.commit == c && worlds[k].pc.a == a
  }

  ghost predicate MadeFor(worlds: seq<World>, ops: seq<Op>, i: nat, c: CommitId, a: Id)
    requires i < |worlds| && i <= |ops|
  {
    exists k :: 0 <= k < i && MadeAt(worlds, ops, k, c, a)
  }

  lemma MadeForStays(worlds: seq<World>, ops: seq<Op>, i: nat, c: CommitId, a: Id)
    requires |worlds| == |ops| + 1 && i < |ops|
    ensures MadeFor(worlds, ops, i + 1, c, a) <==> MadeFor(worlds, ops, i, c, a) || MadeAt(worlds, ops, i, c, a)
  {}

  lemma MadeIsNew(worlds: seq<World>, ops: seq<Op>, k: nat, i: nat, c: CommitId, a: Id)
    requires History(worlds, ops) && k < i < |worlds| && MadeAt(worlds, ops, k, c, a)
    ensures c !in worlds[k].log && c in worlds[i].log
  {
    HistoryKeeps(worlds, ops, k);
    assert Steps(worlds[k], ops[k], worlds[k + 1]);
    SwapSucceeds(worlds[k]);
    assert Last(worlds[k + 1].log) == c;
    LogGrows(worlds, ops, k + 1, i);
  }

  /** The branch moves to a commit once, so for one work. */
  lemma MadeOnce(worlds: seq<World>, ops: seq<Op>, i: nat, c: CommitId, a: Id, b: Id)
    requires History(worlds, ops) && i < |worlds| && MadeFor(worlds, ops, i, c, a) && MadeFor(worlds, ops, i, c, b)
    ensures a == b
  {
    var k :| 0 <= k < i && MadeAt(worlds, ops, k, c, a);
    var l :| 0 <= l < i && MadeAt(worlds, ops, l, c, b);
    if k < l {
      MadeIsNew(worlds, ops, k, l, c, a);
      MadeIsNew(worlds, ops, l, i, c, b);
    } else if l < k {
      MadeIsNew(worlds, ops, l, k, c, b);
      MadeIsNew(worlds, ops, k, i, c, a);
    }
  }

  /** The commit whose record is on the way was made for the work it is recorded for. */
  lemma {:induction false} PendingWasMade(worlds: seq<World>, ops: seq<Op>, i: nat)
    requires History(worlds, ops) && i < |worlds| && (worlds[i].pc.Moved? || worlds[i].pc.Recording?)
    ensures MadeFor(worlds, ops, i, worlds[i].pc.commit, worlds[i].pc.a)
    decreases i
  {
    assert i > 0;
    var w, op, w' := worlds[i - 1], ops[i - 1], worlds[i];
    HistoryKeeps(worlds, ops, i - 1);
    assert Steps(w, op, w');
    MadeForStays(worlds, ops, i - 1, w'.pc.commit, w'.pc.a);
    if op.MoveOp? {
      SwapSucceeds(w);
    } else {
      PendingSince(w, op, w');
      PendingWasMade(worlds, ops, i - 1);
    }
  }

  lemma {:induction false} RecordedWasMade(worlds: seq<World>, ops: seq<Op>, i: nat, c: CommitId, a: Id)
    requires History(worlds, ops) && i < |worlds| && RecordedBy(worlds[i], a, c)
    ensures MadeFor(worlds, ops, i, c, a)
    decreases i
  {
    assert i > 0;
    var w, op, w' := worlds[i - 1], ops[i - 1], worlds[i];
    HistoryKeeps(worlds, ops, i - 1);
    assert Steps(w, op, w');
    MadeForStays(worlds, ops, i - 1, c, a);
    if RecordedBy(w, a, c) {
      RecordedWasMade(worlds, ops, i - 1, c, a);
    } else if op.SaveOp? {
      SaveNames(w, w');
      PendingWasMade(worlds, ops, i - 1);
    } else {
      OnlySaveRecords(w, op, w');
    }
  }

  // ---- who has been retired -----------------------------------------------------------------------------

  ghost predicate RetiredBefore(worlds: seq<World>, ops: seq<Op>, i: nat, a: Id)
    requires i < |worlds| && i <= |ops|
  {
    exists m :: 0 <= m < i && RetiredAt(worlds, ops, m, a)
  }

  lemma DyingSteps(w: World, op: Op, w': World, a: Id)
    requires Inv(w) && Steps(w, op, w') && a in w'.works && w'.works[a].accepted && !w'.works[a].live
    ensures a in w.works
    ensures (op == RetireOp(a) && ActiveRun(w, RunOf(w, a))) || (w.works[a].accepted && !w.works[a].live)
  {
    if FileOp(op) || RunOp(op) { OutsideKeepsProtocol(w, op, w'); }
    else if op.CommitOp? || op.MoveOp? || op.LoadOp? || op.CrashOp? { BranchStepKeepsWorks(w, op, w'); }
  }

  lemma RetiringKills(w: World, w': World, a: Id)
    requires Steps(w, RetireOp(a), w') && a in w.works && ActiveRun(w, RunOf(w, a))
    ensures a in w'.works && !w'.works[a].live
  {}

  /** An accepted work is dead exactly if it was retired. */
  lemma {:induction false} DeadIffRetired(worlds: seq<World>, ops: seq<Op>, i: nat, a: Id)
    requires History(worlds, ops) && i < |worlds| && a in worlds[i].works && worlds[i].works[a].accepted
    ensures !worlds[i].works[a].live <==> RetiredBefore(worlds, ops, i, a)
    decreases i
  {
    if !worlds[i].works[a].live {
      assert i > 0;
      HistoryKeeps(worlds, ops, i - 1);
      assert Steps(worlds[i - 1], ops[i - 1], worlds[i]);
      DyingSteps(worlds[i - 1], ops[i - 1], worlds[i], a);
      if !RetiredAt(worlds, ops, i - 1, a) { DeadIffRetired(worlds, ops, i - 1, a); }
    }
    if m :| 0 <= m < i && RetiredAt(worlds, ops, m, a) {
      assert Steps(worlds[m], ops[m], worlds[m + 1]);
      RetiringKills(worlds[m], worlds[m + 1], a);
      SubmissionStays(worlds, ops, m + 1, i, a);
    }
  }

  // ---- the verdict ----------------------------------------------------------------------------------------

  /** The last commit of the branch was made for a work of this run that has not been retired. */
  ghost predicate HeadIsOurs(worlds: seq<World>, ops: seq<Op>, i: nat, r: Id)
    requires i < |worlds| && i <= |ops|
  {
    exists a :: OursAt(worlds, ops, i, r, a)
  }

  ghost predicate OursAt(worlds: seq<World>, ops: seq<Op>, i: nat, r: Id, a: Id)
    requires i < |worlds| && i <= |ops|
  {
    && MadeFor(worlds, ops, i, HeadOf(worlds[i].repo), a) && a in worlds[i].works
    && worlds[i].works[a].run == r && !RetiredBefore(worlds, ops, i, a)
  }

  lemma AncestorsAreThere(worlds: seq<World>, ops: seq<Op>, i: nat, r: Id)
    requires History(worlds, ops) && i < |worlds| && DeliversBranch(worlds[i], r)
    ensures |worlds[i].log| > 1
    ensures forall a :: Counts(worlds[i], r, a) ==>
              IsAncestor(worlds[i].repo, worlds[i].works[a].integrated.value, HeadOf(worlds[i].repo))
  {
    HistoryKeeps(worlds, ops, i);
    forall a | Counts(worlds[i], r, a)
      ensures |worlds[i].log| > 1
      ensures IsAncestor(worlds[i].repo, worlds[i].works[a].integrated.value, HeadOf(worlds[i].repo))
    {
      assert WorkOk(worlds[i], a);
      RecordedCommitsAreOnBranch(worlds, ops, i, a);
    }
  }

  lemma PassingIsOurs(worlds: seq<World>, ops: seq<Op>, i: nat, r: Id)
    requires History(worlds, ops) && i < |worlds| && DeliversBranch(worlds[i], r) && DeliveryPasses(worlds[i], r)
    ensures HeadIsOurs(worlds, ops, i, r) && IsRecorded(worlds[i], HeadOf(worlds[i].repo))
  {
    var w := worlds[i];
    var a :| Counts(w, r, a) && w.works[a].integrated == Some(HeadOf(w.repo));
    assert RecordedBy(w, a, HeadOf(w.repo));
    RecordedWasMade(worlds, ops, i, HeadOf(w.repo), a);
    DeadIffRetired(worlds, ops, i, a);
    assert OursAt(worlds, ops, i, r, a);
  }

  lemma OursPasses(worlds: seq<World>, ops: seq<Op>, i: nat, r: Id)
    requires History(worlds, ops) && i < |worlds| && DeliversBranch(worlds[i], r)
    requires HeadIsOurs(worlds, ops, i, r) && IsRecorded(worlds[i], HeadOf(worlds[i].repo))
    ensures DeliveryPasses(worlds[i], r)
  {
    var w := worlds[i];
    HistoryKeeps(worlds, ops, i);
    AncestorsAreThere(worlds, ops, i, r);
    var a :| OursAt(worlds, ops, i, r, a);
    var b :| RecordedBy(w, b, HeadOf(w.repo));
    RecordedWasMade(worlds, ops, i, HeadOf(w.repo), b);
    MadeOnce(worlds, ops, i, HeadOf(w.repo), a, b);
    assert WorkOk(w, a);
    DeadIffRetired(worlds, ops, i, a);
    assert Counts(w, r, a);
  }

  /** With all accepted code of a run integrated, its delivery passes if and only if the last commit of
      the project's branch was made for a work of this run, its record is neither still to come nor
      lost, and the work has not been retired.  So another run of the project that integrates
      something before the delivery is assembled makes it fail, whoever holds the lock by then. */
  lemma DeliveryVerdict(worlds: seq<World>, ops: seq<Op>, i: nat, r: Id)
    requires History(worlds, ops) && i < |worlds| && DeliversBranch(worlds[i], r)
    ensures var head := HeadOf(worlds[i].repo);
      DeliveryPasses(worlds[i], r) <==>
        HeadIsOurs(worlds, ops, i, r) && !Pending(worlds[i], head) && !LostBefore(worlds, ops, i, head)
  {
    var w := worlds[i];
    HistoryKeeps(worlds, ops, i);
    AncestorsAreThere(worlds, ops, i, r);
    assert HeadOf(w.repo) != w.repo.start && HeadOf(w.repo) in w.log;
    EveryCommitAccounted(worlds, ops, i, HeadOf(w.repo));
    if DeliveryPasses(w, r) { PassingIsOurs(worlds, ops, i, r); }
    if HeadIsOurs(worlds, ops, i, r) && IsRecorded(w, HeadOf(w.repo)) { OursPasses(worlds, ops, i, r); }
  }
}
