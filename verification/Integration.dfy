/** Accept and integrate (src/walter/adapter.py): kernel acceptance, then a compare-and-swap
    fast-forward of the integration branch, interleaved with all other work on candidates. */
module Integration {
  import opened Base
  import opened Workspaces
  import M = RunModel

  /** A submitted candidate of a run: live until its task is failed, recovered or replanned;
      accepted once the kernel has ever accepted it. */
  datatype Work = Work(run: Id, workspace: Id, fingerprint: Fingerprint, live: bool, accepted: bool,
                       integrated: Option<CommitId>)

  /** A run of the project as the store has it.  `finishing` counts the calls to complete it that
      found no accepted code unintegrated and have not ended yet. */
  datatype RunState = RunState(status: M.RunStatus, version: nat, finishing: nat)

  /** Where the holder of the integration lock stands. */
  datatype Pc =
    | Idle | Checked(a: Id) | ToIntegrate(a: Id)
    | Committed(a: Id, head: CommitId, commit: CommitId)   // the ref is still at `head`
    | Moved(a: Id, commit: CommitId)                       // and is now at `commit`, not yet recorded
    | Recording(a: Id, commit: CommitId, version: nat)     // the record was made on this version of the run

  /** One project: its repository, the runs that share the branch, and their candidates.  `frozen`
      holds the fingerprints `freeze` has returned and `log` the branch as it grew.  `crashed` are
      the works whose call was cut short before the ref moved, `orphaned` those whose commit reached
      the branch and was not recorded. */
  datatype World = World(repo: Repo, frozen: map<Id, Fingerprint>, runs: map<Id, RunState>, works: map<Id, Work>,
                         pc: Pc, log: seq<CommitId>, crashed: set<Id>, orphaned: set<Id>)

  datatype Op =
    | CreateOp(c: Id, g: Id, worker: Id)
    | WriteOp(g: Id, path: int, content: int)
    | DeleteOp(g: Id, path: int)
    | ReviewerOp(g: Id, worker: Id, id: Id)
    | FreezeOp(g: Id)
    | NewRunOp(r: Id)
    | SubmitOp(g: Id, a: Id, r: Id)
    | RetireOp(a: Id)                    // failed, recovered or superseded elsewhere
    | RivalOp(r: Id)                     // any other operation that is saved on the run
    | FinishOp(r: Id)                    // `finish_run` looks for accepted code that is not integrated
    | GiveUpOp(r: Id)                    // and the kernel refuses to complete,
    | CompleteOp(r: Id)                  // or completes
    | AbandonOp(r: Id)
    | BeginOp(a: Id, failed: bool)       // takes the lock; `failed`: the kernel takes a STALE_BASE failure
    | AcceptOp(granted: bool)            // `granted`: every kernel gate passes
    | CommitOp(id: CommitId)             // `integrate` up to the commit of the candidate
    | MoveOp                             // and its compare-and-swap of the ref
    | LoadOp                             // `record_integration` up to its save
    | SaveOp                             // and the save, with the store's version check
    | CrashOp                            // the call is cut short by a dying process or an I/O error

  predicate Enabled(w: World, op: Op) {
    match op
    case CreateOp(c, g, _) => c !in w.repo.candidates && g !in w.repo.grants
    case ReviewerOp(_, _, id) => id !in w.repo.grants
    case NewRunOp(r) => r !in w.runs
    case SubmitOp(g, a, r) => g in w.frozen && a !in w.works && ActiveRun(w, r)
    case RivalOp(r) => r in w.runs
    case FinishOp(r) => r in w.runs
    case GiveUpOp(r) => r in w.runs && w.runs[r].finishing > 0
    case CompleteOp(r) => ActiveRun(w, r) && w.runs[r].finishing > 0
    case AbandonOp(r) => ActiveRun(w, r)
    case BeginOp(_, _) => w.pc.Idle?
    case AcceptOp(_) => w.pc.Checked? && w.pc.a in w.works
    case CommitOp(id) => w.pc.ToIntegrate? && w.pc.a in w.works && id !in w.repo.commits
    case MoveOp => w.pc.Committed?
    case LoadOp => w.pc.Moved? && w.pc.a in w.works && w.works[w.pc.a].run in w.runs
    case SaveOp => w.pc.Recording? && w.pc.a in w.works && w.works[w.pc.a].run in w.runs
    case _ => true
  }

  predicate ActiveRun(w: World, r: Id) { r in w.runs && w.runs[r].status.Active? }

  /** A save: the next version of the run. */
  function Saved(w: World, r: Id): World requires r in w.runs {
    w.(runs := w.runs[r := w.runs[r].(version := w.runs[r].version + 1)])
  }

  function SetWork(w: World, a: Id, x: Work): World { w.(works := w.works[a := x]) }

  function SetRun(w: World, r: Id, x: RunState): World { w.(runs := w.runs[r := x]) }

  /** A work that was failed, recovered or superseded in an active run. */
  function RetiredWork(w: World, a: Id): World {
    if a in w.works && w.works[a].live && ActiveRun(w, w.works[a].run)
    then Saved(SetWork(w, a, w.works[a].(live := false)), w.works[a].run) else w
  }

  /** `unintegrated_tasks` is empty. */
  predicate NothingUnintegrated(w: World, r: Id) {
    forall a :: a in w.works && w.works[a].run == r && w.works[a].accepted && w.works[a].live ==>
      w.works[a].integrated.Some?
  }

  function Finishing(w: World, r: Id): World requires r in w.runs {
    if NothingUnintegrated(w, r) then SetRun(w, r, w.runs[r].(finishing := w.runs[r].finishing + 1)) else w
  }

  function GivenUp(w: World, r: Id): World requires r in w.runs && w.runs[r].finishing > 0 {
    SetRun(w, r, w.runs[r].(finishing := w.runs[r].finishing - 1))
  }

  function Closed(w: World, r: Id, status: M.RunStatus): World requires r in w.runs {
    Saved(SetRun(w, r, w.runs[r].(status := status)), r)
  }

  function BaseOf(w: World, a: Id): CommitId requires a in w.works { w.works[a].fingerprint.base }

  /** The check before acceptance: an outdated base is failed, never accepted. */
  function Begun(w: World, a: Id, failed: bool): World {
    if a !in w.works || !w.works[a].live then w
    else if w.works[a].accepted then w.(pc := ToIntegrate(a))
    else
      var w1 := w.(repo := WithBranch(w.repo));
      if BaseOf(w, a) != HeadOf(w.repo)
      then (if failed then RetiredWork(w1, a) else w1)
      else w1.(pc := Checked(a))
  }

  function Accepted(w: World, granted: bool): World
    requires w.pc.Checked? && w.pc.a in w.works
  {
    var a, x := w.pc.a, w.works[w.pc.a];
    if granted && x.live && ActiveRun(w, x.run) && x.workspace in w.repo.grants
       && w.repo.grants[x.workspace].candidate in w.repo.candidates
       && FingerprintOf(w.repo, x.workspace) == x.fingerprint
    then Saved(SetWork(w, a, x.(accepted := true)), x.run).(pc := ToIntegrate(a))
    else w.(pc := Idle)
  }

  function CommitStep(w: World, id: CommitId): World
    requires Linked(w.repo) && w.pc.ToIntegrate? && w.pc.a in w.works
  {
    var a, x := w.pc.a, w.works[w.pc.a];
    if x.integrated.Some? then w.(pc := Idle)
    else
      var (repo, r) := Prepared(w.repo, x.workspace, x.fingerprint, id);
      match r
      case Err(_) => w.(repo := repo, pc := Idle)
      case Ok(commit) => w.(repo := repo, pc := Committed(a, HeadOf(w.repo), commit))
  }

  function MoveStep(w: World): World
    requires w.pc.Committed?
  {
    match Swapped(w.repo, w.pc.head, w.pc.commit)
    case Err(_) => w.(pc := Idle)
    case Ok(repo) => w.(repo := repo, pc := Moved(w.pc.a, w.pc.commit), log := w.log + [w.pc.commit])
  }

  /** The whole attempt, commit and ref update. */
  function Attempted(w: World, id: CommitId): World
    requires Linked(w.repo) && w.pc.ToIntegrate? && w.pc.a in w.works
  {
    var w1 := CommitStep(w, id);
    if w1.pc.Committed? then MoveStep(w1) else w1
  }

  /** The commit on the branch is not going to be recorded. */
  function Orphaning(w: World, a: Id): World { w.(pc := Idle, orphaned := w.orphaned + {a}) }

  /** `record_integration` on the snapshot it loads: refused on a terminal run and on an artifact
      that is no longer accepted. */
  function LoadStep(w: World): World
    requires w.pc.Moved? && w.pc.a in w.works && w.works[w.pc.a].run in w.runs
  {
    var a, x := w.pc.a, w.works[w.pc.a];
    if w.runs[x.run].status.Active? && x.live
    then w.(pc := Recording(a, w.pc.commit, w.runs[x.run].version)) else Orphaning(w, a)
  }

  /** Its save, refused if anything was saved on the run since. */
  function SaveStep(w: World): World
    requires w.pc.Recording? && w.pc.a in w.works && w.works[w.pc.a].run in w.runs
  {
    var a, x := w.pc.a, w.works[w.pc.a];
    if w.runs[x.run].version == w.pc.version
    then Saved(SetWork(w, a, x.(integrated := Some(w.pc.commit))), x.run).(pc := Idle) else Orphaning(w, a)
  }

  function Crashed(w: World): World {
    match w.pc
    case ToIntegrate(a) => w.(pc := Idle, crashed := w.crashed + {a})
    case Committed(a, _, _) => w.(pc := Idle, crashed := w.crashed + {a})
    case Moved(a, _) => Orphaning(w, a)
    case Recording(a, _, _) => Orphaning(w, a)
    case _ => w.(pc := Idle)
  }

  function Next(w: World, op: Op): World
    requires Linked(w.repo) && Enabled(w, op)
  {
    match op
    case CreateOp(c, g, worker) =>
      if HeadOf(w.repo) in w.repo.commits then w.(repo := Created(w.repo, c, g, worker)) else w
    case WriteOp(g, path, content) => w.(repo := Wrote(w.repo, g, path, content))
    case DeleteOp(g, path) => w.(repo := Deleted(w.repo, g, path))
    case ReviewerOp(g, worker, id) => w.(repo := Reviewing(w.repo, g, worker, id))
    case FreezeOp(g) =>
      if g !in w.repo.grants then w
      else w.(repo := Frozen(w.repo, g), frozen := w.frozen[g := FingerprintOf(w.repo, g)])
    case NewRunOp(r) => SetRun(w, r, RunState(M.Active, 1, 0))
    case SubmitOp(g, a, r) => Saved(SetWork(w, a, Work(r, g, w.frozen[g], true, false, None)), r)
    case RetireOp(a) => RetiredWork(w, a)
    case RivalOp(r) => Saved(w, r)
    case FinishOp(r) => Finishing(w, r)
    case GiveUpOp(r) => GivenUp(w, r)
    case CompleteOp(r) => Closed(GivenUp(w, r), r, M.Completed)
    case AbandonOp(r) => Closed(w, r, M.Abandoned)
    case BeginOp(a, failed) => Begun(w, a, failed)
    case AcceptOp(granted) => Accepted(w, granted)
    case CommitOp(id) => CommitStep(w, id)
    case MoveOp => MoveStep(w)
    case LoadOp => LoadStep(w)
    case SaveOp => SaveStep(w)
    case CrashOp => Crashed(w)
  }

  /** A repository with one commit checked out and no branch yet. */
  predicate Initial(w: World) {
    && w.repo.start in w.repo.commits && w.repo.branch.None? && w.repo.candidates == map[] && w.repo.grants == map[]
    && w.frozen == map[] && w.runs == map[] && w.works == map[] && w.pc.Idle? && w.log == [w.repo.start]
    && w.crashed == {} && w.orphaned == {}
  }

  ghost predicate Steps(w: World, op: Op, w': World) { Linked(w.repo) && Enabled(w, op) && w' == Next(w, op) }

  ghost predicate History(worlds: seq<World>, ops: seq<Op>) {
    && |worlds| == |ops| + 1 && Initial(worlds[0])
    && forall i :: 0 <= i < |ops| ==> Steps(worlds[i], ops[i], worlds[i + 1])
  }

  // ---- the invariant ---------------------------------------------------------------------------------

  ghost predicate ReadOnly(r: Repo, c: Id) {
    forall g :: g in r.grants && r.grants[g].candidate == c ==> r.grants[g].readOnly
  }

  /** The branch is a chain of single-parent commits from the start to its head. */
  ghost predicate LogOk(r: Repo, log: seq<CommitId>) {
    && log != [] && log[0] == r.start && Last(log) == HeadOf(r) && NoDuplicates(log)
    && (forall i :: 0 <= i < |log| ==> log[i] in r.commits)
    && forall i :: 0 < i < |log| ==> r.commits[log[i]].parent == Some(log[i - 1])
  }

  ghost predicate CandidateOk(w: World, c: Id) requires c in w.repo.candidates && w.log != [] {
    var x := w.repo.candidates[c];
    && x.base in w.log && x.base in w.repo.commits && x.head in w.repo.commits
    && (x.head != x.base ==>
          && x.head != w.repo.start && w.repo.commits[x.head] == CommitRec(Some(x.base), x.files)
          && Changed(w.repo, c) && ReadOnly(w.repo, c))
  }

  /** The workspace still carries this fingerprint, and nobody can write to it. */
  ghost predicate Sealed(r: Repo, g: Id, f: Fingerprint) {
    && g in r.grants && r.grants[g].candidate in r.candidates
    && FingerprintOf(r, g) == f && ReadOnly(r, r.grants[g].candidate)
  }

  /** The lock holder is integrating this work. */
  predicate Busy(pc: Pc, a: Id) { (pc.ToIntegrate? || pc.Committed? || pc.Moved? || pc.Recording?) && pc.a == a }

  /** The candidate differs from its base commit. */
  predicate HasChanges(w: World, f: Fingerprint) { f.base in w.repo.commits && f.files != w.repo.commits[f.base].tree }

  predicate CommitOf(w: World, c: CommitId, f: Fingerprint) {
    c in w.repo.commits && w.repo.commits[c] == CommitRec(Some(f.base), f.files)
  }

  ghost predicate WorkOk(w: World, a: Id) requires a in w.works && w.log != [] {
    var x := w.works[a];
    && x.run in w.runs && Sealed(w.repo, x.workspace, x.fingerprint)
    && (x.integrated.Some? ==>
          x.accepted && x.integrated.value in w.log[1..] && CommitOf(w, x.integrated.value, x.fingerprint))
    && (x.accepted && x.live && x.integrated.None? && !Busy(w.pc, a) && a !in w.crashed + w.orphaned ==>
          !HasChanges(w, x.fingerprint))
  }

  ghost predicate PcOk(w: World) requires w.log != [] {
    match w.pc
    case Idle => true
    case Checked(a) => a in w.works && !w.works[a].accepted && BaseOf(w, a) == HeadOf(w.repo)
    case ToIntegrate(a) =>
      && a in w.works && w.works[a].accepted
      && (w.works[a].integrated.None? && a !in w.crashed + w.orphaned && HasChanges(w, w.works[a].fingerprint) ==>
            BaseOf(w, a) == HeadOf(w.repo))
    case Committed(a, head, c) =>
      && a in w.works && w.works[a].accepted && w.works[a].integrated.None? && a !in w.orphaned
      && head == BaseOf(w, a) && w.repo.branch == Some(head) && CommitOf(w, c, w.works[a].fingerprint)
      && c !in w.log && HasChanges(w, w.works[a].fingerprint)
    case Moved(a, c) => Landed(w, a, c)
    case Recording(a, c, v) =>
      && Landed(w, a, c) && w.works[a].run in w.runs && v <= w.runs[w.works[a].run].version
      && (v == w.runs[w.works[a].run].version ==> w.works[a].live && w.runs[w.works[a].run].status.Active?)
  }

  /** The head is the commit of this accepted work, which no artifact names yet. */
  ghost predicate Landed(w: World, a: Id, c: CommitId) requires w.log != [] {
    && a in w.works && w.works[a].accepted && w.works[a].integrated.None? && a !in w.orphaned
    && |w.log| > 1 && c == Last(w.log) && CommitOf(w, c, w.works[a].fingerprint)
  }

  /** An orphan is not recorded, and its base lies below the head for good. */
  ghost predicate OrphanOk(w: World, a: Id) requires w.log != [] {
    a in w.works && w.works[a].integrated.None? && BaseOf(w, a) in w.log[..|w.log| - 1]
  }

  /** Commit i of the branch is exactly some candidate the kernel accepted. */
  ghost predicate Explained(w: World, i: nat) requires 0 < i < |w.log| {
    exists a :: a in w.works && Explains(w, a, i)
  }

  ghost predicate Explains(w: World, a: Id, i: nat) requires a in w.works && 0 < i < |w.log| {
    w.works[a].accepted && BaseOf(w, a) == w.log[i - 1] && CommitOf(w, w.log[i], w.works[a].fingerprint)
  }

  ghost predicate Inv(w: World) {
    && Linked(w.repo) && w.log != [] && LogOk(w.repo, w.log)
    && (forall c :: c in w.repo.candidates ==> CandidateOk(w, c))
    && (forall g :: g in w.frozen ==> Sealed(w.repo, g, w.frozen[g]))
    && (forall a :: a in w.works ==> WorkOk(w, a))
    && PcOk(w)
    && (forall a :: a in w.orphaned ==> OrphanOk(w, a))
    && forall i :: 0 < i < |w.log| ==> Explained(w, i)
  }

  // ---- steps on candidates ---------------------------------------------------------------------------

  /** Commits, branch head, log and the acceptance protocol stay; sealed workspaces stay sealed. */
  ghost predicate Quiet(w: World, w': World) {
    && w' == w.(repo := w'.repo, frozen := w'.frozen)
    && w'.repo.commits == w.repo.commits && w'.repo.start == w.repo.start && HeadOf(w'.repo) == HeadOf(w.repo)
    && (w.repo.branch.Some? ==> w'.repo.branch == w.repo.branch)
    && forall g, f :: Sealed(w.repo, g, f) ==> Sealed(w'.repo, g, f)
  }

  lemma QuietKeeps(w: World, w': World)
    requires Inv(w) && Quiet(w, w') && Linked(w'.repo)
    requires forall c :: c in w'.repo.candidates ==> CandidateOk(w', c)
    requires forall g :: g in w'.frozen ==> Sealed(w'.repo, g, w'.frozen[g])
    ensures Inv(w')
  {
    forall a | a in w'.works ensures WorkOk(w', a) { assert WorkOk(w, a); }
    forall a | a in w'.orphaned ensures OrphanOk(w', a) { assert OrphanOk(w, a); }
    forall i | 0 < i < |w'.log| ensures Explained(w', i) {
      assert Explained(w, i);
      var a :| a in w.works && Explains(w, a, i);
      assert Explains(w', a, i);
    }
  }

  lemma CreateKeeps(w: World, c: Id, g: Id, worker: Id)
    requires Inv(w) && c !in w.repo.candidates && g !in w.repo.grants
    ensures Inv(w.(repo := Created(w.repo, c, g, worker)))
  {
    var w' := w.(repo := Created(w.repo, c, g, worker));
    forall k, f | Sealed(w.repo, k, f) ensures Sealed(w'.repo, k, f) {}
    forall k | k in w'.repo.candidates ensures CandidateOk(w', k) {
      if k != c { assert CandidateOk(w, k); } else { assert Last(w.log) in w.log; }
    }
    QuietKeeps(w, w');
  }

  lemma EditKeeps(w: World, g: Id, files: Tree)
    requires Inv(w) && Writable(w.repo, g)
    ensures Inv(w.(repo := WithFiles(w.repo, w.repo.grants[g].candidate, files)))
  {
    var c := w.repo.grants[g].candidate;
    var w' := w.(repo := WithFiles(w.repo, c, files));
    assert !ReadOnly(w.repo, c);
    forall k, f | Sealed(w.repo, k, f) ensures Sealed(w'.repo, k, f) {}
    forall k | k in w'.repo.candidates ensures CandidateOk(w', k) { assert CandidateOk(w, k); }
    QuietKeeps(w, w');
  }

  lemma ReviewerKeeps(w: World, g: Id, worker: Id, id: Id)
    requires Inv(w) && id !in w.repo.grants
    ensures Inv(w.(repo := Reviewing(w.repo, g, worker, id)))
  {
    var w' := w.(repo := Reviewing(w.repo, g, worker, id));
    forall k, f | Sealed(w.repo, k, f) ensures Sealed(w'.repo, k, f) {}
    forall k | k in w'.repo.candidates ensures CandidateOk(w', k) { assert CandidateOk(w, k); }
    QuietKeeps(w, w');
  }

  lemma FreezeKeeps(w: World, g: Id)
    requires Inv(w) && g in w.repo.grants
    ensures Inv(w.(repo := Frozen(w.repo, g), frozen := w.frozen[g := FingerprintOf(w.repo, g)]))
  {
    var w' := w.(repo := Frozen(w.repo, g), frozen := w.frozen[g := FingerprintOf(w.repo, g)]);
    forall k, f | Sealed(w.repo, k, f) ensures Sealed(w'.repo, k, f) {}
    forall k | k in w'.repo.candidates ensures CandidateOk(w', k) { assert CandidateOk(w, k); }
    assert Sealed(w'.repo, g, w'.frozen[g]);
    QuietKeeps(w, w');
  }

  // ---- steps of the protocol -------------------------------------------------------------------------

  /** The repository and log stay, and so does every accepted work's acceptance. */
  lemma WorksKeep(w: World, w': World)
    requires Inv(w) && w' == w.(repo := w'.repo, runs := w'.runs, works := w'.works, pc := w'.pc,
                                crashed := w'.crashed, orphaned := w'.orphaned)
    requires w'.repo == w.repo || w'.repo == WithBranch(w.repo)
    requires forall a :: a in w.works ==> a in w'.works && SameSubmission(w.works[a], w'.works[a])
    requires forall a :: a in w'.works ==> WorkOk(w', a)
    requires w'.log != [] && PcOk(w') && forall a :: a in w'.orphaned ==> OrphanOk(w', a)
    ensures Inv(w')
  {
    forall c | c in w'.repo.candidates ensures CandidateOk(w', c) { assert CandidateOk(w, c); }
    forall g | g in w'.frozen ensures Sealed(w'.repo, g, w'.frozen[g]) { assert Sealed(w.repo, g, w.frozen[g]); }
    forall i | 0 < i < |w'.log| ensures Explained(w', i) {
      assert Explained(w, i);
      var a :| a in w.works && Explains(w, a, i);
      assert Explains(w', a, i);
    }
  }

  predicate SameSubmission(x: Work, y: Work) {
    && x.run == y.run && x.workspace == y.workspace && x.fingerprint == y.fingerprint
    && (x.accepted ==> y.accepted)
  }

  lemma SubmitKeeps(w: World, g: Id, a: Id, r: Id)
    requires Inv(w) && g in w.frozen && a !in w.works && ActiveRun(w, r)
    ensures Inv(Next(w, SubmitOp(g, a, r)))
  {
    var w' := Next(w, SubmitOp(g, a, r));
    assert Sealed(w.repo, g, w.frozen[g]);
    forall b | b in w'.works ensures WorkOk(w', b) { if b != a { assert WorkOk(w, b); } }
    forall b | b in w'.orphaned ensures OrphanOk(w', b) { assert OrphanOk(w, b); }
    WorksKeep(w, w');
  }

  lemma RetireKeepsWork(w: World, a: Id, b: Id)
    requires Inv(w) && b in w.works
    ensures b in RetiredWork(w, a).works && WorkOk(RetiredWork(w, a), b)
  {
    assert WorkOk(w, b);
  }

  lemma RetireKeepsPc(w: World, a: Id)
    requires Inv(w)
    ensures PcOk(RetiredWork(w, a))
  {}

  lemma RetireKeeps(w: World, a: Id)
    requires Inv(w)
    ensures Inv(RetiredWork(w, a))
  {
    var w' := RetiredWork(w, a);
    RetireKeepsPc(w, a);
    forall b | b in w'.works ensures WorkOk(w', b) { RetireKeepsWork(w, a, b); }
    forall b | b in w'.orphaned ensures OrphanOk(w', b) { assert OrphanOk(w, b); }
    WorksKeep(w, w');
  }

  /** A change to the runs alone: none vanishes, no version falls, and the status of one changes
      only with its version. */
  ghost predicate RunsMove(w: World, w': World) {
    && w' == w.(runs := w'.runs)
    && forall r :: r in w.runs ==> r in w'.runs && RunMoves(w.runs[r], w'.runs[r])
  }

  predicate RunMoves(x: RunState, y: RunState) {
    x.version <= y.version && (x.status != y.status ==> x.version < y.version)
  }

  lemma RunsKeep(w: World, w': World)
    requires Inv(w) && RunsMove(w, w')
    ensures Inv(w')
  {
    forall b | b in w'.works ensures WorkOk(w', b) { assert WorkOk(w, b); }
    forall b | b in w'.orphaned ensures OrphanOk(w', b) { assert OrphanOk(w, b); }
    WorksKeep(w, w');
  }

  lemma BranchKeeps(w: World)
    requires Inv(w)
    ensures Inv(w.(repo := WithBranch(w.repo)))
  {
    var w' := w.(repo := WithBranch(w.repo));
    forall g, f | Sealed(w.repo, g, f) ensures Sealed(w'.repo, g, f) {}
    forall k | k in w'.repo.candidates ensures CandidateOk(w', k) { assert CandidateOk(w, k); }
    QuietKeeps(w, w');
  }

  lemma PcKeeps(w: World, pc: Pc)
    requires Inv(w) && w.pc.Idle? && PcOk(w.(pc := pc))
    ensures Inv(w.(pc := pc))
  {
    var w' := w.(pc := pc);
    forall b | b in w'.works ensures WorkOk(w', b) { assert WorkOk(w, b); }
    WorksKeep(w, w');
  }

  lemma BeginKeeps(w: World, a: Id, failed: bool)
    requires Inv(w) && w.pc.Idle?
    ensures Inv(Begun(w, a, failed))
  {
    if a in w.works && w.works[a].live {
      assert WorkOk(w, a);
      if w.works[a].accepted {
        PcKeeps(w, ToIntegrate(a));
      } else {
        var w1 := w.(repo := WithBranch(w.repo));
        BranchKeeps(w);
        if BaseOf(w, a) == HeadOf(w.repo) { PcKeeps(w1, Checked(a)); }
        else if failed { RetireKeeps(w1, a); }
      }
    }
  }

  lemma AcceptKeeps(w: World, granted: bool)
    requires Inv(w) && w.pc.Checked? && w.pc.a in w.works
    ensures Inv(Accepted(w, granted))
  {
    var w' := Accepted(w, granted);
    forall b | b in w'.works ensures WorkOk(w', b) { assert WorkOk(w, b); }
    WorksKeep(w, w');
  }

  lemma LoadKeeps(w: World)
    requires Inv(w) && w.pc.Moved? && w.works[w.pc.a].run in w.runs
    ensures Inv(LoadStep(w))
  {
    if LoadStep(w).pc.Recording? {
      var w' := LoadStep(w);
      forall b | b in w'.works ensures WorkOk(w', b) { assert WorkOk(w, b); }
      forall b | b in w'.orphaned ensures OrphanOk(w', b) { assert OrphanOk(w, b); }
      WorksKeep(w, w');
    } else {
      OrphaningKeeps(w);
    }
  }

  lemma RecordedKeeps(w: World)
    requires Inv(w) && w.pc.Recording? && w.runs[w.works[w.pc.a].run].version == w.pc.version
    ensures Inv(SaveStep(w))
  {
    var w' := SaveStep(w);
    forall b | b in w'.works ensures WorkOk(w', b) { assert WorkOk(w, b); }
    forall b | b in w'.orphaned ensures OrphanOk(w', b) { assert OrphanOk(w, b); }
    WorksKeep(w, w');
  }

  lemma SaveKeeps(w: World)
    requires Inv(w) && w.pc.Recording?
    ensures Inv(SaveStep(w))
  {
    if w.runs[w.works[w.pc.a].run].version == w.pc.version { RecordedKeeps(w); } else { OrphaningKeeps(w); }
  }

  /** The candidate is committed on its base, which is the head; a commit made before is reused. */
  ghost predicate Prepares(w: World, w': World, commit: CommitId) {
    && w.pc.ToIntegrate? && w.pc.a in w.works && w.works[w.pc.a].integrated.None?
    && Sealed(w.repo, w.works[w.pc.a].workspace, w.works[w.pc.a].fingerprint)
    && var f := w.works[w.pc.a].fingerprint;
       var c := w.repo.grants[w.works[w.pc.a].workspace].candidate;
       var made := CommitRec(Some(f.base), f.files);
       && f.base == HeadOf(w.repo) && HasChanges(w, f)
       && commit !in w.log && commit != f.base && (commit in w.repo.commits ==> w.repo.commits[commit] == made)
       && w'.repo == w.repo.(commits := w.repo.commits[commit := made],
                             candidates := w.repo.candidates[c := Candidate(f.base, f.files, commit)],
                             branch := Some(f.base))
       && w' == w.(repo := w'.repo, pc := Committed(w.pc.a, f.base, commit))
  }

  /** The commit of this work's candidate: the one it has, or else a new one. */
  function CommitFor(w: World, a: Id, id: CommitId): CommitId
    requires a in w.works && w.works[a].workspace in w.repo.grants
    requires w.repo.grants[w.works[a].workspace].candidate in w.repo.candidates
  {
    var c := w.repo.candidates[w.repo.grants[w.works[a].workspace].candidate];
    if c.head != c.base then c.head else id
  }

  /** A commit on the head is not on the branch yet. */
  lemma CommittedIsNew(w: World, c: Id)
    requires Inv(w) && c in w.repo.candidates && w.repo.candidates[c].head != w.repo.candidates[c].base
    requires w.repo.candidates[c].base == HeadOf(w.repo)
    ensures w.repo.candidates[c].head !in w.log
  {
    var x := w.repo.candidates[c];
    assert CandidateOk(w, c);
    forall i | 0 <= i < |w.log| ensures w.log[i] != x.head {
      if i > 0 {
        assert w.repo.commits[w.log[i]].parent == Some(w.log[i - 1]);
        assert w.log[i - 1] != w.log[|w.log| - 1];
      }
    }
  }

  /** What happens up to the commit, in full: only the base and whether anything changed matter. */
  lemma CommitOutcome(w: World, id: CommitId)
    requires Inv(w) && w.pc.ToIntegrate? && w.pc.a in w.works && id !in w.repo.commits
    requires w.works[w.pc.a].integrated.None?
    ensures Sealed(w.repo, w.works[w.pc.a].workspace, w.works[w.pc.a].fingerprint)
    ensures var f := w.works[w.pc.a].fingerprint;
      var r := Prepared(w.repo, w.works[w.pc.a].workspace, f, id);
      if f.base != HeadOf(w.repo) then r == (WithBranch(w.repo), Err(IntegrationStale))
      else if !HasChanges(w, f) then r == (WithBranch(w.repo), Err(NoChanges))
      else r.1 == Ok(CommitFor(w, w.pc.a, id)) && Prepares(w, CommitStep(w, id), CommitFor(w, w.pc.a, id))
  {
    var x := w.works[w.pc.a];
    assert WorkOk(w, w.pc.a);
    var c := w.repo.grants[x.workspace].candidate;
    assert CandidateOk(w, c);
    if w.repo.candidates[c].head != w.repo.candidates[c].base && x.fingerprint.base == HeadOf(w.repo) {
      CommittedIsNew(w, c);
    }
  }

  lemma PrepareCandidates(w: World, w': World, commit: CommitId)
    requires Inv(w) && Prepares(w, w', commit)
    ensures forall k :: k in w'.repo.candidates ==> CandidateOk(w', k)
    ensures forall g, f :: Sealed(w.repo, g, f) ==> Sealed(w'.repo, g, f)
  {
    var c := w.repo.grants[w.works[w.pc.a].workspace].candidate;
    forall k | k in w'.repo.candidates ensures CandidateOk(w', k) {
      assert CandidateOk(w, k);
      if k == c { assert ReadOnly(w'.repo, c) by { assert ReadOnly(w.repo, c); } }
      else { assert ReadOnly(w.repo, k) ==> ReadOnly(w'.repo, k); }
    }
  }

  lemma PrepareKeeps(w: World, w': World, commit: CommitId)
    requires Inv(w) && Prepares(w, w', commit)
    ensures Inv(w')
  {
    PrepareCandidates(w, w', commit);
    forall i | 0 < i < |w'.log| ensures Explained(w', i) {
      assert Explained(w, i);
      var a :| a in w.works && Explains(w, a, i);
      assert Explains(w', a, i);
    }
    forall b | b in w'.orphaned ensures OrphanOk(w', b) { assert OrphanOk(w, b); }
    if w.pc.a in w.orphaned { OrphanBaseIsBelowHead(w, w.pc.a); }
    forall g | g in w'.frozen ensures Sealed(w'.repo, g, w'.frozen[g]) {}
    forall b | b in w'.works ensures WorkOk(w', b) {
      assert WorkOk(w, b);
      assert CandidateOk(w, w.repo.grants[w.works[b].workspace].candidate);
    }
  }

  lemma CommitKeeps(w: World, id: CommitId)
    requires Inv(w) && w.pc.ToIntegrate? && w.pc.a in w.works && id !in w.repo.commits
    ensures Inv(CommitStep(w, id))
  {
    var w' := CommitStep(w, id);
    if w.works[w.pc.a].integrated.None? {
      CommitOutcome(w, id);
      if HasChanges(w, w.works[w.pc.a].fingerprint) && BaseOf(w, w.pc.a) == HeadOf(w.repo) {
        PrepareKeeps(w, w', CommitFor(w, w.pc.a, id));
        return;
      }
    }
    forall b | b in w'.works ensures WorkOk(w', b) { assert WorkOk(w, b); }
    forall b | b in w'.orphaned ensures OrphanOk(w', b) { assert OrphanOk(w, b); }
    WorksKeep(w, w');
  }

  /** Nobody moves the ref while the lock is held, so the compare-and-swap never fails. */
  lemma SwapSucceeds(w: World)
    requires Inv(w) && w.pc.Committed?
    ensures var w' := MoveStep(w);
      w' == w.(repo := w.repo.(branch := Some(w.pc.commit)), pc := Moved(w.pc.a, w.pc.commit),
               log := w.log + [w.pc.commit])
  {}

  lemma MoveKeepsLog(w: World)
    requires Inv(w) && w.pc.Committed?
    ensures Linked(MoveStep(w).repo) && LogOk(MoveStep(w).repo, MoveStep(w).log)
    ensures forall i :: 0 < i < |MoveStep(w).log| ==> Explained(MoveStep(w), i)
  {
    var w' := MoveStep(w);
    SwapSucceeds(w);
    forall i | 0 < i < |w'.log| ensures Explained(w', i) {
      if i < |w.log| {
        assert Explained(w, i);
        var a :| a in w.works && Explains(w, a, i);
        assert Explains(w', a, i);
      } else {
        assert Explains(w', w.pc.a, i);
      }
    }
  }

  lemma MoveKeeps(w: World)
    requires Inv(w) && w.pc.Committed?
    ensures Inv(MoveStep(w))
  {
    var w' := MoveStep(w);
    SwapSucceeds(w);
    MoveKeepsLog(w);
    assert w'.log[1..] == w.log[1..] + [w.pc.commit] && w'.log[..|w'.log| - 1] == w.log;
    forall c | c in w'.repo.candidates ensures CandidateOk(w', c) { assert CandidateOk(w, c); }
    forall g | g in w'.frozen ensures Sealed(w'.repo, g, w'.frozen[g]) { assert Sealed(w.repo, g, w.frozen[g]); }
    forall a | a in w'.works ensures WorkOk(w', a) { assert WorkOk(w, a); }
    forall a | a in w'.orphaned ensures OrphanOk(w', a) { assert OrphanOk(w, a); }
  }

  lemma AttemptKeeps(w: World, id: CommitId)
    requires Inv(w) && w.pc.ToIntegrate? && w.pc.a in w.works && id !in w.repo.commits
    ensures Inv(Attempted(w, id))
  {
    CommitKeeps(w, id);
    if CommitStep(w, id).pc.Committed? { MoveKeeps(CommitStep(w, id)); }
  }

  /** What `integrate` does for the lock holder, in full: stale on another base, no changes on an
      unchanged candidate, and otherwise the branch ends at the candidate's commit, a new one or
      the one an interrupted attempt left behind. */
  lemma AttemptOutcome(w: World, id: CommitId)
    requires Inv(w) && w.pc.ToIntegrate? && w.pc.a in w.works && id !in w.repo.commits
    requires w.works[w.pc.a].integrated.None?
    ensures Sealed(w.repo, w.works[w.pc.a].workspace, w.works[w.pc.a].fingerprint)
    ensures var f := w.works[w.pc.a].fingerprint;
      var (repo, r) := Integrated(w.repo, w.works[w.pc.a].workspace, f, id);
      if f.base != HeadOf(w.repo) then r == Err(IntegrationStale) && repo == WithBranch(w.repo)
      else if !HasChanges(w, f) then r == Err(NoChanges) && repo == WithBranch(w.repo)
      else
        && r == Ok(CommitFor(w, w.pc.a, id)) && r.value !in w.log && HeadOf(repo) == r.value
        && r.value in repo.commits && repo.commits[r.value] == CommitRec(Some(f.base), f.files)
        && Attempted(w, id) == w.(repo := repo, pc := Moved(w.pc.a, r.value), log := w.log + [r.value])
  {
    CommitOutcome(w, id);
  }

  lemma OrphanBaseIsBelowHead(w: World, a: Id)
    requires Inv(w) && a in w.orphaned
    ensures a in w.works && w.works[a].integrated.None? && BaseOf(w, a) != HeadOf(w.repo)
  {
    assert OrphanOk(w, a);
    var j :| 0 <= j < |w.log[..|w.log| - 1]| && w.log[..|w.log| - 1][j] == BaseOf(w, a);
    assert w.log[j] != w.log[|w.log| - 1];
  }

  /** The base of a work whose commit is the head lies right below it. */
  lemma MovedBaseIsBelowHead(w: World)
    requires Inv(w) && (w.pc.Moved? || w.pc.Recording?)
    ensures BaseOf(w, w.pc.a) in w.log[..|w.log| - 1]
  {
    assert w.repo.commits[w.log[|w.log| - 1]].parent == Some(w.log[|w.log| - 2]);
    assert w.log[..|w.log| - 1][|w.log| - 2] == w.log[|w.log| - 2];
  }

  lemma OrphaningKeeps(w: World)
    requires Inv(w) && (w.pc.Moved? || w.pc.Recording?)
    ensures Inv(Orphaning(w, w.pc.a))
  {
    var w' := Orphaning(w, w.pc.a);
    MovedBaseIsBelowHead(w);
    forall b | b in w'.works ensures WorkOk(w', b) { assert WorkOk(w, b); }
    forall b | b in w'.orphaned ensures OrphanOk(w', b) { if b in w.orphaned { assert OrphanOk(w, b); } }
    WorksKeep(w, w');
  }

  lemma CrashKeeps(w: World)
    requires Inv(w)
    ensures Inv(Crashed(w))
  {
    if w.pc.Moved? || w.pc.Recording? {
      OrphaningKeeps(w);
    } else {
      var w' := Crashed(w);
      forall b | b in w'.works ensures WorkOk(w', b) { assert WorkOk(w, b); }
      forall b | b in w'.orphaned ensures OrphanOk(w', b) { assert OrphanOk(w, b); }
      WorksKeep(w, w');
    }
  }
}
