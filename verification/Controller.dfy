/** `accept_and_integrate` as one call under the integration lock (src/walter/adapter.py). */
module Controller {
  import opened Base
  import opened Workspaces
  import opened I = Integration

  /** NotRecorded: the branch moved, and recording it was refused. */
  datatype Answer =
    | NothingSubmitted | StaleBase | Refused | AlreadyIntegrated(commit: CommitId)
    | IntegratedAt(commit: CommitId) | NotRecorded(commit: CommitId) | AcceptedOnly(error: IntegrateError)

  /** The record with the run as it was loaded; `rival`: another process saves on the run before. */
  ghost function Recorded(w: World, rival: bool): World
    requires w.pc.Moved? && w.pc.a in w.works && w.works[w.pc.a].run in w.runs
  {
    var w1 := LoadStep(w);
    if !w1.pc.Recording? then w1
    else SaveStep(if rival then Saved(w1, w.works[w.pc.a].run) else w1)
  }

  /** The record goes through. */
  predicate Lands(w: World, a: Id, rival: bool) {
    a in w.works && w.works[a].live && ActiveRun(w, w.works[a].run) && !rival
  }

  /** The integration attempt and the record that follows it. */
  ghost function AttemptedAndRecorded(w: World, id: CommitId, rival: bool): World
    requires Linked(w.repo) && w.pc.ToIntegrate? && w.pc.a in w.works
  {
    var w1 := Attempted(w, id);
    if w1.pc.Moved? && w1.pc.a in w1.works && w1.works[w1.pc.a].run in w1.runs then Recorded(w1, rival) else w1
  }

  /** The protocol steps with nothing in between but, perhaps, that rival. */
  ghost function Uninterrupted(w: World, a: Id, granted: bool, failed: bool, id: CommitId, rival: bool): World
    requires Linked(w.repo) && w.pc.Idle?
  {
    var w1 := Begun(w, a, failed);
    var w2 := if w1.pc.Checked? && w1.pc.a in w1.works then Accepted(w1, granted) else w1;
    if w2.pc.ToIntegrate? && w2.pc.a in w2.works && Linked(w2.repo) then AttemptedAndRecorded(w2, id, rival) else w2
  }

  lemma RecordOutcome(w: World, rival: bool)
    requires Inv(w) && w.pc.Moved? && w.works[w.pc.a].run in w.runs
    ensures var a, x := w.pc.a, w.works[w.pc.a];
      Recorded(w, rival) ==
        if Lands(w, a, rival) then Saved(SetWork(w, a, x.(integrated := Some(w.pc.commit))), x.run).(pc := Idle)
        else if x.live && ActiveRun(w, x.run) then Orphaning(Saved(w, x.run), a)
        else Orphaning(w, a)
  {}

  lemma RecordedKeepsInv(w: World, rival: bool)
    requires Inv(w) && w.pc.Moved? && w.works[w.pc.a].run in w.runs
    ensures Inv(Recorded(w, rival))
  {
    LoadKeeps(w);
    var w1 := LoadStep(w);
    if w1.pc.Recording? {
      if rival {
        RunsKeep(w1, Saved(w1, w.works[w.pc.a].run));
        SaveKeeps(Saved(w1, w.works[w.pc.a].run));
      } else {
        SaveKeeps(w1);
      }
    }
  }

  /** What the attempt and its record come to, by base, change and whether the record lands. */
  lemma AttemptRecorded(w: World, id: CommitId, rival: bool)
    requires Inv(w) && w.pc.ToIntegrate? && w.pc.a in w.works && id !in w.repo.commits
    requires w.works[w.pc.a].integrated.None? && w.works[w.pc.a].run in w.runs
    ensures var a, x := w.pc.a, w.works[w.pc.a];
      var (repo, r) := Integrated(w.repo, x.workspace, x.fingerprint, id);
      match r
      case Err(e) =>
        (e.NoChanges? || e.IntegrationStale?) && AttemptedAndRecorded(w, id, rival) == w.(repo := repo, pc := Idle)
      case Ok(commit) =>
        var w1 := w.(repo := repo, pc := Idle, log := w.log + [commit]);
        AttemptedAndRecorded(w, id, rival) ==
          if Lands(w, a, rival) then Saved(SetWork(w1, a, x.(integrated := Some(commit))), x.run)
          else if x.live && ActiveRun(w, x.run) then Saved(w1, x.run).(orphaned := w.orphaned + {a})
          else w1.(orphaned := w.orphaned + {a})
  {
    AttemptOutcome(w, id);
    AttemptKeeps(w, id);
    if Attempted(w, id).pc.Moved? { RecordOutcome(Attempted(w, id), rival); }
  }

  lemma AttemptRecordedKeeps(w: World, id: CommitId, rival: bool)
    requires Inv(w) && w.pc.ToIntegrate? && w.pc.a in w.works && id !in w.repo.commits
    ensures Inv(AttemptedAndRecorded(w, id, rival)) && w.works[w.pc.a].run in w.runs
  {
    assert WorkOk(w, w.pc.a);
    AttemptKeeps(w, id);
    if Attempted(w, id).pc.Moved? { RecordedKeepsInv(Attempted(w, id), rival); }
  }

  class DurableController {
    const workspaces: WorkspaceManager
    var frozen: map<Id, Fingerprint>
    var runs: map<Id, RunState>
    var works: map<Id, Work>
    ghost var pc: Pc
    ghost var log: seq<CommitId>
    ghost var crashed: set<Id>
    ghost var orphaned: set<Id>

    ghost function Contents(): World reads this, workspaces {
      World(workspaces.Contents(), frozen, runs, works, pc, log, crashed, orphaned)
    }

    ghost predicate Valid() reads this, workspaces { I.Inv(Contents()) }

    constructor (workspaces: WorkspaceManager)
      requires I.Initial(World(workspaces.Contents(), map[], map[], map[], Idle, [workspaces.start], {}, {}))
      ensures Valid() && this.workspaces == workspaces && pc.Idle?
    {
      this.workspaces := workspaces;
      frozen, runs, works, pc, log := map[], map[], map[], Idle, [workspaces.start];
      crashed, orphaned := {}, {};
    }

    /** One save on a run. */
    method Bump(r: Id)
      requires r in runs
      modifies this`runs
      ensures runs == old(runs)[r := old(runs)[r].(version := old(runs)[r].version + 1)]
    {
      runs := runs[r := runs[r].(version := runs[r].version + 1)];
    }

    /** The task fails and is recovered, if its run is still active. */
    method Retire(a: Id)
      requires a in works && works[a].live && works[a].run in runs
      modifies this`runs, this`works
      ensures Contents() == RetiredWork(old(Contents()), a)
    {
      if runs[works[a].run].status.Active? {
        Bump(works[a].run);
        works := works[a := works[a].(live := false)];
      }
    }

    /** The checks before acceptance; None when the call goes on. */
    method Begin(a: Id, failed: bool) returns (r: Option<Answer>)
      requires Valid() && pc.Idle?
      modifies this, workspaces`branch
      ensures Valid() && Contents() == Begun(old(Contents()), a, failed)
      ensures r.Some? ==> r.value.NothingSubmitted? || r.value.StaleBase?
      ensures r.None? ==> a in works && works[a].live
      ensures if r.Some? then pc.Idle? else pc == if works[a].accepted then ToIntegrate(a) else Checked(a)
    {
      ghost var w := Contents();
      BeginKeeps(w, a, failed);
      if a !in works || !works[a].live { return Some(NothingSubmitted); }
      if works[a].accepted {
        pc := ToIntegrate(a);
        return None;
      }
      assert WorkOk(w, a);
      var head := workspaces.IntegrationHead();
      if workspaces.candidates[workspaces.grants[works[a].workspace].candidate].base != head {
        if failed { Retire(a); }
        return Some(StaleBase);
      }
      pc := Checked(a);
      return None;
    }

    /** Whether the gates pass and the workspace's fingerprint as it is now is the submitted one. */
    method MayAccept(a: Id, granted: bool) returns (ok: bool)
      requires a in works && works[a].run in runs && works[a].workspace in workspaces.grants
      requires workspaces.grants[works[a].workspace].candidate in workspaces.candidates
      ensures ok <==>
              && granted && works[a].live && runs[works[a].run].status.Active?
              && FingerprintOf(workspaces.Contents(), works[a].workspace) == works[a].fingerprint
    {
      var x := works[a];
      var candidate := workspaces.candidates[workspaces.grants[x.workspace].candidate];
      var current := Fingerprint(candidate.base, candidate.files);
      return granted && x.live && runs[x.run].status.Active? && current == x.fingerprint;
    }

    /** Kernel acceptance. */
    method Accept(a: Id, granted: bool) returns (ok: bool)
      requires Valid() && pc == Checked(a)
      modifies this
      ensures Valid() && Contents() == Accepted(old(Contents()), granted)
      ensures pc == if ok then ToIntegrate(a) else Idle
      ensures ok ==> works[a].live && works[a].run in runs && runs[works[a].run].status.Active?
    {
      AcceptKeeps(Contents(), granted);
      assert WorkOk(Contents(), a);
      ok := MayAccept(a, granted);
      pc := if ok then ToIntegrate(a) else Idle;
      if ok {
        works := works[a := works[a].(accepted := true)];
        Bump(works[a].run);
      }
    }

    /** The part of `_integrate` after the look whether it is done already: the branch moves and the
        commit is recorded, or is not. */
    method MoveAndRecord(a: Id, id: CommitId, rival: bool) returns (r: Answer)
      requires Valid() && pc == ToIntegrate(a) && id !in workspaces.commits
      requires works[a].integrated.None? && works[a].run in runs
      modifies this, workspaces
      ensures Contents() == AttemptedAndRecorded(old(Contents()), id, rival)
      ensures pc.Idle? && a in works && (r.IntegratedAt? || r.NotRecorded? || r.AcceptedOnly?)
      ensures r.IntegratedAt? ==> works[a].integrated == Some(r.commit)
      ensures r.IntegratedAt? || r.NotRecorded? ==>
                log == old(log) + [r.commit] && (r.IntegratedAt? <==> Lands(old(Contents()), a, rival))
      ensures r.NotRecorded? || r.AcceptedOnly? ==> works[a].integrated.None?
      ensures r.AcceptedOnly? ==> log == old(log) && (r.error.NoChanges? || r.error.IntegrationStale?)
    {
      AttemptRecorded(Contents(), id, rival);
      pc := Idle;
      var moved := workspaces.Integrate(works[a].workspace, works[a].fingerprint, id);
      if moved.Err? { return AcceptedOnly(moved.error); }
      log := log + [moved.value];
      var saved := RecordIntegration(a, moved.value, rival);
      return if saved then IntegratedAt(moved.value) else NotRecorded(moved.value);
    }

    /** `_integrate`; `rival`: another process saves on the run between the load and the save of the
        record. */
    method Integrate(a: Id, id: CommitId, rival: bool) returns (r: Answer)
      requires Valid() && pc == ToIntegrate(a) && id !in workspaces.commits
      modifies this, workspaces
      ensures Valid() && pc.Idle? && Contents() == AttemptedAndRecorded(old(Contents()), id, rival)
      ensures a in works
      ensures r.IntegratedAt? || r.NotRecorded? ==>
                log == old(log) + [r.commit] && (r.IntegratedAt? <==> Lands(old(Contents()), a, rival))
      ensures r.IntegratedAt? || r.AlreadyIntegrated? ==> works[a].integrated == Some(r.commit)
      ensures r.NotRecorded? || r.AcceptedOnly? ==> works[a].integrated.None?
      ensures r.AlreadyIntegrated? ==> log == old(log)
      ensures r.AcceptedOnly? ==> log == old(log) && (r.error.NoChanges? || r.error.IntegrationStale?)
    {
      AttemptRecordedKeeps(Contents(), id, rival);
      if works[a].integrated.Some? {
        pc := Idle;
        return AlreadyIntegrated(works[a].integrated.value);
      }
      r := MoveAndRecord(a, id, rival);
    }

    /** `record_integration`: the guards on the loaded run, then the save with its version check. */
    method RecordIntegration(a: Id, commit: CommitId, rival: bool) returns (ok: bool)
      requires a in works && works[a].run in runs
      modifies this`works, this`runs, this`orphaned
      ensures var x := old(works)[a];
        var fit := x.live && old(runs)[x.run].status.Active?;
        && ok == (fit && !rival)
        && works == (if ok then old(works)[a := x.(integrated := Some(commit))] else old(works))
        && runs == (if fit then old(runs)[x.run := old(runs)[x.run].(version := old(runs)[x.run].version + 1)]
                    else old(runs))
        && orphaned == (if ok then old(orphaned) else old(orphaned) + {a})
    {
      var x := works[a];
      if !runs[x.run].status.Active? || !x.live {
        orphaned := orphaned + {a};
        return false;
      }
      var loaded := runs[x.run].version;
      if rival { Bump(x.run); }
      if runs[x.run].version != loaded {
        orphaned := orphaned + {a};
        return false;
      }
      works := works[a := x.(integrated := Some(commit))];
      Bump(x.run);
      return true;
    }

    /** Kernel acceptance, then fast-forward integration of exactly those bytes.  `granted`: the
        kernel's own gates pass; `failed`: the kernel takes the stale-base failure. */
    method AcceptAndIntegrate(a: Id, granted: bool, failed: bool, id: CommitId, rival: bool) returns (r: Answer)
      requires Valid() && pc.Idle? && id !in workspaces.commits
      modifies this, workspaces
      ensures Valid() && pc.Idle?
      ensures Contents() == Uninterrupted(old(Contents()), a, granted, failed, id, rival)
      ensures r.IntegratedAt? ==> !rival && r.commit in log && a in works && works[a].integrated == Some(r.commit)
      ensures r.NotRecorded? ==> r.commit in log && a in works && works[a].integrated.None?
      ensures r.NotRecorded? && !rival ==> old(a in works && works[a].accepted && !ActiveRun(Contents(), works[a].run))
    {
      var stop := Begin(a, failed);
      if stop.Some? { return stop.value; }
      if !works[a].accepted {
        var ok := Accept(a, granted);
        if !ok { return Refused; }
      }
      r := Integrate(a, id, rival);
    }
  }
}
