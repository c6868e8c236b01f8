/** The queue's transactions as methods on the three tables they update. */
module PlatformStore {
  import opened Base
  import opened Q = JobQueue

  class Platform {
    var jobs: seq<Job>
    var runs: map<Id, Id>
    var leases: map<Id, Lease>

    ghost function Contents(): Tables reads this { Tables(jobs, runs, leases) }

    constructor ()
      ensures Contents() == Tables([], map[], map[])
    {
      jobs, runs, leases := [], map[], map[];
    }

    /** The oldest active row of a run. */
    method FindActive(run: Id) returns (row: Option<nat>)
      ensures row.None? <==> !HasActive(jobs, run)
      ensures row.Some? ==> row.value < |jobs| && jobs[row.value].run == run && Active(jobs[row.value])
    {
      row := None;
      for i := 0 to |jobs|
        invariant row.Some? ==> row.value < i && jobs[row.value].run == run && Active(jobs[row.value])
        invariant row.None? ==> forall j :: 0 <= j < i ==> !(jobs[j].run == run && Active(jobs[j]))
      {
        if jobs[i].run == run && Active(jobs[i]) && (row.None? || jobs[i].created < jobs[row.value].created) {
          row := Some(i);
        }
      }
    }

    method FindRow(id: Id) returns (row: Option<nat>)
      ensures row.None? ==> forall i :: 0 <= i < |jobs| ==> jobs[i].id != id
      ensures row.Some? ==> row.value < |jobs| && jobs[row.value].id == id
    {
      for i := 0 to |jobs|
        invariant forall j :: 0 <= j < i ==> jobs[j].id != id
      {
        if jobs[i].id == id { return Some(i); }
      }
      return None;
    }

    /** Queues a job unless the run has active work, which is then what is returned. */
    method Enqueue(run: Id, kind: Kind, id: Id, created: int, ghost now: real) returns (job: Option<Job>, isNew: bool)
      requires Inv(Contents(), now) && NewId(Contents(), id)
      modifies this
      ensures Contents() == Q.Enqueue(old(Contents()), run, kind, id, created) && Inv(Contents(), now)
      ensures isNew <==> !HasActive(old(jobs), run) && run in runs
      ensures isNew ==> job == Some(NewJob(id, run, kind, created))
      ensures HasActive(old(jobs), run) ==> job.Some? && job.value in jobs && job.value.run == run && Active(job.value)
    {
      EnqueueKeeps(Contents(), now, run, kind, id, created);
      var active := FindActive(run);
      if active.Some? { return Some(jobs[active.value]), false; }
      if run !in runs { return None, false; }
      jobs := jobs + [NewJob(id, run, kind, created)];
      return Some(Last(jobs)), true;
    }

    /** Leases the oldest queued job whose project is free, if there is one. */
    method Claim(worker: Id, seconds: real, now: real) returns (job: Option<Job>)
      requires Inv(Contents(), now)
      modifies this
      ensures ClaimStep(old(Contents()), now, worker, seconds, Contents()) && Inv(Contents(), now)
      ensures job.None? <==> forall i :: 0 <= i < |old(jobs)| ==> !Claimable(old(Contents()), now, i)
      ensures job.Some? ==> exists i: nat :: IsOldest(old(Contents()), now, i) && job.value == jobs[i]
    {
      ghost var before := Contents();
      var free: Option<nat> := None;
      for i := 0 to |jobs|
        invariant free.None? ==> forall j :: 0 <= j < i ==> !Claimable(before, now, j)
        invariant free.Some? ==> free.value < i && Claimable(before, now, free.value)
        invariant free.Some? ==> forall j :: 0 <= j < i && Claimable(before, now, j) ==>
          jobs[free.value].created < jobs[j].created
          || (jobs[free.value].created == jobs[j].created && free.value <= j)
      {
        if Claimable(Tables(jobs, runs, leases), now, i)
           && (free.None? || jobs[i].created < jobs[free.value].created) {
          free := Some(i);
        }
      }
      if free.None? { return None; }
      var row := free.value;
      assert IsOldest(before, now, row);
      ClaimKeeps(before, now, worker, seconds, row);
      jobs := jobs[row := Leased(jobs[row], worker, now + seconds)];
      assert Contents() == before.(jobs := before.jobs[row := Leased(before.jobs[row], worker, now + seconds)]);
      return Some(jobs[row]);
    }

    /** At most one row has this id, so updating it is updating every row that matches. */
    lemma OnlyRow(s: Tables, now: real, row: nat)
      requires Inv(s, now) && row < |s.jobs|
      ensures forall i :: 0 <= i < |s.jobs| && s.jobs[i].id == s.jobs[row].id ==> i == row
    {
      forall i | 0 <= i < |s.jobs| && i != row ensures s.jobs[i].id != s.jobs[row].id {
        if i < row { assert Exclusive(s, i, row); } else { assert Exclusive(s, row, i); }
      }
    }

    /** Extends the lease; says whether the worker must stop. */
    method Heartbeat(id: Id, worker: Id, seconds: real, now: real) returns (stop: bool)
      requires Inv(Contents(), now)
      modifies this
      ensures Contents() == Q.Heartbeat(old(Contents()), id, worker, now + seconds) && Inv(Contents(), now)
      ensures !stop <==>
        exists i :: 0 <= i < |old(jobs)| && HoldsLease(old(jobs)[i], id, worker) && !old(jobs)[i].cancelRequested
    {
      ghost var before := Contents();
      StepKeeps(before, now, HeartbeatOp(id, worker, seconds), Q.Heartbeat(before, id, worker, now + seconds));
      var row := FindRow(id);
      if row.None? || jobs[row.value].leaseOwner != Some(worker) || !jobs[row.value].status.Running? {
        if row.Some? { OnlyRow(before, now, row.value); }
        assert Q.Heartbeat(before, id, worker, now + seconds).jobs == jobs;
        return true;
      }
      OnlyRow(before, now, row.value);
      jobs := jobs[row.value := jobs[row.value].(leaseExpires := now + seconds)];
      assert jobs == Q.Heartbeat(before, id, worker, now + seconds).jobs;
      return jobs[row.value].cancelRequested;
    }

    /** Ends the job if this worker still holds it; an unknown status is refused. */
    method Finish(id: Id, worker: Id, status: JobStatus, outcome: Id, ghost now: real) returns (ok: bool)
      requires Inv(Contents(), now)
      modifies this
      ensures ok <==> Terminal(status)
      ensures Inv(Contents(), now)
      ensures Contents() == if ok then Q.Finish(old(Contents()), id, worker, status, outcome) else old(Contents())
    {
      if !Terminal(status) { return false; }
      ghost var before := Contents();
      StepKeeps(before, now, FinishOp(id, worker, status, outcome), Q.Finish(before, id, worker, status, outcome));
      var row := FindRow(id);
      if row.Some? { OnlyRow(before, now, row.value); }
      if row.Some? && HoldsLease(jobs[row.value], id, worker) {
        jobs := jobs[row.value :=
          jobs[row.value].(status := status, outcome := Some(Reported(outcome)), leaseOwner := None)];
      }
      assert jobs == Q.Finish(before, id, worker, status, outcome).jobs;
      return true;
    }

    /** Cancels a queued job at once and asks a running one to stop. */
    method RequestCancel(run: Id, ghost now: real) returns (job: Option<Job>)
      requires Inv(Contents(), now)
      modifies this
      ensures Contents() == Q.RequestCancel(old(Contents()), run) && Inv(Contents(), now)
      ensures job.None? <==> !HasActive(old(jobs), run)
      ensures job.Some? ==> job.value in jobs && job.value.run == run
      ensures job.Some? ==> job.value.status.Cancelled? || (job.value.status.Running? && job.value.cancelRequested)
    {
      ghost var before := Contents();
      StepKeeps(before, now, CancelOp(run), Q.RequestCancel(before, run));
      var row := FindActive(run);
      if row.None? {
        assert Q.RequestCancel(before, run).jobs == jobs;
        return None;
      }
      OnlyActiveRow(before, now, row.value);
      if jobs[row.value].status.Queued? {
        jobs := jobs[row.value := jobs[row.value].(status := Cancelled, outcome := Some(Stopped))];
      } else {
        jobs := jobs[row.value := jobs[row.value].(cancelRequested := true)];
      }
      assert jobs == Q.RequestCancel(before, run).jobs;
      return Some(jobs[row.value]);
    }

    lemma OnlyActiveRow(s: Tables, now: real, row: nat)
      requires Inv(s, now) && row < |s.jobs| && Active(s.jobs[row])
      ensures forall i :: 0 <= i < |s.jobs| && s.jobs[i].run == s.jobs[row].run && Active(s.jobs[i]) ==> i == row
    {
      forall i | 0 <= i < |s.jobs| && i != row && Active(s.jobs[i]) ensures s.jobs[i].run != s.jobs[row].run {
        if i < row { assert Exclusive(s, i, row); } else { assert Exclusive(s, row, i); }
      }
    }

    method CountRecoveries(run: Id) returns (n: nat)
      ensures n == RecoverCount(jobs, run)
    {
      n := 0;
      for i := 0 to |jobs|
        invariant n == RecoverCount(jobs[..i], run)
      {
        assert jobs[..i + 1][..i] == jobs[..i];
        if jobs[i].run == run && jobs[i].kind.Recover? { n := n + 1; }
      }
      assert jobs[..|jobs|] == jobs;
    }

    /** Turns every expired job into explicit recovery work, as far as the limit allows. */
    method ReapExpired(max: int, now: real, ids: seq<Id>, created: int) returns (added: seq<Job>)
      requires Inv(Contents(), now) && |ids| == |jobs| && NoDuplicates(ids)
      requires forall id :: id in ids ==> NewId(Contents(), id)
      modifies this
      ensures Contents() == Reap(old(Contents()), max, now, ids, created) && Inv(Contents(), now)
      ensures jobs == jobs[..|old(jobs)|] + added
    {
      ghost var before := Contents();
      ReapKeeps(before, now, max, ids, created);
      var rows := jobs;
      added := [];
      for i := 0 to |rows|
        invariant runs == before.runs && leases == before.leases
        invariant jobs == Reaped(before.jobs, i, max, now, ids, created)
        invariant jobs == jobs[..|rows|] + added
      {
        var row := rows[i];
        if row.status.Running? && row.leaseExpires < now {
          jobs := jobs[i := Interrupt(row)];
          var recoveries := CountRecoveries(row.run);
          if recoveries < max && !row.cancelRequested {
            var recovery := NewJob(ids[i], row.run, Recover, created);
            jobs := jobs + [recovery];
            added := added + [recovery];
          }
        }
      }
    }

    /** Holds a project for work outside a job. */
    method AcquireProject(project: Id, holder: Id, seconds: real, now: real) returns (ok: bool)
      requires Inv(Contents(), now)
      modifies this
      ensures Contents() == Acquire(old(Contents()), project, holder, seconds, now) && Inv(Contents(), now)
      ensures ok <==> CanAcquire(old(Contents()), project, holder, now)
    {
      AcquireKeeps(Contents(), now, project, holder, seconds);
      for i := 0 to |jobs|
        invariant forall j :: 0 <= j < i && jobs[j].status.Running? && jobs[j].run in runs ==>
          runs[jobs[j].run] != project
      {
        if jobs[i].run in runs && runs[jobs[i].run] == project && jobs[i].status.Running? {
          assert project in Busy(Contents());
          return false;
        }
      }
      if project in leases && leases[project].holder != holder && now <= leases[project].expires { return false; }
      leases := leases[project := Lease(holder, now + seconds)];
      return true;
    }

    method ReleaseProject(project: Id, holder: Id, ghost now: real)
      requires Inv(Contents(), now)
      modifies this
      ensures Contents() == Release(old(Contents()), project, holder) && Inv(Contents(), now)
    {
      ReleaseKeeps(Contents(), now, project, holder);
      if project in leases && leases[project].holder == holder { leases := leases - {project}; }
    }
  }
}
