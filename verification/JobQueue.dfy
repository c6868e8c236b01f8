/** The leased job queue and the project leases of src/cavman/platform_store.py.  Each write
    transaction is one step on three tables. */
module JobQueue {
  import opened Base

  datatype JobStatus = Queued | Running | Succeeded | Failed | Cancelled

  datatype Kind = Start | Continue | Recover

  datatype JobOutcome = Interrupted | Stopped | Reported(text: Id)

  datatype Job = Job(id: Id, run: Id, kind: Kind, status: JobStatus, outcome: Option<JobOutcome>,
                     leaseOwner: Option<Id>, leaseExpires: real, cancelRequested: bool, created: int)

  datatype Lease = Lease(holder: Id, expires: real)

  /** jobs in rowid order, the project of each run, and the leases held outside jobs. */
  datatype Tables = Tables(jobs: seq<Job>, runs: map<Id, Id>, leases: map<Id, Lease>)

  predicate Active(j: Job) { j.status.Queued? || j.status.Running? }

  predicate Terminal(s: JobStatus) { s.Succeeded? || s.Failed? || s.Cancelled? }

  function NewJob(id: Id, run: Id, kind: Kind, created: int): Job {
    Job(id, run, kind, Queued, None, None, 0.0, false, created)
  }

  // ---- the transactions as functions -----------------------------------------------------------

  predicate HasActive(jobs: seq<Job>, run: Id) {
    exists i :: 0 <= i < |jobs| && jobs[i].run == run && Active(jobs[i])
  }

  function Enqueue(s: Tables, run: Id, kind: Kind, id: Id, created: int): Tables {
    if HasActive(s.jobs, run) || run !in s.runs then s
    else s.(jobs := s.jobs + [NewJob(id, run, kind, created)])
  }

  /** The projects with a running job. */
  function Busy(s: Tables): set<Id> {
    set i | 0 <= i < |s.jobs| && s.jobs[i].status.Running? && s.jobs[i].run in s.runs :: s.runs[s.jobs[i].run]
  }

  function Held(s: Tables, now: real): set<Id> { set p | p in s.leases && now <= s.leases[p].expires }

  predicate Claimable(s: Tables, now: real, i: nat) requires i < |s.jobs| {
    && s.jobs[i].status.Queued? && s.jobs[i].run in s.runs
    && s.runs[s.jobs[i].run] !in Busy(s) && s.runs[s.jobs[i].run] !in Held(s, now)
  }

  /** The oldest claimable job: smallest created_at, then smallest rowid. */
  ghost predicate IsOldest(s: Tables, now: real, i: nat) {
    && i < |s.jobs| && Claimable(s, now, i)
    && forall j :: 0 <= j < |s.jobs| && Claimable(s, now, j) ==>
         s.jobs[i].created < s.jobs[j].created || (s.jobs[i].created == s.jobs[j].created && i <= j)
  }

  function Leased(j: Job, worker: Id, expires: real): Job {
    j.(status := Running, leaseOwner := Some(worker), leaseExpires := expires)
  }

  /** The row a worker holds the lease of, if this is its job and still runs. */
  predicate HoldsLease(j: Job, id: Id, worker: Id) {
    j.id == id && j.leaseOwner == Some(worker) && j.status.Running?
  }

  function Heartbeat(s: Tables, id: Id, worker: Id, expires: real): Tables {
    s.(jobs := seq(|s.jobs|, i requires 0 <= i < |s.jobs| =>
         if HoldsLease(s.jobs[i], id, worker) then s.jobs[i].(leaseExpires := expires) else s.jobs[i]))
  }

  function Finish(s: Tables, id: Id, worker: Id, status: JobStatus, outcome: Id): Tables {
    s.(jobs := seq(|s.jobs|, i requires 0 <= i < |s.jobs| =>
         if HoldsLease(s.jobs[i], id, worker)
         then s.jobs[i].(status := status, outcome := Some(Reported(outcome)), leaseOwner := None)
         else s.jobs[i]))
  }

  function CancelledJob(j: Job): Job {
    if j.status.Queued? then j.(status := Cancelled, outcome := Some(Stopped)) else j.(cancelRequested := true)
  }

  function RequestCancel(s: Tables, run: Id): Tables {
    s.(jobs := seq(|s.jobs|, i requires 0 <= i < |s.jobs| =>
         if s.jobs[i].run == run && Active(s.jobs[i]) then CancelledJob(s.jobs[i]) else s.jobs[i]))
  }

  function RecoverCount(jobs: seq<Job>, run: Id): nat {
    if jobs == [] then 0
    else RecoverCount(jobs[..|jobs| - 1], run) + (if Last(jobs).run == run && Last(jobs).kind.Recover? then 1 else 0)
  }

  predicate Expired(j: Job, now: real) { j.status.Running? && j.leaseExpires < now }

  function Interrupt(j: Job): Job { j.(status := Failed, outcome := Some(Interrupted), leaseOwner := None) }

  /** One turn of the reaper's loop, on the row it read at the start. */
  function ReapRow(jobs: seq<Job>, i: nat, row: Job, max: int, id: Id, created: int): seq<Job>
    requires i < |jobs|
  {
    var failed := jobs[i := Interrupt(row)];
    if RecoverCount(failed, row.run) < max && !row.cancelRequested
    then failed + [NewJob(id, row.run, Recover, created)] else failed
  }

  /** The reaper after the first n rows. */
  function Reaped(jobs: seq<Job>, n: nat, max: int, now: real, ids: seq<Id>, created: int): (r: seq<Job>)
    requires n <= |jobs| && n <= |ids|
    ensures |jobs| <= |r|
  {
    if n == 0 then jobs
    else
      var r := Reaped(jobs, n - 1, max, now, ids, created);
      if Expired(jobs[n - 1], now) then ReapRow(r, n - 1, jobs[n - 1], max, ids[n - 1], created) else r
  }

  function Reap(s: Tables, max: int, now: real, ids: seq<Id>, created: int): Tables
    requires |ids| == |s.jobs|
  {
    s.(jobs := Reaped(s.jobs, |s.jobs|, max, now, ids, created))
  }

  predicate CanAcquire(s: Tables, project: Id, holder: Id, now: real) {
    && project !in Busy(s)
    && (project in s.leases ==> s.leases[project].holder == holder || s.leases[project].expires < now)
  }

  function Acquire(s: Tables, project: Id, holder: Id, seconds: real, now: real): Tables {
    if CanAcquire(s, project, holder, now)
    then s.(leases := s.leases[project := Lease(holder, now + seconds)]) else s
  }

  function Release(s: Tables, project: Id, holder: Id): Tables {
    if project in s.leases && s.leases[project].holder == holder then s.(leases := s.leases - {project}) else s
  }

  // ---- steps and histories -----------------------------------------------------------------------

  datatype Op =
    | RunOp(run: Id, project: Id)
    | EnqueueOp(run: Id, kind: Kind, id: Id, created: int)
    | ClaimOp(worker: Id, seconds: real)
    | HeartbeatOp(id: Id, worker: Id, seconds: real)
    | FinishOp(id: Id, worker: Id, status: JobStatus, outcome: Id)
    | ReapOp(max: int, ids: seq<Id>, created: int)
    | CancelOp(run: Id)
    | AcquireOp(project: Id, holder: Id, seconds: real)
    | ReleaseOp(project: Id, holder: Id)

  predicate NewId(s: Tables, id: Id) { forall j :: j in s.jobs ==> j.id != id }

  /** What holds of the parameters: drawn identifiers are new, runs are created once, and
      `finish` refuses a status that is not terminal. */
  ghost predicate Lawful(s: Tables, op: Op) {
    match op
    case RunOp(run, _) => run !in s.runs
    case EnqueueOp(_, _, id, _) => NewId(s, id)
    case FinishOp(_, _, status, _) => Terminal(status)
    case ReapOp(_, ids, _) => |ids| == |s.jobs| && NoDuplicates(ids) && forall id :: id in ids ==> NewId(s, id)
    case _ => true
  }

  ghost predicate ClaimStep(s: Tables, now: real, worker: Id, seconds: real, s': Tables) {
    if exists i: nat :: IsOldest(s, now, i) then
      exists i: nat :: IsOldest(s, now, i) && s' == s.(jobs := s.jobs[i := Leased(s.jobs[i], worker, now + seconds)])
    else s' == s && forall i :: 0 <= i < |s.jobs| ==> !Claimable(s, now, i)
  }

  ghost predicate Step(s: Tables, now: real, op: Op, s': Tables) {
    && Lawful(s, op)
    && match op
       case RunOp(run, project) => s' == s.(runs := s.runs[run := project])
       case EnqueueOp(run, kind, id, created) => s' == Enqueue(s, run, kind, id, created)
       case ClaimOp(worker, seconds) => ClaimStep(s, now, worker, seconds, s')
       case HeartbeatOp(id, worker, seconds) => s' == Heartbeat(s, id, worker, now + seconds)
       case FinishOp(id, worker, status, outcome) => s' == Finish(s, id, worker, status, outcome)
       case ReapOp(max, ids, created) => s' == Reap(s, max, now, ids, created)
       case CancelOp(run) => s' == RequestCancel(s, run)
       case AcquireOp(project, holder, seconds) => s' == Acquire(s, project, holder, seconds, now)
       case ReleaseOp(project, holder) => s' == Release(s, project, holder)
  }

  datatype Timed = Timed(at: real, op: Op)

  /** Transactions in the order they commit, at a clock that never goes back. */
  ghost predicate History(states: seq<Tables>, steps: seq<Timed>) {
    && |states| == |steps| + 1 && states[0] == Tables([], map[], map[])
    && (forall i :: 0 <= i < |steps| ==> Step(states[i], steps[i].at, steps[i].op, states[i + 1]))
    && forall i, j :: 0 <= i < j < |steps| ==> steps[i].at <= steps[j].at
  }

  // ---- the invariant -------------------------------------------------------------------------------

  ghost predicate RowOk(s: Tables, j: Job) {
    j.run in s.runs && (j.leaseOwner.Some? <==> j.status.Running?)
  }

  ghost predicate Exclusive(s: Tables, i: nat, j: nat) requires i < |s.jobs| && j < |s.jobs| {
    var a, b := s.jobs[i], s.jobs[j];
    && a.id != b.id
    && (Active(a) && Active(b) ==> a.run != b.run)
    && (a.status.Running? && b.status.Running? && a.run in s.runs && b.run in s.runs ==>
          s.runs[a.run] != s.runs[b.run])
  }

  /** The project of a running job is under no lease that is still current. */
  ghost predicate Undisturbed(s: Tables, now: real, j: Job) {
    j.status.Running? && j.run in s.runs && s.runs[j.run] in s.leases ==> s.leases[s.runs[j.run]].expires < now
  }

  ghost predicate Inv(s: Tables, now: real) {
    && (forall i :: 0 <= i < |s.jobs| ==> RowOk(s, s.jobs[i]))
    && (forall i, j :: 0 <= i < j < |s.jobs| ==> Exclusive(s, i, j))
    && (forall i :: 0 <= i < |s.jobs| ==> Undisturbed(s, now, s.jobs[i]))
  }

  lemma EnqueueKeeps(s: Tables, now: real, run: Id, kind: Kind, id: Id, created: int)
    requires Inv(s, now) && NewId(s, id)
    ensures Inv(Enqueue(s, run, kind, id, created), now)
  {
    var s' := Enqueue(s, run, kind, id, created);
    if s' != s {
      forall i, j | 0 <= i < j < |s'.jobs| ensures Exclusive(s', i, j) {
        if j < |s.jobs| { assert Exclusive(s, i, j); } else { assert s.jobs[i] in s.jobs; }
      }
      forall i | 0 <= i < |s'.jobs| ensures RowOk(s', s'.jobs[i]) && Undisturbed(s', now, s'.jobs[i]) {
        if i < |s.jobs| { assert RowOk(s, s.jobs[i]) && Undisturbed(s, now, s.jobs[i]); }
      }
    }
  }

  lemma ClaimKeeps(s: Tables, now: real, worker: Id, seconds: real, i: nat)
    requires Inv(s, now) && i < |s.jobs| && Claimable(s, now, i)
    ensures Inv(s.(jobs := s.jobs[i := Leased(s.jobs[i], worker, now + seconds)]), now)
  {
    var s' := s.(jobs := s.jobs[i := Leased(s.jobs[i], worker, now + seconds)]);
    forall a, b | 0 <= a < b < |s'.jobs| ensures Exclusive(s', a, b) {
      assert Exclusive(s, a, b);
      if a == i && s.jobs[b].status.Running? { assert RowOk(s, s.jobs[b]) && s.runs[s.jobs[b].run] in Busy(s); }
      if b == i && s.jobs[a].status.Running? { assert RowOk(s, s.jobs[a]) && s.runs[s.jobs[a].run] in Busy(s); }
    }
    forall j | 0 <= j < |s'.jobs| ensures RowOk(s', s'.jobs[j]) && Undisturbed(s', now, s'.jobs[j]) {
      assert RowOk(s, s.jobs[j]) && Undisturbed(s, now, s.jobs[j]);
      if j == i && s.runs[s.jobs[i].run] in s.leases {
        assert s.runs[s.jobs[i].run] !in Held(s, now);
      }
    }
  }

  /** Each row keeps its identity, none starts running or becomes active. */
  ghost predicate Settling(j: Job, j': Job) {
    && j'.id == j.id && j'.run == j.run
    && (Active(j') ==> Active(j)) && (j'.status.Running? ==> j.status.Running?)
    && (j'.leaseOwner.Some? <==> j'.status.Running?)
  }

  lemma SettlingKeeps(s: Tables, now: real, jobs: seq<Job>)
    requires Inv(s, now) && |jobs| == |s.jobs|
    requires forall i :: 0 <= i < |jobs| ==> Settling(s.jobs[i], jobs[i])
    ensures Inv(s.(jobs := jobs), now)
  {
    var s' := s.(jobs := jobs);
    forall i, j | 0 <= i < j < |jobs| ensures Exclusive(s', i, j) {
      assert Exclusive(s, i, j) && Settling(s.jobs[i], jobs[i]) && Settling(s.jobs[j], jobs[j]);
    }
    forall i | 0 <= i < |jobs| ensures RowOk(s', jobs[i]) && Undisturbed(s', now, jobs[i]) {
      assert RowOk(s, s.jobs[i]) && Undisturbed(s, now, s.jobs[i]) && Settling(s.jobs[i], jobs[i]);
    }
  }

  lemma AcquireKeeps(s: Tables, now: real, project: Id, holder: Id, seconds: real)
    requires Inv(s, now)
    ensures Inv(Acquire(s, project, holder, seconds, now), now)
  {
    var s' := Acquire(s, project, holder, seconds, now);
    forall i, j | 0 <= i < j < |s.jobs| ensures Exclusive(s', i, j) { assert Exclusive(s, i, j); }
    forall i | 0 <= i < |s.jobs| ensures RowOk(s', s.jobs[i]) && Undisturbed(s', now, s.jobs[i]) {
      assert RowOk(s, s.jobs[i]) && Undisturbed(s, now, s.jobs[i]);
      if s.jobs[i].status.Running? { assert s.runs[s.jobs[i].run] in Busy(s); }
    }
  }

  lemma ReleaseKeeps(s: Tables, now: real, project: Id, holder: Id)
    requires Inv(s, now)
    ensures Inv(Release(s, project, holder), now)
  {
    var s' := Release(s, project, holder);
    forall i, j | 0 <= i < j < |s.jobs| ensures Exclusive(s', i, j) { assert Exclusive(s, i, j); }
    forall i | 0 <= i < |s.jobs| ensures RowOk(s', s.jobs[i]) && Undisturbed(s', now, s.jobs[i]) {
      assert RowOk(s, s.jobs[i]) && Undisturbed(s, now, s.jobs[i]);
    }
  }

  lemma RunKeeps(s: Tables, now: real, run: Id, project: Id)
    requires Inv(s, now) && run !in s.runs
    ensures Inv(s.(runs := s.runs[run := project]), now)
  {
    var s' := s.(runs := s.runs[run := project]);
    forall i | 0 <= i < |s.jobs| ensures RowOk(s', s.jobs[i]) && Undisturbed(s', now, s.jobs[i]) {
      assert RowOk(s, s.jobs[i]) && Undisturbed(s, now, s.jobs[i]);
    }
    forall i, j | 0 <= i < j < |s.jobs| ensures Exclusive(s', i, j) {
      assert Exclusive(s, i, j) && RowOk(s, s.jobs[i]) && RowOk(s, s.jobs[j]);
    }
  }

  // ---- the reaper ------------------------------------------------------------------------------------

  /** The table after n rows: the unread part is untouched, and what was added are recovery jobs
      for different runs under different drawn identifiers. */
  ghost predicate Reaping(s: Tables, n: nat, now: real, ids: seq<Id>, jobs: seq<Job>) {
    && |s.jobs| <= |jobs| && n <= |s.jobs| == |ids|
    && (forall i :: 0 <= i < |s.jobs| ==> jobs[i] == ReapedRow(s.jobs[i], i < n, now))
    && (forall i :: |s.jobs| <= i < |jobs| ==> Replacement(s, n, now, ids, jobs[i]))
    && (forall i, j :: |s.jobs| <= i < j < |jobs| ==> jobs[i].run != jobs[j].run && jobs[i].id != jobs[j].id)
  }

  function ReapedRow(j: Job, read: bool, now: real): Job { if read && Expired(j, now) then Interrupt(j) else j }

  /** A recovery job that takes the place of one of the first n rows. */
  ghost predicate Replacement(s: Tables, n: nat, now: real, ids: seq<Id>, job: Job) requires |s.jobs| == |ids| {
    exists k :: 0 <= k < n && k < |s.jobs| && Replaces(s, now, ids, job, k)
  }

  ghost predicate Replaces(s: Tables, now: real, ids: seq<Id>, job: Job, k: nat)
    requires k < |s.jobs| == |ids|
  {
    && Expired(s.jobs[k], now) && !s.jobs[k].cancelRequested
    && job == NewJob(ids[k], s.jobs[k].run, Recover, job.created)
  }

  /** What was added for the first n - 1 rows was added for the first n, and not for row n. */
  lemma EarlierReplacement(s: Tables, n: nat, now: real, ids: seq<Id>, job: Job)
    requires Inv(s, now) && 0 < n <= |s.jobs| == |ids| && NoDuplicates(ids) && Replacement(s, n - 1, now, ids, job)
    ensures Replacement(s, n, now, ids, job)
    ensures Expired(s.jobs[n - 1], now) ==> job.run != s.jobs[n - 1].run && job.id != ids[n - 1]
  {
    var k :| 0 <= k < n - 1 && k < |s.jobs| && Replaces(s, now, ids, job, k);
    assert Replaces(s, now, ids, job, k);
    assert Exclusive(s, k, n - 1);
  }

  lemma LatestReplacement(s: Tables, n: nat, now: real, ids: seq<Id>, created: int)
    requires 0 < n <= |s.jobs| == |ids| && Expired(s.jobs[n - 1], now) && !s.jobs[n - 1].cancelRequested
    ensures Replacement(s, n, now, ids, NewJob(ids[n - 1], s.jobs[n - 1].run, Recover, created))
  {
    assert Replaces(s, now, ids, NewJob(ids[n - 1], s.jobs[n - 1].run, Recover, created), n - 1);
  }

  lemma {:induction false} ReapedIsReaping(s: Tables, n: nat, max: int, now: real, ids: seq<Id>, created: int)
    requires Inv(s, now) && n <= |s.jobs| == |ids| && NoDuplicates(ids)
    ensures Reaping(s, n, now, ids, Reaped(s.jobs, n, max, now, ids, created))
  {
    if n > 0 {
      ReapedIsReaping(s, n - 1, max, now, ids, created);
      var before := Reaped(s.jobs, n - 1, max, now, ids, created);
      var after := Reaped(s.jobs, n, max, now, ids, created);
      forall i | |s.jobs| <= i < |before|
        ensures Replacement(s, n, now, ids, before[i])
        ensures Expired(s.jobs[n - 1], now) ==> before[i].run != s.jobs[n - 1].run && before[i].id != ids[n - 1]
      {
        EarlierReplacement(s, n, now, ids, before[i]);
      }
      if |after| > |before| { LatestReplacement(s, n, now, ids, created); }
      OneRowFurther(s, n, now, ids, before, after);
    }
  }

  /** One more row read: at most its interruption and one replacement at the end. */
  lemma OneRowFurther(s: Tables, n: nat, now: real, ids: seq<Id>, before: seq<Job>, after: seq<Job>)
    requires 0 < n <= |s.jobs| == |ids| && Reaping(s, n - 1, now, ids, before)
    requires |before| <= |after| <= |before| + 1
    requires forall i :: 0 <= i < |before| && i != n - 1 ==> after[i] == before[i]
    requires after[n - 1] == ReapedRow(s.jobs[n - 1], true, now)
    requires forall i :: |s.jobs| <= i < |after| ==> Replacement(s, n, now, ids, after[i])
    requires |after| > |before| ==> forall i :: |s.jobs| <= i < |before| ==>
               before[i].run != after[|before|].run && before[i].id != after[|before|].id
    ensures Reaping(s, n, now, ids, after)
  {}

  lemma ReapedExclusive(s: Tables, s': Tables, now: real, ids: seq<Id>, i: nat, j: nat)
    requires Inv(s, now) && |ids| == |s.jobs| && NoDuplicates(ids) && (forall id :: id in ids ==> NewId(s, id))
    requires Reaping(s, |s.jobs|, now, ids, s'.jobs) && s'.runs == s.runs && i < j < |s'.jobs|
    ensures Exclusive(s', i, j)
  {
    var n := |s.jobs|;
    if j < n {
      assert Exclusive(s, i, j);
      assert s'.jobs[i] == ReapedRow(s.jobs[i], true, now) && s'.jobs[j] == ReapedRow(s.jobs[j], true, now);
    } else {
      assert Replacement(s, n, now, ids, s'.jobs[j]);
      var k :| 0 <= k < n && Replaces(s, now, ids, s'.jobs[j], k);
      if i < n {
        assert s'.jobs[i] == ReapedRow(s.jobs[i], true, now);
        if i < k { assert Exclusive(s, i, k); } else if k < i { assert Exclusive(s, k, i); }
        assert ids[k] in ids && s.jobs[i] in s.jobs;
      } else {
        assert s'.jobs[i].run != s'.jobs[j].run;
      }
    }
  }

  lemma ReapKeeps(s: Tables, now: real, max: int, ids: seq<Id>, created: int)
    requires Inv(s, now) && |ids| == |s.jobs| && NoDuplicates(ids) && forall id :: id in ids ==> NewId(s, id)
    ensures Inv(Reap(s, max, now, ids, created), now)
  {
    var s', n := Reap(s, max, now, ids, created), |s.jobs|;
    ReapedIsReaping(s, n, max, now, ids, created);
    forall i, j | 0 <= i < j < |s'.jobs| ensures Exclusive(s', i, j) { ReapedExclusive(s, s', now, ids, i, j); }
    forall i | 0 <= i < |s'.jobs| ensures RowOk(s', s'.jobs[i]) && Undisturbed(s', now, s'.jobs[i]) {
      if i < n {
        assert RowOk(s, s.jobs[i]) && Undisturbed(s, now, s.jobs[i]);
        assert s'.jobs[i] == ReapedRow(s.jobs[i], true, now);
      } else {
        assert Replacement(s, n, now, ids, s'.jobs[i]);
        var k :| 0 <= k < n && Replaces(s, now, ids, s'.jobs[i], k);
        assert RowOk(s, s.jobs[k]);
      }
    }
  }

  lemma {:induction false} CountUpdate(jobs: seq<Job>, i: nat, job: Job, run: Id)
    requires i < |jobs| && job.run == jobs[i].run && job.kind == jobs[i].kind
    ensures RecoverCount(jobs[i := job], run) == RecoverCount(jobs, run)
  {
    var front := jobs[..|jobs| - 1];
    if i < |front| {
      CountUpdate(front, i, job, run);
      assert jobs[i := job][..|jobs| - 1] == front[i := job];
    } else {
      assert jobs[i := job][..|jobs| - 1] == front;
    }
  }

  function Larger(a: int, b: int): int { if a < b then b else a }

  lemma ReapRowCount(jobs: seq<Job>, i: nat, row: Job, max: int, id: Id, created: int, run: Id)
    requires i < |jobs| && row.run == jobs[i].run && row.kind == jobs[i].kind
    ensures RecoverCount(jobs, run)
            <= RecoverCount(ReapRow(jobs, i, row, max, id, created), run)
            <= Larger(RecoverCount(jobs, run), max)
  {
    CountUpdate(jobs, i, Interrupt(row), run);
    var failed, added := jobs[i := Interrupt(row)], NewJob(id, row.run, Recover, created);
    assert (failed + [added])[..|failed + [added]| - 1] == failed;
  }

  lemma UnreadRow(s: Tables, n: nat, max: int, now: real, ids: seq<Id>, created: int)
    requires Inv(s, now) && n < |s.jobs| == |ids| && NoDuplicates(ids)
    ensures Reaped(s.jobs, n, max, now, ids, created)[n] == s.jobs[n]
  {
    ReapedIsReaping(s, n, max, now, ids, created);
    assert Reaped(s.jobs, n, max, now, ids, created)[n] == ReapedRow(s.jobs[n], false, now);
  }

  /** The reaper never raises a run's count of recovery jobs above the limit. */
  lemma {:induction false} ReaperRespectsLimit(s: Tables, n: nat, max: int, now: real, ids: seq<Id>, created: int,
                                               run: Id)
    requires Inv(s, now) && n <= |s.jobs| == |ids| && NoDuplicates(ids)
    ensures RecoverCount(s.jobs, run)
            <= RecoverCount(Reaped(s.jobs, n, max, now, ids, created), run)
            <= Larger(RecoverCount(s.jobs, run), max)
  {
    if n > 0 {
      ReaperRespectsLimit(s, n - 1, max, now, ids, created, run);
      UnreadRow(s, n - 1, max, now, ids, created);
      ReapRowCount(Reaped(s.jobs, n - 1, max, now, ids, created), n - 1, s.jobs[n - 1], max, ids[n - 1], created, run);
    }
  }

  // ---- every history ---------------------------------------------------------------------------------

  lemma StepKeeps(s: Tables, now: real, op: Op, s': Tables)
    requires Inv(s, now) && Step(s, now, op, s')
    ensures Inv(s', now)
  {
    match op
    case RunOp(run, project) => RunKeeps(s, now, run, project);
    case EnqueueOp(run, kind, id, created) => EnqueueKeeps(s, now, run, kind, id, created);
    case ClaimOp(worker, seconds) =>
      if exists i: nat :: IsOldest(s, now, i) {
        var i: nat :| IsOldest(s, now, i) && s' == s.(jobs := s.jobs[i := Leased(s.jobs[i], worker, now + seconds)]);
        ClaimKeeps(s, now, worker, seconds, i);
      }
    case HeartbeatOp(id, worker, seconds) => RowsSettle(s, now, op, s');
    case FinishOp(id, worker, status, outcome) => RowsSettle(s, now, op, s');
    case CancelOp(run) => RowsSettle(s, now, op, s');
    case ReapOp(max, ids, created) => ReapKeeps(s, now, max, ids, created);
    case AcquireOp(project, holder, seconds) => AcquireKeeps(s, now, project, holder, seconds);
    case ReleaseOp(project, holder) => ReleaseKeeps(s, now, project, holder);
  }

  lemma RowsSettle(s: Tables, now: real, op: Op, s': Tables)
    requires Inv(s, now) && Step(s, now, op, s')
    requires op.HeartbeatOp? || op.FinishOp? || op.CancelOp?
    ensures Inv(s', now)
  {
    forall i | 0 <= i < |s'.jobs| ensures Settling(s.jobs[i], s'.jobs[i]) { assert RowOk(s, s.jobs[i]); }
    SettlingKeeps(s, now, s'.jobs);
    assert s' == s.(jobs := s'.jobs);
  }

  /** The clock may move on: leases only lapse. */
  lemma TimePasses(s: Tables, before: real, now: real)
    requires Inv(s, before) && before <= now
    ensures Inv(s, now)
  {
    forall i | 0 <= i < |s.jobs| ensures Undisturbed(s, now, s.jobs[i]) {
      assert Undisturbed(s, before, s.jobs[i]);
    }
  }

  lemma {:induction false} HistoryKeeps(states: seq<Tables>, steps: seq<Timed>, i: nat, now: real)
    requires History(states, steps) && i < |states|
    requires i > 0 ==> steps[i - 1].at <= now
    ensures Inv(states[i], now)
  {
    if i > 0 {
      var before := steps[i - 1].at;
      assert i > 1 ==> steps[i - 2].at <= steps[i - 1].at;
      HistoryKeeps(states, steps, i - 1, before);
      StepKeeps(states[i - 1], before, steps[i - 1].op, states[i]);
      TimePasses(states[i], before, now);
    }
  }

  // ---- the theorems -------------------------------------------------------------------------------------

  predicate RunningIn(s: Tables, i: nat, project: Id) {
    i < |s.jobs| && s.jobs[i].status.Running? && s.jobs[i].run in s.runs && s.runs[s.jobs[i].run] == project
  }

  predicate ActiveFor(s: Tables, i: nat, run: Id) {
    i < |s.jobs| && Active(s.jobs[i]) && s.jobs[i].run == run
  }

  lemma Distinct(s: Tables, now: real, a: nat, b: nat)
    requires Inv(s, now) && a < |s.jobs| && b < |s.jobs| && a != b
    ensures Active(s.jobs[a]) && Active(s.jobs[b]) ==> s.jobs[a].run != s.jobs[b].run
    ensures forall p :: !(RunningIn(s, a, p) && RunningIn(s, b, p))
  {
    if a < b { assert Exclusive(s, a, b); } else { assert Exclusive(s, b, a); }
  }

  /** At every moment of every history: one active job per run at most, one running job per
      project at most, and no running job in a project that somebody's lease still covers. */
  lemma Exclusion(states: seq<Tables>, steps: seq<Timed>, i: nat, now: real)
    requires History(states, steps) && i < |states|
    requires i > 0 ==> steps[i - 1].at <= now
    ensures var s := states[i];
      && (forall a: nat, b: nat, r :: ActiveFor(s, a, r) && ActiveFor(s, b, r) ==> a == b)
      && (forall a: nat, b: nat, p :: RunningIn(s, a, p) && RunningIn(s, b, p) ==> a == b)
      && (forall a: nat, p :: RunningIn(s, a, p) ==> p !in Held(s, now))
      && (forall a :: 0 <= a < |s.jobs| && s.jobs[a].status.Running? ==> s.jobs[a].run in s.runs)
  {
    HistoryKeeps(states, steps, i, now);
    var s := states[i];
    forall a: nat, b: nat, r | ActiveFor(s, a, r) && ActiveFor(s, b, r) ensures a == b {
      if a != b { Distinct(s, now, a, b); }
    }
    forall a: nat, b: nat, p | RunningIn(s, a, p) && RunningIn(s, b, p) ensures a == b {
      if a != b { Distinct(s, now, a, b); }
    }
    forall a: nat, p | RunningIn(s, a, p) ensures p !in Held(s, now) { assert Undisturbed(s, now, s.jobs[a]); }
    forall a | 0 <= a < |s.jobs| ensures RowOk(s, s.jobs[a]) {}
  }

  /** A row stays the same job for ever, and a terminal row never changes at all. */
  predicate RowKept(j: Job, j': Job) {
    && j'.id == j.id && j'.run == j.run && j'.kind == j.kind && j'.created == j.created
    && (Terminal(j.status) ==> j' == j)
  }

  lemma StepKeepsRow(s: Tables, now: real, op: Op, s': Tables, i: nat)
    requires Inv(s, now) && Step(s, now, op, s') && i < |s.jobs|
    ensures i < |s'.jobs| && RowKept(s.jobs[i], s'.jobs[i])
  {
    if op.ReapOp? {
      ReapedIsReaping(s, |s.jobs|, op.max, now, op.ids, op.created);
      assert s'.jobs[i] == ReapedRow(s.jobs[i], true, now);
    }
  }

  lemma {:induction false} RowsAreKept(states: seq<Tables>, steps: seq<Timed>, i: nat, j: nat, row: nat)
    requires History(states, steps) && i <= j < |states| && row < |states[i].jobs|
    ensures row < |states[j].jobs| && RowKept(states[i].jobs[row], states[j].jobs[row])
    decreases j
  {
    if i < j {
      RowsAreKept(states, steps, i, j - 1, row);
      assert j > 1 ==> steps[j - 2].at <= steps[j - 1].at;
      HistoryKeeps(states, steps, j - 1, steps[j - 1].at);
      StepKeepsRow(states[j - 1], steps[j - 1].at, steps[j - 1].op, states[j], row);
    }
  }

  /** Fencing: once a job has ended, or its lease was reaped, its worker can neither extend nor
      finish it, however the history goes on. */
  lemma EndedJobsAreFenced(states: seq<Tables>, steps: seq<Timed>, i: nat, j: nat, row: nat,
                           worker: Id, expires: real, status: JobStatus, outcome: Id)
    requires History(states, steps) && i <= j < |states| && row < |states[i].jobs|
    requires Terminal(states[i].jobs[row].status)
    ensures var id := states[i].jobs[row].id;
      && Heartbeat(states[j], id, worker, expires) == states[j]
      && Finish(states[j], id, worker, status, outcome) == states[j]
  {
    RowsAreKept(states, steps, i, j, row);
    var s, id := states[j], states[i].jobs[row].id;
    HistoryKeeps(states, steps, j, if j > 0 then steps[j - 1].at else 0.0);
    forall k | 0 <= k < |s.jobs| ensures !HoldsLease(s.jobs[k], id, worker) {
      if k < row { assert Exclusive(s, k, row); } else if row < k { assert Exclusive(s, row, k); }
    }
    assert Heartbeat(s, id, worker, expires).jobs == s.jobs;
    assert Finish(s, id, worker, status, outcome).jobs == s.jobs;
  }

  /** What the reaper did to an expired row: it is ended, so the fence above applies to it. */
  lemma ReapEnds(states: seq<Tables>, steps: seq<Timed>, i: nat, row: nat)
    requires History(states, steps) && i < |steps| && steps[i].op.ReapOp? && row < |states[i].jobs|
    requires Expired(states[i].jobs[row], steps[i].at)
    ensures row < |states[i + 1].jobs| && states[i + 1].jobs[row] == Interrupt(states[i].jobs[row])
  {
    var s, now, op := states[i], steps[i].at, steps[i].op;
    assert i > 0 ==> steps[i - 1].at <= steps[i].at;
    HistoryKeeps(states, steps, i, now);
    assert Step(s, now, op, states[i + 1]);
    ReapedIsReaping(s, |s.jobs|, op.max, now, op.ids, op.created);
    assert states[i + 1].jobs[row] == ReapedRow(s.jobs[row], true, now);
  }

  /** As long as heartbeats come in time, the reaper leaves a job alone. */
  lemma HeartbeatProtects(s: Tables, id: Id, worker: Id, seconds: real, now: real, later: real, row: nat,
                          max: int, ids: seq<Id>, created: int)
    requires Inv(s, now) && row < |s.jobs| && HoldsLease(s.jobs[row], id, worker)
    requires now <= later <= now + seconds
    requires |ids| == |s.jobs| && NoDuplicates(ids)
    ensures var s' := Heartbeat(s, id, worker, now + seconds);
      && row < |Reap(s', max, later, ids, created).jobs|
      && Reap(s', max, later, ids, created).jobs[row] == s.jobs[row].(leaseExpires := now + seconds)
  {
    var s' := Heartbeat(s, id, worker, now + seconds);
    forall i | 0 <= i < |s'.jobs| ensures Settling(s.jobs[i], s'.jobs[i]) { assert RowOk(s, s.jobs[i]); }
    SettlingKeeps(s, now, s'.jobs);
    TimePasses(s', now, later);
    ReapedIsReaping(s', |s'.jobs|, max, later, ids, created);
    assert Reap(s', max, later, ids, created).jobs[row] == ReapedRow(s'.jobs[row], true, later);
  }

  /** A project taken for work outside a job has no claimable job until the lease runs out. */
  lemma HeldProjectIsNotClaimed(s: Tables, project: Id, holder: Id, seconds: real, now: real, later: real, i: nat)
    requires CanAcquire(s, project, holder, now) && later <= now + seconds
    requires i < |s.jobs| && s.jobs[i].run in s.runs && s.runs[s.jobs[i].run] == project
    ensures !Claimable(Acquire(s, project, holder, seconds, now), later, i)
  {
    assert project in Held(Acquire(s, project, holder, seconds, now), later);
  }

  /** A job that was asked to stop is not brought back: once reaped, its run has no active work. */
  lemma CancelledIsNotRecovered(s: Tables, now: real, max: int, ids: seq<Id>, created: int, row: nat)
    requires Inv(s, now) && |ids| == |s.jobs| && NoDuplicates(ids)
    requires row < |s.jobs| && Expired(s.jobs[row], now) && s.jobs[row].cancelRequested
    ensures !HasActive(Reap(s, max, now, ids, created).jobs, s.jobs[row].run)
  {
    var n, jobs := |s.jobs|, Reap(s, max, now, ids, created).jobs;
    ReapedIsReaping(s, n, max, now, ids, created);
    forall i | 0 <= i < |jobs| && Active(jobs[i]) ensures jobs[i].run != s.jobs[row].run {
      if i < n {
        assert jobs[i] == ReapedRow(s.jobs[i], true, now);
        OtherRun(s, now, i, row);
      } else {
        assert Replacement(s, n, now, ids, jobs[i]);
        var k :| 0 <= k < n && Replaces(s, now, ids, jobs[i], k);
        OtherRun(s, now, k, row);
      }
    }
  }

  lemma OtherRun(s: Tables, now: real, a: nat, b: nat)
    requires Inv(s, now) && a < |s.jobs| && b < |s.jobs| && Active(s.jobs[a]) && Active(s.jobs[b])
    ensures a != b ==> s.jobs[a].run != s.jobs[b].run
  {
    if a != b { Distinct(s, now, a, b); }
  }
}
