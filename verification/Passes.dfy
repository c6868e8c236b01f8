/** The loops of the control plane, each proved equal to the function the operations use. */
module Passes {
  import opened Base
  import opened RunModel
  import opened KernelOps
  import opened Lineage
  import opened KernelInvariant
  import opened R = Replanning
  import Kernel

  /** The iteration order of the task dictionary. */
  ghost predicate Enumerates(order: seq<Id>, keys: set<Id>) {
    NoDuplicates(order) && Elements(order) == keys
  }

  // ---- readiness does not see what a refresh changes ----------------------------------------------

  /** The runs differ in the status and blocker of tasks that are accepted in neither. */
  ghost predicate SameAcceptance(r: Run, r': Run) {
    && r' == r.(tasks := r'.tasks) && r'.tasks.Keys == r.tasks.Keys
    && (forall k :: k in r.tasks ==> SameBody(r.tasks[k], r'.tasks[k]))
    && (forall k :: k in r.tasks ==> (r.tasks[k].status.Accepted? <==> r'.tasks[k].status.Accepted?))
  }

  lemma AcceptanceResolve(r: Run, r': Run, t: Task, t': Task)
    requires SameAcceptance(r, r') && SameBody(t, t')
    ensures forall n :: Resolve(r, t, n) == Resolve(r', t', n)
    ensures InputSet(r, t) == InputSet(r', t')
  {
    forall n ensures Resolve(r, t, n) == Resolve(r', t', n) {
      if n in r.tasks { assert SameBody(r.tasks[n], r'.tasks[n]); }
    }
  }

  lemma {:induction false} AcceptanceCanonical(r: Run, r': Run, a: Id, d: nat)
    requires SameAcceptance(r, r') && CanonicalWithin(r, a, d)
    ensures CanonicalWithin(r', a, d)
    decreases d
  {
    var k := r.artifacts[a].taskId;
    var t, t' := r.tasks[k], r'.tasks[k];
    assert SameBody(t, t');
    AcceptanceResolve(r, r', t, t');
    forall n | n in Names(t') ensures NameWithin(r', t', n, d - 1) {
      assert NameWithin(r, t, n, d - 1);
      if Resolve(r, t, n).ToArtifact? { AcceptanceCanonical(r, r', Resolve(r, t, n).id, d - 1); }
    }
  }

  lemma AcceptanceReady(r: Run, r': Run, t: Task, t': Task)
    requires SameAcceptance(r, r') && SameBody(t, t')
    ensures IsReady(r, t) ==> IsReady(r', t')
  {
    AcceptanceResolve(r, r', t, t');
    if IsReady(r, t) {
      forall n | n in Names(t') ensures NameCanonical(r', t', n) {
        assert NameCanonical(r, t, n);
        if Resolve(r, t, n).ToArtifact? {
          var d: nat :| HasDepth(r, Resolve(r, t, n).id, d);
          AcceptanceCanonical(r, r', Resolve(r, t, n).id, d);
          assert HasDepth(r', Resolve(r, t, n).id, d);
        }
      }
      forall g | g in t'.gates ensures GateOpen(r', g) { assert GateOpen(r, g); }
    }
  }

  lemma ReadinessUnmoved(r: Run, r': Run, t: Task)
    requires SameAcceptance(r, r')
    ensures IsReady(r, t) <==> IsReady(r', t)
  {
    AcceptanceReady(r, r', t, t);
    assert SameAcceptance(r', r) by {
      forall k | k in r.tasks ensures SameBody(r'.tasks[k], r.tasks[k]) {
        assert SameBody(r.tasks[k], r'.tasks[k]);
      }
    }
    AcceptanceReady(r', r, t, t);
  }

  // ---- _refresh -----------------------------------------------------------------------------------

  /** One turn of the loop: the task is judged in the run as it stands by now. */
  method RefreshOne(ghost start: Run, run: Run, t: Task) returns (t': Task)
    requires SameAcceptance(start, run)
    ensures t' == RefreshTask(start, t)
  {
    ReadinessUnmoved(start, run, t);
    var ready := Lineage.Ready(run, t);
    if t.status.Planned? && ready {
      t' := t.(status := Status.Ready);
    } else if t.status.Blocked? && Refreshable(t) && ready {
      t' := t.(blocker := None, status := Status.Ready);
    } else if t.status.Ready? && !ready {
      t' := t.(status := Blocked, blocker := Some(ReadinessLapsed));
    } else {
      t' := t;
    }
  }

  /** The run with the tasks in `done` refreshed as they would be in the start state. */
  ghost function PartlyRefreshed(start: Run, done: set<Id>): Run {
    start.(tasks := map k | k in start.tasks ::
             if k in done then RefreshTask(start, start.tasks[k]) else start.tasks[k])
  }

  lemma PartlyRefreshedStep(start: Run, done: set<Id>, k: Id)
    requires k in start.tasks && k !in done
    ensures var run := PartlyRefreshed(start, done);
      && SameAcceptance(start, run) && run.tasks[k] == start.tasks[k]
      && Put(run, k, RefreshTask(start, start.tasks[k])) == PartlyRefreshed(start, done + {k})
  {
    var run := PartlyRefreshed(start, done);
    assert Put(run, k, RefreshTask(start, start.tasks[k])).tasks == PartlyRefreshed(start, done + {k}).tasks;
  }

  lemma PartlyRefreshedEnds(start: Run)
    ensures PartlyRefreshed(start, {}) == start
    ensures PartlyRefreshed(start, start.tasks.Keys) == Refresh(start)
  {
    assert PartlyRefreshed(start, {}).tasks == start.tasks;
    assert PartlyRefreshed(start, start.tasks.Keys).tasks == Refresh(start).tasks;
  }

  lemma NextOfOrder(order: seq<Id>, i: nat)
    requires NoDuplicates(order) && i < |order|
    ensures order[i] !in Elements(order[..i])
    ensures Elements(order[..i + 1]) == Elements(order[..i]) + {order[i]}
  {
    assert order[..i + 1] == order[..i] + [order[i]];
  }

  /** `_refresh`: one pass in place, in whatever order the tasks come, on any run at all. */
  method RefreshPass(start: Run, order: seq<Id>) returns (run: Run)
    requires Enumerates(order, start.tasks.Keys)
    ensures run == Refresh(start)
  {
    run := start;
    PartlyRefreshedEnds(start);
    assert Elements(order[..0]) == {};
    for i := 0 to |order|
      invariant run == PartlyRefreshed(start, Elements(order[..i]))
    {
      var k := order[i];
      assert k in Elements(order);
      NextOfOrder(order, i);
      PartlyRefreshedStep(start, Elements(order[..i]), k);
      var t := RefreshOne(start, run, run.tasks[k]);
      run := Put(run, k, t);
    }
    assert order[..|order|] == order;
  }

  // ---- add_tasks -----------------------------------------------------------------------------------

  method AddPass(start: Run, startOrder: seq<Id>, add: seq<Task>) returns (r: Outcome, order: seq<Id>)
    requires Enumerates(startOrder, start.tasks.Keys)
    ensures r == AddEach(start, add)
    ensures r.Ok? ==> Enumerates(order, r.value.tasks.Keys)
  {
    var run := start;
    order := startOrder;
    for i := 0 to |add|
      invariant AddEach(start, add) == AddEach(run, add[i..])
      invariant Enumerates(order, run.tasks.Keys)
    {
      var t := add[i];
      assert add[i..][0] == t && add[i..][1..] == add[i + 1..];
      if !IsFresh(run, t) { return Err(NotFresh), order; }
      if t.id in run.inputs { return Err(CollidesWithInput), order; }
      if t.id in run.artifacts { return Err(CollidesWithArtifact), order; }
      if !ChecksFit(t, t.capability) { return Err(ExecutableCheckMissing), order; }
      assert t.id !in Elements(order);
      run := Put(run, t.id, t);
      order := order + [t.id];
    }
    return Ok(run), order;
  }

  // ---- resume --------------------------------------------------------------------------------------

  ghost function PartlyResumed(start: Run, done: set<Id>): map<Id, Task> {
    map k | k in start.tasks :: if k in done then ResumeTask(start.tasks[k]) else start.tasks[k]
  }

  /** One new record for each interrupted task among those done. */
  ghost predicate RecordsFor(start: Run, fs: seq<Failure>, done: set<Id>, drawn: set<Id>) {
    && (forall f :: f in fs ==> Kernel.InterruptionRecord(start, f) && f.taskId in done && f.id in drawn)
    && (forall k :: k in done && k in start.tasks && Kernel.Interruptible(start.tasks[k]) ==>
          exists f :: f in fs && f.taskId == k)
    && (forall j, l :: 0 <= j < l < |fs| ==> fs[j].id != fs[l].id && fs[j].taskId != fs[l].taskId)
  }

  lemma OneMoreRecord(start: Run, fs: seq<Failure>, done: set<Id>, drawn: set<Id>, f: Failure)
    requires RecordsFor(start, fs, done, drawn)
    requires Kernel.InterruptionRecord(start, f) && f.taskId !in done && f.id !in drawn
    ensures RecordsFor(start, fs + [f], done + {f.taskId}, drawn + {f.id})
  {
    var fs' := fs + [f];
    assert f in fs' && forall x :: x in fs ==> x in fs';
    forall j, l | 0 <= j < l < |fs'| ensures fs'[j].id != fs'[l].id && fs'[j].taskId != fs'[l].taskId {
      if l == |fs| { assert fs[j] in fs; }
    }
  }

  lemma PartlyResumedStep(start: Run, done: set<Id>, k: Id)
    requires k in start.tasks && k !in done
    ensures PartlyResumed(start, done)[k] == start.tasks[k]
    ensures PartlyResumed(start, done)[k := ResumeTask(start.tasks[k])] == PartlyResumed(start, done + {k})
  {}

  lemma PartlyResumedEnds(start: Run, fs: seq<Failure>)
    ensures PartlyResumed(start, {}) == start.tasks
    ensures PartlyResumed(start, start.tasks.Keys) == Resume(start, fs).value.tasks
  {}

  lemma NothingToRecord(start: Run, fs: seq<Failure>, done: set<Id>, drawn: set<Id>, k: Id, id: Id)
    requires RecordsFor(start, fs, done, drawn)
    requires k in start.tasks && !Kernel.Interruptible(start.tasks[k])
    ensures RecordsFor(start, fs, done + {k}, drawn + {id})
  {}

  /** One turn of the loop over the tasks. */
  method ResumeOne(t: Task, id: Id) returns (t': Task, failure: Option<Failure>)
    ensures t' == ResumeTask(t)
    ensures failure == if Kernel.Interruptible(t) then Some(Failure(id, t.id, Timeout, INTERRUPTED)) else None
  {
    t', failure := t, None;
    if t.status.Delegated? || t.status.Running? {
      t' := t.(status := Failed, blocker := Some(FreeText(INTERRUPTED)));
      failure := Some(Failure(id, t.id, Timeout, INTERRUPTED));
    }
  }

  /** Fails every interrupted task, drawing a new failure id for each from `ids`. */
  method ResumePass(start: Run, order: seq<Id>, ids: seq<Id>) returns (run: Run, interrupted: seq<Failure>)
    requires Enumerates(order, start.tasks.Keys) && forall k :: k in start.tasks ==> start.tasks[k].id == k
    requires |ids| == |order| && NoDuplicates(ids) && forall id :: id in ids ==> Kernel.Unused(start, id)
    ensures Kernel.InterruptionRecords(start, interrupted)
    ensures Resume(start, interrupted) == Ok(run)
  {
    var tasks := start.tasks;
    interrupted := [];
    PartlyResumedEnds(start, []);
    assert Elements(order[..0]) == {};
    for i := 0 to |order|
      invariant tasks == PartlyResumed(start, Elements(order[..i]))
      invariant RecordsFor(start, interrupted, Elements(order[..i]), Elements(ids[..i]))
    {
      var k := order[i];
      assert k in Elements(order) && ids[i] in ids;
      NextOfOrder(order, i);
      NextOfOrder(ids, i);
      PartlyResumedStep(start, Elements(order[..i]), k);
      var t, failure := ResumeOne(tasks[k], ids[i]);
      if failure.Some? {
        OneMoreRecord(start, interrupted, Elements(order[..i]), Elements(ids[..i]), failure.value);
        interrupted := interrupted + [failure.value];
      } else {
        NothingToRecord(start, interrupted, Elements(order[..i]), Elements(ids[..i]), k, ids[i]);
      }
      tasks := tasks[k := t];
    }
    assert order[..|order|] == order;
    PartlyResumedEnds(start, interrupted);
    run := start.(tasks := tasks, failures := start.failures + interrupted);
  }

  // ---- approvals ---------------------------------------------------------------------------------

  method AnyGate(gates: seq<Gate>, request: Id) returns (found: bool)
    ensures found <==> exists g :: g in gates && g.request == request
  {
    for i := 0 to |gates|
      invariant forall j :: 0 <= j < i ==> gates[j].request != request
    {
      if gates[i].request == request { return true; }
    }
    return false;
  }

  /** One turn of the loop of `decide_approval`. */
  method DecideOne(t: Task, id: Id, approved: bool) returns (t': Task)
    ensures t' == DecideInTask(t, id, approved)
  {
    t' := t;
    var bound := AnyGate(t.gates, id);
    if bound {
      if approved && t.status.Blocked? && t.blocker == Some(ApprovalPendingBlocker) {
        t' := t.(blocker := Some(MissingOrSatisfied(t)));
      } else if !approved {
        t' := t.(blocker := Some(ApprovalRejectedBlocker));
      }
    }
  }

  ghost function PartlyDecided(start: map<Id, Task>, done: set<Id>, id: Id, approved: bool): map<Id, Task> {
    map k | k in start :: if k in done then DecideInTask(start[k], id, approved) else start[k]
  }

  lemma PartlyDecidedStep(start: map<Id, Task>, done: set<Id>, k: Id, id: Id, approved: bool)
    requires k in start && k !in done
    ensures var before := PartlyDecided(start, done, id, approved);
      before[k] == start[k]
      && before[k := DecideInTask(start[k], id, approved)] == PartlyDecided(start, done + {k}, id, approved)
  {}

  /** Rewrites the blockers of the tasks bound to a decided approval. */
  method DecidePass(start: map<Id, Task>, order: seq<Id>, id: Id, approved: bool) returns (tasks: map<Id, Task>)
    requires Enumerates(order, start.Keys)
    ensures tasks == map k | k in start :: DecideInTask(start[k], id, approved)
  {
    tasks := start;
    assert Elements(order[..0]) == {};
    for i := 0 to |order|
      invariant tasks == PartlyDecided(start, Elements(order[..i]), id, approved)
    {
      var k := order[i];
      assert k in Elements(order);
      NextOfOrder(order, i);
      PartlyDecidedStep(start, Elements(order[..i]), k, id, approved);
      var t := DecideOne(tasks[k], id, approved);
      tasks := tasks[k := t];
    }
    assert order[..|order|] == order;
  }

  /** Replaces every gate on the prior approval; a READY task that had one is blocked. */
  method SupersedeOne(t: Task, prior: Id, successor: Gate) returns (t': Task)
    requires successor.request != prior
    ensures t' == SupersedeInTask(t, prior, successor)
  {
    t' := t;
    ghost var touched := false;
    for i := 0 to |t.gates|
      invariant touched <==> exists j :: 0 <= j < i && t.gates[j].request == prior
      invariant |t'.gates| == |t.gates|
      invariant forall j :: 0 <= j < |t.gates| ==>
        t'.gates[j] == if j < i && t.gates[j].request == prior then successor else t.gates[j]
      invariant t' == if touched
        then t.(gates := t'.gates, blocker := Some(ApprovalPendingBlocker),
                status := if t.status.Ready? then Blocked else t.status)
        else t
    {
      if t'.gates[i].request == prior {
        t' := t'.(gates := t'.gates[i := successor]);
        if t'.status.Ready? { t' := t'.(status := Blocked); }
        t' := t'.(blocker := Some(ApprovalPendingBlocker));
        touched := true;
      }
    }
    if touched { assert t'.gates == ReplaceGate(t.gates, prior, successor); }
    assert touched <==> HasGate(t, prior);
  }

  ghost function PartlySuperseded(start: map<Id, Task>, done: set<Id>, prior: Id, successor: Gate): map<Id, Task> {
    map k | k in start :: if k in done then SupersedeInTask(start[k], prior, successor) else start[k]
  }

  lemma PartlySupersededStep(start: map<Id, Task>, done: set<Id>, k: Id, prior: Id, successor: Gate)
    requires k in start && k !in done
    ensures var before := PartlySuperseded(start, done, prior, successor);
      before[k] == start[k]
      && before[k := SupersedeInTask(start[k], prior, successor)]
         == PartlySuperseded(start, done + {k}, prior, successor)
  {}

  /** Moves every task's gates from a superseded approval to its replacement. */
  method SupersedePass(start: map<Id, Task>, order: seq<Id>, prior: Id, successor: Gate) returns (tasks: map<Id, Task>)
    requires Enumerates(order, start.Keys) && successor.request != prior
    ensures tasks == map k | k in start :: SupersedeInTask(start[k], prior, successor)
  {
    tasks := start;
    assert Elements(order[..0]) == {};
    for i := 0 to |order|
      invariant tasks == PartlySuperseded(start, Elements(order[..i]), prior, successor)
    {
      var k := order[i];
      assert k in Elements(order);
      NextOfOrder(order, i);
      PartlySupersededStep(start, Elements(order[..i]), k, prior, successor);
      var t := SupersedeOne(tasks[k], prior, successor);
      tasks := tasks[k := t];
    }
    assert order[..|order|] == order;
  }

  // ---- apply_replan --------------------------------------------------------------------------------

  lemma {:induction false} RemoveFirstIsWithout(s: seq<Id>, x: Id)
    requires NoDuplicates(s)
    ensures RemoveFirst(s, x) == Without(s, {x})
  {
    if s != [] {
      if s[0] == x {
        NothingGone(s[1..], {x});
      } else {
        RemoveFirstIsWithout(s[1..], x);
      }
    }
  }

  lemma {:induction false} WithoutTwice(s: seq<Id>, a: set<Id>, b: set<Id>)
    ensures Without(Without(s, a), b) == Without(s, a + b)
  {
    if s != [] { WithoutTwice(s[1..], a, b); }
  }

  /** The artifacts and the accepted list once the artifacts in `gone` are superseded. */
  ghost predicate Superseding(start: Run, run: Run, gone: set<Id>) {
    && run.accepted == Without(start.accepted, gone)
    && run.artifacts == map a | a in start.artifacts ::
         if a in gone then start.artifacts[a].(status := ArtifactStatus.Superseded) else start.artifacts[a]
  }

  lemma DroppedFromAccepted(accepted: seq<Id>, a: Id)
    requires NoDuplicates(accepted)
    ensures Without(accepted, {a}) == if a in accepted then RemoveFirst(accepted, a) else accepted
  {
    if a in accepted { RemoveFirstIsWithout(accepted, a); } else { NothingGone(accepted, {a}); }
  }

  lemma SupersededOneMore(start: Run, run: Run, gone: set<Id>, a: Id)
    requires Superseding(start, run, gone) && a in run.artifacts
    ensures Superseding(start,
      run.(artifacts := run.artifacts[a := run.artifacts[a].(status := ArtifactStatus.Superseded)],
           accepted := Without(run.accepted, {a})), gone + {a})
  {
    WithoutTwice(start.accepted, gone, {a});
  }

  /** Supersedes one task's artifacts, dropping each from the accepted list if it is there. */
  method SupersedeArtifacts(ghost start: Run, entry: Run, ghost gone: set<Id>, ids: seq<Id>) returns (run: Run)
    requires NoDuplicates(start.accepted) && Superseding(start, entry, gone)
    requires Elements(ids) <= entry.artifacts.Keys
    ensures Superseding(start, run, gone + Elements(ids))
    ensures run == entry.(artifacts := run.artifacts, accepted := run.accepted)
  {
    run := entry;
    ghost var dropped := gone;
    for i := 0 to |ids|
      invariant dropped == gone + Elements(ids[..i]) && Superseding(start, run, dropped)
      invariant run == entry.(artifacts := run.artifacts, accepted := run.accepted)
      invariant run.artifacts.Keys == entry.artifacts.Keys
    {
      var a := ids[i];
      assert a in Elements(ids) && Elements(ids[..i + 1]) == Elements(ids[..i]) + {a};
      SupersededOneMore(start, run, dropped, a);
      WithoutDistinct(start.accepted, dropped);
      DroppedFromAccepted(run.accepted, a);
      run := run.(artifacts := run.artifacts[a := run.artifacts[a].(status := ArtifactStatus.Superseded)]);
      if a in run.accepted { run := run.(accepted := RemoveFirst(run.accepted, a)); }
      dropped := dropped + {a};
    }
    assert ids[..|ids|] == ids;
  }

  lemma ArtifactsOfOneMore(run: Run, done: set<Id>, k: Id)
    requires k in run.tasks
    ensures ArtifactsOf(run, done + {k}) == ArtifactsOf(run, done) + Elements(run.tasks[k].artifactIds)
  {
    forall a ensures a in ArtifactsOf(run, done + {k}) <==>
                     a in ArtifactsOf(run, done) + Elements(run.tasks[k].artifactIds)
    {
      if a in run.tasks[k].artifactIds { assert k in done + {k}; }
    }
  }

  lemma Inhabited(s: set<Id>)
    requires s != {}
    ensures exists x :: x in s
  {
    assert (forall x :: x !in s) ==> s == {};
  }

  /** The tasks once those in `done` are reset. */
  function PartlyReset(start: Run, p: Proposal, done: set<Id>): map<Id, Task> {
    map k | k in start.tasks :: if k in done then InvalidatedTask(p, k, start.tasks[k]) else start.tasks[k]
  }

  lemma ResetOneMore(start: Run, p: Proposal, done: set<Id>, key: Id)
    requires key in start.tasks && key !in done
    ensures var tasks := PartlyReset(start, p, done);
      tasks[key] == start.tasks[key]
      && tasks[key := InvalidatedTask(p, key, start.tasks[key])] == PartlyReset(start, p, done + {key})
  {}

  lemma NothingSuperseded(start: Run, p: Proposal)
    requires NoDuplicates(start.accepted)
    ensures Superseding(start, start, ArtifactsOf(start, {})) && PartlyReset(start, p, {}) == start.tasks
  {
    NothingGone(start.accepted, ArtifactsOf(start, {}));
  }

  /** Invalidates the affected tasks one by one, in no particular order. */
  method InvalidatePass(start: Run, p: Proposal, affected: set<Id>) returns (run: Run)
    requires NoDuplicates(start.accepted) && affected <= start.tasks.Keys
    requires forall k, a :: k in start.tasks && a in start.tasks[k].artifactIds ==> a in start.artifacts
    ensures run == Invalidate(start, p, affected)
  {
    run := start;
    var pending := affected;
    ghost var done := {};
    NothingSuperseded(start, p);
    while pending != {}
      invariant done <= affected && pending == affected - done
      invariant run == start.(tasks := PartlyReset(start, p, done), artifacts := run.artifacts,
                              accepted := run.accepted)
      invariant Superseding(start, run, ArtifactsOf(start, done))
    {
      Inhabited(pending);
      var key :| key in pending;
      var t := run.tasks[key];
      ResetOneMore(start, p, done, key);
      ArtifactsOfOneMore(start, done, key);
      run := SupersedeArtifacts(start, run, ArtifactsOf(start, done), t.artifactIds);
      run := Put(run, key, InvalidatedTask(p, key, t));
      pending := pending - {key};
      done := done + {key};
    }
    assert done == affected;
  }

  /** The tasks once all but the pending ones are rewired. */
  ghost function PartlyRewired(start: Run, p: Proposal, pending: set<Id>): map<Id, Task> {
    map k | k in start.tasks :: if k in pending then start.tasks[k] else Rewired(start, p, k, start.tasks[k])
  }

  lemma RewiredOneMore(start: Run, p: Proposal, pending: set<Id>, key: Id)
    requires key in pending && key in start.tasks && key in p.deps
    ensures var tasks := PartlyRewired(start, p, pending);
      tasks[key := tasks[key].(deps := p.deps[key])] == PartlyRewired(start, p, pending - {key})
  {}

  lemma RewiringEnds(start: Run, p: Proposal)
    ensures PartlyRewired(start, p, p.deps.Keys) == start.tasks
    ensures PartlyRewired(start, p, {}) == map k | k in start.tasks :: Rewired(start, p, k, start.tasks[k])
  {}

  /** Rewires the tasks the proposal names. */
  method RewirePass(start: Run, p: Proposal) returns (run: Run)
    requires p.deps.Keys <= start.tasks.Keys
    ensures run == start.(tasks := map k | k in start.tasks :: Rewired(start, p, k, start.tasks[k]))
  {
    run := start;
    var pending := p.deps.Keys;
    RewiringEnds(start, p);
    while pending != {}
      invariant pending <= p.deps.Keys && run == start.(tasks := PartlyRewired(start, p, pending))
    {
      Inhabited(pending);
      var key :| key in pending;
      RewiredOneMore(start, p, pending, key);
      run := Put(run, key, run.tasks[key].(deps := p.deps[key]));
      pending := pending - {key};
    }
  }

  /** Adds the proposal's tasks. */
  method InsertPass(start: Run, add: seq<Task>) returns (run: Run)
    ensures run == start.(tasks := AddAll(start.tasks, add))
  {
    run := start;
    for i := 0 to |add|
      invariant run == start.(tasks := run.tasks)
      invariant AddAll(start.tasks, add) == AddAll(run.tasks, add[i..])
    {
      var t := add[i];
      assert add[i..][0] == t && add[i..][1..] == add[i + 1..];
      run := Put(run, t.id, t);
    }
  }
}
