/** Applying a replan: what it leaves alone, and that it keeps the invariant. */
module ReplanSteps {
  import opened Base
  import opened RunModel
  import opened KernelOps
  import opened Lineage
  import opened KernelInvariant
  import opened Kernel
  import opened R = Replanning

  // ---- list facts --------------------------------------------------------------------------------

  lemma {:induction false} AddAllLookup(tasks: map<Id, Task>, add: seq<Task>, k: Id)
    requires k in AddAll(tasks, add)
    ensures (forall t :: t in add ==> t.id != k) ==> k in tasks && AddAll(tasks, add)[k] == tasks[k]
    ensures (exists t :: t in add && t.id == k) ==>
      exists t :: t in add && t.id == k && AddAll(tasks, add)[k] == t
    decreases |add|
  {
    if add != [] {
      AddAllLookup(tasks[add[0].id := add[0]], add[1..], k);
      if (exists t :: t in add && t.id == k) && (forall t :: t in add[1..] ==> t.id != k) {
        assert add[0] in add && AddAll(tasks, add)[k] == add[0];
      }
    }
  }

  lemma {:induction false} WithoutPrefix(s: seq<Id>, gone: set<Id>, i: nat) returns (j: nat)
    requires i < |Without(s, gone)|
    ensures j < |s| && s[j] == Without(s, gone)[i] && Without(s, gone)[..i] == Without(s[..j], gone)
  {
    if s[0] in gone {
      j := WithoutPrefix(s[1..], gone, i);
      assert s[..j + 1][1..] == s[1..][..j];
      j := j + 1;
    } else if i == 0 {
      j := 0;
    } else {
      j := WithoutPrefix(s[1..], gone, i - 1);
      assert s[..j + 1][1..] == s[1..][..j];
      assert Without(s, gone)[..i] == [s[0]] + Without(s[1..], gone)[..i - 1];
      j := j + 1;
    }
  }

  // ---- the outcome of an application ---------------------------------------------------------------

  /** A reset task: no assignment, no standing, its artifacts and counters kept. */
  ghost predicate Reset(t: Task, t': Task) {
    && t'.id == t.id && t'.artifactIds == t.artifactIds && t'.attempts == t.attempts
    && t'.maxAttempts == t.maxAttempts && t'.history == t.history
    && (t'.status.Cancelled? ==> t'.attemptBaseline == t.attemptBaseline)
    && (!t'.status.Cancelled? ==> t'.status.Planned? && t'.attemptBaseline == t.attempts)
  }

  ghost predicate Introduced(r: Run, k: Id, t: Task) {
    IsFresh(r, t) && t.id == k && k !in r.inputs && k !in r.artifacts
  }

  ghost predicate ReplanOutcome(r: Run, r': Run, s: set<Id>) {
    && r'.id == r.id && r'.inputs == r.inputs && r'.approvals == r.approvals && r'.decisions == r.decisions
    && r'.maxReplans == r.maxReplans && r'.revision == r.revision + 1 <= r.maxReplans
    && s <= r.tasks.Keys && ClosedUnderConsumers(r, s)
    && r'.accepted == Without(r.accepted, ArtifactsOf(r, s))
    && r'.artifacts.Keys == r.artifacts.Keys
    && (forall a :: a in r.artifacts ==> ArtifactOutcome(r, r', s, a))
    && (forall k :: k in r.tasks ==> k in r'.tasks && TaskOutcome(r, r', s, k))
    && (forall k :: k in r'.tasks && k !in r.tasks ==> Introduced(r, k, r'.tasks[k]))
  }

  ghost predicate ArtifactOutcome(r: Run, r': Run, s: set<Id>, a: Id)
    requires a in r.artifacts && a in r'.artifacts
  {
    var x := r.artifacts[a];
    r'.artifacts[a] == if a in ArtifactsOf(r, s) then x.(status := Superseded) else x
  }

  ghost predicate TaskOutcome(r: Run, r': Run, s: set<Id>, k: Id) requires k in r.tasks && k in r'.tasks {
    if k in s then Reset(r.tasks[k], r'.tasks[k]) else r'.tasks[k] == r.tasks[k]
  }

  /** One task after invalidation and rewiring. */
  function Rewritten(r: Run, p: Proposal, s: set<Id>, k: Id): Task requires k in r.tasks {
    Rewired(r, p, k, if k in s then InvalidatedTask(p, k, r.tasks[k]) else r.tasks[k])
  }

  lemma RewrittenOutcome(r: Run, p: Proposal, s: set<Id>, k: Id)
    requires k in r.tasks && (k in p.deps ==> k in s)
    ensures if k in s then Reset(r.tasks[k], Rewritten(r, p, s, k)) else Rewritten(r, p, s, k) == r.tasks[k]
  {}

  lemma ReplannedTask(r: Run, p: Proposal, s: set<Id>, k: Id)
    requires StructureOk(r, p) && k in r.tasks
    ensures k in Replanned(r, p, s).tasks && Replanned(r, p, s).tasks[k] == Rewritten(r, p, s, k)
  {
    var cleared := Invalidate(r, p, s);
    forall t | t in p.add ensures t.id != k { assert AddIsSound(r, t); }
    AddAllLookup(map j | j in cleared.tasks :: Rewired(r, p, j, cleared.tasks[j]), p.add, k);
  }

  lemma AddedTask(r: Run, p: Proposal, s: set<Id>, k: Id)
    requires StructureOk(r, p) && k in Replanned(r, p, s).tasks && k !in r.tasks
    ensures Introduced(r, k, Replanned(r, p, s).tasks[k])
  {
    var cleared := Invalidate(r, p, s);
    AddAllLookup(map j | j in cleared.tasks :: Rewired(r, p, j, cleared.tasks[j]), p.add, k);
    var t :| t in p.add && t.id == k && Replanned(r, p, s).tasks[k] == t;
    assert AddIsSound(r, t);
  }

  /** `apply_replan` leaves every task and artifact outside the affected set unchanged, up to
      the final refresh. */
  lemma ReplannedOutcome(r: Run, p: Proposal)
    requires StructureOk(r, p)
    ensures ReplanOutcome(r, Replanned(r, p, Affected(r, p)).(revision := r.revision + 1), Affected(r, p))
  {
    var s := Affected(r, p);
    var r' := Replanned(r, p, s).(revision := r.revision + 1);
    AffectedIsLeast(r, p);
    forall k | k in r.tasks ensures k in r'.tasks && TaskOutcome(r, r', s, k) {
      assert k in p.deps ==> k in Seeds(r, p);
      ReplannedTask(r, p, s, k);
      RewrittenOutcome(r, p, s, k);
    }
    forall k | k in r'.tasks && k !in r.tasks ensures Introduced(r, k, r'.tasks[k]) { AddedTask(r, p, s, k); }
  }

  // ---- what an unaffected task sees ------------------------------------------------------------------

  lemma GoneArtifacts(mgr: Id, r: Run, s: set<Id>, a: Id)
    requires Core(mgr, r) && s <= r.tasks.Keys && a in r.artifacts
    ensures a in ArtifactsOf(r, s) <==> r.artifacts[a].taskId in s
  {
    assert ArtifactHome(r, a);
    if a in ArtifactsOf(r, s) {
      var k :| k in s && k in r.tasks && a in r.tasks[k].artifactIds;
      assert TaskHome(r, k);
    }
  }

  /** A settled name of an unaffected task resolves as before, to an artifact that stays. */
  lemma UnaffectedName(mgr: Id, r: Run, r': Run, s: set<Id>, k: Id, n: Id)
    requires Core(mgr, r) && ReplanOutcome(r, r', s)
    requires k in r.tasks && k !in s && n in Names(r.tasks[k]) && Settles(r, r.tasks[k], n)
    ensures Resolve(r', r'.tasks[k], n) == Resolve(r, r.tasks[k], n)
    ensures Resolve(r, r.tasks[k], n).ToArtifact? ==>
      Resolve(r, r.tasks[k], n).id !in ArtifactsOf(r, s)
    ensures Settles(r', r'.tasks[k], n)
  {
    var t := r.tasks[k];
    assert TaskOutcome(r, r', s, k);
    assert !ConsumesFrom(r, s, k);
    assert n !in s + ArtifactsOf(r, s);
    assert n in r'.tasks && n !in r.tasks ==> Introduced(r, n, r'.tasks[n]);
    if n in r.tasks {
      assert TaskOutcome(r, r', s, n) && TaskHome(r, n);
      var x := Last(r.tasks[n].artifactIds);
      assert x in r.tasks[n].artifactIds;
      GoneArtifacts(mgr, r, s, x);
    }
  }

  lemma UnaffectedInputs(mgr: Id, r: Run, r': Run, s: set<Id>, k: Id)
    requires Core(mgr, r) && ReplanOutcome(r, r', s)
    requires k in r.tasks && k !in s && Settled(r, r.tasks[k])
    ensures Settled(r', r'.tasks[k]) && r'.tasks[k] == r.tasks[k]
    ensures InputSet(r', r.tasks[k]) == InputSet(r, r.tasks[k])
    ensures forall n :: n in Names(r.tasks[k]) ==>
      Resolve(r', r.tasks[k], n) == Resolve(r, r.tasks[k], n)
  {
    assert TaskOutcome(r, r', s, k);
    forall n | n in Names(r.tasks[k])
      ensures Resolve(r', r'.tasks[k], n) == Resolve(r, r.tasks[k], n) && Settles(r', r'.tasks[k], n)
    {
      assert Settles(r, r.tasks[k], n);
      UnaffectedName(mgr, r, r', s, k, n);
    }
  }

  // ---- the invariant -----------------------------------------------------------------------------------

  lemma ReplanEntry(mgr: Id, r: Run, r': Run, s: set<Id>, i: nat)
    requires Core(mgr, r) && ReplanOutcome(r, r', s) && i < |r'.accepted|
    ensures Sourced(r', r'.accepted[i], r'.accepted[..i])
  {
    var gone := ArtifactsOf(r, s);
    var j := WithoutPrefix(r.accepted, gone, i);
    var a := r.accepted[j];
    assert Sourced(r, a, r.accepted[..j]);
    GoneArtifacts(mgr, r, s, a);
    assert a in r'.accepted && ArtifactOutcome(r, r', s, a);
    var k := r.artifacts[a].taskId;
    forall n | n in Names(r.tasks[k]) ensures Settles(r, r.tasks[k], n) {
      assert SourcedName(r, r.tasks[k], n, r.accepted[..j]);
    }
    UnaffectedInputs(mgr, r, r', s, k);
    forall n | n in Names(r.tasks[k]) ensures SourcedName(r', r'.tasks[k], n, r'.accepted[..i]) {
      assert SourcedName(r, r.tasks[k], n, r.accepted[..j]) && Settles(r, r.tasks[k], n);
      UnaffectedName(mgr, r, r', s, k, n);
    }
  }

  lemma ReplanLedger(mgr: Id, r: Run, r': Run, s: set<Id>)
    requires Core(mgr, r) && ReplanOutcome(r, r', s)
    ensures Ledger(r')
  {
    WithoutDistinct(r.accepted, ArtifactsOf(r, s));
    forall i | 0 <= i < |r'.accepted| ensures Sourced(r', r'.accepted[i], r'.accepted[..i]) {
      ReplanEntry(mgr, r, r', s, i);
    }
    forall k | k in r'.tasks && r'.tasks[k].status.Accepted?
      ensures r'.tasks[k].artifactIds != [] && Last(r'.tasks[k].artifactIds) in r'.accepted
    {
      assert k !in r.tasks ==> Introduced(r, k, r'.tasks[k]);
      assert TaskOutcome(r, r', s, k) && TaskHome(r, k);
      var a := Last(r.tasks[k].artifactIds);
      assert a in r.tasks[k].artifactIds;
      GoneArtifacts(mgr, r, s, a);
    }
  }

  lemma ReplanTask(mgr: Id, r: Run, r': Run, s: set<Id>, k: Id)
    requires Core(mgr, r) && ReplanOutcome(r, r', s) && k in r'.tasks
    ensures TaskHome(r', k) && TaskCore(r', r'.tasks[k])
  {
    if k in r.tasks {
      var t := r.tasks[k];
      assert TaskOutcome(r, r', s, k) && TaskHome(r, k) && TaskCore(r, t);
      RebasedBudget(t.maxAttempts, r.revision);
      if k !in s && InFlight(t.status) {
        UnaffectedInputs(mgr, r, r', s, k);
        assert GatesOpen(r', t);
        if t.status.Submitted? || t.status.Reviewing? {
          GoneArtifacts(mgr, r, s, Last(t.artifactIds));
          assert ArtifactOutcome(r, r', s, Last(t.artifactIds));
        }
      }
    } else {
      assert Introduced(r, k, r'.tasks[k]);
    }
  }

  lemma RebasedBudget(max: int, revision: nat)
    ensures max * (revision + 1) == max * revision + max
  {}

  lemma ReplanArtifact(mgr: Id, r: Run, r': Run, s: set<Id>, a: Id)
    requires Core(mgr, r) && ReplanOutcome(r, r', s) && a in r'.artifacts
    ensures ArtifactHome(r', a) && ArtifactOk(mgr, r', a)
  {
    assert ArtifactOutcome(r, r', s, a) && ArtifactHome(r, a) && ArtifactOk(mgr, r, a);
    GoneArtifacts(mgr, r, s, a);
    assert TaskOutcome(r, r', s, r.artifacts[a].taskId);
  }

  lemma ReplanOutcomeKeeps(mgr: Id, r: Run, r': Run, s: set<Id>)
    requires Core(mgr, r) && ReplanOutcome(r, r', s)
    ensures Core(mgr, r')
  {
    ReplanLedger(mgr, r, r', s);
    forall k | k in r'.tasks ensures TaskHome(r', k) && TaskCore(r', r'.tasks[k]) {
      ReplanTask(mgr, r, r', s, k);
    }
    forall a | a in r'.artifacts ensures ArtifactHome(r', a) && ArtifactOk(mgr, r', a) {
      ReplanArtifact(mgr, r, r', s, a);
    }
  }

  ghost predicate AppliedAs(r: Run, p: Proposal, r': Run) {
    r' == Refresh(Replanned(r, p, Affected(r, p)).(revision := r.revision + 1))
  }

  lemma ApplyIsRefresh(r: Run, id: Id)
    requires Apply(r, id).Ok?
    ensures id in r.replans && StructureOk(r, r.replans[id]) && AppliedAs(r, r.replans[id], Apply(r, id).value)
  {}

  lemma ReplannedKeeps(mgr: Id, r: Run, p: Proposal)
    requires Inv(mgr, r) && StructureOk(r, p)
    ensures Core(mgr, Replanned(r, p, Affected(r, p)).(revision := r.revision + 1))
  {
    ReplannedOutcome(r, p);
    ReplanOutcomeKeeps(mgr, r, Replanned(r, p, Affected(r, p)).(revision := r.revision + 1), Affected(r, p));
  }

  lemma ApplyKeeps(mgr: Id, r: Run, id: Id)
    requires Inv(mgr, r) && Apply(r, id).Ok?
    ensures Inv(mgr, Apply(r, id).value)
  {
    ApplyIsRefresh(r, id);
    var p := r.replans[id];
    ReplannedKeeps(mgr, r, p);
    RefreshEstablishes(mgr, Replanned(r, p, Affected(r, p)).(revision := r.revision + 1));
  }
}
