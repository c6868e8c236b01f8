/** The dependency graph of a plan and the depth-first check `_graph`. */
module PlanGraph {
  import opened Base
  import opened RunModel

  datatype GraphError =
    | DependencyCycle | NamesRetiredTask | ArtifactWithoutProducer | UnknownDependency

  predicate Live(run: Run, k: Id) { k in run.tasks && !Retired(run.tasks[k].status) }

  /** The task a name leads to: the task itself, or the live producer of a named artifact. */
  function Target(run: Run, n: Id): Option<Id> {
    if n in run.tasks then Some(n)
    else if n in run.artifacts && Live(run, run.artifacts[n].taskId) then Some(run.artifacts[n].taskId)
    else None
  }

  /** No retired task, no artifact without a producer task, no unknown dependency. */
  predicate NameAllowed(run: Run, t: Task, n: Id) {
    if n in run.tasks then !Retired(run.tasks[n].status)
    else if n in run.artifacts then run.artifacts[n].taskId in run.tasks
    else n !in t.deps
  }

  ghost predicate NamesAllowed(run: Run, k: Id) requires k in run.tasks {
    forall n :: n in Names(run.tasks[k]) ==> NameAllowed(run, run.tasks[k], n)
  }

  /** Live task k names live task j, directly or as the producer of an artifact. */
  ghost predicate Edge(run: Run, k: Id, j: Id) {
    && Live(run, k) && Live(run, j)
    && exists n :: n in Names(run.tasks[k]) && Target(run, n) == Some(j)
  }

  ghost predicate Ranked(run: Run, rank: map<Id, nat>) {
    && (forall k :: Live(run, k) ==> k in rank)
    && forall k, j :: Edge(run, k, j) ==> rank[j] < rank[k]
  }

  ghost predicate Acyclic(run: Run) { exists rank: map<Id, nat> :: Ranked(run, rank) }

  ghost predicate GraphOk(run: Run) {
    && (forall k :: Live(run, k) ==> NamesAllowed(run, k))
    && Acyclic(run)
  }

  ghost predicate EdgePath(run: Run, path: seq<Id>) {
    forall i :: 0 < i < |path| ==> Edge(run, path[i - 1], path[i])
  }

  ghost predicate HasCycle(run: Run) {
    exists cycle: seq<Id> :: IsCycle(run, cycle)
  }

  ghost predicate IsCycle(run: Run, cycle: seq<Id>) {
    |cycle| > 0 && EdgePath(run, cycle) && Edge(run, Last(cycle), cycle[0])
  }

  lemma {:induction false} RankFallsAlongPath(run: Run, rank: map<Id, nat>, path: seq<Id>)
    requires Ranked(run, rank) && EdgePath(run, path) && |path| > 0 && Live(run, path[0])
    ensures Live(run, Last(path)) && rank[Last(path)] <= rank[path[0]]
  {
    if |path| > 1 {
      var front := path[..|path| - 1];
      RankFallsAlongPath(run, rank, front);
      assert Edge(run, path[|path| - 2], path[|path| - 1]);
    }
  }

  lemma CycleHasNoRank(run: Run)
    requires HasCycle(run)
    ensures !Acyclic(run)
  {
    var cycle :| IsCycle(run, cycle);
    if Acyclic(run) {
      var rank :| Ranked(run, rank);
      assert Edge(run, Last(cycle), cycle[0]);
      RankFallsAlongPath(run, rank, cycle);
    }
  }

  lemma {:induction false} DistinctFit(path: seq<Id>, s: set<Id>)
    requires NoDuplicates(path) && Elements(path) <= s
    ensures |path| <= |s|
  {
    if path != [] {
      var front := path[..|path| - 1];
      assert Last(path) in Elements(path) && Elements(front) <= Elements(path) && Last(path) !in Elements(front);
      DistinctFit(front, s - {Last(path)});
    }
  }

  ghost predicate GoesOn(run: Run, s: set<Id>, k: Id) { exists j :: j in s && Edge(run, k, j) }

  lemma Onward(run: Run, s: set<Id>, path: seq<Id>) returns (longer: seq<Id>)
    requires path != [] && EdgePath(run, path) && Elements(path) <= s && GoesOn(run, s, Last(path))
    ensures |longer| == |path| + 1 && EdgePath(run, longer) && Elements(longer) <= s
  {
    var j :| j in s && Edge(run, Last(path), j);
    ExtendPath(run, path, j);
    longer := path + [j];
  }

  ghost predicate AllGoOn(run: Run, s: set<Id>) {
    forall k {:trigger GoesOn(run, s, k)} :: k in s ==> GoesOn(run, s, k)
  }

  lemma {:induction false} LongPath(run: Run, s: set<Id>, n: nat) returns (path: seq<Id>)
    requires s != {} && AllGoOn(run, s)
    ensures |path| == n + 1 && EdgePath(run, path) && Elements(path) <= s
  {
    if n == 0 {
      assert (forall k :: k !in s) ==> s == {};
      var k :| k in s;
      path := [k];
    } else {
      var front := LongPath(run, s, n - 1);
      assert Last(front) in Elements(front) && GoesOn(run, s, Last(front));
      path := Onward(run, s, front);
    }
  }

  lemma RepeatIsCycle(run: Run, path: seq<Id>, i: nat, j: nat)
    requires EdgePath(run, path) && i < j < |path| && path[i] == path[j]
    ensures HasCycle(run)
  {
    var cycle := path[i..j];
    assert EdgePath(run, cycle) by {
      forall m | 0 < m < |cycle| ensures Edge(run, cycle[m - 1], cycle[m]) {
        assert Edge(run, path[i + m - 1], path[i + m]);
      }
    }
    assert Last(cycle) == path[j - 1] && Edge(run, path[j - 1], path[j]);
    assert IsCycle(run, cycle);
  }

  lemma GoingOnIsCyclic(run: Run, s: set<Id>)
    requires s != {} && AllGoOn(run, s)
    ensures HasCycle(run)
  {
    var path := LongPath(run, s, |s|);
    if NoDuplicates(path) { DistinctFit(path, s); }
    var i, j :| 0 <= i < j < |path| && path[i] == path[j];
    RepeatIsCycle(run, path, i, j);
  }

  /** Without a cycle every set of tasks has one that names no other task of the set. */
  lemma Bottom(run: Run, s: set<Id>) returns (m: Id)
    requires s != {} && !HasCycle(run)
    ensures m in s && !GoesOn(run, s, m)
  {
    if AllGoOn(run, s) { GoingOnIsCyclic(run, s); }
    m :| m in s && !GoesOn(run, s, m);
  }

  lemma {:induction false} RankWithin(run: Run, s: set<Id>) returns (rank: map<Id, nat>)
    requires !HasCycle(run)
    ensures rank.Keys == s
    ensures forall k, j :: k in s && j in s && Edge(run, k, j) ==> rank[j] < rank[k]
    decreases |s|
  {
    if s == {} {
      rank := map[];
    } else {
      var m := Bottom(run, s);
      var above := RankWithin(run, s - {m});
      rank := map k | k in s :: if k == m then 0 else above[k] + 1;
    }
  }

  /** A plan can be ranked exactly if it has no cycle. */
  lemma RankedIffNoCycle(run: Run)
    ensures Acyclic(run) <==> !HasCycle(run)
  {
    if HasCycle(run) {
      CycleHasNoRank(run);
    } else {
      var rank := RankWithin(run, set k | k in run.tasks && Live(run, k));
      assert Ranked(run, rank);
    }
  }

  /** The visited tasks are allowed, and closed under edges to lower ranks. */
  ghost predicate Finished(run: Run, rank: map<Id, nat>, clock: nat) {
    forall k :: k in rank ==>
      Live(run, k) && NamesAllowed(run, k) && rank[k] < clock && EdgesFall(run, rank, k)
  }

  ghost predicate EdgesFall(run: Run, rank: map<Id, nat>, k: Id) requires k in rank {
    forall j :: Edge(run, k, j) ==> j in rank && rank[j] < rank[k]
  }

  ghost predicate NameDone(run: Run, rank: map<Id, nat>, t: Task, n: Id) {
    NameAllowed(run, t, n) && (Target(run, n).Some? ==> Target(run, n).value in rank)
  }

  lemma FinishTask(run: Run, rank: map<Id, nat>, clock: nat, key: Id)
    requires Finished(run, rank, clock) && Live(run, key) && key !in rank
    requires forall n :: n in Names(run.tasks[key]) ==> NameDone(run, rank, run.tasks[key], n)
    ensures Finished(run, rank[key := clock], clock + 1)
  {
    var rank' := rank[key := clock];
    forall n | n in Names(run.tasks[key]) ensures NameAllowed(run, run.tasks[key], n) {
      assert NameDone(run, rank, run.tasks[key], n);
    }
    forall k | k in rank' ensures EdgesFall(run, rank', k) && NamesAllowed(run, k) {
      if k != key { assert EdgesFall(run, rank, k); }
      else {
        forall j | Edge(run, key, j) ensures j in rank {
          var n :| n in Names(run.tasks[key]) && Target(run, n) == Some(j);
          assert NameDone(run, rank, run.tasks[key], n);
        }
      }
    }
  }

  lemma ForbiddenName(run: Run, k: Id, n: Id)
    requires Live(run, k) && n in Names(run.tasks[k]) && !NameAllowed(run, run.tasks[k], n)
    ensures !GraphOk(run)
  {
    assert !NamesAllowed(run, k);
  }

  lemma ClosingCycle(run: Run, path: seq<Id>, key: Id)
    requires key in path && EdgePath(run, path) && Edge(run, Last(path), key)
    ensures HasCycle(run) && !GraphOk(run)
  {
    var i :| 0 <= i < |path| && path[i] == key;
    var cycle := path[i..];
    assert Last(cycle) == Last(path) && cycle[0] == key;
    assert IsCycle(run, cycle);
    CycleHasNoRank(run);
  }

  lemma ExtendPath(run: Run, path: seq<Id>, key: Id)
    requires EdgePath(run, path) && (path != [] ==> Edge(run, Last(path), key))
    ensures EdgePath(run, path + [key])
    ensures Elements(path + [key]) == Elements(path) + {key}
  {}

  /** One graph check: the `visiting` and `visited` sets.  `path` is the chain being
      visited and `rank` the finishing order of the visited tasks. */
  class GraphWalk {
    const run: Run
    var visiting: set<Id>
    var visited: set<Id>
    ghost var path: seq<Id>
    ghost var rank: map<Id, nat>
    ghost var clock: nat

    ghost predicate Valid() reads this {
      && visiting <= run.tasks.Keys && visiting == Elements(path) && EdgePath(run, path)
      && visited == rank.Keys && visiting !! visited
      && Finished(run, rank, clock)
    }

    constructor (run: Run)
      ensures Valid() && this.run == run && visiting == {} && visited == {} && path == []
    {
      this.run := run;
      visiting, visited, path, rank, clock := {}, {}, [], map[], 0;
    }

    method Visit(key: Id) returns (e: Option<GraphError>)
      requires Valid() && Live(run, key)
      requires path != [] ==> Edge(run, Last(path), key)
      modifies this
      ensures e.None? ==> Valid() && path == old(path) && visiting == old(visiting)
      ensures e.None? ==> key in visited && old(visited) <= visited
      ensures e.Some? ==> !GraphOk(run)
      ensures e == Some(DependencyCycle) ==> HasCycle(run)
      decreases run.tasks.Keys - visiting, 1
    {
      if key in visiting {
        ClosingCycle(run, path, key);
        return Some(DependencyCycle);
      }
      if key in visited { return None; }
      ExtendPath(run, path, key);
      ghost var outer := path;
      visiting := visiting + {key};
      path := path + [key];
      var packet := run.tasks[key];
      var names := Names(packet);
      for i := 0 to |names|
        invariant Valid() && path == outer + [key] && visiting == old(visiting) + {key}
        invariant old(visited) <= visited
        invariant forall l :: 0 <= l < i ==> NameDone(run, rank, packet, names[l])
      {
        e := VisitName(key, names[i]);
        if e.Some? { return; }
      }
      FinishTask(run, rank, clock, key);
      visiting := visiting - {key};
      path := outer;
      rank, clock := rank[key := clock], clock + 1;
      visited := visited + {key};
      return None;
    }

    /** One turn of the loop over a packet's names. */
    method VisitName(key: Id, dep: Id) returns (e: Option<GraphError>)
      requires Valid() && Live(run, key) && path != [] && Last(path) == key && key in visiting
      requires dep in Names(run.tasks[key])
      modifies this
      ensures e.None? ==> Valid() && path == old(path) && visiting == old(visiting)
      ensures e.None? ==> old(visited) <= visited && NameDone(run, rank, run.tasks[key], dep)
      ensures e.Some? ==> !GraphOk(run)
      ensures e == Some(DependencyCycle) ==> HasCycle(run)
      decreases run.tasks.Keys - visiting, 2
    {
      e := None;
      if dep in run.tasks {
        if Retired(run.tasks[dep].status) {
          ForbiddenName(run, key, dep);
          return Some(NamesRetiredTask);
        }
        assert Target(run, dep) == Some(dep);
        e := Visit(dep);
      } else if dep in run.artifacts {
        var producer := run.artifacts[dep].taskId;
        if producer !in run.tasks {
          ForbiddenName(run, key, dep);
          return Some(ArtifactWithoutProducer);
        }
        if !Retired(run.tasks[producer].status) {
          assert Target(run, dep) == Some(producer);
          e := Visit(producer);
        }
      } else if dep in run.tasks[key].deps {
        ForbiddenName(run, key, dep);
        return Some(UnknownDependency);
      }
    }
  }

  /** `_graph`: returns normally exactly when the live tasks can be ranked and no live task
      names what it must not, and reports a cycle only if there is one. */
  method Graph(run: Run, order: seq<Id>) returns (e: Option<GraphError>)
    requires Elements(order) == run.tasks.Keys
    ensures e.None? <==> GraphOk(run)
    ensures e == Some(DependencyCycle) ==> HasCycle(run)
  {
    var walk := new GraphWalk(run);
    for i := 0 to |order|
      invariant walk.Valid() && walk.run == run && walk.path == [] && walk.visiting == {}
      invariant forall l :: 0 <= l < i && Live(run, order[l]) ==> order[l] in walk.visited
    {
      var key := order[i];
      assert key in Elements(order);
      if !Retired(run.tasks[key].status) {
        e := walk.Visit(key);
        if e.Some? { return; }
      }
    }
    forall k | Live(run, k) ensures k in walk.rank {
      assert k in Elements(order);
    }
    assert Ranked(run, walk.rank);
    return None;
  }
}
