/** Resolving declared inputs and checking their complete accepted lineage:
    `_input_artifact_ids`, `_validate_accepted_artifact` and `_readiness_blocker`. */
module Lineage {
  import opened Base
  import opened RunModel

  datatype LineageError =
    | InputTaskNotAccepted | InputUnavailable | InputCycle | NotCanonical | ProvenanceMismatch

  datatype Resolution = ToArtifact(id: Id) | External | Refused(error: LineageError)

  /** What one declared name stands for: tasks first, then artifacts, then registered inputs. */
  function Resolve(run: Run, t: Task, n: Id): Resolution {
    if n in run.tasks then
      var up := run.tasks[n];
      if !up.status.Accepted? || up.artifactIds == [] then Refused(InputTaskNotAccepted)
      else ToArtifact(Last(up.artifactIds))
    else if n in run.artifacts then ToArtifact(n)
    else if n in run.inputs && n !in t.deps then External
    else Refused(InputUnavailable)
  }

  /** The artifacts a task consumes, as its declared names resolve now. */
  function InputSet(run: Run, t: Task): set<Id> {
    set n | n in Names(t) && Resolve(run, t, n).ToArtifact? :: Resolve(run, t, n).id
  }

  /** The same artifacts as a list, in declaration order and without repeats. */
  function InputList(run: Run, t: Task, count: nat): (r: seq<Id>)
    requires count <= |Names(t)|
  {
    if count == 0 then []
    else
      var before := InputList(run, t, count - 1);
      var r := Resolve(run, t, Names(t)[count - 1]);
      if r.ToArtifact? && r.id !in before then before + [r.id] else before
  }

  lemma {:induction false} InputListIsInputSet(run: Run, t: Task, count: nat)
    requires count <= |Names(t)|
    ensures NoDuplicates(InputList(run, t, count))
    ensures forall x :: x in InputList(run, t, count) <==>
      exists i :: 0 <= i < count && Resolve(run, t, Names(t)[i]) == ToArtifact(x)
  {
    if count > 0 {
      InputListIsInputSet(run, t, count - 1);
      assert Resolve(run, t, Names(t)[count - 1]) == Resolve(run, t, Names(t)[count - 1]);
    }
  }

  lemma InputListElements(run: Run, t: Task)
    ensures Elements(InputList(run, t, |Names(t)|)) == InputSet(run, t)
    ensures NoDuplicates(InputList(run, t, |Names(t)|))
  {
    InputListIsInputSet(run, t, |Names(t)|);
    forall x ensures x in InputList(run, t, |Names(t)|) <==> x in InputSet(run, t) {
      if x in InputSet(run, t) {
        var n :| n in Names(t) && Resolve(run, t, n) == ToArtifact(x);
        var i :| 0 <= i < |Names(t)| && Names(t)[i] == n;
      }
    }
  }

  /** The part of canonicity that looks at one artifact and its task only. */
  predicate LocallyAccepted(run: Run, a: Id) {
    && a in run.artifacts && run.artifacts[a].taskId in run.tasks
    && run.artifacts[a].runId == run.id && run.artifacts[a].status.Canonical? && a in run.accepted
    && var t := run.tasks[run.artifacts[a].taskId];
       t.status.Accepted? && t.artifactIds != [] && Last(t.artifactIds) == a
  }

  function Producer(run: Run, a: Id): Task requires LocallyAccepted(run, a) {
    run.tasks[run.artifacts[a].taskId]
  }

  predicate ProvenanceMatches(run: Run, t: Task, a: Id) requires a in run.artifacts {
    Elements(run.artifacts[a].inputIds) == InputSet(run, t)
  }

  /** The definition without memoisation: the whole upstream closure, at most d deep. */
  ghost predicate CanonicalWithin(run: Run, a: Id, d: nat)
    decreases d, 0
  {
    && d > 0 && LocallyAccepted(run, a)
    && var t := Producer(run, a);
       && ProvenanceMatches(run, t, a)
       && forall n :: n in Names(t) ==> NameWithin(run, t, n, d - 1)
  }

  ghost predicate NameWithin(run: Run, t: Task, n: Id, d: nat)
    decreases d, 1
  {
    !Resolve(run, t, n).Refused?
    && (Resolve(run, t, n).ToArtifact? ==> CanonicalWithin(run, Resolve(run, t, n).id, d))
  }

  ghost predicate IsCanonical(run: Run, a: Id) { exists d: nat :: HasDepth(run, a, d) }

  ghost predicate HasDepth(run: Run, a: Id, d: nat) { CanonicalWithin(run, a, d) }

  /** Every declared name resolves, and every artifact among them is canonical. */
  ghost predicate InputsCanonical(run: Run, t: Task) {
    forall n :: n in Names(t) ==> NameCanonical(run, t, n)
  }

  ghost predicate NameCanonical(run: Run, t: Task, n: Id) {
    !Resolve(run, t, n).Refused?
    && (Resolve(run, t, n).ToArtifact? ==> IsCanonical(run, Resolve(run, t, n).id))
  }

  lemma {:induction false} WithinMonotone(run: Run, a: Id, d: nat, e: nat)
    requires CanonicalWithin(run, a, d) && d <= e
    ensures CanonicalWithin(run, a, e)
    decreases d
  {
    var t := Producer(run, a);
    forall n | n in Names(t) ensures NameWithin(run, t, n, e - 1) {
      assert NameWithin(run, t, n, d - 1);
      if Resolve(run, t, n).ToArtifact? {
        WithinMonotone(run, Resolve(run, t, n).id, d - 1, e - 1);
      }
    }
  }

  lemma {:induction false} NamesHaveCommonDepth(run: Run, t: Task, names: seq<Id>) returns (d: nat)
    requires forall n :: n in names ==> NameCanonical(run, t, n)
    ensures forall n :: n in names ==> NameWithin(run, t, n, d)
  {
    d := 0;
    if names != [] {
      var rest := NamesHaveCommonDepth(run, t, names[1..]);
      var first := names[0];
      var e: nat := 0;
      if Resolve(run, t, first).ToArtifact? {
        assert NameCanonical(run, t, first);
        e :| HasDepth(run, Resolve(run, t, first).id, e);
      }
      d := rest + e;
      forall n | n in names ensures NameWithin(run, t, n, d) {
        if Resolve(run, t, n).ToArtifact? {
          if n != first { assert n in names[1..]; }
          WithinMonotone(run, Resolve(run, t, n).id, if n == first then e else rest, d);
        }
      }
    }
  }

  /** Canonicity unfolds: it is local acceptance, matching provenance and canonical inputs. */
  lemma CanonicalUnfolds(run: Run, a: Id)
    ensures IsCanonical(run, a) <==>
      LocallyAccepted(run, a) && ProvenanceMatches(run, Producer(run, a), a)
      && InputsCanonical(run, Producer(run, a))
  {
    if IsCanonical(run, a) {
      var d: nat :| HasDepth(run, a, d);
      forall n | n in Names(Producer(run, a)) ensures NameCanonical(run, Producer(run, a), n) {
        assert NameWithin(run, Producer(run, a), n, d - 1);
        var r := Resolve(run, Producer(run, a), n);
        assert r.ToArtifact? ==> HasDepth(run, r.id, d - 1);
      }
    }
    if LocallyAccepted(run, a) && ProvenanceMatches(run, Producer(run, a), a)
       && InputsCanonical(run, Producer(run, a))
    {
      var d := NamesHaveCommonDepth(run, Producer(run, a), Names(Producer(run, a)));
      assert HasDepth(run, a, d + 1);
    }
  }

  /** b is one of the artifacts that a's task declares. */
  ghost predicate Consumes(run: Run, a: Id, b: Id) {
    && a in run.artifacts && run.artifacts[a].taskId in run.tasks
    && var t := run.tasks[run.artifacts[a].taskId];
       exists n :: n in Names(t) && Resolve(run, t, n) == ToArtifact(b)
  }

  ghost predicate ConsumptionPath(run: Run, path: seq<Id>) {
    forall i :: 0 < i < |path| ==> Consumes(run, path[i - 1], path[i])
  }

  ghost predicate HasConsumptionCycle(run: Run) {
    exists cycle: seq<Id> :: |cycle| > 0 && ConsumptionPath(run, cycle) && Consumes(run, Last(cycle), cycle[0])
  }

  /** An artifact on a consumption cycle is not canonical. */
  lemma {:induction false} CycleIsNotCanonical(run: Run, path: seq<Id>, d: nat)
    requires |path| > 0 && ConsumptionPath(run, path) && Consumes(run, Last(path), path[0])
    ensures !CanonicalWithin(run, path[0], d)
    decreases d
  {
    if d > 0 && CanonicalWithin(run, path[0], d) {
      var rotated := path[1..] + [path[0]];
      forall i | 0 < i < |rotated| ensures Consumes(run, rotated[i - 1], rotated[i]) {
        if i == |rotated| - 1 {
          assert rotated[i] == path[0] && rotated[i - 1] == Last(path);
        } else {
          assert rotated[i - 1] == path[i] && rotated[i] == path[i + 1];
        }
      }
      assert Consumes(run, path[0], rotated[0]);
      var t := Producer(run, path[0]);
      var n :| n in Names(t) && Resolve(run, t, n) == ToArtifact(rotated[0]);
      assert NameWithin(run, t, n, d - 1);
      CycleIsNotCanonical(run, rotated, d - 1);
    }
  }

  predicate GateOpen(run: Run, g: Gate) {
    && g.request in run.approvals && run.approvals[g.request].status.ApprovalGranted?
    && g.request in run.decisions && run.decisions[g.request]
    && run.approvals[g.request].action == g.action && run.approvals[g.request].scope == g.scope
  }

  /** Everything readiness asks besides the inputs. */
  predicate GatesOpen(run: Run, t: Task) {
    && !(t.capability.DeveloperSandbox? && !Present(t.workspace))
    && t.approvalIds == []
    && (forall g :: g in t.gates ==> GateOpen(run, g))
    && t.criteria != []
  }

  /** A task is ready when `_readiness_blocker` returns None. */
  ghost predicate IsReady(run: Run, t: Task) { InputsCanonical(run, t) && GatesOpen(run, t) }

  /** One lineage check: the `visiting` and `checked` sets that the mutually recursive
      walk updates.  `path` records the chain of artifacts being visited. */
  class LineageWalk {
    const run: Run
    var visiting: set<Id>
    var checked: set<Id>
    ghost var path: seq<Id>

    ghost predicate Valid() reads this {
      && visiting <= run.artifacts.Keys
      && visiting == Elements(path) && ConsumptionPath(run, path)
      && forall a :: a in checked ==> IsCanonical(run, a)
    }

    constructor (run: Run)
      ensures Valid() && this.run == run && visiting == {} && checked == {} && path == []
    {
      this.run := run;
      visiting, checked, path := {}, {}, [];
    }

    /** Resolves a task's inputs; accepts exactly when all of them are canonical.
        `owner` is the artifact whose task this is, when the walk came through one. */
    method InputArtifactIds(t: Task) returns (r: Result<seq<Id>, LineageError>)
      requires Valid()
      requires path != [] ==>
        Last(path) in run.artifacts && run.artifacts[Last(path)].taskId in run.tasks
        && run.tasks[run.artifacts[Last(path)].taskId] == t
      modifies this
      ensures r.Ok? <==> InputsCanonical(run, t)
      ensures r.Ok? ==> r.value == InputList(run, t, |Names(t)|)
      ensures r.Ok? ==> Valid() && path == old(path) && visiting == old(visiting)
      ensures r.Ok? ==> old(checked) <= checked
      ensures r == Err(InputCycle) ==> HasConsumptionCycle(run)
      decreases run.artifacts.Keys - visiting, 1
    {
      var found := [];
      var names := Names(t);
      for i := 0 to |names|
        invariant Valid() && path == old(path) && visiting == old(visiting) && old(checked) <= checked
        invariant found == InputList(run, t, i)
        invariant forall j :: 0 <= j < i ==> NameCanonical(run, t, names[j])
      {
        var value := names[i];
        assert NameCanonical(run, t, value) ==> !Resolve(run, t, value).Refused?;
        var id: Id;
        if value in run.tasks {
          var upstream := run.tasks[value];
          if !upstream.status.Accepted? || upstream.artifactIds == [] {
            return Err(InputTaskNotAccepted);
          }
          id := Last(upstream.artifactIds);
        } else if value in run.artifacts {
          id := value;
        } else if value in run.inputs && value !in t.deps {
          continue;
        } else {
          return Err(InputUnavailable);
        }
        assert path != [] ==> Consumes(run, Last(path), id);
        var e := ValidateAcceptedArtifact(id);
        if e.Some? { return Err(e.value); }
        if id !in found { found := found + [id]; }
      }
      return Ok(found);
    }

    /** Refuses exactly the artifacts whose closure is not canonical, whatever earlier
        calls left in `checked`. */
    method ValidateAcceptedArtifact(a: Id) returns (e: Option<LineageError>)
      requires Valid()
      requires path != [] ==> Consumes(run, Last(path), a)
      modifies this
      ensures e.None? <==> IsCanonical(run, a)
      ensures e.None? ==> Valid() && path == old(path) && visiting == old(visiting)
      ensures e.None? ==> old(checked) <= checked && a in checked
      ensures e == Some(InputCycle) ==> HasConsumptionCycle(run)
      decreases run.artifacts.Keys - visiting, 0
    {
      if a in visiting {
        ghost var i :| 0 <= i < |path| && path[i] == a;
        ghost var cycle := path[i..];
        assert Last(cycle) == Last(path);
        forall d: nat ensures !HasDepth(run, a, d) {
          CycleIsNotCanonical(run, cycle, d);
        }
        return Some(InputCycle);
      }
      if a in checked { return None; }
      CanonicalUnfolds(run, a);
      if !LocallyAccepted(run, a) { return Some(NotCanonical); }
      var t := Producer(run, a);
      visiting := visiting + {a};
      path := path + [a];
      var inputs := InputArtifactIds(t);
      if inputs.Err? { return Some(inputs.error); }
      InputListElements(run, t);
      if Elements(run.artifacts[a].inputIds) != Elements(inputs.value) {
        return Some(ProvenanceMismatch);
      }
      visiting := visiting - {a};
      path := path[..|path| - 1];
      assert path == old(path);
      checked := checked + {a};
      return None;
    }
  }

  /** `_readiness_blocker`, as far as whether there is one. */
  method Ready(run: Run, t: Task) returns (ready: bool)
    ensures ready <==> IsReady(run, t)
  {
    var walk := new LineageWalk(run);
    var inputs := walk.InputArtifactIds(t);
    if inputs.Err? { return false; }
    if t.capability.DeveloperSandbox? && !Present(t.workspace) { return false; }
    if t.approvalIds != [] { return false; }
    for i := 0 to |t.gates|
      invariant forall j :: 0 <= j < i ==> GateOpen(run, t.gates[j])
    {
      if !GateOpen(run, t.gates[i]) { return false; }
    }
    return t.criteria != [];
  }
}
