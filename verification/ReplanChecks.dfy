/** The structural defects of a replan proposal, listed one by one as `_replan_defects` does. */
module ReplanChecks {
  import opened Base
  import opened RunModel
  import opened KernelOps
  import R = Replanning

  datatype Field = InReopen | InRemove | InDependencies

  datatype Defect =
    | UnknownReference(field: Field, key: Id) | RemovedAndReopened(key: Id)
    | AddedTwice(key: Id) | AddedNotFresh(key: Id) | AddedNameTaken(key: Id) | AddedWithoutCheck(key: Id)
    | BudgetExhausted | UnsoundPlan

  function FieldOf(p: Proposal, field: Field): set<Id> {
    match field
    case InReopen => Elements(p.reopen)
    case InRemove => Elements(p.remove)
    case InDependencies => p.deps.Keys
  }

  predicate NameTaken(run: Run, t: Task) { t.id in run.inputs || t.id in run.artifacts }

  /** What is wrong with the last of these tasks, given those before it. */
  predicate AdditionDefect(run: Run, before: seq<Task>, t: Task, d: Defect) {
    match d
    case AddedTwice(k) => k == t.id && exists x :: x in before && x.id == k
    case AddedNotFresh(k) => k == t.id && !IsFresh(run, t)
    case AddedNameTaken(k) => k == t.id && IsFresh(run, t) && NameTaken(run, t)
    case AddedWithoutCheck(k) => k == t.id && IsFresh(run, t) && !ChecksFit(t, t.capability)
    case _ => false
  }

  predicate AdditionDefectAt(run: Run, add: seq<Task>, i: nat, d: Defect) requires i < |add| {
    AdditionDefect(run, add[..i], add[i], d)
  }

  predicate IsAdditionDefect(run: Run, add: seq<Task>, d: Defect) {
    exists i :: 0 <= i < |add| && AdditionDefectAt(run, add, i, d)
  }

  /** The defects a proposal has before anyone looks at the plan it leads to. */
  predicate IsDefect(run: Run, p: Proposal, d: Defect) {
    match d
    case UnknownReference(field, k) => k in FieldOf(p, field) && k !in run.tasks
    case RemovedAndReopened(k) => k in p.remove && k in p.reopen
    case BudgetExhausted => run.revision >= run.maxReplans
    case UnsoundPlan => false
    case _ => IsAdditionDefect(run, p.add, d)
  }

  // ---- the loops ----------------------------------------------------------------------------------------

  function UnknownOnes(run: Run, field: Field, keys: set<Id>): set<Defect> {
    set k | k in keys && k !in run.tasks :: UnknownReference(field, k)
  }

  method UnknownReferences(run: Run, field: Field, references: seq<Id>) returns (defects: seq<Defect>)
    ensures Elements(defects) == UnknownOnes(run, field, Elements(references))
  {
    defects := [];
    for i := 0 to |references|
      invariant Elements(defects) == UnknownOnes(run, field, Elements(references[..i]))
    {
      var k := references[i];
      assert Elements(references[..i + 1]) == Elements(references[..i]) + {k};
      if k !in run.tasks {
        ghost var before := defects;
        defects := defects + [UnknownReference(field, k)];
        assert Elements(defects) == Elements(before) + {UnknownReference(field, k)};
      }
    }
    assert references[..|references|] == references;
  }

  /** The elements of a set in some order. */
  method Listed(s: set<Id>) returns (list: seq<Id>)
    ensures Elements(list) == s && NoDuplicates(list)
  {
    list := [];
    var pending := s;
    while pending != {}
      invariant pending <= s && Elements(list) == s - pending && NoDuplicates(list)
    {
      assert (forall x :: x !in pending) ==> pending == {};
      var k :| k in pending;
      assert k !in Elements(list);
      ghost var before := list;
      list := list + [k];
      assert Elements(list) == Elements(before) + {k};
      pending := pending - {k};
    }
  }

  method BothWays(p: Proposal) returns (defects: seq<Defect>)
    ensures Elements(defects) == set k | k in p.remove && k in p.reopen :: RemovedAndReopened(k)
  {
    var keys := Listed(Elements(p.remove) * Elements(p.reopen));
    defects := [];
    for i := 0 to |keys|
      invariant Elements(defects) == set k | k in keys[..i] :: RemovedAndReopened(k)
    {
      assert keys[..i + 1] == keys[..i] + [keys[i]];
      ghost var before := defects;
      defects := defects + [RemovedAndReopened(keys[i])];
      assert Elements(defects) == Elements(before) + {RemovedAndReopened(keys[i])};
    }
    assert forall k :: k in Elements(keys) <==> k in p.remove && k in p.reopen;
    assert keys[..|keys|] == keys;
  }

  /** One turn of the loop over the additions. */
  method Addition(run: Run, added: set<Id>, t: Task, ghost before: seq<Task>) returns (defects: seq<Defect>)
    requires added == set x | x in before :: x.id
    ensures forall d :: d in defects <==> AdditionDefect(run, before, t, d)
  {
    defects := [];
    if t.id in added { defects := defects + [AddedTwice(t.id)]; }
    if !IsFresh(run, t) { return defects + [AddedNotFresh(t.id)]; }
    if NameTaken(run, t) { defects := defects + [AddedNameTaken(t.id)]; }
    if !ChecksFit(t, t.capability) { defects := defects + [AddedWithoutCheck(t.id)]; }
  }

  method Additions(run: Run, add: seq<Task>) returns (defects: seq<Defect>)
    ensures forall d :: d in defects <==> IsAdditionDefect(run, add, d)
  {
    defects := [];
    var added: set<Id> := {};
    for i := 0 to |add|
      invariant added == set x | x in add[..i] :: x.id
      invariant forall d :: d in defects <==> exists j :: 0 <= j < i && AdditionDefectAt(run, add, j, d)
    {
      var found := Addition(run, added, add[i], add[..i]);
      assert forall d :: d in found <==> AdditionDefectAt(run, add, i, d);
      defects := defects + found;
      assert add[..i + 1] == add[..i] + [add[i]];
      added := added + {add[i].id};
    }
  }

  /** The structural part of `_replan_defects`: it lists exactly the defects there are. */
  method StructuralDefects(run: Run, p: Proposal) returns (defects: seq<Defect>)
    ensures forall d :: d in defects <==> IsDefect(run, p, d)
  {
    var reopened := UnknownReferences(run, InReopen, p.reopen);
    var removed := UnknownReferences(run, InRemove, p.remove);
    var keys := Listed(p.deps.Keys);
    var rewired := UnknownReferences(run, InDependencies, keys);
    var both := BothWays(p);
    var added := Additions(run, p.add);
    var budget: seq<Defect> := if run.revision >= run.maxReplans then [BudgetExhausted] else [];
    defects := reopened + removed + rewired + both + added + budget;
    forall d ensures d in defects <==> IsDefect(run, p, d) {
      assert d in reopened <==> d in Elements(reopened);
      assert d in removed <==> d in Elements(removed);
      assert d in rewired <==> d in Elements(rewired);
      assert d in both <==> d in Elements(both);
    }
  }

  lemma AdditionsAreSound(run: Run, add: seq<Task>)
    requires forall d :: !IsAdditionDefect(run, add, d)
    ensures R.AddsAreUnique(add) && forall t :: t in add ==> R.AddIsSound(run, t)
  {
    forall i, d | 0 <= i < |add| ensures !AdditionDefectAt(run, add, i, d) {
      assert !IsAdditionDefect(run, add, d);
    }
    forall i, j | 0 <= i < j < |add| ensures add[i].id != add[j].id {
      assert add[i] in add[..j] && !AdditionDefectAt(run, add, j, AddedTwice(add[j].id));
    }
    forall t | t in add ensures R.AddIsSound(run, t) {
      var i :| 0 <= i < |add| && add[i] == t;
      assert !AdditionDefectAt(run, add, i, AddedNotFresh(t.id));
      assert !AdditionDefectAt(run, add, i, AddedNameTaken(t.id));
      assert !AdditionDefectAt(run, add, i, AddedWithoutCheck(t.id));
    }
  }

  lemma SoundAdditionsHaveNone(run: Run, add: seq<Task>, d: Defect)
    requires R.AddsAreUnique(add) && forall t :: t in add ==> R.AddIsSound(run, t)
    ensures !IsAdditionDefect(run, add, d)
  {
    forall i | 0 <= i < |add| ensures !AdditionDefectAt(run, add, i, d) {
      assert R.AddIsSound(run, add[i]);
    }
  }

  lemma NoDefectIsSound(run: Run, p: Proposal)
    requires forall d :: !IsDefect(run, p, d)
    ensures R.StructureOk(run, p)
  {
    forall d ensures !IsAdditionDefect(run, p.add, d) { assert !IsDefect(run, p, d); }
    AdditionsAreSound(run, p.add);
    forall field, k | k in FieldOf(p, field) ensures k in run.tasks {
      assert !IsDefect(run, p, UnknownReference(field, k));
    }
    assert FieldOf(p, InReopen) <= run.tasks.Keys && FieldOf(p, InRemove) <= run.tasks.Keys;
    assert FieldOf(p, InDependencies) <= run.tasks.Keys;
    forall k | k in p.remove ensures k !in p.reopen { assert !IsDefect(run, p, RemovedAndReopened(k)); }
    assert !IsDefect(run, p, BudgetExhausted);
  }

  lemma SoundHasNoDefect(run: Run, p: Proposal, d: Defect)
    requires R.StructureOk(run, p)
    ensures !IsDefect(run, p, d)
  {
    SoundAdditionsHaveNone(run, p.add, d);
    match d
    case UnknownReference(field, k) => assert FieldOf(p, field) <= run.tasks.Keys;
    case RemovedAndReopened(k) =>
      assert k in p.remove && k in p.reopen ==> k in Elements(p.remove) * Elements(p.reopen);
    case _ =>
  }

  /** A proposal has no structural defect exactly if its structure is sound. */
  lemma DefectFreeIffSound(run: Run, p: Proposal)
    ensures (forall d :: !IsDefect(run, p, d)) <==> R.StructureOk(run, p)
  {
    if forall d :: !IsDefect(run, p, d) { NoDefectIsSound(run, p); }
    if R.StructureOk(run, p) {
      forall d ensures !IsDefect(run, p, d) { SoundHasNoDefect(run, p, d); }
    }
  }
}
