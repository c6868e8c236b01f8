/** Processes that load, mutate and save one store in any interleaving. */
module StoreHistory {
  import opened Base
  import opened RunModel
  import opened RunStore
  import Kernel
  import KernelOps
  import KernelInvariant
  import KernelTheorems

  /** One step of some process: it loads a run, tries to create one, or applies an operation to
      the snapshot it holds and tries to save the result at that snapshot's version. */
  datatype Move =
    | LoadMove(p: int, id: Id)
    | CreateMove(body: Run, batch: seq<Event>)
    | AttemptMove(p: int, op: Kernel.Op, batch: seq<Event>)

  /** The operations, as the store sees them: what each does to a body, and which identifiers it
      may draw there. */
  datatype Machine = Machine(step: (Run, Kernel.Op) -> KernelOps.Outcome, drawn: (Run, Kernel.Op) -> bool)

  /** No operation renames a run. */
  ghost predicate KeepsIdentity(k: Machine) {
    forall r, op :: k.step(r, op).Ok? ==> k.step(r, op).value.id == r.id
  }

  datatype World = World(db: Db, held: map<int, Snapshot>)

  const START := World(Db(map[], map[]), map[])

  /** What an attempt would save, if its operation returns. */
  ghost function Mutated(k: Machine, w: World, p: int, op: Kernel.Op): Option<Run> {
    if p !in w.held then None
    else
      match k.step(w.held[p].body, op)
      case Ok(next) => Some(next)
      case Err(_) => None
  }

  ghost function Saved(k: Machine, w: World, m: Move): Option<Db> {
    match m
    case LoadMove(_, _) => None
    case CreateMove(body, batch) =>
      (match SaveDb(w.db, body, batch, None) case Ok(db) => Some(db) case Err(_) => None)
    case AttemptMove(p, op, batch) =>
      var next := Mutated(k, w, p, op);
      if next.None? then None
      else match SaveDb(w.db, next.value, batch, Some(w.held[p].version)) case Ok(db) => Some(db) case Err(_) => None
  }

  ghost function Moved(k: Machine, w: World, m: Move): World {
    if m.LoadMove? && m.id in w.db.runs then w.(held := w.held[m.p := w.db.runs[m.id].snapshot])
    else if Saved(k, w, m).Some? then w.(db := Saved(k, w, m).value)
    else w
  }

  ghost function After(k: Machine, moves: seq<Move>): World {
    if moves == [] then START else Moved(k, After(k, moves[..|moves| - 1]), Last(moves))
  }

  /** Runs are created as `create_run` creates them, and identifiers that an operation draws are
      new to the snapshot it works on. */
  ghost predicate Lawful(k: Machine, moves: seq<Move>) {
    forall i :: 0 <= i < |moves| ==> LawfulMove(k, After(k, moves[..i]), moves[i])
  }

  ghost predicate LawfulMove(k: Machine, w: World, m: Move) {
    match m
    case LoadMove(_, _) => true
    case CreateMove(body, _) => Kernel.Created(body)
    case AttemptMove(p, op, _) => p in w.held ==> k.drawn(w.held[p].body, op)
  }

  // ---- the committed operations ---------------------------------------------------------------------

  datatype Commit = Creation(body: Run, batch: seq<Event>) | Mutation(op: Kernel.Op, batch: seq<Event>)

  function Concerns(w: World, m: Move): Id {
    match m
    case LoadMove(_, id) => id
    case CreateMove(body, _) => body.id
    case AttemptMove(p, _, _) => if p in w.held then w.held[p].body.id else EMPTY
  }

  function AsCommit(m: Move): Commit requires !m.LoadMove? {
    if m.CreateMove? then Creation(m.body, m.batch) else Mutation(m.op, m.batch)
  }

  /** The saves on one run that succeeded, in order. */
  ghost function Commits(k: Machine, moves: seq<Move>, id: Id): seq<Commit> {
    if moves == [] then []
    else
      var before := moves[..|moves| - 1];
      var w, m := After(k, before), Last(moves);
      Commits(k, before, id) + (if Saved(k, w, m).Some? && Concerns(w, m) == id then [AsCommit(m)] else [])
  }

  /** A creation, then operations each of which returns on the state the earlier ones left. */
  ghost predicate Serial(k: Machine, cs: seq<Commit>)
    decreases |cs|, 0
  {
    && cs != [] && cs[0].Creation? && Kernel.Created(cs[0].body)
    && (|cs| > 1 ==>
          var before := cs[..|cs| - 1];
          && Last(cs).Mutation? && Serial(k, before)
          && k.drawn(Replay(k, before), Last(cs).op)
          && k.step(Replay(k, before), Last(cs).op).Ok?)
  }

  /** The commits applied one after the other. */
  ghost function Replay(k: Machine, cs: seq<Commit>): Run
    requires Serial(k, cs)
    decreases |cs|, 1
  {
    if |cs| == 1 then cs[0].body
    else k.step(Replay(k, cs[..|cs| - 1]), Last(cs).op).value
  }

  function Batches(cs: seq<Commit>): seq<Event> {
    if cs == [] then [] else Batches(cs[..|cs| - 1]) + Last(cs).batch
  }

  /** The stored row and log of one run, told by its commits alone. */
  ghost predicate Told(k: Machine, db: Db, id: Id, cs: seq<Commit>) {
    && (id in db.runs <==> cs != [])
    && EventsOf(db.events, id) == Number(Batches(cs), 0)
    && (cs != [] ==>
          && Serial(k, cs)
          && db.runs[id] == Row(|cs|, Snapshot(|cs|, |Batches(cs)|, Replay(k, cs))))
  }

  /** A held snapshot is the run as it stood at the version it carries. */
  ghost predicate HeldOk(k: Machine, s: Snapshot, cs: seq<Commit>) {
    && 1 <= s.version <= |cs| && Serial(k, cs)
    && Serial(k, cs[..s.version]) && s.body == Replay(k, cs[..s.version])
  }

  ghost predicate WorldOk(k: Machine, moves: seq<Move>) {
    var w := After(k, moves);
    && Sound(w.db)
    && (forall id :: Told(k, w.db, id, Commits(k, moves, id)))
    && (forall p :: p in w.held ==> HeldOk(k, w.held[p], Commits(k, moves, w.held[p].body.id)))
  }

  // ---- one save ------------------------------------------------------------------------------------

  lemma SerialGrows(k: Machine, cs: seq<Commit>, c: Commit)
    requires Serial(k, cs) && c.Mutation?
    requires k.drawn(Replay(k, cs), c.op) && k.step(Replay(k, cs), c.op).Ok?
    ensures Serial(k, cs + [c])
    ensures Replay(k, cs + [c]) == k.step(Replay(k, cs), c.op).value
  {
    assert (cs + [c])[..|cs + [c]| - 1] == cs;
  }

  lemma BatchesGrow(cs: seq<Commit>, c: Commit)
    ensures Batches(cs + [c]) == Batches(cs) + c.batch
  {
    assert (cs + [c])[..|cs + [c]| - 1] == cs;
  }

  lemma LogGrows(db: Db, id: Id, run: Run, cs: seq<Commit>, c: Commit)
    requires run.id == id && EventsOf(db.events, id) == Number(Batches(cs), 0)
    requires StoredCursor(db.runs, id) == |Batches(cs)|
    ensures EventsOf(Written(db, run, c.batch, |cs| + 1).events, id) == Number(Batches(cs + [c]), 0)
  {
    BatchesGrow(cs, c);
    NumberSplit(Batches(cs), c.batch, 0);
  }

  lemma CreationTold(k: Machine, w: World, m: Move, cs: seq<Commit>)
    requires m.CreateMove? && Saved(k, w, m).Some? && LawfulMove(k, w, m)
    requires Told(k, w.db, m.body.id, cs)
    ensures Told(k, Saved(k, w, m).value, m.body.id, cs + [AsCommit(m)])
  {
    var c := AsCommit(m);
    assert cs == [] && cs + [c] == [c];
    LogGrows(w.db, m.body.id, m.body, cs, c);
    BatchesGrow(cs, c);
    assert Saved(k, w, m).value == Written(w.db, m.body, m.batch, 1);
    FirstCommit(k, m.body, m.batch);
  }

  lemma FirstCommit(k: Machine, body: Run, batch: seq<Event>)
    requires Kernel.Created(body)
    ensures Serial(k, [Creation(body, batch)]) && Replay(k, [Creation(body, batch)]) == body
  {}

  lemma MutationTold(k: Machine, w: World, m: Move, cs: seq<Commit>)
    requires KeepsIdentity(k) && m.AttemptMove? && Saved(k, w, m).Some? && LawfulMove(k, w, m)
    requires Told(k, w.db, Concerns(w, m), cs) && HeldOk(k, w.held[m.p], cs)
    ensures Told(k, Saved(k, w, m).value, Concerns(w, m), cs + [AsCommit(m)])
  {
    var c := AsCommit(m);
    assert cs[..|cs|] == cs;
    SerialGrows(k, cs, c);
    LogGrows(w.db, Concerns(w, m), Mutated(k, w, m.p, m.op).value, cs, c);
    BatchesGrow(cs, c);
  }

  /** A save that succeeds was made from the current snapshot, and adds one commit. */
  lemma SaveTold(k: Machine, w: World, m: Move, cs: seq<Commit>)
    requires KeepsIdentity(k) && Saved(k, w, m).Some? && LawfulMove(k, w, m)
    requires Told(k, w.db, Concerns(w, m), cs)
    requires m.AttemptMove? ==> HeldOk(k, w.held[m.p], cs)
    ensures Told(k, Saved(k, w, m).value, Concerns(w, m), cs + [AsCommit(m)])
  {
    if m.CreateMove? { CreationTold(k, w, m, cs); } else { MutationTold(k, w, m, cs); }
  }

  lemma HeldGrows(k: Machine, s: Snapshot, cs: seq<Commit>, c: Commit)
    requires HeldOk(k, s, cs) && Serial(k, cs + [c])
    ensures HeldOk(k, s, cs + [c])
  {
    assert (cs + [c])[..s.version] == cs[..s.version];
  }

  lemma OtherRunsKept(k: Machine, w: World, m: Move, id: Id, cs: seq<Commit>)
    requires KeepsIdentity(k) && Saved(k, w, m).Some? && Concerns(w, m) != id && Told(k, w.db, id, cs)
    ensures Told(k, Saved(k, w, m).value, id, cs)
  {}

  lemma SavedIsSound(k: Machine, w: World, m: Move)
    requires Sound(w.db) && Saved(k, w, m).Some?
    ensures Sound(Saved(k, w, m).value)
  {
    if m.CreateMove? {
      SaveKeepsSound(w.db, m.body, m.batch, None);
    } else {
      SaveKeepsSound(w.db, Mutated(k, w, m.p, m.op).value, m.batch, Some(w.held[m.p].version));
    }
  }

  lemma SavingMoveKeeps(k: Machine, moves: seq<Move>, m: Move)
    requires KeepsIdentity(k) && WorldOk(k, moves) && LawfulMove(k, After(k, moves), m)
    requires Saved(k, After(k, moves), m).Some?
    ensures WorldOk(k, moves + [m])
  {
    var w, all := After(k, moves), moves + [m];
    assert all[..|all| - 1] == moves;
    var about := Concerns(w, m);
    assert m.AttemptMove? ==> HeldOk(k, w.held[m.p], Commits(k, moves, about));
    SaveTold(k, w, m, Commits(k, moves, about));
    forall id ensures Told(k, After(k, all).db, id, Commits(k, all, id)) {
      if id != about {
        OtherRunsKept(k, w, m, id, Commits(k, moves, id));
        assert Commits(k, all, id) == Commits(k, moves, id);
      }
    }
    forall p | p in w.held ensures HeldOk(k, w.held[p], Commits(k, all, w.held[p].body.id)) {
      var id := w.held[p].body.id;
      if id == about { HeldGrows(k, w.held[p], Commits(k, moves, about), AsCommit(m)); }
      else { assert Commits(k, all, id) == Commits(k, moves, id); }
    }
    SavedIsSound(k, w, m);
  }

  lemma IdleMoveKeeps(k: Machine, moves: seq<Move>, m: Move)
    requires KeepsIdentity(k) && WorldOk(k, moves) && Saved(k, After(k, moves), m).None?
    ensures WorldOk(k, moves + [m])
  {
    var w, all := After(k, moves), moves + [m];
    assert all[..|all| - 1] == moves;
    forall id ensures Commits(k, all, id) == Commits(k, moves, id) {}
    if m.LoadMove? && m.id in w.db.runs {
      var cs := Commits(k, moves, m.id);
      assert Told(k, w.db, m.id, cs) && Intact(w.db, m.id);
      assert cs[..|cs|] == cs;
      assert HeldOk(k, w.db.runs[m.id].snapshot, cs);
    }
  }

  lemma {:induction false} WorldKept(k: Machine, moves: seq<Move>)
    requires KeepsIdentity(k) && Lawful(k, moves)
    ensures WorldOk(k, moves)
  {
    if moves != [] {
      var before, m := moves[..|moves| - 1], Last(moves);
      forall i | 0 <= i < |before| ensures LawfulMove(k, After(k, before[..i]), before[i]) {
        assert before[..i] == moves[..i];
      }
      WorldKept(k, before);
      assert before + [m] == moves;
      if Saved(k, After(k, before), m).Some? {
        SavingMoveKeeps(k, before, m);
      } else {
        IdleMoveKeeps(k, before, m);
      }
    }
  }

  // ---- the theorems ----------------------------------------------------------------------------------

  /** However the processes interleave: a run's stored body is the serial application of exactly
      its committed operations in commit order, its version counts them, its log is their events
      concatenated and numbered from 1, and `load` finds every stored run intact. */
  lemma StoreIsSerial(k: Machine, moves: seq<Move>, id: Id)
    requires KeepsIdentity(k) && Lawful(k, moves)
    ensures var db, cs := After(k, moves).db, Commits(k, moves, id);
      && (id in db.runs <==> cs != [])
      && (id in db.runs ==>
            && Serial(k, cs) && db.runs[id].snapshot.body == Replay(k, cs)
            && db.runs[id].version == |cs| && Intact(db, id))
      && EventsOf(db.events, id) == Number(Batches(cs), 0)
  {
    WorldKept(k, moves);
    assert Told(k, After(k, moves).db, id, Commits(k, moves, id));
  }

  lemma StaleSavesNothing(k: Machine, w: World, p: int, op: Kernel.Op, batch: seq<Event>, cs: seq<Commit>)
    requires KeepsIdentity(k) && p in w.held && Told(k, w.db, w.held[p].body.id, cs)
    requires cs != [] && w.held[p].version != |cs|
    ensures Saved(k, w, AttemptMove(p, op, batch)).None?
  {}

  /** An attempt from a stale snapshot saves nothing. */
  lemma StaleAttemptIsRefused(k: Machine, moves: seq<Move>, p: int, op: Kernel.Op, batch: seq<Event>)
    requires KeepsIdentity(k) && Lawful(k, moves) && p in After(k, moves).held
    requires var s := After(k, moves).held[p]; s.version != |Commits(k, moves, s.body.id)|
    ensures Moved(k, After(k, moves), AttemptMove(p, op, batch)) == After(k, moves)
  {
    WorldKept(k, moves);
    var w := After(k, moves);
    var cs := Commits(k, moves, w.held[p].body.id);
    assert Told(k, w.db, w.held[p].body.id, cs) && HeldOk(k, w.held[p], cs);
    StaleSavesNothing(k, w, p, op, batch, cs);
  }

  // ---- with the control plane's operations ----------------------------------------------------------

  ghost function Walter(mgr: Id): Machine {
    Machine((r, op) => Kernel.Step(mgr, r, op), (r, op) => Kernel.Drawn(r, op))
  }

  lemma {:induction false} AddEachKeepsId(r: Run, add: seq<Task>)
    requires KernelOps.AddEach(r, add).Ok?
    ensures KernelOps.AddEach(r, add).value.id == r.id
    decreases |add|
  {
    if add != [] { AddEachKeepsId(KernelOps.Put(r, add[0].id, add[0]), add[1..]); }
  }

  lemma TaskOpKeepsId(mgr: Id, r: Run, op: Kernel.Op)
    requires KernelTheorems.TaskOp(op) && !op.AcceptOp? && !op.RecoverOp? && Kernel.Mutation(mgr, r, op).Ok?
    ensures Kernel.Mutation(mgr, r, op).value.id == r.id
  {}

  lemma JudgementKeepsId(mgr: Id, r: Run, op: Kernel.Op)
    requires (op.AcceptOp? || op.RecoverOp?) && Kernel.Mutation(mgr, r, op).Ok?
    ensures Kernel.Mutation(mgr, r, op).value.id == r.id
  {}

  lemma ReplanKeepsId(mgr: Id, r: Run, op: Kernel.Op)
    requires op.ApplyOp? && Kernel.Mutation(mgr, r, op).Ok?
    ensures Kernel.Mutation(mgr, r, op).value.id == r.id
  {}

  predicate GateStep(op: Kernel.Op) {
    KernelTheorems.GateOp(op) || op.SetCapabilityOp? || op.ApplyEscalationOp?
  }

  lemma GateOpKeepsId(mgr: Id, r: Run, op: Kernel.Op)
    requires GateStep(op) && Kernel.Mutation(mgr, r, op).Ok?
    ensures Kernel.Mutation(mgr, r, op).value.id == r.id
  {}

  lemma SideOpKeepsId(mgr: Id, r: Run, op: Kernel.Op)
    requires KernelTheorems.SideOp(op) && Kernel.Mutation(mgr, r, op).Ok?
    ensures Kernel.Mutation(mgr, r, op).value.id == r.id
  {
    KernelTheorems.SideOpFrame(mgr, r, op, Kernel.Mutation(mgr, r, op).value);
  }

  lemma OtherOpKeepsId(mgr: Id, r: Run, op: Kernel.Op)
    requires !KernelTheorems.TaskOp(op) && !op.ApplyOp? && Kernel.Mutation(mgr, r, op).Ok?
    ensures Kernel.Mutation(mgr, r, op).value.id == r.id
  {
    if op.AddTasksOp? { AddEachKeepsId(r, op.add); }
    else if KernelTheorems.SideOp(op) { SideOpKeepsId(mgr, r, op); }
    else if GateStep(op) { GateOpKeepsId(mgr, r, op); }
  }

  lemma StepKeepsId(mgr: Id, r: Run, op: Kernel.Op)
    requires Kernel.Step(mgr, r, op).Ok?
    ensures Kernel.Step(mgr, r, op).value.id == r.id
  {
    if op.ApplyOp? {
      ReplanKeepsId(mgr, r, op);
    } else if op.AcceptOp? || op.RecoverOp? {
      JudgementKeepsId(mgr, r, op);
    } else if KernelTheorems.TaskOp(op) {
      TaskOpKeepsId(mgr, r, op);
    } else {
      OtherOpKeepsId(mgr, r, op);
    }
  }

  lemma WalterKeepsIdentity(mgr: Id)
    ensures KeepsIdentity(Walter(mgr))
  {
    forall r, op | Walter(mgr).step(r, op).Ok? ensures Walter(mgr).step(r, op).value.id == r.id {
      StepKeepsId(mgr, r, op);
    }
  }

  lemma WalterCommits(mgr: Id, r: Run, op: Kernel.Op)
    requires Walter(mgr).drawn(r, op) && Walter(mgr).step(r, op).Ok?
    ensures Kernel.Committed(mgr, r, op, Walter(mgr).step(r, op).value)
  {}

  lemma {:induction false} SerialIsHistory(mgr: Id, cs: seq<Commit>)
    returns (runs: seq<Run>, ops: seq<Kernel.Op>)
    requires Serial(Walter(mgr), cs)
    ensures Kernel.History(mgr, runs, ops) && Last(runs) == Replay(Walter(mgr), cs) && |runs| == |cs|
  {
    if |cs| == 1 {
      runs, ops := [cs[0].body], [];
    } else {
      var before := cs[..|cs| - 1];
      runs, ops := SerialIsHistory(mgr, before);
      var next := Replay(Walter(mgr), cs);
      WalterCommits(mgr, Last(runs), Last(cs).op);
      Kernel.HistoryExtends(mgr, runs, ops, Last(cs).op, next);
      runs, ops := runs + [next], ops + [Last(cs).op];
    }
  }

  /** So a stored run is one the control plane reaches alone, and satisfies its invariant. */
  lemma StoredRunsAreReachable(mgr: Id, moves: seq<Move>, id: Id) returns (runs: seq<Run>, ops: seq<Kernel.Op>)
    requires Lawful(Walter(mgr), moves) && id in After(Walter(mgr), moves).db.runs
    ensures Kernel.History(mgr, runs, ops) && |runs| == After(Walter(mgr), moves).db.runs[id].version
    ensures Last(runs) == After(Walter(mgr), moves).db.runs[id].snapshot.body
    ensures KernelInvariant.Inv(mgr, After(Walter(mgr), moves).db.runs[id].snapshot.body)
  {
    WalterKeepsIdentity(mgr);
    StoreIsSerial(Walter(mgr), moves, id);
    runs, ops := SerialIsHistory(mgr, Commits(Walter(mgr), moves, id));
    KernelTheorems.HistoryKeeps(mgr, runs, ops, |runs| - 1);
  }
}
