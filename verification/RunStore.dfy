/** The snapshot store: version-checked saves, a numbered event log and integrity-checked loads
    (src/walter/store.py).  Every write transaction is one atomic step. */
module RunStore {
  import opened Base
  import opened RunModel

  datatype Event = Event(runId: Id, sequence: nat, kind: Id)

  datatype EventRow = EventRow(sequence: nat, event: Event)

  /** What the snapshot column holds: the run with its own version and event cursor. */
  datatype Snapshot = Snapshot(version: nat, cursor: nat, body: Run)

  datatype Row = Row(version: nat, snapshot: Snapshot)

  datatype Db = Db(runs: map<Id, Row>, events: map<Id, seq<EventRow>>)

  datatype StoreError =
    | EventRequired | ConcurrentUpdate | ForeignEvent | UnknownRun
    | SnapshotMismatch | CursorMismatch | CorruptEvent

  function EventsOf(events: map<Id, seq<EventRow>>, id: Id): seq<EventRow> {
    if id in events then events[id] else []
  }

  // ---- the log ------------------------------------------------------------------------------

  /** INSERT into a table whose rows are kept in primary-key order. */
  function InsertRow(rows: seq<EventRow>, row: EventRow): Option<seq<EventRow>> {
    if rows == [] || row.sequence < rows[0].sequence then Some([row] + rows)
    else if row.sequence == rows[0].sequence then None
    else
      match InsertRow(rows[1..], row)
      case None => None
      case Some(rest) => Some([rows[0]] + rest)
  }

  lemma {:induction false} InsertLast(rows: seq<EventRow>, row: EventRow)
    requires forall i :: 0 <= i < |rows| ==> rows[i].sequence < row.sequence
    ensures InsertRow(rows, row) == Some(rows + [row])
  {
    if rows != [] {
      InsertLast(rows[1..], row);
      assert rows + [row] == [rows[0]] + (rows[1..] + [row]);
    } else {
      assert [row] + rows == rows + [row];
    }
  }

  function Stamped(e: Event, n: nat): EventRow { EventRow(n, e.(sequence := n)) }

  /** The rows of a batch of events that follows the first `from` ones. */
  function Number(events: seq<Event>, from: nat): (rows: seq<EventRow>)
    ensures |rows| == |events|
  {
    seq(|events|, i requires 0 <= i < |events| => Stamped(events[i], from + i + 1))
  }

  lemma NumberSplit(a: seq<Event>, b: seq<Event>, from: nat)
    ensures Number(a + b, from) == Number(a, from) + Number(b, from + |a|)
  {}

  /** Row i carries number i + 1, in both places, and belongs to this run. */
  ghost predicate RowIntact(rows: seq<EventRow>, id: Id, i: nat) requires i < |rows| {
    && rows[i].sequence == i + 1 && rows[i].event.sequence == rows[i].sequence && rows[i].event.runId == id
  }

  /** What `load` checks besides the snapshot's own shape. */
  ghost predicate Intact(db: Db, id: Id) requires id in db.runs {
    var row, rows := db.runs[id], EventsOf(db.events, id);
    && row.snapshot.body.id == id && row.snapshot.version == row.version
    && row.snapshot.cursor == |rows|
    && forall i :: 0 <= i < |rows| ==> RowIntact(rows, id, i)
  }

  ghost predicate Sound(db: Db) {
    && (forall id :: id in db.runs ==> Intact(db, id))
    && (forall id :: id in db.events && id !in db.runs ==> db.events[id] == [])
  }

  // ---- one save -----------------------------------------------------------------------------

  function StoredCursor(runs: map<Id, Row>, id: Id): nat {
    if id in runs then runs[id].snapshot.cursor else 0
  }

  predicate VersionMatches(runs: map<Id, Row>, id: Id, expected: Option<nat>) {
    if id in runs then expected == Some(runs[id].version) else expected.None?
  }

  function NextVersion(expected: Option<nat>): nat {
    if expected.Some? then expected.value + 1 else 1
  }

  predicate OwnEvents(events: seq<Event>, id: Id) { forall e :: e in events ==> e.runId == id }

  function Written(db: Db, run: Run, events: seq<Event>, version: nat): Db {
    var cursor := StoredCursor(db.runs, run.id);
    Db(db.runs[run.id := Row(version, Snapshot(version, cursor + |events|, run))],
       db.events[run.id := EventsOf(db.events, run.id) + Number(events, cursor)])
  }

  function SaveDb(db: Db, run: Run, events: seq<Event>, expected: Option<nat>): Result<Db, StoreError> {
    if events == [] then Err(EventRequired)
    else if !VersionMatches(db.runs, run.id, expected) then Err(ConcurrentUpdate)
    else if !OwnEvents(events, run.id) then Err(ForeignEvent)
    else Ok(Written(db, run, events, NextVersion(expected)))
  }

  /** A sound store stays sound, so `load` never finds it corrupt. */
  lemma SaveKeepsSound(db: Db, run: Run, events: seq<Event>, expected: Option<nat>)
    requires Sound(db) && SaveDb(db, run, events, expected).Ok?
    ensures Sound(SaveDb(db, run, events, expected).value)
  {
    var db' := SaveDb(db, run, events, expected).value;
    var before, after := EventsOf(db.events, run.id), EventsOf(db'.events, run.id);
    var cursor := StoredCursor(db.runs, run.id);
    assert run.id in db.runs ==> Intact(db, run.id);
    forall i | 0 <= i < |after| ensures RowIntact(after, run.id, i) {
      if i < |before| {
        assert RowIntact(before, run.id, i);
      } else {
        assert after[i] == Stamped(events[i - |before|], i + 1) && events[i - |before|] in events;
      }
    }
    forall id | id in db'.runs && id != run.id ensures Intact(db', id) {
      assert Intact(db, id);
      assert EventsOf(db'.events, id) == EventsOf(db.events, id);
    }
  }

  lemma SequencesFollow(db: Db, id: Id)
    requires Sound(db)
    ensures var rows := EventsOf(db.events, id); forall j :: 0 <= j < |rows| ==> rows[j].sequence == j + 1
  {
    var rows := EventsOf(db.events, id);
    forall j | 0 <= j < |rows| ensures rows[j].sequence == j + 1 {
      assert Intact(db, id) && RowIntact(rows, id, j);
    }
  }

  // ---- the store as an object -----------------------------------------------------------------

  class Store {
    var runs: map<Id, Row>
    var events: map<Id, seq<EventRow>>

    ghost function Contents(): Db reads this { Db(runs, events) }

    ghost predicate Valid() reads this { Sound(Contents()) }

    constructor ()
      ensures Valid() && Contents() == Db(map[], map[])
    {
      runs, events := map[], map[];
    }

    /** Writes the row and its events, or rolls back to what was there. */
    method Save(run: Run, batch: seq<Event>, expected: Option<nat>) returns (r: Result<Snapshot, StoreError>)
      requires Valid()
      modifies this
      ensures Valid()
      ensures var saved := SaveDb(old(Contents()), run, batch, expected);
        if saved.Err? then r == Err(saved.error) && Contents() == old(Contents())
        else Contents() == saved.value && r == Ok(runs[run.id].snapshot)
    {
      if batch == [] { return Err(EventRequired); }
      ghost var before := Contents();
      var runs0, events0 := runs, events;
      if !VersionMatches(runs, run.id, expected) { return Err(StoreError.ConcurrentUpdate); }
      var cursor := StoredCursor(runs, run.id);
      var version := NextVersion(expected);
      var candidate := Snapshot(version, cursor + |batch|, run);
      runs := runs[run.id := Row(version, candidate)];
      var rows := EventsOf(events0, run.id);
      SequencesFollow(before, run.id);
      assert run.id in runs0 ==> Intact(before, run.id);
      var inserted := InsertAll(rows, batch, run.id, cursor);
      if inserted.None? {
        runs, events := runs0, events0;
        return Err(ForeignEvent);
      }
      events := events[run.id := inserted.value];
      SaveKeepsSound(before, run, batch, expected);
      return Ok(candidate);
    }

    /** The inserts of a batch; None when an event belongs to another run. */
    method InsertAll(start: seq<EventRow>, batch: seq<Event>, id: Id, cursor: nat) returns (r: Option<seq<EventRow>>)
      requires |start| == cursor && forall j :: 0 <= j < |start| ==> start[j].sequence == j + 1
      ensures r == if OwnEvents(batch, id) then Some(start + Number(batch, cursor)) else None
    {
      var rows := start;
      for i := 0 to |batch|
        invariant rows == start + Number(batch[..i], cursor) && OwnEvents(batch[..i], id)
        invariant forall j :: 0 <= j < |rows| ==> rows[j].sequence == j + 1
      {
        if batch[i].runId != id {
          assert batch[i] in batch;
          return None;
        }
        var row := Stamped(batch[i], cursor + i + 1);
        InsertLast(rows, row);
        rows := InsertRow(rows, row).value;
        assert batch[..i + 1] == batch[..i] + [batch[i]];
      }
      assert batch[..|batch|] == batch;
      return Some(rows);
    }

    /** `load`: refuses exactly what is missing or not intact. */
    method Load(id: Id) returns (r: Result<Snapshot, StoreError>)
      ensures r.Ok? <==> id in runs && Intact(Contents(), id)
      ensures r.Ok? ==> r.value == runs[id].snapshot
      ensures r == Err(UnknownRun) <==> id !in runs
      ensures Valid() && id in runs ==> r.Ok?
    {
      if id !in runs { return Err(UnknownRun); }
      var snapshot := runs[id].snapshot;
      if snapshot.body.id != id { return Err(SnapshotMismatch); }
      if snapshot.version != runs[id].version { return Err(SnapshotMismatch); }
      var rows := EventsOf(events, id);
      var cursor := if rows != [] then Last(rows).sequence else 0;
      if |rows| != cursor || cursor != snapshot.cursor {
        assert rows != [] && Intact(Contents(), id) ==> RowIntact(rows, id, |rows| - 1);
        return Err(CursorMismatch);
      }
      for i := 0 to |rows|
        invariant forall j :: 0 <= j < i ==> RowIntact(rows, id, j)
      {
        var row := rows[i];
        if row.sequence != i + 1 || row.event.sequence != row.sequence || row.event.runId != id {
          assert !RowIntact(rows, id, i);
          return Err(CorruptEvent);
        }
      }
      return Ok(snapshot);
    }

    /** (snapshot version, event cursor): the cursor is the largest number in the log. */
    method VersionInfo(id: Id) returns (r: Result<(nat, nat), StoreError>)
      requires Valid()
      ensures r == if id in runs then Ok((runs[id].version, |EventsOf(events, id)|)) else Err(UnknownRun)
    {
      if id !in runs { return Err(UnknownRun); }
      assert Intact(Contents(), id);
      var rows := EventsOf(events, id);
      var largest := 0;
      for i := 0 to |rows|
        invariant largest == i
      {
        assert RowIntact(rows, id, i);
        if largest < rows[i].sequence { largest := rows[i].sequence; }
      }
      return Ok((runs[id].version, largest));
    }
  }
}
