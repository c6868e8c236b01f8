/** `record_usage`: an append that is retried after a lost race. */
module UsageAppend {
  import opened Base
  import opened RunModel
  import opened RunStore

  const USAGE_RECORD_ATTEMPTS := 5

  const RECORDED: Id := 1   // the kind of the usage event

  /** A save that another process commits between this process's load and its own save. */
  datatype Rival = Rival(body: Run, batch: seq<Event>)

  predicate RivalOk(id: Id, r: Rival) { r.body.id == id && r.batch != [] && OwnEvents(r.batch, id) }

  predicate RivalsOk(id: Id, rivals: seq<Rival>) { forall r :: r in rivals ==> RivalOk(id, r) }

  /** The store once the rivals have committed, each at the version it found. */
  function Overtaken(db: Db, rivals: seq<Rival>): (r: Db)
    ensures db.runs.Keys <= r.runs.Keys
  {
    if rivals == [] then db
    else
      var before, rival := Overtaken(db, rivals[..|rivals| - 1]), Last(rivals);
      Written(before, rival.body, rival.batch,
              NextVersion(if rival.body.id in before.runs then Some(before.runs[rival.body.id].version) else None))
  }

  /** The store after the rivals of the first n attempts. */
  function OvertakenBy(db: Db, rounds: seq<seq<Rival>>, n: nat): (r: Db)
    requires n <= |rounds|
    ensures db.runs.Keys <= r.runs.Keys
  {
    if n == 0 then db else Overtaken(OvertakenBy(db, rounds, n - 1), rounds[n - 1])
  }

  /** The store with the record appended to the run as it stands. */
  function Appended(db: Db, id: Id, record: Id): Db requires id in db.runs {
    var row := db.runs[id];
    Written(db, row.snapshot.body.(usage := row.snapshot.body.usage + [record]),
            [Event(id, 0, RECORDED)], row.version + 1)
  }

  /** The first attempt no rival interferes with. */
  function FirstQuiet(rounds: seq<seq<Rival>>): (n: nat)
    ensures n <= |rounds|
    ensures n < |rounds| ==> rounds[n] == []
    ensures forall i :: 0 <= i < n ==> rounds[i] != []
  {
    if rounds == [] || rounds[0] == [] then 0 else 1 + FirstQuiet(rounds[1..])
  }

  lemma {:induction false} OvertakenVersion(db: Db, id: Id, rivals: seq<Rival>)
    requires id in db.runs && RivalsOk(id, rivals)
    ensures Overtaken(db, rivals).runs[id].version == db.runs[id].version + |rivals|
  {
    if rivals != [] {
      assert Last(rivals) in rivals && RivalOk(id, Last(rivals));
      OvertakenVersion(db, id, rivals[..|rivals| - 1]);
    }
  }

  method CommitRivals(store: Store, id: Id, rivals: seq<Rival>)
    requires store.Valid() && id in store.runs && RivalsOk(id, rivals)
    modifies store
    ensures store.Valid() && store.Contents() == Overtaken(old(store.Contents()), rivals)
  {
    ghost var before := store.Contents();
    for i := 0 to |rivals|
      invariant store.Valid() && id in store.runs
      invariant store.Contents() == Overtaken(before, rivals[..i])
    {
      assert RivalOk(id, rivals[i]) by { assert rivals[i] in rivals; }
      assert rivals[..i + 1][..i] == rivals[..i];
      var saved := store.Save(rivals[i].body, rivals[i].batch, Some(store.runs[id].version));
    }
    assert rivals[..|rivals|] == rivals;
  }

  /** One attempt, overtaken by some rivals between its load and its save. */
  method Attempt(store: Store, id: Id, record: Id, rivals: seq<Rival>) returns (e: Option<StoreError>)
    requires store.Valid() && id in store.runs && RivalsOk(id, rivals)
    modifies store
    ensures store.Valid()
    ensures rivals == [] ==> e == None && store.Contents() == Appended(old(store.Contents()), id, record)
    ensures rivals != [] ==>
      e == Some(StoreError.ConcurrentUpdate) && store.Contents() == Overtaken(old(store.Contents()), rivals)
  {
    var loaded := store.Load(id);
    assert Intact(store.Contents(), id);
    var body := loaded.value.body;
    body := body.(usage := body.usage + [record]);
    OvertakenVersion(store.Contents(), id, rivals);
    CommitRivals(store, id, rivals);
    var saved := store.Save(body, [Event(id, 0, RECORDED)], Some(loaded.value.version));
    return if saved.Ok? then None else Some(saved.error);
  }

  ghost predicate RecordUsageOutcome(before: Db, id: Id, record: Id, rounds: seq<seq<Rival>>,
                                     e: Option<StoreError>, after: Db) {
    if id !in before.runs then e == Some(UnknownRun) && after == before
    else
      var quiet := FirstQuiet(rounds);
      var overtaken := OvertakenBy(before, rounds, quiet);
      if quiet < |rounds| then e == None && after == Appended(overtaken, id, record)
      else e == Some(StoreError.ConcurrentUpdate) && after == overtaken
  }

  /** Whatever the rivals do: the record is appended exactly once, to the newest body, at the
      first attempt that no rival overtakes; if each attempt is overtaken it is not appended at
      all and the lost race is reported. */
  method RecordUsage(store: Store, id: Id, record: Id, rounds: seq<seq<Rival>>) returns (e: Option<StoreError>)
    requires store.Valid() && |rounds| == USAGE_RECORD_ATTEMPTS
    requires forall i :: 0 <= i < |rounds| ==> RivalsOk(id, rounds[i])
    modifies store
    ensures store.Valid()
    ensures RecordUsageOutcome(old(store.Contents()), id, record, rounds, e, store.Contents())
  {
    if id !in store.runs { return Some(UnknownRun); }
    ghost var before := store.Contents();
    e := None;
    for attempt := 0 to USAGE_RECORD_ATTEMPTS
      invariant store.Valid() && id in store.runs && attempt <= FirstQuiet(rounds)
      invariant store.Contents() == OvertakenBy(before, rounds, attempt)
      invariant attempt > 0 ==> e == Some(StoreError.ConcurrentUpdate)
    {
      e := Attempt(store, id, record, rounds[attempt]);
      if e.None? {
        assert FirstQuiet(rounds) == attempt;
        return;
      }
      assert FirstQuiet(rounds) != attempt;
    }
  }

  // ---- what an append amounts to ----------------------------------------------------------------

  function RivalBatches(rivals: seq<Rival>): seq<Event> {
    if rivals == [] then [] else RivalBatches(rivals[..|rivals| - 1]) + Last(rivals).batch
  }

  function RoundBatches(rounds: seq<seq<Rival>>, n: nat): seq<Event> requires n <= |rounds| {
    if n == 0 then [] else RoundBatches(rounds, n - 1) + RivalBatches(rounds[n - 1])
  }

  function RivalCount(rounds: seq<seq<Rival>>, n: nat): nat requires n <= |rounds| {
    if n == 0 then 0 else RivalCount(rounds, n - 1) + |rounds[n - 1]|
  }

  /** One run's version went up by so many commits and its log gained this batch. */
  ghost predicate Grew(db: Db, db': Db, id: Id, commits: nat, batch: seq<Event>) {
    && Sound(db') && id in db.runs && id in db'.runs
    && db'.runs[id].version == db.runs[id].version + commits
    && EventsOf(db'.events, id) == EventsOf(db.events, id) + Number(batch, |EventsOf(db.events, id)|)
  }

  lemma GrewTwice(db: Db, mid: Db, db': Db, id: Id, m: nat, a: seq<Event>, n: nat, b: seq<Event>)
    requires Grew(db, mid, id, m, a) && Grew(mid, db', id, n, b)
    ensures Grew(db, db', id, m + n, a + b)
  {
    NumberSplit(a, b, |EventsOf(db.events, id)|);
  }

  lemma WrittenGrew(db: Db, id: Id, body: Run, batch: seq<Event>)
    requires Sound(db) && id in db.runs && RivalOk(id, Rival(body, batch))
    ensures Grew(db, Written(db, body, batch, db.runs[id].version + 1), id, 1, batch)
  {
    assert Intact(db, id);
    SaveKeepsSound(db, body, batch, Some(db.runs[id].version));
  }

  lemma {:induction false} OvertakenGrew(db: Db, id: Id, rivals: seq<Rival>)
    requires Sound(db) && id in db.runs && RivalsOk(id, rivals)
    ensures Grew(db, Overtaken(db, rivals), id, |rivals|, RivalBatches(rivals))
  {
    if rivals != [] {
      var front, rival := rivals[..|rivals| - 1], Last(rivals);
      assert rival in rivals && RivalOk(id, rival);
      OvertakenGrew(db, id, front);
      WrittenGrew(Overtaken(db, front), id, rival.body, rival.batch);
      GrewTwice(db, Overtaken(db, front), Overtaken(db, rivals), id, |front|, RivalBatches(front), 1, rival.batch);
    }
  }

  lemma {:induction false} RoundsGrew(db: Db, id: Id, rounds: seq<seq<Rival>>, n: nat)
    requires Sound(db) && id in db.runs && n <= |rounds|
    requires forall i :: 0 <= i < |rounds| ==> RivalsOk(id, rounds[i])
    ensures Grew(db, OvertakenBy(db, rounds, n), id, RivalCount(rounds, n), RoundBatches(rounds, n))
  {
    if n > 0 {
      var mid := OvertakenBy(db, rounds, n - 1);
      RoundsGrew(db, id, rounds, n - 1);
      OvertakenGrew(mid, id, rounds[n - 1]);
      GrewTwice(db, mid, OvertakenBy(db, rounds, n), id, RivalCount(rounds, n - 1), RoundBatches(rounds, n - 1),
                |rounds[n - 1]|, RivalBatches(rounds[n - 1]));
    }
  }

  /** An append that landed after n overtaken attempts: the body is the newest one with one
      record more, and version and log count every rival's commit and this one exactly once. */
  lemma AppendLandsOnce(db: Db, id: Id, record: Id, rounds: seq<seq<Rival>>, n: nat)
    requires Sound(db) && id in db.runs && n <= |rounds|
    requires forall i :: 0 <= i < |rounds| ==> RivalsOk(id, rounds[i])
    ensures var before := OvertakenBy(db, rounds, n);
      var body := before.runs[id].snapshot.body;
      var after := Appended(before, id, record);
      && id in after.runs && after.runs[id].snapshot.body == body.(usage := body.usage + [record])
      && Grew(db, after, id, RivalCount(rounds, n) + 1, RoundBatches(rounds, n) + [Event(id, 0, RECORDED)])
  {
    var before := OvertakenBy(db, rounds, n);
    var body := before.runs[id].snapshot.body;
    RoundsGrew(db, id, rounds, n);
    assert Intact(before, id);
    WrittenGrew(before, id, body.(usage := body.usage + [record]), [Event(id, 0, RECORDED)]);
    GrewTwice(db, before, Appended(before, id, record), id, RivalCount(rounds, n), RoundBatches(rounds, n),
              1, [Event(id, 0, RECORDED)]);
  }
}
