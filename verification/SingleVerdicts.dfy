/** What a batch click or a seeding round does to each single row, said on the row: whether it is
    sent back to work, and whose request it becomes. */
module SingleVerdicts {
  import opened Options
  import opened Tables
  import opened Execution
  import opened Maintenance
  import opened Planning
  import opened Seeding
  import opened ClickLaws
  import V = Verdicts

  predicate Idle(row: TaskRow, now: int) {
    !V.Running(row, now) && row.state != Made
  }

  /** Nothing can have been made outside in anybody's name. */
  predicate Nameless(row: TaskRow) {
    row.instance.None? && (row.phase == Ready || row.phase == Created)
  }

  /** A chosen idle row is a fresh try; if nothing was made for it, it is now the clicker's. */
  predicate SingleOutcome(was: Db, db: Db, now: int, id: int, chosen: bool, who: Option<string>)
    requires id in was.tasks
  {
    var row := was.tasks[id];
    && id in db.tasks
    && db.tasks[id] == (if chosen && Idle(row, now) then V.AtWork(row, row.instance.Some?) else row)
    && (if chosen && Idle(row, now) && Nameless(row) && who.Some? then id in db.applicants && db.applicants[id] == who.value
        else SameApplicant(was, db, id))
  }

  lemma ReopenedRow(was: Db, now: int, id: int)
    requires id in was.tasks
    ensures Reopened(was, now, id).tasks[id] == if Idle(was.tasks[id], now) then V.AtWork(was.tasks[id], was.tasks[id].instance.Some?) else was.tasks[id]
  {
  }

  lemma TouchedMeans(was: Db, now: int, id: int)
    requires id in was.tasks && was.tasks[id].group.None?
    ensures Touched(was, now, id) <==> Idle(was.tasks[id], now) && Nameless(was.tasks[id])
  {
  }

  // ----- a batch click -----------------------------------------------------------------

  /** A single row that the seeding finds among the touched is one whose click counted. */
  lemma TouchedRecord(was: Db, tidy: Db, now: int, config: int, records: seq<string>, newcomers: seq<string>, added: seq<string>, touched: seq<string>, id: int)
    requires UniqueRecords(was) && id in was.tasks && was.tasks[id].group.None? && was.tasks[id].config == config
    requires id in tidy.tasks && tidy.tasks[id].config == config && tidy.tasks[id].record == was.tasks[id].record
    requires TouchedAre(was, now, config, records, added, touched) && forall r :: r in added ==> !HasRow(tidy, config, r)
    ensures was.tasks[id].record in touched <==>
      was.tasks[id].record != "" && was.tasks[id].record in records && Touched(was, now, id)
  {
    var r := was.tasks[id].record;
    assert HasRow(tidy, config, r);
    if r != "" && r in records && Touched(was, now, id) { assert id in SelectedSingles(was, config, records); }
    forall other | other in SelectedSingles(was, config, records) && was.tasks[other].record == r ensures other == id { }
  }

  /** Of the single rows, exactly the idle ones of the configuration whose records were selected
      are sent back, and exactly those of them for which nothing was made change hands. */
  lemma SingleAfterClick(
    was: Db, db: Db, now: int, config: int, base: int,
    records: seq<string>, keys: seq<GroupKey>, who: Option<string>,
    aggregate: bool, d: Digests, signatureOf: string -> string, uuidOf: string -> Uuid, st: Steps, id: int)
    requires Clicked(was, db, now, config, base, records, keys, who, aggregate, d, signatureOf, uuidOf, st)
    requires UniqueRecords(was) && id in was.tasks && was.tasks[id].group.None?
    ensures var row := was.tasks[id];
      SingleOutcome(was, db, now, id, row.config == config && row.record != "" && row.record in records, who)
  {
    var maintained := if Selected(records) == {} then [] else keys;
    ReopenedRow(was, now, id);
    TouchedMeans(was, now, id);
    MaintainedFrame(st.retried, now, maintained, Selected(records), who);
    assert forall k :: !InGroup(st.retried.tasks[id], k);
    SeededIsAdmitted(st.tidy, st.seeded, config, base, st.newcomers, aggregate, d, signatureOf, uuidOf, st.planned, st.added, st.refused);
    if was.tasks[id].config == config {
      TouchedRecord(was, st.tidy, now, config, records, st.newcomers, st.added, st.touched, id);
    }
  }

  // ----- a round ---------------------------------------------------------------------------

  lemma {:induction false} WalkTouches(was: Db, now: int, config: int, base: int, rowOf: map<string, int>, records: seq<string>, reopens: bool, discovers: bool, r: string)
    requires forall x :: x in rowOf ==> rowOf[x] in was.tasks
    ensures var walk := Walked(was, now, config, base, rowOf, records, reopens, discovers);
      && (r in walk.touched <==> r in records && Touches(FateOf(was, now, rowOf, r, reopens, discovers)))
      && (r in walk.added <==> r in records && FateOf(was, now, rowOf, r, reopens, discovers).Inserts?)
    decreases records
  {
    if records == [] {
    } else {
      var init, last := records[..|records| - 1], records[|records| - 1];
      assert records == init + [last];
      WalkTouches(was, now, config, base, rowOf, init, reopens, discovers, r);
    }
  }

  predicate Chosen(was: Db, rowOf: map<string, int>, records: seq<string>, reopens: bool, id: int)
    requires id in was.tasks
  {
    reopens && was.tasks[id].group.None? && was.tasks[id].record in records && was.tasks[id].record in rowOf
  }

  lemma {:induction false} RowAfterWalk(was: Db, now: int, config: int, base: int, rowOf: map<string, int>, records: seq<string>, reopens: bool, discovers: bool, id: int)
    requires id in was.tasks && IdsBelow(was, base)
    requires forall r :: r in rowOf ==> rowOf[r] in was.tasks && was.tasks[rowOf[r]].record == r
    requires was.tasks[id].record in rowOf ==> rowOf[was.tasks[id].record] == id
    ensures var walk := Walked(was, now, config, base, rowOf, records, reopens, discovers);
      && id in walk.db.tasks && SameApplicant(was, walk.db, id)
      && walk.db.tasks[id] == if Chosen(was, rowOf, records, reopens, id) then Reopened(was, now, id).tasks[id] else was.tasks[id]
    decreases records
  {
    if records == [] {
    } else {
      var init, last := records[..|records| - 1], records[|records| - 1];
      assert records == init + [last];
      RowAfterWalk(was, now, config, base, rowOf, init, reopens, discovers, id);
    }
  }

  /** A round that reopens sends back exactly the idle single rows among its records, and the
      same rows change hands as after a batch click; all other rows it leaves alone. */
  lemma RowAfterRound(was: Db, db: Db, now: int, config: int, base: int, rowOf: map<string, int>, records: seq<string>, reopens: bool, discovers: bool, who: Option<string>, id: int)
    requires Rounded(was, db, now, config, base, rowOf, records, reopens, discovers, who)
    requires UniqueRecords(was) && IdsBelow(was, base) && id in was.tasks
    ensures var row := was.tasks[id];
      SingleOutcome(was, db, now, id, reopens && row.group.None? && row.config == config && row.record != "" && row.record in records, who)
  {
    var row := was.tasks[id];
    ReopenedRow(was, now, id);
    if row.group.None? { TouchedMeans(was, now, id); }
    RowOfIsOwn(was, config, rowOf, records, id);
    WalkTouches(was, now, config, base, rowOf, records, reopens, discovers, row.record);
    if row.record in rowOf && rowOf[row.record] != id {
      OtherRow(was, now, config, base, rowOf, records, reopens, discovers, id);
    } else {
      RowAfterWalk(was, now, config, base, rowOf, records, reopens, discovers, id);
    }
  }

  lemma RowOfIsOwn(was: Db, config: int, rowOf: map<string, int>, records: seq<string>, id: int)
    requires UniqueRecords(was) && Finds(was, config, records, rowOf) && id in was.tasks
    ensures was.tasks[id].config == config && was.tasks[id].record in rowOf ==> rowOf[was.tasks[id].record] == id
    ensures was.tasks[id].config == config && was.tasks[id].record != "" && was.tasks[id].record in records ==> was.tasks[id].record in rowOf
  {
  }

  /** The row of another configuration with the same record is not meant. */
  lemma {:induction false} OtherRow(was: Db, now: int, config: int, base: int, rowOf: map<string, int>, records: seq<string>, reopens: bool, discovers: bool, id: int)
    requires id in was.tasks && IdsBelow(was, base)
    requires forall r :: r in rowOf ==> rowOf[r] in was.tasks && was.tasks[rowOf[r]].record == r && rowOf[r] != id
    ensures var walk := Walked(was, now, config, base, rowOf, records, reopens, discovers);
      id in walk.db.tasks && SameApplicant(was, walk.db, id) && walk.db.tasks[id] == was.tasks[id]
    decreases records
  {
    if records == [] {
    } else {
      OtherRow(was, now, config, base, rowOf, records[..|records| - 1], reopens, discovers, id);
    }
  }

  lemma {:induction false} AddedByWalk(was: Db, now: int, config: int, base: int, rowOf: map<string, int>, records: seq<string>, reopens: bool, discovers: bool, id: int)
    requires IdsBelow(was, base) && forall r :: r in rowOf ==> rowOf[r] in was.tasks
    ensures var walk := Walked(was, now, config, base, rowOf, records, reopens, discovers);
      id in walk.db.tasks && id !in was.tasks ==>
        base <= id < base + |walk.added| && walk.db.tasks[id] == NewTask(config, walk.added[id - base], None, 0)
    decreases records
  {
    if records == [] {
    } else {
      AddedByWalk(was, now, config, base, rowOf, records[..|records| - 1], reopens, discovers, id);
    }
  }

  /** What a round adds are single rows for records that had none, and they are the clicker's. */
  lemma NewAfterRound(was: Db, db: Db, now: int, config: int, base: int, rowOf: map<string, int>, records: seq<string>, reopens: bool, discovers: bool, who: Option<string>, id: int)
    requires Rounded(was, db, now, config, base, rowOf, records, reopens, discovers, who)
    requires UniqueRecords(was) && IdsBelow(was, base) && id in db.tasks && id !in was.tasks
    ensures discovers && db.tasks[id] == NewTask(config, db.tasks[id].record, None, 0)
    ensures db.tasks[id].record in records && db.tasks[id].record != "" && !HasRow(was, config, db.tasks[id].record)
    ensures who.Some? ==> id in db.applicants && db.applicants[id] == who.value
  {
    var walk := Walked(was, now, config, base, rowOf, records, reopens, discovers);
    AddedByWalk(was, now, config, base, rowOf, records, reopens, discovers, id);
    var r := db.tasks[id].record;
    assert r in walk.added;
    WalkTouches(was, now, config, base, rowOf, records, reopens, discovers, r);
  }
}
