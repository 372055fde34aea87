/** What a whole click or round comes to: no record is lost, no row with a fact of its own
    goes, and a frozen applicant stays, over any number of clicks. */
module ClickLaws {
  import opened Options
  import opened Tables
  import opened Execution
  import opened Maintenance
  import opened Planning
  import opened Seeding

  /** What a round does: its pass over the records, then the clicker written down. */
  ghost predicate Rounded(was: Db, db: Db, now: int, config: int, base: int, rowOf: map<string, int>, records: seq<string>, reopens: bool, discovers: bool, who: Option<string>) {
    && Finds(was, config, records, rowOf) && (forall r :: r in rowOf ==> r in records && r != "")
    && var walk := Walked(was, now, config, base, rowOf, records, reopens, discovers);
    if who.None? then db == walk.db else Persisted(walk.db, db, config, walk.touched, who.value)
  }

  // ----- a click, step by step --------------------------------------------------

  function CandidatesOf(records: seq<string>, signatureOf: string -> string): (cs: seq<Candidate>)
    ensures |cs| == |records| && forall i :: 0 <= i < |cs| ==> cs[i] == Candidate(records[i], signatureOf(records[i]))
  {
    seq(|records|, i requires 0 <= i < |records| => Candidate(records[i], signatureOf(records[i])))
  }

  /** The newcomers got single rows, or rows in the groups planned for them. */
  ghost predicate NewcomersSeeded(
    was: Db, db: Db, config: int, base: int, newcomers: seq<string>,
    aggregate: bool, d: Digests, signatureOf: string -> string, uuidOf: string -> Uuid,
    planned: seq<Planned>, added: seq<string>, refused: seq<string>)
  {
    if aggregate then
      && Plan(d, config, CandidatesOf(newcomers, signatureOf), planned)
      && exists trace :: TracedTo(was, config, base, planned, uuidOf, trace, Seeded(db, added, refused))
    else
      added == newcomers && refused == [] && Grown(was, db, config, base, added) && NewAreSingle(db, base) && db.groups == was.groups
  }

  /** The tables after each step of a click, and what the steps settled on. */
  datatype Steps = Steps(
    retried: Db, tidy: Db, seeded: Db,
    newcomers: seq<string>, planned: seq<Planned>, added: seq<string>, refused: seq<string>, touched: seq<string>)

  ghost predicate NewcomersFound(tidy: Db, config: int, records: seq<string>, newcomers: seq<string>) {
    Distinct(newcomers) && forall r :: r in newcomers <==> r in records && r != "" && !HasRow(tidy, config, r)
  }

  function SelectedSingles(was: Db, config: int, records: seq<string>): set<int> {
    set id | id in was.tasks && was.tasks[id].config == config && was.tasks[id].record != "" && was.tasks[id].record in records && was.tasks[id].group.None?
  }

  function Selected(records: seq<string>): set<string> {
    set r | r in records && r != ""
  }

  /** The clicker's records: rows reopened before they went out, and new rows. */
  ghost predicate TouchedAre(was: Db, now: int, config: int, records: seq<string>, added: seq<string>, touched: seq<string>) {
    forall r :: r in touched <==> r in added || exists id :: id in SelectedSingles(was, config, records) && was.tasks[id].record == r && Touched(was, now, id)
  }

  /** What a click does: reopen the single rows, maintain the groups, seed the newcomers,
      write the clicker down. */
  ghost predicate Clicked(
    was: Db, db: Db, now: int, config: int, base: int,
    records: seq<string>, keys: seq<GroupKey>, who: Option<string>,
    aggregate: bool, d: Digests, signatureOf: string -> string, uuidOf: string -> Uuid, st: Steps)
  {
    && SinglesReopened(was, st.retried, now, SelectedSingles(was, config, records))
    && st.tidy == Maintained(st.retried, now, if Selected(records) == {} then [] else keys, Selected(records), who)
    && NewcomersFound(st.tidy, config, records, st.newcomers)
    && NewcomersSeeded(st.tidy, st.seeded, config, base, st.newcomers, aggregate, d, signatureOf, uuidOf, st.planned, st.added, st.refused)
    && TouchedAre(was, now, config, records, st.added, st.touched)
    && (if who.None? then db == st.seeded else Persisted(st.seeded, db, config, st.touched, who.value))
  }

  lemma SinglesFound(was: Db, config: int, records: seq<string>, rowOf: map<string, int>)
    requires UniqueRecords(was) && Finds(was, config, records, rowOf) && forall r :: r in rowOf ==> r in records && r != ""
    ensures Singles(was, records, rowOf) == SelectedSingles(was, config, records)
  {
    forall id | id in SelectedSingles(was, config, records) ensures id in Singles(was, records, rowOf) {
      var r := was.tasks[id].record;
      assert r in rowOf && rowOf[r] == id;
    }
  }

  lemma FoundAreNew(db: Db, config: int, records: seq<string>, rowOf: map<string, int>, newcomers: seq<string>)
    requires Finds(db, config, records, rowOf) && Distinct(newcomers)
    requires forall r :: r in newcomers <==> r in records && r != "" && r !in rowOf
    ensures NewcomersFound(db, config, records, newcomers)
  {
    forall r ensures r in newcomers <==> r in records && r != "" && !HasRow(db, config, r) {
      if r in rowOf {
        var id := rowOf[r];
        assert id in db.tasks && db.tasks[id].config == config && db.tasks[id].record == r;
      }
    }
  }

  lemma TouchedFound(was: Db, now: int, config: int, records: seq<string>, rowOf: map<string, int>, retried: seq<string>, added: seq<string>)
    requires UniqueRecords(was) && Finds(was, config, records, rowOf) && forall r :: r in rowOf ==> r in records && r != ""
    requires forall r :: r in retried <==> r in records && r in rowOf && Touched(was, now, rowOf[r])
    ensures TouchedAre(was, now, config, records, added, retried + added)
  {
    forall r | r in retried ensures exists id :: id in SelectedSingles(was, config, records) && was.tasks[id].record == r && Touched(was, now, id) {
      assert rowOf[r] in SelectedSingles(was, config, records);
    }
    forall id | id in SelectedSingles(was, config, records) && Touched(was, now, id) ensures was.tasks[id].record in retried {
      assert was.tasks[id].record in rowOf;
    }
  }

  lemma SeededIsAdmitted(
    was: Db, db: Db, config: int, base: int, newcomers: seq<string>,
    aggregate: bool, d: Digests, signatureOf: string -> string, uuidOf: string -> Uuid,
    planned: seq<Planned>, added: seq<string>, refused: seq<string>)
    requires Distinct(newcomers)
    requires NewcomersSeeded(was, db, config, base, newcomers, aggregate, d, signatureOf, uuidOf, planned, added, refused)
    ensures Admitted(was, db, config, base, newcomers, d, added, refused) && (!aggregate ==> refused == [])
  {
    if aggregate {
      var trace :| TracedTo(was, config, base, planned, uuidOf, trace, Seeded(db, added, refused));
      AdmittedInGroups(was, db, config, base, newcomers, d, CandidatesOf(newcomers, signatureOf), planned, uuidOf, trace, added, refused);
    } else {
      AdmittedSingly(was, db, config, base, newcomers, d);
    }
  }

  lemma SeededUnique(
    tidy: Db, seeded: Db, config: int, base: int, records: seq<string>, newcomers: seq<string>,
    aggregate: bool, d: Digests, signatureOf: string -> string, uuidOf: string -> Uuid,
    planned: seq<Planned>, added: seq<string>, refused: seq<string>)
    requires UniqueRecords(tidy) && NewcomersFound(tidy, config, records, newcomers)
    requires NewcomersSeeded(tidy, seeded, config, base, newcomers, aggregate, d, signatureOf, uuidOf, planned, added, refused)
    ensures UniqueRecords(seeded) && "" !in added
  {
    SeededIsAdmitted(tidy, seeded, config, base, newcomers, aggregate, d, signatureOf, uuidOf, planned, added, refused);
    GrowsUnique(tidy, seeded, config, base, added);
  }

  /** After the click every selected record has its row, or was turned away because the key
      of its whole group was taken; that never happens when keys name their members. */
  lemma ClickLosesNothing(
    was: Db, db: Db, now: int, config: int, base: int,
    records: seq<string>, keys: seq<GroupKey>, who: Option<string>,
    aggregate: bool, d: Digests, signatureOf: string -> string, uuidOf: string -> Uuid, st: Steps)
    requires Clicked(was, db, now, config, base, records, keys, who, aggregate, d, signatureOf, uuidOf, st)
    requires ListsGroups(was, config, keys)
    ensures NothingLost(db, config, records, st.refused) && (!aggregate ==> st.refused == [])
    ensures CollisionFree(d, config) && KeysNameMembers(was, config, d) ==> st.refused == [] && KeysNameMembers(db, config, d)
  {
    SeededIsAdmitted(st.tidy, st.seeded, config, base, st.newcomers, aggregate, d, signatureOf, uuidOf, st.planned, st.added, st.refused);
    RowsForAll(st.tidy, st.seeded, config, base, records, st.newcomers, st.added, st.refused);
    assert NothingLost(db, config, records, st.refused) by { SameRows(st.seeded, db, config, records, st.refused); }
    if CollisionFree(d, config) && KeysNameMembers(was, config, d) {
      TidyIsWellNamed(was, st.retried, now, config, records, keys, who, d, st.newcomers);
    }
  }

  lemma SameRows(seeded: Db, db: Db, config: int, records: seq<string>, refused: seq<string>)
    requires db.tasks == seeded.tasks && NothingLost(seeded, config, records, refused)
    ensures NothingLost(db, config, records, refused)
  {
    assert forall r :: HasRow(seeded, config, r) ==> HasRow(db, config, r);
  }

  lemma RowsForAll(tidy: Db, seeded: Db, config: int, base: int, records: seq<string>, newcomers: seq<string>, added: seq<string>, refused: seq<string>)
    requires Grown(tidy, seeded, config, base, added) && NewcomersFound(tidy, config, records, newcomers)
    requires forall r :: r in newcomers ==> r in added || r in refused
    ensures NothingLost(seeded, config, records, refused)
  {
    forall r | r in records && r != "" && r !in refused ensures HasRow(seeded, config, r) {
      GrowsRows(tidy, seeded, config, base, added, r);
    }
  }

  lemma TidyIsWellNamed(was: Db, retried: Db, now: int, config: int, records: seq<string>, keys: seq<GroupKey>, who: Option<string>, d: Digests, newcomers: seq<string>)
    requires CollisionFree(d, config) && KeysNameMembers(was, config, d) && ListsGroups(was, config, keys)
    requires SinglesReopened(was, retried, now, SelectedSingles(was, config, records))
    requires var tidy := Maintained(retried, now, if Selected(records) == {} then [] else keys, Selected(records), who);
      NewcomersFound(tidy, config, records, newcomers)
    ensures var tidy := Maintained(retried, now, if Selected(records) == {} then [] else keys, Selected(records), who);
      WellNamed(tidy, config, d, newcomers)
  {
    var maintained := if Selected(records) == {} then [] else keys;
    var tidy := Maintained(retried, now, maintained, Selected(records), who);
    StillNamed(was, retried, config, d);
    MaintainedKeepsRows(retried, now, maintained, Selected(records), who);
    StillNamed(retried, tidy, config, d);
    if newcomers != [] {
      assert newcomers[0] in newcomers;
      assert newcomers[0] in Selected(records);
      Peopled(was, retried, now, config, keys, Selected(records), who);
    }
  }

  /** A click deletes a row only with its untried group, and leaves frozen groups alone. */
  lemma ClickSparesRows(
    was: Db, db: Db, now: int, config: int, base: int,
    records: seq<string>, keys: seq<GroupKey>, who: Option<string>,
    aggregate: bool, d: Digests, signatureOf: string -> string, uuidOf: string -> Uuid, st: Steps)
    requires Clicked(was, db, now, config, base, records, keys, who, aggregate, d, signatureOf, uuidOf, st)
    requires UniqueRecords(was) && IdsBelow(was, base) && ListsGroups(was, config, keys)
    ensures RowsSpared(was, db, now, Selected(records)) && FrozenKept(was, db)
  {
    var maintained := if Selected(records) == {} then [] else keys;
    SeededIsAdmitted(st.tidy, st.seeded, config, base, st.newcomers, aggregate, d, signatureOf, uuidOf, st.planned, st.added, st.refused);
    ClickSpares(was, st.retried, st.seeded, now, SelectedSingles(was, config, records), maintained, Selected(records), who, config, base, st.added);
    if who.Some? {
      TouchedAreUngrouped(was, st.tidy, st.seeded, now, config, base, records, st.added, st.touched);
      PersistSpares(was, st.seeded, db, now, config, base, st.touched, who.value);
    }
  }

  lemma TouchedAreUngrouped(was: Db, tidy: Db, seeded: Db, now: int, config: int, base: int, records: seq<string>, added: seq<string>, touched: seq<string>)
    requires UniqueRecords(was) && IdsBelow(was, base) && RowsSpared(was, seeded, now, Selected(records))
    requires Grown(tidy, seeded, config, base, added) && (forall r :: r in added ==> !HasRow(tidy, config, r))
    requires TouchedAre(was, now, config, records, added, touched)
    ensures forall id :: id in was.tasks && id in seeded.tasks && seeded.tasks[id].group.Some? && seeded.tasks[id].config == config ==>
      seeded.tasks[id].record !in touched
  {
    forall id | id in was.tasks && id in seeded.tasks && seeded.tasks[id].group.Some? && seeded.tasks[id].config == config
      ensures seeded.tasks[id].record !in touched
    {
      var r := seeded.tasks[id].record;
      assert RowSpared(was, seeded, now, Selected(records), id);
      assert id in tidy.tasks;
      assert HasRow(tidy, config, r);
      forall other | other in SelectedSingles(was, config, records) && was.tasks[other].record == r ensures other == id { }
    }
  }

  /** Clicks keep records unique. */
  lemma ClickKeepsUnique(
    was: Db, db: Db, now: int, config: int, base: int,
    records: seq<string>, keys: seq<GroupKey>, who: Option<string>,
    aggregate: bool, d: Digests, signatureOf: string -> string, uuidOf: string -> Uuid, st: Steps)
    requires Clicked(was, db, now, config, base, records, keys, who, aggregate, d, signatureOf, uuidOf, st) && UniqueRecords(was)
    ensures UniqueRecords(db)
  {
    MaintainedKeepsRows(st.retried, now, if Selected(records) == {} then [] else keys, Selected(records), who);
    StillUnique(was, st.tidy);
    SeededUnique(st.tidy, st.seeded, config, base, records, st.newcomers, aggregate, d, signatureOf, uuidOf, st.planned, st.added, st.refused);
  }

  /** A round deletes nothing, leaves groups alone, and loses no record it may discover. */
  lemma RoundKeeps(was: Db, db: Db, now: int, config: int, base: int, rowOf: map<string, int>, records: seq<string>, reopens: bool, discovers: bool, who: Option<string>)
    requires Rounded(was, db, now, config, base, rowOf, records, reopens, discovers, who)
    requires UniqueRecords(was) && 0 <= base && IdsBelow(was, base) && Distinct(records)
    ensures UniqueRecords(db) && (Whole(was) ==> Whole(db))
    ensures RowsSpared(was, db, now, {}) && FrozenKept(was, db)
    ensures discovers ==> NothingLost(db, config, records, [])
  {
    var walk := Walked(was, now, config, base, rowOf, records, reopens, discovers);
    var mid, ids := WalkKeeps(was, now, config, base, rowOf, records, reopens, discovers);
    RoundSpares(was, mid, walk.db, now, ids, config, base, records, rowOf, walk.added);
    if who.Some? {
      TouchedAreSingle(was, mid, walk.db, now, config, base, {}, rowOf, walk.touched, walk.added);
      PersistSpares(was, walk.db, db, now, config, base, walk.touched, who.value);
      SameTasks(walk.db, db, config, records);
    }
  }

  /** Where the pass of a round ends, before the clicker is written down. */
  lemma WalkEnds(was: Db, now: int, config: int, base: int, rowOf: map<string, int>, records: seq<string>, reopens: bool, discovers: bool)
    requires Finds(was, config, records, rowOf) && forall r :: r in rowOf ==> r in records && r != ""
    requires UniqueRecords(was) && 0 <= base && IdsBelow(was, base) && Distinct(records)
    ensures var walk := Walked(was, now, config, base, rowOf, records, reopens, discovers);
      && UniqueRecords(walk.db) && IdsBelow(walk.db, base + |walk.added|) && "" !in walk.touched
      && (!discovers ==> walk.db.tasks.Keys == was.tasks.Keys)
  {
    var walk := Walked(was, now, config, base, rowOf, records, reopens, discovers);
    var mid, ids := WalkKeeps(was, now, config, base, rowOf, records, reopens, discovers);
    RoundSpares(was, mid, walk.db, now, ids, config, base, records, rowOf, walk.added);
  }

  lemma SameTasks(a: Db, b: Db, config: int, records: seq<string>)
    requires b.tasks == a.tasks && b.groups == a.groups
    ensures UniqueRecords(a) ==> UniqueRecords(b)
    ensures Whole(a) ==> Whole(b)
    ensures NothingLost(a, config, records, []) ==> NothingLost(b, config, records, [])
  {
    if NothingLost(a, config, records, []) { SameRows(a, b, config, records, []); }
  }

  // ----- many clicks ---------------------------------------------------------

  /** A batch click on some configuration, by whomever and with whatever selection. */
  ghost predicate ByClick(was: Db, db: Db) {
    exists now, config, base, records, keys, who, aggregate, d, signatureOf, uuidOf, st ::
      && IdsBelow(was, base) && ListsGroups(was, config, keys)
      && Clicked(was, db, now, config, base, records, keys, who, aggregate, d, signatureOf, uuidOf, st)
  }

  /** A seeding round of some configuration: a poll, or a click on one record. */
  ghost predicate ByRound(was: Db, db: Db) {
    exists now, config, base, rowOf, records, reopens, discovers, who ::
      && 0 <= base && IdsBelow(was, base) && Distinct(records)
      && Rounded(was, db, now, config, base, rowOf, records, reopens, discovers, who)
  }

  /** The states before and after each of a sequence of clicks and rounds. */
  ghost predicate Clicks(dbs: seq<Db>)
    decreases |dbs|
  {
    |dbs| > 1 ==> (ByClick(dbs[0], dbs[1]) || ByRound(dbs[0], dbs[1])) && Clicks(dbs[1..])
  }

  lemma OneClick(was: Db, db: Db)
    requires UniqueRecords(was) && ByClick(was, db)
    ensures UniqueRecords(db) && FrozenKept(was, db)
  {
    var now, config, base, records, keys, who, aggregate, d, signatureOf, uuidOf, st :|
      && IdsBelow(was, base) && ListsGroups(was, config, keys)
      && Clicked(was, db, now, config, base, records, keys, who, aggregate, d, signatureOf, uuidOf, st);
    ClickKeepsUnique(was, db, now, config, base, records, keys, who, aggregate, d, signatureOf, uuidOf, st);
    ClickSparesRows(was, db, now, config, base, records, keys, who, aggregate, d, signatureOf, uuidOf, st);
  }

  lemma OneRound(was: Db, db: Db)
    requires UniqueRecords(was) && ByRound(was, db)
    ensures UniqueRecords(db) && FrozenKept(was, db)
  {
    var now, config, base, rowOf, records, reopens, discovers, who :|
      && 0 <= base && IdsBelow(was, base) && Distinct(records)
      && Rounded(was, db, now, config, base, rowOf, records, reopens, discovers, who);
    RoundKeeps(was, db, now, config, base, rowOf, records, reopens, discovers, who);
  }

  /** However often and by whomever it is clicked, a frozen group keeps its applicant. */
  lemma {:induction false} ApplicantSurvivesClicks(dbs: seq<Db>, key: GroupKey, id: int)
    requires dbs != [] && Clicks(dbs) && UniqueRecords(dbs[0]) && LeaderFrozen(dbs[0], key, id)
    ensures var last := dbs[|dbs| - 1];
      LeaderFrozen(last, key, id) && last.groups[key] == dbs[0].groups[key] && last.applicants[id] == dbs[0].applicants[id]
    decreases |dbs|
  {
    if |dbs| <= 1 {
    } else {
      if ByClick(dbs[0], dbs[1]) { OneClick(dbs[0], dbs[1]); } else { OneRound(dbs[0], dbs[1]); }
      ApplicantSurvivesClicks(dbs[1..], key, id);
    }
  }
}
