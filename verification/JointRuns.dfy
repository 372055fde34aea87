/** Workers, batch clicks, seeding rounds and single clicks in one run: the clicks keep what
    the workers rely on, and a frozen applicant survives them all. */
module JointRuns {
  import opened Options
  import opened Tables
  import opened Execution
  import opened Maintenance
  import opened Planning
  import opened Seeding
  import opened ClickLaws
  import GP = GroupProtocol

  // ----- what a click leaves of the workers' world ------------------------------

  /** Nobody is given a row, and a row held in a group is as it was. */
  ghost predicate HoldersStay(was: Db, db: Db) {
    forall id :: id in db.tasks && db.tasks[id].holder.Some? ==>
      && id in was.tasks && was.tasks[id].holder == db.tasks[id].holder
      && (db.tasks[id].group.Some? ==> db.tasks[id] == was.tasks[id])
  }

  predicate Untaken(g: GroupRow) {
    g.phase == Ready && g.instance.None?
  }

  /** A group row is as it was, or new. */
  ghost predicate GroupsStay(was: Db, db: Db) {
    forall k :: k in db.groups ==> (k in was.groups && db.groups[k] == was.groups[k]) || Untaken(db.groups[k])
  }

  predicate SameGroup(was: Db, db: Db, k: GroupKey) {
    k in was.groups && k in db.groups && db.groups[k] == was.groups[k]
  }

  /** So is the group row of every row that is held. */
  ghost predicate HeldGroupsStay(was: Db, db: Db) {
    forall id :: id in db.tasks && db.tasks[id].holder.Some? && db.tasks[id].group.Some? ==> SameGroup(was, db, db.tasks[id].group.value)
  }

  ghost predicate Quiet(was: Db, db: Db) {
    HoldersStay(was, db) && GroupsStay(was, db) && HeldGroupsStay(was, db)
  }

  lemma SinglesQuiet(was: Db, mid: Db, now: int, ids: set<int>)
    requires SinglesReopened(was, mid, now, ids)
    ensures HoldersStay(was, mid) && mid.groups == was.groups
  {
  }

  lemma GroupStepQuiet(db: Db, now: int, key: GroupKey, selected: set<string>, who: Option<string>)
    ensures HoldersStay(db, GroupStep(db, now, key, selected, who))
  {
  }

  lemma {:induction false} MaintainedQuiet(db: Db, now: int, keys: seq<GroupKey>, selected: set<string>, who: Option<string>)
    ensures HoldersStay(db, Maintained(db, now, keys, selected, who))
    decreases keys
  {
    if keys == [] {
    } else {
      MaintainedQuiet(db, now, keys[..|keys| - 1], selected, who);
      GroupStepQuiet(Maintained(db, now, keys[..|keys| - 1], selected, who), now, keys[|keys| - 1], selected, who);
    }
  }

  lemma GrownQuiet(was: Db, db: Db, config: int, base: int, added: seq<string>)
    requires Grown(was, db, config, base, added)
    ensures HoldersStay(was, db)
  {
    forall id | id in db.tasks && id !in was.tasks ensures db.tasks[id].holder.None? {
      assert Fresh(db.tasks[id], config, added[id - base]);
    }
  }

  lemma HoldersStayTwice(a: Db, b: Db, c: Db)
    requires HoldersStay(a, b) && HoldersStay(b, c)
    ensures HoldersStay(a, c)
  {
  }

  ghost predicate Settles(was: Db, db: Db) {
    match db
    case Db(_, _, _) => GroupsStay(was, db) && Whole(db)
  }

  /** Seeding in groups: old groups keep their rows, new ones are untaken, all are whole. */
  lemma {:induction false} TraceQuiet(was: Db, config: int, base: int, planned: seq<Planned>, uuidOf: string -> Uuid, trace: seq<Seeded>, n: nat)
    requires Traced(was, config, base, planned, uuidOf, trace) && n < |trace| && Whole(was)
    ensures Settles(was, trace[n].db)
    decreases n
  {
    if n == 0 {
    } else {
      TraceQuiet(was, config, base, planned, uuidOf, trace, n - 1);
      assert StepAt(trace, n - 1, config, base, planned, uuidOf);
      var at, g := trace[n - 1], planned[n - 1];
      StepIsOneGroupMore(at, trace[n], config, base, g, uuidOf);
      StepSettles(was, at.db, trace[n].db, GroupKey(config, g.key), base + |at.touched|);
    }
  }

  /** Old rows and groups are the same; new rows are seated in the one new group. */
  ghost predicate OneGroupMore(at: Db, next: Db, key: GroupKey, from: int) {
    && (forall k :: k in at.groups ==> k in next.groups && next.groups[k] == at.groups[k])
    && (forall k :: k in next.groups && k !in at.groups ==> k == key && Untaken(next.groups[k]))
    && (forall id :: id in at.tasks ==> id in next.tasks && next.tasks[id] == at.tasks[id])
    && (forall id :: id in next.tasks && id !in at.tasks ==>
          key !in at.groups && key in next.groups && next.tasks[id].group == Some(key) && next.tasks[id].rank == id - from)
  }

  lemma StepIsOneGroupMore(at: Seeded, next: Seeded, config: int, base: int, g: Planned, uuidOf: string -> Uuid)
    requires StepTo(at, next, config, base, g, uuidOf)
    ensures OneGroupMore(at.db, next.db, GroupKey(config, g.key), base + |at.touched|)
  {
  }

  lemma StepSettles(was: Db, at: Db, next: Db, key: GroupKey, from: int)
    requires Settles(was, at) && OneGroupMore(at, next, key, from)
    ensures Settles(was, next)
  {
    forall i, j, k | i in next.tasks && j in next.tasks && IsLeader(next.tasks[i], k) && IsLeader(next.tasks[j], k) ensures i == j {
      if i in at.tasks && j in at.tasks { assert IsLeader(at.tasks[i], k) && IsLeader(at.tasks[j], k); }
    }
  }

  lemma SeededQuiet(
    was: Db, db: Db, config: int, base: int, newcomers: seq<string>,
    aggregate: bool, d: Digests, signatureOf: string -> string, uuidOf: string -> Uuid,
    planned: seq<Planned>, added: seq<string>, refused: seq<string>)
    requires Whole(was) && NewcomersSeeded(was, db, config, base, newcomers, aggregate, d, signatureOf, uuidOf, planned, added, refused)
    ensures Whole(db) && GroupsStay(was, db) && Grown(was, db, config, base, added)
  {
    if aggregate {
      var trace :| TracedTo(was, config, base, planned, uuidOf, trace, Seeded(db, added, refused));
      TraceQuiet(was, config, base, planned, uuidOf, trace, |planned|);
      AllGrown(was, config, base, planned, uuidOf, trace, |planned|);
    } else {
      NewSinglesKeepWhole(was, db, config, base, added);
    }
  }

  lemma HeldGroupsKept(was: Db, tidy: Db, db: Db, config: int, base: int, added: seq<string>)
    requires Whole(tidy) && Grown(tidy, db, config, base, added) && HoldersStay(tidy, db)
    requires forall k :: k in tidy.groups ==> SameGroup(was, tidy, k)
    ensures HeldGroupsStay(was, db)
  {
    forall id | id in db.tasks && db.tasks[id].holder.Some? && db.tasks[id].group.Some? ensures SameGroup(was, db, db.tasks[id].group.value) {
      assert tidy.tasks[id] == db.tasks[id];
      assert SameGroup(was, tidy, db.tasks[id].group.value);
    }
  }

  lemma ClickQuiet(
    was: Db, db: Db, now: int, config: int, base: int,
    records: seq<string>, keys: seq<GroupKey>, who: Option<string>,
    aggregate: bool, d: Digests, signatureOf: string -> string, uuidOf: string -> Uuid, st: Steps)
    requires Clicked(was, db, now, config, base, records, keys, who, aggregate, d, signatureOf, uuidOf, st) && Whole(was)
    ensures Quiet(was, db) && Whole(db)
  {
    var maintained := if Selected(records) == {} then [] else keys;
    SinglesQuiet(was, st.retried, now, SelectedSingles(was, config, records));
    StillWhole(was, st.retried);
    MaintainedQuiet(st.retried, now, maintained, Selected(records), who);
    MaintainedFrame(st.retried, now, maintained, Selected(records), who);
    MaintainedIsWhole(st.retried, now, maintained, Selected(records), who);
    SeededQuiet(st.tidy, st.seeded, config, base, st.newcomers, aggregate, d, signatureOf, uuidOf, st.planned, st.added, st.refused);
    GrownQuiet(st.tidy, st.seeded, config, base, st.added);
    HoldersStayTwice(was, st.retried, st.tidy);
    HoldersStayTwice(was, st.tidy, st.seeded);
    forall k | k in st.tidy.groups ensures SameGroup(was, st.tidy, k) { }
    HeldGroupsKept(was, st.tidy, st.seeded, config, base, st.added);
    SameTables(was, st.seeded, db);
  }

  lemma SameTables(was: Db, seeded: Db, db: Db)
    requires Quiet(was, seeded) && Whole(seeded) && db.tasks == seeded.tasks && db.groups == seeded.groups
    ensures Quiet(was, db) && Whole(db)
  {
    assert HoldersStay(was, db) && GroupsStay(was, db);
    StillWhole(seeded, db);
    forall id | id in db.tasks && db.tasks[id].holder.Some? && db.tasks[id].group.Some? ensures SameGroup(was, db, db.tasks[id].group.value) {
      assert SameGroup(was, seeded, seeded.tasks[id].group.value);
    }
  }

  lemma {:induction false} WalkQuiet(was: Db, now: int, config: int, base: int, rowOf: map<string, int>, records: seq<string>, reopens: bool, discovers: bool)
    requires forall r :: r in rowOf ==> rowOf[r] in was.tasks
    ensures var walk := Walked(was, now, config, base, rowOf, records, reopens, discovers);
      HoldersStay(was, walk.db) && walk.db.groups == was.groups
    decreases records
  {
    if records == [] {
    } else {
      WalkQuiet(was, now, config, base, rowOf, records[..|records| - 1], reopens, discovers);
    }
  }

  lemma RoundQuiet(was: Db, db: Db, now: int, config: int, base: int, rowOf: map<string, int>, records: seq<string>, reopens: bool, discovers: bool, who: Option<string>)
    requires Rounded(was, db, now, config, base, rowOf, records, reopens, discovers, who) && Whole(was)
    ensures Quiet(was, db) && db.groups == was.groups
  {
    WalkQuiet(was, now, config, base, rowOf, records, reopens, discovers);
    forall id | id in db.tasks && db.tasks[id].holder.Some? && db.tasks[id].group.Some? ensures SameGroup(was, db, db.tasks[id].group.value) {
      assert was.tasks[id] == db.tasks[id];
    }
  }

  // ----- the invariant of the workers survives ------------------------------------

  ghost predicate WorkerInv(s: GP.State) {
    GP.Inv(s) && UniqueRecords(s.db)
  }

  lemma InvIsWhole(s: GP.State)
    requires GP.OneLeader(s) && GP.GroupsPresent(s)
    ensures Whole(s.db)
  {
  }

  function UuidsOf(db: Db): set<Uuid> {
    set k | k in db.groups :: db.groups[k].uuid
  }

  /** The uuid of a group row that is gone counts as retired. */
  function WithTables(s: GP.State, db: Db): GP.State {
    s.(db := db, retired := s.retired + (UuidsOf(s.db) - UuidsOf(db)))
  }

  /** New group rows have uuids that were never used before. */
  ghost predicate NewUuids(s: GP.State, db: Db) {
    && (forall k, l :: k in db.groups && l in db.groups && db.groups[k].uuid == db.groups[l].uuid ==> k == l)
    && (forall k :: k in db.groups && !SameGroup(s.db, db, k) ==> db.groups[k].uuid !in UuidsOf(s.db) && db.groups[k].uuid !in s.retired)
  }

  lemma UuidsStayDistinct(s: GP.State, db: Db)
    requires GP.UuidsDistinct(s) && NewUuids(s, db)
    ensures GP.UuidsDistinct(WithTables(s, db))
  {
    forall k | k in db.groups ensures db.groups[k].uuid !in WithTables(s, db).retired {
      assert db.groups[k].uuid in UuidsOf(db);
      if SameGroup(s.db, db, k) { assert s.db.groups[k].uuid !in s.retired; }
    }
  }

  lemma CodesStay(s: GP.State, db: Db)
    requires GP.CodesAgree(s) && GroupsStay(s.db, db)
    ensures GP.CodesAgree(WithTables(s, db))
  {
    forall k | k in db.groups ensures GP.CodeAgrees(WithTables(s, db), db.groups[k]) {
      if k in s.db.groups && db.groups[k] == s.db.groups[k] { assert GP.CodeAgrees(s, s.db.groups[k]); }
    }
  }

  /** Whoever owns a leader after a click owned it before, with the same group row. */
  lemma ActingStays(s: GP.State, db: Db, o: nat)
    requires Quiet(s.db, db) && GP.Acting(WithTables(s, db), o)
    ensures GP.Acting(s, o) && GP.GroupOf(s, o) == GP.GroupOf(WithTables(s, db), o)
  {
    var a := s.actors[o];
    assert IsLeader(db.tasks[a.claim.id], a.key);
    assert SameGroup(s.db, db, a.key);
  }

  lemma QuietKeepsInv(s: GP.State, db: Db)
    requires GP.Inv(s) && Quiet(s.db, db) && Whole(db) && NewUuids(s, db)
    ensures GP.Inv(WithTables(s, db))
  {
    var t := WithTables(s, db);
    UuidsStayDistinct(s, db);
    CodesStay(s, db);
    forall o | GP.Acting(t, o) ensures GP.MemoryHolds(t, o) {
      ActingStays(s, db, o);
      assert GP.MemoryHolds(s, o);
    }
  }

  // ----- joint runs -------------------------------------------------------------

  /** A step of a worker or of the group protocol; a batch click or a seeding round that leaves
      `db`; what a single click does to rows and applicants before and after its claim. */
  datatype Move =
    | Work(e: GP.Event)
    | BatchClick(db: Db)
    | Round(db: Db)
    | Admit(id: int, config: int, record: string, who: string)
    | Attach(id: int, who: string)
    | Refresh(id: int, who: string)

  ghost predicate Possible(s: GP.State, m: Move) {
    match m
    // Rows for groups come from batch clicks.
    case Work(e) => !e.Seed? && GP.Enabled(s, e)
    case BatchClick(db) => ByClick(s.db, db) && NewUuids(s, db)
    case Round(db) => ByRound(s.db, db)
    case Admit(id, config, record, _) => id !in s.db.tasks && !HasRow(s.db, config, record)
    case Attach(id, _) => id in s.db.tasks
    // The row has been taken out of its group by then.
    case Refresh(id, _) => id in s.db.tasks && s.db.tasks[id].group.None?
  }

  /** An applicant that is there stays. */
  function Attached(db: Db, id: int, who: string): Db {
    if id in db.applicants then db else db.(applicants := db.applicants[id := who])
  }

  function After(s: GP.State, m: Move): GP.State
    requires Possible(s, m)
  {
    match m
    case Work(e) => GP.Next(s, e)
    case BatchClick(db) => WithTables(s, db)
    case Round(db) => WithTables(s, db)
    case Admit(id, config, record, who) => s.(db := Attached(SetTask(s.db, id, NewTask(config, record, None, 0)), id, who))
    case Attach(id, who) => s.(db := Attached(s.db, id, who))
    case Refresh(id, who) => s.(db := s.db.(applicants := s.db.applicants[id := who]))
  }

  ghost predicate Run(s: GP.State, ms: seq<Move>, t: GP.State)
    decreases ms
  {
    if ms == [] then s == t else Possible(s, ms[0]) && Run(After(s, ms[0]), ms[1..], t)
  }

  lemma WorkKeepsUnique(s: GP.State, e: GP.Event)
    requires UniqueRecords(s.db) && GP.Enabled(s, e) && !e.Seed?
    ensures UniqueRecords(GP.Next(s, e).db)
  {
    SameRecords(s, e);
    StillUnique(s.db, GP.Next(s, e).db);
  }

  lemma SameRecords(s: GP.State, e: GP.Event)
    requires GP.Enabled(s, e) && !e.Seed?
    ensures forall id :: id in GP.Next(s, e).db.tasks ==>
      id in s.db.tasks && GP.Next(s, e).db.tasks[id].config == s.db.tasks[id].config && GP.Next(s, e).db.tasks[id].record == s.db.tasks[id].record
  {
    if GP.Writes(e) { SameRecordsByWrite(s, e); }
  }

  lemma SameRecordsByWrite(s: GP.State, e: GP.Event)
    requires GP.Enabled(s, e) && GP.Writes(e) && !e.Seed?
    ensures forall id :: id in GP.Next(s, e).db.tasks ==>
      id in s.db.tasks && GP.Next(s, e).db.tasks[id].config == s.db.tasks[id].config && GP.Next(s, e).db.tasks[id].record == s.db.tasks[id].record
  {
  }

  lemma SameTasksKeepInv(s: GP.State, t: GP.State)
    requires WorkerInv(s) && t == s.(db := s.db.(applicants := t.db.applicants))
    ensures WorkerInv(t)
  {
    forall o | GP.Acting(t, o) ensures GP.MemoryHolds(t, o) {
      assert GP.Acting(s, o) && GP.MemoryHolds(s, o);
    }
    assert forall k :: k in t.db.groups ==> GP.CodeAgrees(s, t.db.groups[k]);
  }

  lemma AdmitKeepsInv(s: GP.State, id: int, config: int, record: string, who: string)
    requires WorkerInv(s) && Possible(s, Admit(id, config, record, who))
    ensures WorkerInv(After(s, Admit(id, config, record, who)))
  {
    NewRowKeepsInv(s, id, config, record);
    SameTasksKeepInv(s.(db := SetTask(s.db, id, NewTask(config, record, None, 0))), After(s, Admit(id, config, record, who)));
  }

  lemma NewRowKeepsInv(s: GP.State, id: int, config: int, record: string)
    requires WorkerInv(s) && id !in s.db.tasks && !HasRow(s.db, config, record)
    ensures WorkerInv(s.(db := SetTask(s.db, id, NewTask(config, record, None, 0))))
  {
    var mid := s.(db := SetTask(s.db, id, NewTask(config, record, None, 0)));
    assert UniqueRecords(mid.db) by {
      forall i | i in s.db.tasks && s.db.tasks[i].config == config ensures s.db.tasks[i].record != record {
        assert !HasRow(s.db, config, record);
      }
    }
    assert GP.OneLeader(mid) by {
      forall i, j, k | i in mid.db.tasks && j in mid.db.tasks && IsLeader(mid.db.tasks[i], k) && IsLeader(mid.db.tasks[j], k) ensures i == j {
        assert IsLeader(s.db.tasks[i], k) && IsLeader(s.db.tasks[j], k);
      }
    }
    assert forall k :: k in mid.db.groups ==> GP.CodeAgrees(s, mid.db.groups[k]);
    forall o | GP.Acting(mid, o) ensures GP.MemoryHolds(mid, o) {
      assert GP.Acting(s, o) && GP.MemoryHolds(s, o);
    }
  }

  lemma BatchClickKeepsInv(s: GP.State, db: Db)
    requires WorkerInv(s) && ByClick(s.db, db) && NewUuids(s, db)
    ensures WorkerInv(WithTables(s, db))
  {
    OneClick(s.db, db);
    ByClickQuiet(s, db);
    QuietKeepsInv(s, db);
  }

  lemma ByClickQuiet(s: GP.State, db: Db)
    requires WorkerInv(s) && ByClick(s.db, db)
    ensures Quiet(s.db, db) && Whole(db)
  {
    InvIsWhole(s);
    var now, config, base, records, keys, who, aggregate, d, signatureOf, uuidOf, st :|
      && IdsBelow(s.db, base) && ListsGroups(s.db, config, keys)
      && Clicked(s.db, db, now, config, base, records, keys, who, aggregate, d, signatureOf, uuidOf, st);
    ClickQuiet(s.db, db, now, config, base, records, keys, who, aggregate, d, signatureOf, uuidOf, st);
  }

  lemma RoundKeepsInv(s: GP.State, db: Db)
    requires WorkerInv(s) && ByRound(s.db, db)
    ensures WorkerInv(WithTables(s, db))
  {
    InvIsWhole(s);
    RoundLeaves(s.db, db);
    QuietKeepsInv(s, db);
  }

  lemma RoundLeaves(was: Db, db: Db)
    requires UniqueRecords(was) && Whole(was) && ByRound(was, db)
    ensures UniqueRecords(db) && Whole(db) && Quiet(was, db) && db.groups == was.groups
  {
    var now, config, base, rowOf, records, reopens, discovers, who :|
      && 0 <= base && IdsBelow(was, base) && Distinct(records)
      && Rounded(was, db, now, config, base, rowOf, records, reopens, discovers, who);
    RoundLeavesAll(was, db, now, config, base, rowOf, records, reopens, discovers, who);
  }

  lemma RoundLeavesAll(was: Db, db: Db, now: int, config: int, base: int, rowOf: map<string, int>, records: seq<string>, reopens: bool, discovers: bool, who: Option<string>)
    requires UniqueRecords(was) && Whole(was) && 0 <= base && IdsBelow(was, base) && Distinct(records)
    requires Rounded(was, db, now, config, base, rowOf, records, reopens, discovers, who)
    ensures UniqueRecords(db) && Whole(db) && Quiet(was, db) && db.groups == was.groups
  {
    RoundKeeps(was, db, now, config, base, rowOf, records, reopens, discovers, who);
    RoundQuiet(was, db, now, config, base, rowOf, records, reopens, discovers, who);
  }

  lemma MoveKeepsInv(s: GP.State, m: Move)
    requires WorkerInv(s) && Possible(s, m)
    ensures WorkerInv(After(s, m))
  {
    match m
    case Work(e) =>
      GP.InvStep(s, e);
      WorkKeepsUnique(s, e);
    case BatchClick(db) => BatchClickKeepsInv(s, db);
    case Round(db) => RoundKeepsInv(s, db);
    case Admit(id, config, record, who) => AdmitKeepsInv(s, id, config, record, who);
    case Attach(_, _) => SameTasksKeepInv(s, After(s, m));
    case Refresh(_, _) => SameTasksKeepInv(s, After(s, m));
  }

  /** The workers' invariant and the uniqueness of records hold in every state of every run
      that mixes workers with batch clicks, rounds and single clicks. */
  lemma {:induction false} JointRunKeepsInv(s: GP.State, ms: seq<Move>, t: GP.State)
    requires WorkerInv(s) && Run(s, ms, t)
    ensures WorkerInv(t)
    decreases ms
  {
    if ms == [] {
    } else {
      MoveKeepsInv(s, ms[0]);
      JointRunKeepsInv(After(s, ms[0]), ms[1..], t);
    }
  }

  // ----- no instance is left behind ---------------------------------------------------

  /** What needs the workers to heed the guard on putting a phase back. */
  ghost predicate SafeInv(s: GP.State) {
    WorkerInv(s) && GP.Safe(s) && GP.NoBackfillPhase(s)
  }

  lemma QuietKeepsSafe(s: GP.State, db: Db)
    requires SafeInv(s) && Quiet(s.db, db) && NewUuids(s, db)
    ensures GP.Safe(WithTables(s, db)) && GP.NoBackfillPhase(WithTables(s, db))
  {
    var t := WithTables(s, db);
    forall u | u in s.service ensures u in GP.LiveUuids(t) || u in t.retired {
      if u !in s.retired { assert u in UuidsOf(s.db); }
    }
    forall k | k in db.groups && !SameGroup(s.db, db, k) ensures db.groups[k].uuid !in s.service {
      assert db.groups[k].uuid !in UuidsOf(s.db);
    }
    forall o | GP.Acting(t, o) && GP.FreshTry(t.actors[o].pc) ensures GP.GroupOf(t, o).uuid !in t.service { ActingStays(s, db, o); }
  }

  lemma SameGroupsKeepSafe(s: GP.State, t: GP.State)
    requires SafeInv(s) && t == s.(db := t.db) && t.db.groups == s.db.groups && HoldersStay(s.db, t.db)
    ensures GP.Safe(t) && GP.NoBackfillPhase(t)
  {
    assert GP.LiveUuids(t) == GP.LiveUuids(s);
    forall o | GP.Acting(t, o) && GP.FreshTry(t.actors[o].pc) ensures GP.GroupOf(t, o).uuid !in t.service {
      assert GP.Acting(s, o);
    }
  }

  lemma MoveKeepsSafe(s: GP.State, m: Move)
    requires SafeInv(s) && Possible(s, m) && (m.Work? ==> GP.Guarded(s, m.e))
    ensures SafeInv(After(s, m))
  {
    MoveKeepsInv(s, m);
    match m
    case Work(e) =>
      GP.SafeStep(s, e);
      GP.PhaseStep(s, e);
    case BatchClick(db) =>
      ByClickQuiet(s, db);
      QuietKeepsSafe(s, db);
    case Round(db) =>
      InvIsWhole(s);
      RoundLeaves(s.db, db);
      QuietKeepsSafe(s, db);
    case Admit(_, _, _, _) => SameGroupsKeepSafe(s, After(s, m));
    case Attach(_, _) => SameGroupsKeepSafe(s, After(s, m));
    case Refresh(_, _) => SameGroupsKeepSafe(s, After(s, m));
  }

  ghost predicate GuardedRun(s: GP.State, ms: seq<Move>, t: GP.State)
    decreases ms
  {
    if ms == [] then s == t
    else Possible(s, ms[0]) && (ms[0].Work? ==> GP.Guarded(s, ms[0].e)) && GuardedRun(After(s, ms[0]), ms[1..], t)
  }

  lemma {:induction false} JointRunKeepsSafe(s: GP.State, ms: seq<Move>, t: GP.State)
    requires SafeInv(s) && GuardedRun(s, ms, t)
    ensures SafeInv(t)
    decreases ms
  {
    if ms == [] {
    } else {
      MoveKeepsSafe(s, ms[0]);
      JointRunKeepsSafe(After(s, ms[0]), ms[1..], t);
    }
  }

  lemma StartIsSafe()
    ensures SafeInv(GP.Start)
  {
  }

  /** A group row that a click removes is one without members, or was never frozen. */
  lemma RemovedByClick(
    was: Db, db: Db, now: int, config: int, base: int,
    records: seq<string>, keys: seq<GroupKey>, who: Option<string>,
    aggregate: bool, d: Digests, signatureOf: string -> string, uuidOf: string -> Uuid, st: Steps, k: GroupKey)
    requires Clicked(was, db, now, config, base, records, keys, who, aggregate, d, signatureOf, uuidOf, st)
    requires Whole(was) && ListsGroups(was, config, keys) && k in was.groups && !SameGroup(was, db, k) && Frozen(was.groups[k])
    ensures NoMembers(was, k)
  {
    var maintained := if Selected(records) == {} then [] else keys;
    SinglesQuiet(was, st.retried, now, SelectedSingles(was, config, records));
    StillWhole(was, st.retried);
    MaintainedFrame(st.retried, now, maintained, Selected(records), who);
    MaintainedIsWhole(st.retried, now, maintained, Selected(records), who);
    SeededQuiet(st.tidy, st.seeded, config, base, st.newcomers, aggregate, d, signatureOf, uuidOf, st.planned, st.added, st.refused);
    assert k !in st.tidy.groups;
    if id :| id in was.tasks && InGroup(was.tasks[id], k) {
      assert InGroup(st.retried.tasks[id], k);
      if k in maintained {
        MaintainedOwn(st.retried, now, maintained, Selected(records), who, k, id);
      }
    }
  }

  /** In every run that mixes workers heeding the guard with batch clicks, rounds and single
      clicks: a batch click removes the row of a group whose instance exists only if the group
      had no member left. */
  lemma ClickOrphansNothing(ms: seq<Move>, s: GP.State, db: Db, k: GroupKey)
    requires GuardedRun(GP.Start, ms, s) && Possible(s, BatchClick(db))
    requires k in s.db.groups && s.db.groups[k].uuid in s.service && !SameGroup(s.db, db, k)
    ensures NoMembers(s.db, k)
  {
    StartIsSafe();
    JointRunKeepsSafe(GP.Start, ms, s);
    InvIsWhole(s);
    assert GP.CodeAgrees(s, s.db.groups[k]);
    assert Frozen(s.db.groups[k]);
    var now, config, base, records, keys, who, aggregate, d, signatureOf, uuidOf, st :|
      && IdsBelow(s.db, base) && ListsGroups(s.db, config, keys)
      && Clicked(s.db, db, now, config, base, records, keys, who, aggregate, d, signatureOf, uuidOf, st);
    RemovedByClick(s.db, db, now, config, base, records, keys, who, aggregate, d, signatureOf, uuidOf, st, k);
  }

  // ----- the applicant of a frozen group --------------------------------------------

  predicate Leads(db: Db, key: GroupKey, id: int) {
    id in db.tasks && IsLeader(db.tasks[id], key)
  }

  /** The row leads the group in every state of the run, and no step thaws the group. */
  ghost predicate StaysFrozen(s: GP.State, ms: seq<Move>, key: GroupKey, id: int)
    decreases ms
  {
    Leads(s.db, key, id)
    && (ms != [] && Possible(s, ms[0]) ==>
          && (ms[0].Work? ==> !GP.Thaws(s, ms[0].e, key))
          && StaysFrozen(After(s, ms[0]), ms[1..], key, id))
  }

  lemma ApplicantsUnderWork(s: GP.State, e: GP.Event, id: int)
    requires GP.Enabled(s, e) && id in s.db.applicants && id in GP.Next(s, e).db.tasks
    ensures SameApplicant(s.db, GP.Next(s, e).db, id)
  {
    if !e.Dissolve? { ApplicantsKept(s, e); }
  }

  lemma ApplicantsKept(s: GP.State, e: GP.Event)
    requires GP.Enabled(s, e) && !e.Dissolve?
    ensures GP.Next(s, e).db.applicants == s.db.applicants
  {
  }

  lemma WorkKeepsFrozen(s: GP.State, e: GP.Event, key: GroupKey, id: int)
    requires WorkerInv(s) && GP.Enabled(s, e) && !e.Seed? && LeaderFrozen(s.db, key, id) && !GP.Thaws(s, e, key)
    requires Leads(GP.Next(s, e).db, key, id)
    ensures LeaderFrozen(GP.Next(s, e).db, key, id) && GP.Next(s, e).db.applicants[id] == s.db.applicants[id]
  {
    GP.InvStep(s, e);
    assert key in GP.Next(s, e).db.groups;
    GP.FrozenUntil(s, e, key);
    ApplicantsUnderWork(s, e, id);
  }

  lemma MoveKeepsFrozen(s: GP.State, m: Move, key: GroupKey, id: int)
    requires WorkerInv(s) && Possible(s, m) && LeaderFrozen(s.db, key, id) && Leads(After(s, m).db, key, id)
    requires m.Work? ==> !GP.Thaws(s, m.e, key)
    ensures LeaderFrozen(After(s, m).db, key, id) && After(s, m).db.applicants[id] == s.db.applicants[id]
  {
    match m
    case Work(e) => WorkKeepsFrozen(s, e, key, id);
    case BatchClick(db) => OneClick(s.db, db);
    case Round(db) => OneRound(s.db, db);
    case Admit(_, _, _, _) =>
    case Attach(_, _) =>
    case Refresh(_, _) =>
  }

  /** In every run that mixes workers, batch clicks, rounds and single clicks, by whomever: as
      long as the row leads its group, the applicant of a frozen group is the same until a
      lookup misses or a create is refused. */
  lemma {:induction false} ApplicantUntilThaw(s: GP.State, ms: seq<Move>, t: GP.State, key: GroupKey, id: int)
    requires WorkerInv(s) && Run(s, ms, t) && LeaderFrozen(s.db, key, id) && StaysFrozen(s, ms, key, id)
    ensures LeaderFrozen(t.db, key, id) && t.db.applicants[id] == s.db.applicants[id]
    decreases ms
  {
    if ms == [] {
    } else {
      MoveKeepsInv(s, ms[0]);
      MoveKeepsFrozen(s, ms[0], key, id);
      ApplicantUntilThaw(After(s, ms[0]), ms[1..], t, key, id);
    }
  }
}
