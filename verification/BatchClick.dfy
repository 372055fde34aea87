/** A batch click on one configuration: retry the single tasks, tidy the groups, seed what
    has no row left, and record who clicked. */
module BatchClick {
  import opened Options
  import opened Tables
  import opened Execution
  import opened Maintenance
  import opened Planning
  import opened Seeding
  import opened ClickLaws

  // ----- loops that only read -----------------------------------------------

  /** Sorts the members into rows to keep and rows to delete, or finds one that blocks. */
  method SortMembers(db: Db, now: int, members: seq<int>) returns (ok: bool, detach: seq<int>, delete: seq<int>)
    requires forall id :: id in members ==> id in db.tasks
    ensures ok <==> forall id :: id in members ==> MemberVerdict(db.tasks[id], now) != Blocks
    ensures ok ==> forall id :: id in detach <==> id in members && MemberVerdict(db.tasks[id], now) == Detaches
    ensures ok ==> forall id :: id in delete <==> id in members && MemberVerdict(db.tasks[id], now) == Deletes
  {
    detach, delete := [], [];
    var i := 0;
    while i < |members|
      invariant 0 <= i <= |members|
      invariant forall id :: id in members[..i] ==> MemberVerdict(db.tasks[id], now) != Blocks
      invariant forall id :: id in detach <==> id in members[..i] && MemberVerdict(db.tasks[id], now) == Detaches
      invariant forall id :: id in delete <==> id in members[..i] && MemberVerdict(db.tasks[id], now) == Deletes
    {
      var id := members[i];
      assert id in members;
      var row := db.tasks[id];
      assert members[..i + 1] == members[..i] + [id];
      if LiveLease(row, now) { return false, [], []; }
      if row.instance.Some? || row.serial.Some? {
        detach := detach + [id];
      } else {
        if row.phase != Ready || !Dissolvable(row.state) { return false, [], []; }
        delete := delete + [id];
      }
      i := i + 1;
    }
    assert members[..i] == members;
    ok := true;
  }

  ghost predicate AreMembers(db: Db, key: GroupKey, ids: seq<int>) {
    && (forall id :: id in ids ==> id in db.tasks && InGroup(db.tasks[id], key))
    && (forall id :: id in db.tasks && InGroup(db.tasks[id], key) ==> id in ids)
  }

  /** The rows of one group, in the order the table lists them. */
  method Rows(db: Db, next: nat, key: GroupKey) returns (ids: seq<int>)
    requires IdsBelow(db, next)
    ensures AreMembers(db, key, ids)
  {
    ids := [];
    for id := 0 to next
      invariant forall j :: j in ids <==> 0 <= j < id && j in db.tasks && InGroup(db.tasks[j], key)
    {
      if id in db.tasks && InGroup(db.tasks[id], key) { ids := ids + [id]; }
    }
  }

  /** The rows of a configuration whose record is asked for, by record. */
  method LookUp(db: Db, next: nat, config: int, records: seq<string>) returns (rowOf: map<string, int>)
    requires IdsBelow(db, next)
    ensures Finds(db, config, records, rowOf) && forall r :: r in rowOf ==> r in records && r != ""
  {
    rowOf := map[];
    for id := 0 to next
      invariant forall r :: r in rowOf ==> r in records && r != "" && rowOf[r] in db.tasks && db.tasks[rowOf[r]].config == config && db.tasks[rowOf[r]].record == r
      invariant forall j :: 0 <= j < id && j in db.tasks && db.tasks[j].config == config && db.tasks[j].record in records && db.tasks[j].record != "" ==> db.tasks[j].record in rowOf
    {
      if id in db.tasks && db.tasks[id].config == config && db.tasks[id].record in records && db.tasks[id].record != "" {
        rowOf := rowOf[db.tasks[id].record := id];
      }
    }
  }

  /** Leader, and whether all or any of the members are selected. */
  method Survey(db: Db, key: GroupKey, members: seq<int>, selected: set<string>) returns (leader: Option<int>, all: bool, any: bool)
    requires OneLeader(db) && AreMembers(db, key, members)
    ensures all <==> AllSelected(db, key, selected)
    ensures any <==> AnySelected(db, key, selected)
    ensures leader.Some? ==> leader.value in db.tasks && IsLeader(db.tasks[leader.value], key)
    ensures forall id :: id in db.tasks && IsLeader(db.tasks[id], key) ==> leader == Some(id)
  {
    leader, all, any := None, true, false;
    var i := 0;
    while i < |members|
      invariant 0 <= i <= |members|
      invariant all <==> forall id :: id in members[..i] ==> db.tasks[id].record in selected
      invariant any <==> exists id :: id in members[..i] && db.tasks[id].record in selected
      invariant leader.Some? ==> leader.value in db.tasks && IsLeader(db.tasks[leader.value], key)
      invariant forall id :: id in members[..i] && db.tasks[id].rank == 0 ==> leader == Some(id)
    {
      var id := members[i];
      assert id in members;
      assert members[..i + 1] == members[..i] + [id];
      if db.tasks[id].record in selected { any := true; } else { all := false; }
      assert db.tasks[id].rank == 0 ==> IsLeader(db.tasks[id], key);
      assert leader.Some? && db.tasks[id].rank == 0 ==> leader.value == id;
      if db.tasks[id].rank == 0 && leader.None? { leader := Some(id); }
      i := i + 1;
    }
    assert members[..i] == members;
  }

  lemma SameDissolution(db: Db, now: int, key: GroupKey, members: seq<int>, detach: seq<int>, delete: seq<int>)
    requires AreMembers(db, key, members) && members != []
    requires forall id :: id in members ==> MemberVerdict(db.tasks[id], now) != Blocks
    requires forall id :: id in detach <==> id in members && MemberVerdict(db.tasks[id], now) == Detaches
    requires forall id :: id in delete <==> id in members && MemberVerdict(db.tasks[id], now) == Deletes
    ensures CanDissolve(db, now, key)
    ensures (set id | id in delete) == DoomedIds(db, now, key)
    ensures (map id | id in db.tasks && id !in (set d | d in delete) :: if id in detach then Ungrouped(db.tasks[id]) else db.tasks[id])
         == DissolvedTasks(db, now, key)
  {
    var first := members[0];
    assert first in members;
    assert InGroup(db.tasks[first], key);
    forall id ensures id in delete <==> id in DoomedIds(db, now, key) {
      assert id in db.tasks ==> (InGroup(db.tasks[id], key) <==> id in members);
    }
    forall id | id in DissolvedTasks(db, now, key)
      ensures DissolvedTasks(db, now, key)[id] == if id in detach then Ungrouped(db.tasks[id]) else db.tasks[id]
    {
      assert InGroup(db.tasks[id], key) <==> id in members;
    }
  }

  lemma FreeLeader(db: Db, now: int, key: GroupKey, leader: Option<int>)
    requires leader.Some? ==> leader.value in db.tasks && IsLeader(db.tasks[leader.value], key)
    requires forall id :: id in db.tasks && IsLeader(db.tasks[id], key) ==> leader == Some(id)
    ensures LeaderFree(db, now, key) <==> leader.None? || !LiveLease(db.tasks[leader.value], now)
  {
    if leader.Some? {
      var id := leader.value;
      assert IsLeader(db.tasks[id], key);
    }
  }

  /** The records that have no row yet, in scan order. */
  method Newcomers(records: seq<string>, rowOf: map<string, int>) returns (newcomers: seq<string>)
    requires Distinct(records)
    ensures Distinct(newcomers)
    ensures forall r :: r in newcomers <==> r in records && r != "" && r !in rowOf
  {
    newcomers := [];
    var i := 0;
    while i < |records|
      invariant 0 <= i <= |records| && Distinct(newcomers)
      invariant forall r :: r in newcomers <==> r in records[..i] && r != "" && r !in rowOf
    {
      assert records[..i + 1] == records[..i] + [records[i]];
      assert records[i] !in records[..i];
      if records[i] != "" && records[i] !in rowOf { newcomers := newcomers + [records[i]]; }
      i := i + 1;
    }
    assert records[..i] == records;
  }

  /** The candidates for grouping, each with the signature of its shared fields. */
  method Candidates(records: seq<string>, signatureOf: string -> string) returns (cs: seq<Candidate>)
    ensures cs == CandidatesOf(records, signatureOf)
  {
    cs := [];
    for i := 0 to |records|
      invariant |cs| == i && forall j :: 0 <= j < i ==> cs[j] == Candidate(records[j], signatureOf(records[j]))
    {
      cs := cs + [Candidate(records[i], signatureOf(records[i]))];
    }
  }

  /** The tables one click works on; the methods are its steps, in the order it takes them. */
  class Seeder {
    var db: Db
    var now: int
    const config: int
    /** The next id the task table hands out. */
    var nextId: nat

    constructor (config: int, db: Db, now: int, nextId: nat)
      ensures this.config == config && this.db == db && this.now == now && this.nextId == nextId
    {
      this.config, this.db, this.now, this.nextId := config, db, now, nextId;
    }

    /** Dissolves a group as a whole or does not touch it. */
    method DissolveGroup(key: GroupKey, members: seq<int>) returns (done: bool)
      requires AreMembers(db, key, members)
      modifies this`db
      ensures done <==> CanDissolve(old(db), now, key)
      ensures db == if done then Dissolved(old(db), now, key) else old(db)
    {
      var was := db;
      if members == [] { return false; }
      assert members[0] in members;
      var ok, detach, delete := SortMembers(was, now, members);
      if !ok { return false; }
      var gone := set id | id in delete;
      var tasks := map id | id in was.tasks && id !in gone :: if id in detach then Ungrouped(was.tasks[id]) else was.tasks[id];
      SameDissolution(was, now, key, members, detach, delete);
      db := Db(tasks, was.groups - {key}, was.applicants - gone);
      return true;
    }

    method MaintainGroup(key: GroupKey, selected: set<string>, who: Option<string>) returns (again: bool)
      requires OneLeader(db) && IdsBelow(db, nextId)
      modifies this`db
      ensures db == GroupStep(old(db), now, key, selected, who)
    {
      var was := db;
      if key !in was.groups { return false; }
      var group := was.groups[key];
      var members := Rows(was, nextId, key);
      if members == [] {
        db := was.(groups := was.groups - {key});
        return false;
      }
      var leader, all, any := Survey(was, key, members, selected);
      var leaderFree := leader.None? || !LiveLease(was.tasks[leader.value], now);
      FreeLeader(was, now, key, leader);
      var first := members[0];
      assert first in members && InGroup(was.tasks[first], key);
      if group.instance.None? && group.phase == Ready && leaderFree && all {
        assert Goes(was, now, key, selected);
        var _ := DissolveGroup(key, members);
        return false;
      }
      assert !Goes(was, now, key, selected);
      if leader.None? { return false; }
      if !ReopenNeeded(group, was.tasks[leader.value], any) || !leaderFree || !Reopenable(was.tasks[leader.value].state) {
        return false;
      }
      assert Retriable(was, now, key, selected, leader.value);
      db := Retried(was, now, key, leader.value, who);
      return true;
    }

    /** The loop over the groups; `reopened` counts the leaders sent back to work. */
    method MaintainGroups(keys: seq<GroupKey>, selected: set<string>, who: Option<string>) returns (reopened: nat)
      requires OneLeader(db) && IdsBelow(db, nextId)
      modifies this`db
      ensures db == Maintained(old(db), now, keys, selected, who)
    {
      reopened := 0;
      var i := 0;
      assert keys[..0] == [];
      while i < |keys|
        invariant 0 <= i <= |keys|
        invariant OneLeader(db) && IdsBelow(db, nextId)
        invariant db == Maintained(old(db), now, keys[..i], selected, who)
      {
        assert keys[..i + 1][..i] == keys[..i];
        StepKeepsLeader(db, now, keys[i], selected, who);
        StepFrame(db, now, keys[i], selected, who);
        var again := MaintainGroup(keys[i], selected, who);
        if again { reopened := reopened + 1; }
        i := i + 1;
      }
      assert keys[..i] == keys;
    }

    /** Retries the selected rows that are in no group; `touched` are those whose identity
        may still become the clicker's, judged by the row as it was before. */
    method ReopenSingles(records: seq<string>, rowOf: map<string, int>) returns (touched: seq<string>)
      requires Finds(db, config, records, rowOf)
      modifies this`db
      ensures SinglesReopened(old(db), db, now, Singles(old(db), records, rowOf))
      ensures forall r :: r in touched <==> r in records && r in rowOf && Touched(old(db), now, rowOf[r])
    {
      touched := [];
      var i := 0;
      var was := db;
      while i < |records|
        invariant 0 <= i <= |records|
        invariant SinglesReopened(was, db, now, Singles(was, records[..i], rowOf))
        invariant forall r :: r in touched <==> r in records[..i] && r in rowOf && Touched(was, now, rowOf[r])
      {
        var r := records[i];
        assert records[..i + 1] == records[..i] + [r];
        NextSingle(was, db, now, records, rowOf, i);
        if r in rowOf && was.tasks[rowOf[r]].group.None? {
          var id := rowOf[r];
          db := Reopened(db, now, id);
          if CanReopen(was, now, id) && MayRewriteIdentity(was.tasks[id]) { touched := touched + [r]; }
        }
        i := i + 1;
      }
      assert records[..i] == records;
    }

    method InsertTask(record: string, group: Option<GroupKey>, rank: nat)
      modifies this`db, this`nextId
      ensures db == SetTask(old(db), old(nextId), NewTask(config, record, group, rank)) && nextId == old(nextId) + 1
    {
      db := SetTask(db, nextId, NewTask(config, record, group, rank));
      nextId := nextId + 1;
    }

    /** One single row per record. */
    method SeedSingles(records: seq<string>)
      requires IdsBelow(db, nextId)
      modifies this`db, this`nextId
      ensures nextId == old(nextId) + |records| && Grown(old(db), db, config, old(nextId), records) && NewAreSingle(db, old(nextId))
      ensures db.groups == old(db.groups)
    {
      var i := 0;
      while i < |records|
        invariant 0 <= i <= |records| && nextId == old(nextId) + i
        invariant Grown(old(db), db, config, old(nextId), records[..i]) && NewAreSingle(db, old(nextId)) && db.groups == old(db.groups)
      {
        assert records[..i + 1] == records[..i] + [records[i]];
        SinglesOneMore(old(db), db, config, old(nextId), records[..i], records[i]);
        InsertTask(records[i], None, 0);
        i := i + 1;
      }
      assert records[..i] == records;
    }

    /** The member rows of one new group, in plan order. */
    method SeedMembers(key: GroupKey, records: seq<string>)
      requires IdsBelow(db, nextId)
      modifies this`db, this`nextId
      ensures nextId == old(nextId) + |records| && MembersUpTo(old(db), db, config, key, old(nextId), records)
    {
      var i := 0;
      while i < |records|
        invariant 0 <= i <= |records| && nextId == old(nextId) + i
        invariant MembersUpTo(old(db), db, config, key, old(nextId), records[..i])
      {
        assert records[..i + 1] == records[..i] + [records[i]];
        MembersOneMore(old(db), db, config, key, old(nextId), records[..i], records[i]);
        InsertTask(records[i], Some(key), i);
        i := i + 1;
      }
      assert records[..i] == records;
    }

    /** One planned group with all its members, unless its key is taken. */
    method SeedGroup(g: Planned, uuidOf: string -> Uuid) returns (added: seq<string>, more: seq<string>)
      requires IdsBelow(db, nextId)
      modifies this`db, this`nextId
      ensures nextId == old(nextId) + |added| && IdsBelow(db, nextId)
      ensures SeedStep(old(db), db, config, old(nextId), g, uuidOf, added, more)
      ensures Whole(old(db)) ==> Whole(db)
    {
      var key := GroupKey(config, g.key);
      if key in db.groups { return [], g.members; }
      ghost var was, base := db, nextId;
      db := SetGroup(db, key, GroupRow(uuidOf(g.key), g.hash, Ready, None, None));
      SeedMembers(key, g.members);
      GroupGrows(was, db, config, base, g, uuidOf);
      if Whole(was) { NewGroupIsWhole(was, db, config, base, g); }
      return g.members, [];
    }

    /** The next planned group. */
    method SeedNext(planned: seq<Planned>, i: nat, uuidOf: string -> Uuid, ghost touched: seq<string>, ghost refused: seq<string>, ghost was: Db, ghost base: int, ghost trace: seq<Seeded>)
      returns (added: seq<string>, more: seq<string>)
      requires IdsBelow(db, nextId) && nextId == base + |touched| && i < |planned|
      requires |trace| == i + 1 && trace[i] == Seeded(db, touched, refused) && Traced(was, config, base, planned, uuidOf, trace)
      modifies this`db, this`nextId
      ensures nextId == old(nextId) + |added| && IdsBelow(db, nextId) && (Whole(old(db)) ==> Whole(db))
      ensures Traced(was, config, base, planned, uuidOf, trace + [Seeded(db, touched + added, refused + more)])
    {
      added, more := SeedGroup(planned[i], uuidOf);
      TraceExtends(was, config, base, planned, uuidOf, trace, Seeded(db, touched + added, refused + more));
    }

    /** All planned groups; `refused` are the records of those whose key was taken. */
    method SeedGroups(planned: seq<Planned>, uuidOf: string -> Uuid) returns (touched: seq<string>, refused: seq<string>, ghost trace: seq<Seeded>)
      requires IdsBelow(db, nextId)
      modifies this`db, this`nextId
      ensures nextId == old(nextId) + |touched| && IdsBelow(db, nextId) && (Whole(old(db)) ==> Whole(db))
      ensures TracedTo(old(db), config, old(nextId), planned, uuidOf, trace, Seeded(db, touched, refused))
    {
      touched, refused, trace := [], [], [Seeded(db, [], [])];
      var i := 0;
      while i < |planned|
        invariant 0 <= i <= |planned| && |trace| == i + 1 && trace[i] == Seeded(db, touched, refused)
        invariant nextId == old(nextId) + |touched| && IdsBelow(db, nextId) && (Whole(old(db)) ==> Whole(db))
        invariant Traced(old(db), config, old(nextId), planned, uuidOf, trace)
      {
        var added, more := SeedNext(planned, i, uuidOf, touched, refused, old(db), old(nextId), trace);
        touched, refused := touched + added, refused + more;
        trace := trace + [Seeded(db, touched, refused)];
        i := i + 1;
      }
    }

    /** Rows for the newcomers: grouped by signature, or one by one. */
    method SeedNewcomers(newcomers: seq<string>, aggregate: bool, d: Digests, signatureOf: string -> string, uuidOf: string -> Uuid)
      returns (touched: seq<string>, refused: seq<string>, ghost planned: seq<Planned>)
      requires IdsBelow(db, nextId) && Distinct(newcomers)
      modifies this`db, this`nextId
      ensures NewcomersSeeded(old(db), db, config, old(nextId), newcomers, aggregate, d, signatureOf, uuidOf, planned, touched, refused)
      ensures IdsBelow(db, nextId) && (Whole(old(db)) ==> Whole(db))
    {
      if !aggregate {
        SeedSingles(newcomers);
        if Whole(old(db)) { NewSinglesKeepWhole(old(db), db, config, old(nextId), newcomers); }
        return newcomers, [], [];
      }
      var cs := Candidates(newcomers, signatureOf);
      var groups := PlanGroups(d, config, cs);
      planned := groups;
      ghost var trace;
      touched, refused, trace := SeedGroups(groups, uuidOf);
    }

    /** Rows for the selected records that have none, looked up after the groups are tidied. */
    method SeedRemaining(records: seq<string>, aggregate: bool, d: Digests, signatureOf: string -> string, uuidOf: string -> Uuid)
      returns (added: seq<string>, refused: seq<string>, ghost newcomers: seq<string>, ghost planned: seq<Planned>)
      requires IdsBelow(db, nextId) && Distinct(records)
      modifies this`db, this`nextId
      ensures IdsBelow(db, nextId) && (Whole(old(db)) ==> Whole(db))
      ensures NewcomersFound(old(db), config, records, newcomers)
      ensures NewcomersSeeded(old(db), db, config, old(nextId), newcomers, aggregate, d, signatureOf, uuidOf, planned, added, refused)
    {
      var rowOf := LookUp(db, nextId, config, records);
      var found := Newcomers(records, rowOf);
      newcomers := found;
      FoundAreNew(db, config, records, rowOf, found);
      added, refused, planned := SeedNewcomers(found, aggregate, d, signatureOf, uuidOf);
    }

    /** The clicker becomes the applicant of the touched rows that still wait. */
    method PersistApplicant(touched: seq<string>, who: string)
      requires IdsBelow(db, nextId) && UniqueRecords(db) && "" !in touched
      modifies this`db
      ensures Persisted(old(db), db, config, touched, who)
    {
      var was := db;
      var rowOf := LookUp(was, nextId, config, touched);
      var i := 0;
      while i < |touched|
        invariant 0 <= i <= |touched| && Persisted(was, db, config, touched[..i], who)
      {
        var r := touched[i];
        assert touched[..i + 1] == touched[..i] + [r];
        PersistsOne(was, db, config, touched[..i], who, r, rowOf);
        if r in rowOf && was.tasks[rowOf[r]].state == Pending && was.tasks[rowOf[r]].instance.None? {
          db := db.(applicants := db.applicants[rowOf[r] := who]);
        }
        i := i + 1;
      }
      assert touched[..i] == touched;
    }

    /** A batch click: one transaction over the tables, then the clicker is written down. */
    method Click(
      records: seq<string>, keys: seq<GroupKey>, who: Option<string>,
      aggregate: bool, d: Digests, signatureOf: string -> string, uuidOf: string -> Uuid)
      returns (refused: seq<string>, ghost st: Steps)
      requires UniqueRecords(db) && Whole(db) && IdsBelow(db, nextId)
      requires Distinct(records) && ListsGroups(db, config, keys)
      modifies this`db, this`nextId
      ensures Clicked(old(db), db, now, config, old(nextId), records, keys, who, aggregate, d, signatureOf, uuidOf, st) && st.refused == refused
      ensures UniqueRecords(db) && Whole(db) && IdsBelow(db, nextId)
    {
      ghost var was, base := db, nextId;
      var rowOf := LookUp(db, nextId, config, records);
      var retried := ReopenSingles(records, rowOf);
      ghost var mid := db;
      SinglesFound(was, config, records, rowOf);
      StillWhole(was, mid);
      var maintained := if Selected(records) == {} then [] else keys;
      var _ := MaintainGroups(maintained, Selected(records), who);
      ghost var tidy := db;
      MaintainedKeepsRows(mid, now, maintained, Selected(records), who);
      MaintainedIsWhole(mid, now, maintained, Selected(records), who);
      StillUnique(was, tidy);
      var added;
      ghost var newcomers, planned;
      added, refused, newcomers, planned := SeedRemaining(records, aggregate, d, signatureOf, uuidOf);
      ghost var grown := db;
      SeededUnique(tidy, grown, config, base, records, newcomers, aggregate, d, signatureOf, uuidOf, planned, added, refused);
      if who.Some? { PersistApplicant(retried + added, who.value); }
      TouchedFound(was, now, config, records, rowOf, retried, added);
      st := Steps(mid, tidy, grown, newcomers, planned, added, refused, retried + added);
    }

    /** One record of a round that is no batch click; `was` is the snapshot of the rows. */
    method Visit(r: string, was: Db, rowOf: map<string, int>, reopens: bool, discovers: bool) returns (fate: Fate)
      requires r in rowOf ==> rowOf[r] in was.tasks
      modifies this`db, this`nextId
      ensures fate == FateOf(was, now, rowOf, r, reopens, discovers)
      ensures db == Visited(old(db), now, config, old(nextId), rowOf, r, fate)
      ensures nextId == if fate.Inserts? then old(nextId) + 1 else old(nextId)
    {
      if r in rowOf {
        var row := was.tasks[rowOf[r]];
        if !reopens || row.group.Some? { return Skips; }
        db := Reopened(db, now, rowOf[r]);
        return Retries(CanReopen(was, now, rowOf[r]) && MayRewriteIdentity(row));
      }
      if r == "" || !discovers { return Skips; }
      InsertTask(r, None, 0);
      return Inserts;
    }

    /** The pass over the records of a round that is no batch click. */
    method WalkRecords(records: seq<string>, rowOf: map<string, int>, reopens: bool, discovers: bool)
      returns (touched: seq<string>, added: seq<string>)
      requires forall r :: r in rowOf ==> rowOf[r] in db.tasks
      modifies this`db, this`nextId
      ensures Walk(db, touched, added) == Walked(old(db), now, config, old(nextId), rowOf, records, reopens, discovers)
      ensures nextId == old(nextId) + |added|
    {
      var was := db;
      touched, added := [], [];
      var i := 0;
      assert records[..0] == [];
      while i < |records|
        invariant 0 <= i <= |records| && nextId == old(nextId) + |added|
        invariant Walk(db, touched, added) == Walked(was, now, config, old(nextId), rowOf, records[..i], reopens, discovers)
      {
        var r := records[i];
        assert records[..i + 1][..i] == records[..i];
        var fate := Visit(r, was, rowOf, reopens, discovers);
        if fate.Inserts? { added := added + [r]; }
        if Touches(fate) { touched := touched + [r]; }
        i := i + 1;
      }
      assert records[..i] == records;
    }

    /** Seeding of a polling round or a click on one record: groups are left alone, new rows
        are single, and only the configuration that was clicked reopens old rows. */
    method SeedRound(records: seq<string>, reopens: bool, discovers: bool, who: Option<string>) returns (ghost rowOf: map<string, int>)
      requires UniqueRecords(db) && Whole(db) && IdsBelow(db, nextId) && Distinct(records)
      modifies this`db, this`nextId
      ensures UniqueRecords(db) && Whole(db) && IdsBelow(db, nextId)
      ensures Rounded(old(db), db, now, config, old(nextId), rowOf, records, reopens, discovers, who)
      ensures discovers ==> NothingLost(db, config, records, [])
      ensures !discovers ==> db.tasks.Keys == old(db).tasks.Keys
      ensures RowsSpared(old(db), db, now, {}) && FrozenKept(old(db), db)
    {
      ghost var was, base := db, nextId;
      var found := LookUp(db, nextId, config, records);
      rowOf := found;
      var touched, added := WalkRecords(records, found, reopens, discovers);
      WalkEnds(was, now, config, base, found, records, reopens, discovers);
      if who.Some? { PersistApplicant(touched, who.value); }
      RoundKeeps(was, db, now, config, base, found, records, reopens, discovers, who);
    }
  }
}
