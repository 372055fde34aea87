/** What one click does to the task table besides maintaining groups: which rows are
    retried, which are new, and whose request they become. */
module Seeding {
  import opened Options
  import opened Tables
  import opened Execution
  import opened Maintenance
  import opened Planning

  /** One row per record of a configuration. */
  ghost predicate UniqueRecords(db: Db) {
    forall i, j :: i in db.tasks && j in db.tasks && db.tasks[i].config == db.tasks[j].config && db.tasks[i].record == db.tasks[j].record ==> i == j
  }

  ghost predicate HasRow(db: Db, config: int, record: string) {
    exists id :: id in db.tasks && db.tasks[id].config == config && db.tasks[id].record == record
  }

  /** May this click still change whose request the row is? Judged by the row as it was
      before it is reopened. */
  predicate MayRewriteIdentity(row: TaskRow) {
    row.instance.None? && row.phase !in {Creating, Lookup, Backfilling}
  }

  predicate IdsBelow(db: Db, next: int) {
    forall id :: id in db.tasks ==> 0 <= id < next
  }

  /** Nothing old changed, and `added` got the rows from `base` on, one each. */
  ghost predicate Grown(was: Db, db: Db, config: int, base: int, added: seq<string>) {
    && 0 <= base && IdsBelow(was, base)
    && db.applicants == was.applicants
    && (forall k :: k in was.groups ==> k in db.groups && db.groups[k] == was.groups[k])
    && (forall id :: id in was.tasks ==> id in db.tasks && db.tasks[id] == was.tasks[id])
    && (forall id :: id in db.tasks ==> id in was.tasks || base <= id < base + |added|)
    && (forall id :: base <= id < base + |added| ==> id in db.tasks && Fresh(db.tasks[id], config, added[id - base]))
  }

  predicate Fresh(row: TaskRow, config: int, record: string) {
    row == NewTask(config, record, row.group, row.rank)
  }

  /** The rows from `base` on are the members of the group, positions 0, 1, 2 and on. */
  ghost predicate Seated(db: Db, config: int, key: GroupKey, base: int, records: seq<string>) {
    forall id :: base <= id < base + |records| ==>
      id in db.tasks && db.tasks[id] == NewTask(config, records[id - base], Some(key), id - base)
  }

  ghost predicate Inserted(db: Db, config: int, g: Planned, uuidOf: string -> Uuid) {
    var key := GroupKey(config, g.key);
    && key in db.groups && db.groups[key] == GroupRow(uuidOf(g.key), g.hash, Ready, None, None)
    && exists base :: Seated(db, config, key, base, g.members)
  }

  /** A planned group was inserted as a whole, or its records were turned away. */
  ghost predicate Settled(db: Db, config: int, g: Planned, uuidOf: string -> Uuid, touched: seq<string>, refused: seq<string>) {
    || (forall r :: r in g.members ==> r in refused)
    || (Inserted(db, config, g, uuidOf) && forall r :: r in g.members ==> r in touched)
  }

  ghost predicate AllSettled(db: Db, config: int, planned: seq<Planned>, n: nat, uuidOf: string -> Uuid, touched: seq<string>, refused: seq<string>) {
    forall g :: 0 <= g < |planned| && g < n ==> Settled(db, config, planned[g], uuidOf, touched, refused)
  }

  /** No record is planned twice. */
  ghost predicate Disjoint(planned: seq<Planned>) {
    && (forall g :: 0 <= g < |planned| ==> Distinct(planned[g].members))
    && (forall g, h, r :: 0 <= g < h < |planned| && r in planned[g].members ==> r !in planned[h].members)
  }

  ghost predicate Within(touched: seq<string>, planned: seq<Planned>, n: nat) {
    forall r :: r in touched ==> exists g :: 0 <= g < |planned| && g < n && r in planned[g].members
  }

  // ----- groups stay whole -----------------------------------------------------

  /** Each group has one leader at most, and each grouped row has its group row. */
  ghost predicate Whole(db: Db) {
    OneLeader(db) && forall id :: id in db.tasks && db.tasks[id].group.Some? ==> db.tasks[id].group.value in db.groups
  }

  /** A new group's members are the new rows; exactly one leads, and their positions are 0, 1,
      2 and on, so they tell the members apart. */
  lemma NewGroupHasLeader(was: Db, db: Db, config: int, base: int, g: Planned)
    requires Whole(was) && GroupKey(config, g.key) !in was.groups
    requires Grown(was, db, config, base, g.members) && Seated(db, config, GroupKey(config, g.key), base, g.members)
    ensures var key := GroupKey(config, g.key);
      && (forall id :: id in Members(db, key) <==> base <= id < base + |g.members|)
      && (forall id :: id in Members(db, key) ==> db.tasks[id].rank == id - base && db.tasks[id].record == g.members[id - base])
      && (g.members != [] ==> exists id :: id in db.tasks && IsLeader(db.tasks[id], key) && forall j :: j in db.tasks && IsLeader(db.tasks[j], key) ==> j == id)
  {
    var key := GroupKey(config, g.key);
    forall id | id in Members(db, key) ensures base <= id < base + |g.members| {
      assert InGroup(db.tasks[id], key);
    }
    if g.members != [] {
      assert base in db.tasks && IsLeader(db.tasks[base], key);
      forall j | j in db.tasks && IsLeader(db.tasks[j], key) ensures j == base {
        assert j in Members(db, key);
      }
    }
  }

  /** A new group has one leader at most, its rows have their group row, and so as before. */
  lemma NewGroupIsWhole(was: Db, db: Db, config: int, base: int, g: Planned)
    requires Whole(was) && GroupKey(config, g.key) !in was.groups && GroupKey(config, g.key) in db.groups
    requires Grown(was, db, config, base, g.members) && Seated(db, config, GroupKey(config, g.key), base, g.members)
    ensures Whole(db)
  {
    var key := GroupKey(config, g.key);
    forall i, j, k | i in db.tasks && j in db.tasks && IsLeader(db.tasks[i], k) && IsLeader(db.tasks[j], k) ensures i == j {
      if k == key {
        assert i !in was.tasks && j !in was.tasks;
        assert i - base == 0 && j - base == 0;
      } else {
        assert i in was.tasks && j in was.tasks;
        assert IsLeader(was.tasks[i], k) && IsLeader(was.tasks[j], k);
      }
    }
  }

  lemma NewSinglesKeepWhole(was: Db, db: Db, config: int, base: int, added: seq<string>)
    requires Whole(was) && Grown(was, db, config, base, added)
    requires NewAreSingle(db, base)
    ensures Whole(db)
  {
    forall i, j, k | i in db.tasks && j in db.tasks && IsLeader(db.tasks[i], k) && IsLeader(db.tasks[j], k) ensures i == j {
      assert i in was.tasks && j in was.tasks;
      assert IsLeader(was.tasks[i], k) && IsLeader(was.tasks[j], k);
    }
  }

  lemma StillWhole(was: Db, db: Db)
    requires Whole(was) && db.tasks.Keys == was.tasks.Keys && db.groups == was.groups
    requires forall id :: id in was.tasks ==> db.tasks[id].group == was.tasks[id].group && db.tasks[id].rank == was.tasks[id].rank
    ensures Whole(db)
  {
    forall i, j, k | i in db.tasks && j in db.tasks && IsLeader(db.tasks[i], k) && IsLeader(db.tasks[j], k) ensures i == j {
      assert IsLeader(was.tasks[i], k) && IsLeader(was.tasks[j], k);
    }
  }

  lemma {:induction false} MaintainedIsWhole(db: Db, now: int, keys: seq<GroupKey>, selected: set<string>, who: Option<string>)
    requires Whole(db)
    ensures Whole(Maintained(db, now, keys, selected, who))
    decreases keys
  {
    if keys == [] {
    } else {
      var init, last := keys[..|keys| - 1], keys[|keys| - 1];
      MaintainedIsWhole(db, now, init, selected, who);
      StepKeepsWhole(Maintained(db, now, init, selected, who), now, last, selected, who);
    }
  }

  lemma StepKeepsWhole(db: Db, now: int, key: GroupKey, selected: set<string>, who: Option<string>)
    requires Whole(db)
    ensures Whole(GroupStep(db, now, key, selected, who))
  {
    StepKeepsLeader(db, now, key, selected, who);
    StepFrame(db, now, key, selected, who);
    var after := GroupStep(db, now, key, selected, who);
    forall id | id in after.tasks && after.tasks[id].group.Some? ensures after.tasks[id].group.value in after.groups {
      if InGroup(db.tasks[id], key) { StepOwn(db, now, key, selected, who, id); }
    }
  }

  // ----- keys never clash ------------------------------------------------------

  ghost predicate CollisionFree(d: Digests, config: int) {
    forall h, ms, i, ns :: d.ofGroup(config, h, ms) == d.ofGroup(config, i, ns) ==> ms == ns
  }

  /** A key digests at least the records whose rows carry it. */
  ghost predicate KeysNameMembers(db: Db, config: int, d: Digests) {
    forall id, h, ms :: id in db.tasks && db.tasks[id].group == Some(GroupKey(config, d.ofGroup(config, h, ms))) ==>
      db.tasks[id].config == config && db.tasks[id].record in ms
  }

  /** Keys still to be inserted are distinct, and none is in use. */
  predicate FreeKeys(db: Db, config: int, planned: seq<Planned>) {
    && (forall g :: 0 <= g < |planned| ==> GroupKey(config, planned[g].key) !in db.groups)
    && (forall g, h :: 0 <= g < h < |planned| ==> planned[g].key != planned[h].key)
  }

  /** The row is in one of the first `n` planned groups, and listed there. */
  ghost predicate InPlan(row: TaskRow, config: int, planned: seq<Planned>, n: nat) {
    exists g :: 0 <= g < |planned| && g < n && row.group == Some(GroupKey(config, planned[g].key)) && row.record in planned[g].members
  }

  /** Every new row is single, or in the planned group that lists it. */
  ghost predicate SeatedAsPlanned(db: Db, config: int, base: int, planned: seq<Planned>, n: nat) {
    forall id :: id in db.tasks && id >= base && db.tasks[id].group.Some? ==> InPlan(db.tasks[id], config, planned, n)
  }

  /** A planned key digests newcomers only, so no group that still has a member can own it. */
  lemma NewcomersFindFreeKeys(db: Db, config: int, d: Digests, cs: seq<Candidate>, planned: seq<Planned>)
    requires CollisionFree(d, config) && KeysNameMembers(db, config, d)
    requires Plan(d, config, cs, planned) && DistinctRecords(cs)
    requires forall i :: 0 <= i < |cs| ==> !HasRow(db, config, cs[i].record)
    requires forall k :: k in db.groups && k.config == config ==> !NoMembers(db, k)
    ensures FreeKeys(db, config, planned)
  {
    PlanPartitions(d, config, cs, planned);
    forall g, r | 0 <= g < |planned| && r in planned[g].members ensures !HasRow(db, config, r) {
      var k: nat :| k < |planned[g].members| && planned[g].members[k] == r;
      assert Placed(planned, r, g, k);
      var i :| 0 <= i < |cs| && cs[i] == Candidate(r, Signatures(cs)[g]);
    }
    forall g | 0 <= g < |planned| ensures GroupKey(config, planned[g].key) !in db.groups {
      var key := GroupKey(config, planned[g].key);
      if key in db.groups {
        var id :| id in db.tasks && InGroup(db.tasks[id], key);
        assert HasRow(db, config, db.tasks[id].record);
        assert false;
      }
    }
    forall g, h | 0 <= g < h < |planned| ensures planned[g].key != planned[h].key {
      var r := planned[g].members[0];
      if planned[g].key == planned[h].key {
        assert r in multiset(planned[g].members) && multiset(planned[g].members) == multiset(planned[h].members);
        var k :| 0 <= k < |planned[h].members| && planned[h].members[k] == r;
        assert Placed(planned, r, g, 0) && Placed(planned, r, h, k);
      }
    }
  }

  /** Seeding as planned keeps the keys naming their members. */
  lemma KeysStillName(was: Db, db: Db, config: int, base: int, added: seq<string>, d: Digests, cs: seq<Candidate>, planned: seq<Planned>)
    requires CollisionFree(d, config) && KeysNameMembers(was, config, d) && Plan(d, config, cs, planned)
    requires Grown(was, db, config, base, added) && SeatedAsPlanned(db, config, base, planned, |planned|)
    ensures KeysNameMembers(db, config, d)
  {
    forall id, h, ms | id in db.tasks && db.tasks[id].group == Some(GroupKey(config, d.ofGroup(config, h, ms)))
      ensures db.tasks[id].config == config && db.tasks[id].record in ms
    {
      if id !in was.tasks {
        assert Fresh(db.tasks[id], config, added[id - base]);
        var g :| 0 <= g < |planned| && db.tasks[id].group == Some(GroupKey(config, planned[g].key)) && db.tasks[id].record in planned[g].members;
        assert d.ofGroup(config, planned[g].hash, multiset(planned[g].members)) == d.ofGroup(config, h, ms);
      }
    }
  }

  ghost predicate KeysStayFree(was: Db, db: Db, config: int, planned: seq<Planned>, i: nat, refused: seq<string>) {
    FreeKeys(was, config, planned) ==>
      refused == [] && forall j :: i <= j < |planned| ==> GroupKey(config, planned[j].key) !in db.groups
  }

  lemma KeysStayFreeAfter(was: Db, mid: Db, db: Db, config: int, planned: seq<Planned>, i: nat, refused: seq<string>, more: seq<string>)
    requires i < |planned| && KeysStayFree(was, mid, config, planned, i, refused)
    requires db.groups.Keys == mid.groups.Keys + {GroupKey(config, planned[i].key)}
    requires GroupKey(config, planned[i].key) !in mid.groups ==> more == []
    ensures KeysStayFree(was, db, config, planned, i + 1, refused + more)
  {
  }

  /** What seeding one more planned group does, or does not do. */
  ghost predicate SeedStep(mid: Db, db: Db, config: int, base: int, g: Planned, uuidOf: string -> Uuid, added: seq<string>, more: seq<string>) {
    var key := GroupKey(config, g.key);
    && Grown(mid, db, config, base, added)
    && db.groups.Keys == mid.groups.Keys + {key}
    && (if key in mid.groups then added == [] && more == g.members
        else added == g.members && more == [] && Inserted(db, config, g, uuidOf) && Seated(db, config, key, base, added))
  }

  // ----- the loop over the planned groups, pass by pass ---------------------------

  /** The tables, the records that got a row, and those turned away. */
  datatype Seeded = Seeded(db: Db, touched: seq<string>, refused: seq<string>)

  /** One pass: the group and all its rows, or nothing if its key is taken. */
  ghost predicate StepTo(at: Seeded, next: Seeded, config: int, base: int, g: Planned, uuidOf: string -> Uuid) {
    var taken := GroupKey(config, g.key) in at.db.groups;
    var added, more := if taken then [] else g.members, if taken then g.members else [];
    && next.touched == at.touched + added && next.refused == at.refused + more
    && SeedStep(at.db, next.db, config, base + |at.touched|, g, uuidOf, added, more)
  }

  ghost predicate StepAt(trace: seq<Seeded>, i: nat, config: int, base: int, planned: seq<Planned>, uuidOf: string -> Uuid)
    requires i < |planned| && i + 1 < |trace|
  {
    StepTo(trace[i], trace[i + 1], config, base, planned[i], uuidOf)
  }

  /** The states between the passes. */
  ghost predicate Traced(was: Db, config: int, base: int, planned: seq<Planned>, uuidOf: string -> Uuid, trace: seq<Seeded>) {
    && 0 < |trace| <= |planned| + 1 && 0 <= base && IdsBelow(was, base)
    && trace[0] == Seeded(was, [], [])
    && forall i: nat :: i + 1 < |trace| ==> StepAt(trace, i, config, base, planned, uuidOf)
  }

  lemma TraceExtends(was: Db, config: int, base: int, planned: seq<Planned>, uuidOf: string -> Uuid, trace: seq<Seeded>, next: Seeded)
    requires Traced(was, config, base, planned, uuidOf, trace) && |trace| <= |planned|
    requires StepTo(trace[|trace| - 1], next, config, base, planned[|trace| - 1], uuidOf)
    ensures Traced(was, config, base, planned, uuidOf, trace + [next])
  {
    var longer := trace + [next];
    forall i: nat | i + 1 < |longer| ensures StepAt(longer, i, config, base, planned, uuidOf) {
      if i + 1 < |trace| { assert StepAt(trace, i, config, base, planned, uuidOf); }
    }
  }

  /** A trace through all the passes, and where it ends. */
  ghost predicate TracedTo(was: Db, config: int, base: int, planned: seq<Planned>, uuidOf: string -> Uuid, trace: seq<Seeded>, end: Seeded) {
    |trace| == |planned| + 1 && Traced(was, config, base, planned, uuidOf, trace) && trace[|planned|] == end
  }

  lemma {:induction false} AllGrown(was: Db, config: int, base: int, planned: seq<Planned>, uuidOf: string -> Uuid, trace: seq<Seeded>, n: nat)
    requires Traced(was, config, base, planned, uuidOf, trace) && n < |trace|
    ensures Grown(was, trace[n].db, config, base, trace[n].touched)
  {
    if n == 0 {
    } else {
      AllGrown(was, config, base, planned, uuidOf, trace, n - 1);
      assert StepAt(trace, n - 1, config, base, planned, uuidOf);
      GrownByStep(was, trace[n - 1], trace[n], config, base, planned[n - 1], uuidOf);
    }
  }

  lemma GrownByStep(was: Db, at: Seeded, next: Seeded, config: int, base: int, g: Planned, uuidOf: string -> Uuid)
    requires Grown(was, at.db, config, base, at.touched) && StepTo(at, next, config, base, g, uuidOf)
    ensures Grown(was, next.db, config, base, next.touched)
  {
    GrowsTwice(was, at.db, next.db, config, base, at.touched, if GroupKey(config, g.key) in at.db.groups then [] else g.members);
  }

  lemma {:induction false} AllAreSettled(was: Db, config: int, base: int, planned: seq<Planned>, uuidOf: string -> Uuid, trace: seq<Seeded>, n: nat)
    requires Traced(was, config, base, planned, uuidOf, trace) && n < |trace|
    ensures AllSettled(trace[n].db, config, planned, n, uuidOf, trace[n].touched, trace[n].refused)
  {
    if n == 0 {
    } else {
      AllAreSettled(was, config, base, planned, uuidOf, trace, n - 1);
      assert StepAt(trace, n - 1, config, base, planned, uuidOf);
      SettledByStep(trace[n - 1], trace[n], config, base, planned, n - 1, uuidOf);
    }
  }

  lemma SettledByStep(at: Seeded, next: Seeded, config: int, base: int, planned: seq<Planned>, i: nat, uuidOf: string -> Uuid)
    requires i < |planned| && StepTo(at, next, config, base, planned[i], uuidOf)
    requires AllSettled(at.db, config, planned, i, uuidOf, at.touched, at.refused)
    ensures AllSettled(next.db, config, planned, i + 1, uuidOf, next.touched, next.refused)
  {
    forall g | 0 <= g < |planned| && g < i + 1 ensures Settled(next.db, config, planned[g], uuidOf, next.touched, next.refused) {
      if g < i {
        assert Settled(at.db, config, planned[g], uuidOf, at.touched, at.refused);
        OldStaysSettled(at, next, config, base, planned[i], planned[g], uuidOf);
      } else {
        NewIsSettled(at, next, config, base, planned[i], uuidOf);
      }
    }
  }

  lemma OldStaysSettled(at: Seeded, next: Seeded, config: int, base: int, g: Planned, earlier: Planned, uuidOf: string -> Uuid)
    requires StepTo(at, next, config, base, g, uuidOf) && Settled(at.db, config, earlier, uuidOf, at.touched, at.refused)
    ensures Settled(next.db, config, earlier, uuidOf, next.touched, next.refused)
  {
    var taken := GroupKey(config, g.key) in at.db.groups;
    StaysSettled(at.db, next.db, config, base + |at.touched|, if taken then [] else g.members, earlier, uuidOf, at.touched, at.refused, if taken then g.members else []);
  }

  lemma NewIsSettled(at: Seeded, next: Seeded, config: int, base: int, g: Planned, uuidOf: string -> Uuid)
    requires StepTo(at, next, config, base, g, uuidOf)
    ensures Settled(next.db, config, g, uuidOf, next.touched, next.refused)
  {
  }

  lemma {:induction false} AllSeated(was: Db, config: int, base: int, planned: seq<Planned>, uuidOf: string -> Uuid, trace: seq<Seeded>, n: nat)
    requires Traced(was, config, base, planned, uuidOf, trace) && n < |trace|
    ensures SeatedAsPlanned(trace[n].db, config, base, planned, n)
  {
    if n == 0 {
    } else {
      AllSeated(was, config, base, planned, uuidOf, trace, n - 1);
      assert StepAt(trace, n - 1, config, base, planned, uuidOf);
      SeatedByStep(trace[n - 1], trace[n], config, base, planned, n - 1, uuidOf);
    }
  }

  lemma SeatedByStep(at: Seeded, next: Seeded, config: int, base: int, planned: seq<Planned>, i: nat, uuidOf: string -> Uuid)
    requires i < |planned| && StepTo(at, next, config, base, planned[i], uuidOf)
    requires SeatedAsPlanned(at.db, config, base, planned, i)
    ensures SeatedAsPlanned(next.db, config, base, planned, i + 1)
  {
    if GroupKey(config, planned[i].key) in at.db.groups {
      SeatedOneMore(at.db, next.db, config, base, base + |at.touched|, planned, i, uuidOf, [], planned[i].members);
    } else {
      SeatedOneMore(at.db, next.db, config, base, base + |at.touched|, planned, i, uuidOf, planned[i].members, []);
    }
  }

  lemma {:induction false} AllApart(was: Db, config: int, base: int, planned: seq<Planned>, uuidOf: string -> Uuid, trace: seq<Seeded>, n: nat)
    requires Traced(was, config, base, planned, uuidOf, trace) && n < |trace| && Disjoint(planned)
    ensures Distinct(trace[n].touched) && Within(trace[n].touched, planned, n)
  {
    if n == 0 {
    } else {
      AllApart(was, config, base, planned, uuidOf, trace, n - 1);
      assert StepAt(trace, n - 1, config, base, planned, uuidOf);
      KeepsDistinct(planned, n - 1, trace[n - 1].touched, if GroupKey(config, planned[n - 1].key) in trace[n - 1].db.groups then [] else planned[n - 1].members);
    }
  }

  lemma {:induction false} AllFree(was: Db, config: int, base: int, planned: seq<Planned>, uuidOf: string -> Uuid, trace: seq<Seeded>, n: nat)
    requires Traced(was, config, base, planned, uuidOf, trace) && n < |trace|
    ensures KeysStayFree(was, trace[n].db, config, planned, n, trace[n].refused)
  {
    if n == 0 {
    } else {
      AllFree(was, config, base, planned, uuidOf, trace, n - 1);
      assert StepAt(trace, n - 1, config, base, planned, uuidOf);
      KeysStayFreeAfter(was, trace[n - 1].db, trace[n].db, config, planned, n - 1, trace[n - 1].refused,
        if GroupKey(config, planned[n - 1].key) in trace[n - 1].db.groups then planned[n - 1].members else []);
    }
  }

  lemma SeatedOneMore(mid: Db, db: Db, config: int, start: int, base: int, planned: seq<Planned>, i: nat, uuidOf: string -> Uuid, added: seq<string>, more: seq<string>)
    requires i < |planned| && start <= base && SeatedAsPlanned(mid, config, start, planned, i)
    requires SeedStep(mid, db, config, base, planned[i], uuidOf, added, more)
    ensures SeatedAsPlanned(db, config, start, planned, i + 1)
  {
    SeatsOneMore(mid, db, config, start, base, added, planned, i);
  }

  ghost predicate MembersUpTo(was: Db, db: Db, config: int, key: GroupKey, base: int, done: seq<string>) {
    Grown(was, db, config, base, done) && Seated(db, config, key, base, done) && db.groups == was.groups
  }

  lemma MembersOneMore(was: Db, db: Db, config: int, key: GroupKey, base: int, done: seq<string>, record: string)
    requires MembersUpTo(was, db, config, key, base, done)
    ensures MembersUpTo(was, SetTask(db, base + |done|, NewTask(config, record, Some(key), |done|)), config, key, base, done + [record])
  {
    GrowsByOne(was, db, config, base, done, record, Some(key), |done|);
  }

  lemma SinglesOneMore(was: Db, db: Db, config: int, base: int, done: seq<string>, record: string)
    requires Grown(was, db, config, base, done) && NewAreSingle(db, base)
    ensures var more := SetTask(db, base + |done|, NewTask(config, record, None, 0));
      Grown(was, more, config, base, done + [record]) && NewAreSingle(more, base)
  {
    GrowsByOne(was, db, config, base, done, record, None, 0);
  }

  lemma SeatsOneMore(was: Db, db: Db, config: int, start: int, base: int, added: seq<string>, planned: seq<Planned>, i: nat)
    requires i < |planned| && start <= base && SeatedAsPlanned(was, config, start, planned, i)
    requires Grown(was, db, config, base, added)
    requires added == [] || (added == planned[i].members && Seated(db, config, GroupKey(config, planned[i].key), base, added))
    ensures SeatedAsPlanned(db, config, start, planned, i + 1)
  {
    forall id | id in db.tasks && id >= start && db.tasks[id].group.Some? ensures InPlan(db.tasks[id], config, planned, i + 1) {
      if id in was.tasks {
        assert InPlan(was.tasks[id], config, planned, i);
      } else {
        assert db.tasks[id].group == Some(GroupKey(config, planned[i].key)) && db.tasks[id].record == added[id - base];
      }
    }
  }

  lemma GrowsByOne(was: Db, db: Db, config: int, base: int, added: seq<string>, record: string, group: Option<GroupKey>, rank: nat)
    requires Grown(was, db, config, base, added)
    ensures Grown(was, SetTask(db, base + |added|, NewTask(config, record, group, rank)), config, base, added + [record])
  {
  }

  lemma GroupGrows(was: Db, db: Db, config: int, base: int, g: Planned, uuidOf: string -> Uuid)
    requires GroupKey(config, g.key) !in was.groups
    requires Grown(SetGroup(was, GroupKey(config, g.key), GroupRow(uuidOf(g.key), g.hash, Ready, None, None)), db, config, base, g.members)
    requires Seated(db, config, GroupKey(config, g.key), base, g.members)
    ensures Grown(was, db, config, base, g.members) && Inserted(db, config, g, uuidOf)
  {
    var more := SetGroup(was, GroupKey(config, g.key), GroupRow(uuidOf(g.key), g.hash, Ready, None, None));
    assert forall k :: k in was.groups ==> k in more.groups && more.groups[k] == was.groups[k];
  }

  lemma GrowsTwice(was: Db, mid: Db, db: Db, config: int, base: int, first: seq<string>, second: seq<string>)
    requires Grown(was, mid, config, base, first) && Grown(mid, db, config, base + |first|, second)
    ensures Grown(was, db, config, base, first + second)
  {
    forall id | base <= id < base + |first + second|
      ensures id in db.tasks && Fresh(db.tasks[id], config, (first + second)[id - base])
    {
      if id < base + |first| { assert id in mid.tasks; }
    }
  }

  lemma StaysSettled(mid: Db, db: Db, config: int, base: int, added: seq<string>, g: Planned, uuidOf: string -> Uuid, touched: seq<string>, refused: seq<string>, more: seq<string>)
    requires Grown(mid, db, config, base, added) && Settled(mid, config, g, uuidOf, touched, refused)
    ensures Settled(db, config, g, uuidOf, touched + added, refused + more)
  {
    if Inserted(mid, config, g, uuidOf) {
      var at :| Seated(mid, config, GroupKey(config, g.key), at, g.members);
      assert Seated(db, config, GroupKey(config, g.key), at, g.members);
    }
  }

  lemma KeepsDistinct(planned: seq<Planned>, i: nat, touched: seq<string>, added: seq<string>)
    requires Disjoint(planned) && i < |planned| && Distinct(touched) && Within(touched, planned, i)
    requires added == [] || added == planned[i].members
    ensures Distinct(touched + added) && Within(touched + added, planned, i + 1)
  {
    forall r | r in touched + added ensures exists g :: 0 <= g < |planned| && g < i + 1 && r in planned[g].members {
      if r in touched {
        var g :| 0 <= g < |planned| && g < i && r in planned[g].members;
      } else {
        assert r in planned[i].members;
      }
    }
    forall k | 0 <= k < |added| ensures added[k] !in touched {
      if added[k] in touched {
        assert false;
      }
    }
  }

  /** The rows that existed for the selected records when the click was read. */
  ghost predicate Finds(db: Db, config: int, records: seq<string>, rowOf: map<string, int>) {
    && (forall r :: r in rowOf ==> rowOf[r] in db.tasks && db.tasks[rowOf[r]].config == config && db.tasks[rowOf[r]].record == r)
    && (forall id :: id in db.tasks && db.tasks[id].config == config && db.tasks[id].record in records && db.tasks[id].record != "" ==> db.tasks[id].record in rowOf)
  }

  function Singles(db: Db, records: seq<string>, rowOf: map<string, int>): set<int> {
    set r | r in records && r in rowOf && rowOf[r] in db.tasks && db.tasks[rowOf[r]].group.None? :: rowOf[r]
  }

  predicate Touched(db: Db, now: int, id: int) {
    id in db.tasks && db.tasks[id].group.None? && CanReopen(db, now, id) && MayRewriteIdentity(db.tasks[id])
  }

  ghost predicate SinglesReopened(was: Db, db: Db, now: int, ids: set<int>) {
    && db.groups == was.groups && db.applicants == was.applicants && db.tasks.Keys == was.tasks.Keys
    && (forall id :: id in was.tasks && id in ids ==> db.tasks[id] == Reopened(was, now, id).tasks[id])
    && (forall id :: id in was.tasks && id !in ids ==> db.tasks[id] == was.tasks[id])
  }

  /** Reopening is idempotent, so a record listed twice changes nothing. */
  lemma ReopenOnce(was: Db, db: Db, now: int, ids: set<int>, id: int)
    requires SinglesReopened(was, db, now, ids) && id in was.tasks
    ensures SinglesReopened(was, Reopened(db, now, id), now, ids + {id})
  {
  }

  lemma NextSingle(was: Db, db: Db, now: int, records: seq<string>, rowOf: map<string, int>, i: nat)
    requires i < |records| && SinglesReopened(was, db, now, Singles(was, records[..i], rowOf))
    requires records[i] in rowOf ==> rowOf[records[i]] in was.tasks
    ensures var ids := Singles(was, records[..i + 1], rowOf);
      if records[i] in rowOf && was.tasks[rowOf[records[i]]].group.None? then SinglesReopened(was, Reopened(db, now, rowOf[records[i]]), now, ids)
      else SinglesReopened(was, db, now, ids)
  {
    var before, ids := Singles(was, records[..i], rowOf), Singles(was, records[..i + 1], rowOf);
    assert records[..i + 1] == records[..i] + [records[i]];
    if records[i] in rowOf && was.tasks[rowOf[records[i]]].group.None? {
      assert ids == before + {rowOf[records[i]]};
      ReopenOnce(was, db, now, before, rowOf[records[i]]);
    } else {
      assert ids == before;
    }
  }

  // ----- a whole click -------------------------------------------------------

  /** Rows that become the request of whoever clicked: touched, waiting, no instance yet. */
  predicate Stamped(row: TaskRow, config: int, touched: seq<string>) {
    row.config == config && row.record in touched && row.state == Pending && row.instance.None?
  }

  ghost predicate Persisted(was: Db, db: Db, config: int, touched: seq<string>, who: string) {
    && db.tasks == was.tasks && db.groups == was.groups
    && (forall id :: id in was.tasks && Stamped(was.tasks[id], config, touched) ==> id in db.applicants && db.applicants[id] == who)
    && (forall id :: !(id in was.tasks && Stamped(was.tasks[id], config, touched)) ==> SameApplicant(was, db, id))
  }

  /** Every selected record has its row, save those turned away with their group. */
  ghost predicate NothingLost(db: Db, config: int, records: seq<string>, refused: seq<string>) {
    forall r :: r in records && r != "" ==> HasRow(db, config, r) || r in refused
  }

  predicate RowSpared(was: Db, db: Db, now: int, selected: set<string>, id: int)
    requires id in was.tasks
  {
    var row := was.tasks[id];
    if id in db.tasks then RowKept(row, db.tasks[id])
    else row.group.Some? && Doomed(row, now, row.group.value) && row.record in selected && Untried(was, now, row.group.value)
  }

  /** A row goes only if its record was selected, nothing external had been tried for it or
      for its group, and nobody was at work on it; all other rows keep their facts. */
  ghost predicate RowsSpared(was: Db, db: Db, now: int, selected: set<string>) {
    forall id :: id in was.tasks ==> RowSpared(was, db, now, selected, id)
  }

  predicate LeaderFrozen(was: Db, key: GroupKey, id: int) {
    && key in was.groups && Frozen(was.groups[key])
    && id in was.tasks && IsLeader(was.tasks[id], key) && id in was.applicants
  }

  /** A group that may have an instance keeps its row, its leader and its applicant. */
  ghost predicate FrozenKept(was: Db, db: Db) {
    forall key, id :: LeaderFrozen(was, key, id) ==>
      LeaderFrozen(db, key, id) && db.groups[key] == was.groups[key] && db.applicants[id] == was.applicants[id]
  }

  ghost predicate ListsGroups(db: Db, config: int, keys: seq<GroupKey>) {
    && DistinctKeys(keys)
    && (forall k :: k in keys ==> k in db.groups && k.config == config)
    && (forall k :: k in db.groups && k.config == config ==> k in keys)
  }

  predicate AllSingle(db: Db, ids: set<int>) {
    forall id :: id in ids && id in db.tasks ==> db.tasks[id].group.None?
  }

  /** Retrying the single rows leaves every group's members as they were. */
  lemma SameGroups(was: Db, mid: Db, now: int, ids: set<int>, key: GroupKey)
    requires SinglesReopened(was, mid, now, ids) && AllSingle(was, ids)
    ensures forall id :: id in was.tasks && InGroup(was.tasks[id], key) ==> mid.tasks[id] == was.tasks[id]
    ensures Untried(mid, now, key) ==> Untried(was, now, key)
  {
  }

  lemma SparedByMaintenance(was: Db, mid: Db, now: int, ids: set<int>, keys: seq<GroupKey>, selected: set<string>, who: Option<string>, id: int)
    requires SinglesReopened(was, mid, now, ids) && AllSingle(was, ids)
    requires DistinctKeys(keys) && forall k :: k in keys ==> k in was.groups
    requires id in was.tasks
    ensures RowSpared(was, Maintained(mid, now, keys, selected, who), now, selected, id)
  {
    MaintainedFrame(mid, now, keys, selected, who);
    var row := was.tasks[id];
    if row.group.Some? && row.group.value in keys {
      SameGroups(was, mid, now, ids, row.group.value);
      MaintainedOwn(mid, now, keys, selected, who, row.group.value, id);
    }
  }

  lemma FrozenByMaintenance(was: Db, mid: Db, now: int, ids: set<int>, keys: seq<GroupKey>, selected: set<string>, who: Option<string>, key: GroupKey, id: int)
    requires SinglesReopened(was, mid, now, ids) && AllSingle(was, ids)
    requires DistinctKeys(keys) && forall k :: k in keys ==> k in was.groups
    requires LeaderFrozen(was, key, id)
    ensures var after := Maintained(mid, now, keys, selected, who);
      LeaderFrozen(after, key, id) && after.groups[key] == was.groups[key] && after.applicants[id] == was.applicants[id]
  {
    MaintainedFrame(mid, now, keys, selected, who);
    SameGroups(was, mid, now, ids, key);
    if key in keys { MaintainedOwn(mid, now, keys, selected, who, key, id); }
  }

  /** Reopened singles, maintained groups and new rows together spare the old rows. */
  lemma ClickSpares(was: Db, mid: Db, grown: Db, now: int, ids: set<int>, keys: seq<GroupKey>, selected: set<string>, who: Option<string>, config: int, base: int, added: seq<string>)
    requires SinglesReopened(was, mid, now, ids) && AllSingle(was, ids) && IdsBelow(was, base)
    requires DistinctKeys(keys) && forall k :: k in keys ==> k in was.groups
    requires Grown(Maintained(mid, now, keys, selected, who), grown, config, base, added)
    ensures RowsSpared(was, grown, now, selected) && FrozenKept(was, grown)
  {
    forall id | id in was.tasks ensures RowSpared(was, grown, now, selected, id) {
      SparedByMaintenance(was, mid, now, ids, keys, selected, who, id);
    }
    forall key, id | LeaderFrozen(was, key, id)
      ensures LeaderFrozen(grown, key, id) && grown.groups[key] == was.groups[key] && grown.applicants[id] == was.applicants[id]
    {
      FrozenByMaintenance(was, mid, now, ids, keys, selected, who, key, id);
    }
  }

  lemma StillUnique(was: Db, db: Db)
    requires UniqueRecords(was)
    requires forall id :: id in db.tasks ==> id in was.tasks && db.tasks[id].config == was.tasks[id].config && db.tasks[id].record == was.tasks[id].record
    ensures UniqueRecords(db)
  {
  }

  lemma StillNamed(was: Db, db: Db, config: int, d: Digests)
    requires KeysNameMembers(was, config, d)
    requires forall id :: id in db.tasks ==> id in was.tasks && db.tasks[id].config == was.tasks[id].config && db.tasks[id].record == was.tasks[id].record && (db.tasks[id].group == was.tasks[id].group || db.tasks[id].group.None?)
    ensures KeysNameMembers(db, config, d)
  {
  }

  predicate Distinct(xs: seq<string>) {
    forall i, j :: 0 <= i < j < |xs| ==> xs[i] != xs[j]
  }

  /** New rows for distinct records that had none keep records unique. */
  lemma GrowsUnique(was: Db, db: Db, config: int, base: int, added: seq<string>)
    requires UniqueRecords(was) && Grown(was, db, config, base, added) && Distinct(added)
    requires forall r :: r in added ==> !HasRow(was, config, r)
    ensures UniqueRecords(db)
  {
    forall id | id in db.tasks && id !in was.tasks ensures !HasRow(was, config, db.tasks[id].record) {
      assert db.tasks[id].record in added;
    }
    forall id | id in was.tasks && was.tasks[id].config == config ensures HasRow(was, config, was.tasks[id].record) { }
  }

  /** The keys in use name rows, so a key over newcomers only must be free. */
  ghost predicate WellNamed(db: Db, config: int, d: Digests, newcomers: seq<string>) {
    && CollisionFree(d, config) && KeysNameMembers(db, config, d)
    && (forall r :: r in newcomers ==> !HasRow(db, config, r))
    && (newcomers != [] ==> forall k :: k in db.groups && k.config == config ==> !NoMembers(db, k))
  }

  /** Every newcomer got its row, or was turned away with its whole group; with well-named
      keys nobody is turned away, and the keys stay well named. */
  ghost predicate Admitted(was: Db, db: Db, config: int, base: int, newcomers: seq<string>, d: Digests, touched: seq<string>, refused: seq<string>) {
    && Grown(was, db, config, base, touched) && Distinct(touched)
    && (forall r :: r in newcomers ==> r in touched || r in refused)
    && (forall r :: r in touched ==> r in newcomers)
    && (WellNamed(was, config, d, newcomers) ==> refused == [] && KeysNameMembers(db, config, d))
  }

  lemma AdmittedSingly(was: Db, db: Db, config: int, base: int, newcomers: seq<string>, d: Digests)
    requires Grown(was, db, config, base, newcomers) && Distinct(newcomers) && NewAreSingle(db, base)
    ensures Admitted(was, db, config, base, newcomers, d, newcomers, [])
  {
    if WellNamed(was, config, d, newcomers) { KeysStillName(was, db, config, base, newcomers, d, [], []); }
  }

  lemma PlannedApart(d: Digests, config: int, cs: seq<Candidate>, planned: seq<Planned>, newcomers: seq<string>)
    requires Plan(d, config, cs, planned) && Distinct(newcomers)
    requires |cs| == |newcomers| && forall i :: 0 <= i < |cs| ==> cs[i].record == newcomers[i]
    ensures Disjoint(planned)
  {
    PlanPartitions(d, config, cs, planned);
    forall g: nat, k: nat, l: nat | g < |planned| && k < l < |planned[g].members| ensures planned[g].members[k] != planned[g].members[l] {
      assert Placed(planned, planned[g].members[k], g, k) && Placed(planned, planned[g].members[l], g, l);
    }
    forall g: nat, h: nat, r | g < h < |planned| && r in planned[g].members ensures r !in planned[h].members {
      var k: nat :| k < |planned[g].members| && planned[g].members[k] == r;
      forall l: nat | l < |planned[h].members| ensures planned[h].members[l] != r {
        assert Placed(planned, r, g, k);
        assert Placed(planned, planned[h].members[l], h, l);
      }
    }
  }

  lemma AdmittedInGroups(was: Db, db: Db, config: int, base: int, newcomers: seq<string>, d: Digests, cs: seq<Candidate>, planned: seq<Planned>, uuidOf: string -> Uuid, trace: seq<Seeded>, touched: seq<string>, refused: seq<string>)
    requires Distinct(newcomers) && Plan(d, config, cs, planned)
    requires |cs| == |newcomers| && forall i :: 0 <= i < |cs| ==> cs[i].record == newcomers[i]
    requires TracedTo(was, config, base, planned, uuidOf, trace, Seeded(db, touched, refused))
    ensures Admitted(was, db, config, base, newcomers, d, touched, refused)
  {
    PlanPartitions(d, config, cs, planned);
    PlannedApart(d, config, cs, planned, newcomers);
    AllGrown(was, config, base, planned, uuidOf, trace, |planned|);
    AllAreSettled(was, config, base, planned, uuidOf, trace, |planned|);
    AllApart(was, config, base, planned, uuidOf, trace, |planned|);
    EveryoneSettled(cs, planned, newcomers, db, config, uuidOf, touched, refused);
    if WellNamed(was, config, d, newcomers) {
      assert forall i :: 0 <= i < |cs| ==> newcomers[i] in newcomers;
      if newcomers != [] { NewcomersFindFreeKeys(was, config, d, cs, planned); }
      AllFree(was, config, base, planned, uuidOf, trace, |planned|);
      AllSeated(was, config, base, planned, uuidOf, trace, |planned|);
      KeysStillName(was, db, config, base, touched, d, cs, planned);
    }
  }

  /** The new rows carry the records they were made for, and old rows stay found. */
  lemma GrowsRows(was: Db, db: Db, config: int, base: int, added: seq<string>, r: string)
    requires Grown(was, db, config, base, added) && (HasRow(was, config, r) || r in added)
    ensures HasRow(db, config, r)
  {
    if r in added {
      var i :| 0 <= i < |added| && added[i] == r;
      var id := base + i;
      assert Fresh(db.tasks[id], config, added[id - base]);
    }
  }

  /** Writing the clicker down touches no frozen identity: a touched record's row was single
      when the click began, or did not exist. */
  lemma PersistSpares(was: Db, grown: Db, db: Db, now: int, config: int, base: int, touched: seq<string>, who: string)
    requires FrozenKept(was, grown) && Persisted(grown, db, config, touched, who)
    requires forall id :: id in was.tasks && id in grown.tasks && grown.tasks[id].group.Some? && grown.tasks[id].config == config ==> grown.tasks[id].record !in touched
    ensures FrozenKept(was, db)
  {
    forall key, id | LeaderFrozen(was, key, id)
      ensures LeaderFrozen(db, key, id) && db.groups[key] == was.groups[key] && db.applicants[id] == was.applicants[id]
    {
      assert LeaderFrozen(grown, key, id);
      assert !Stamped(grown.tasks[id], config, touched);
    }
  }

  lemma {:induction false} MaintainedKeepsRows(db: Db, now: int, keys: seq<GroupKey>, selected: set<string>, who: Option<string>)
    ensures var after := Maintained(db, now, keys, selected, who);
      forall id :: id in after.tasks ==> id in db.tasks && after.tasks[id].config == db.tasks[id].config && after.tasks[id].record == db.tasks[id].record && (after.tasks[id].group == db.tasks[id].group || after.tasks[id].group.None?)
    decreases keys
  {
    if keys == [] {
    } else {
      var init, last := keys[..|keys| - 1], keys[|keys| - 1];
      MaintainedKeepsRows(db, now, init, selected, who);
      var mid := Maintained(db, now, init, selected, who);
      StepFrame(mid, now, last, selected, who);
      forall id | id in mid.tasks && InGroup(mid.tasks[id], last) && last in mid.groups
        ensures OwnOutcome(mid, GroupStep(mid, now, last, selected, who), now, last, selected, id)
      {
        StepOwn(mid, now, last, selected, who, id);
      }
    }
  }

  lemma Peopled(db: Db, mid: Db, now: int, config: int, keys: seq<GroupKey>, selected: set<string>, who: Option<string>)
    requires ListsGroups(db, config, keys) && mid.groups == db.groups
    ensures var after := Maintained(mid, now, keys, selected, who);
      forall k :: k in after.groups && k.config == config ==> !NoMembers(after, k)
  {
    MaintainedFrame(mid, now, keys, selected, who);
    forall k | k in Maintained(mid, now, keys, selected, who).groups && k.config == config
      ensures !NoMembers(Maintained(mid, now, keys, selected, who), k)
    {
      NoOrphansLeft(mid, now, keys, selected, who, k);
    }
  }

  lemma EveryoneSettled(cs: seq<Candidate>, planned: seq<Planned>, newcomers: seq<string>, db: Db, config: int, uuidOf: string -> Uuid, touched: seq<string>, refused: seq<string>)
    requires |cs| == |newcomers| && forall i :: 0 <= i < |cs| ==> cs[i].record == newcomers[i]
    requires |planned| == |Signatures(cs)| && OnlyRecords(cs, planned) && forall i :: 0 <= i < |cs| ==> AtHome(cs, planned, i)
    requires AllSettled(db, config, planned, |planned|, uuidOf, touched, refused) && Within(touched, planned, |planned|)
    ensures forall r :: r in newcomers ==> r in touched || r in refused
    ensures forall r :: r in touched ==> r in newcomers
  {
    forall r | r in newcomers ensures r in touched || r in refused {
      var i :| 0 <= i < |cs| && cs[i].record == r;
      assert AtHome(cs, planned, i);
      var g: nat, k: nat :| Placed(planned, cs[i].record, g, k) && Signatures(cs)[g] == cs[i].signature;
      assert Settled(db, config, planned[g], uuidOf, touched, refused);
      assert planned[g].members[k] in planned[g].members;
    }
    forall r | r in touched ensures r in newcomers {
      var g :| 0 <= g < |planned| && r in planned[g].members;
      var k :| 0 <= k < |planned[g].members| && planned[g].members[k] == r;
      assert Placed(planned, r, g, k);
      var i :| 0 <= i < |cs| && cs[i] == Candidate(r, Signatures(cs)[g]);
      assert newcomers[i] == r;
    }
  }

  lemma AllHaveRows(tidy: Db, grown: Db, config: int, base: int, added: seq<string>, records: seq<string>, remaining: map<string, int>, refused: seq<string>)
    requires Grown(tidy, grown, config, base, added) && Finds(tidy, config, records, remaining)
    requires forall r :: r in records && r != "" && r !in remaining ==> r in added || r in refused
    ensures NothingLost(grown, config, records, refused)
  {
    forall r | r in records && r != "" ensures HasRow(grown, config, r) || r in refused {
      if r in remaining {
        var id := remaining[r];
        assert id in tidy.tasks && tidy.tasks[id].config == config && tidy.tasks[id].record == r;
        assert HasRow(tidy, config, r);
        GrowsRows(tidy, grown, config, base, added, r);
      } else if r in added {
        GrowsRows(tidy, grown, config, base, added, r);
      }
    }
  }

  /** A record touched by the click belongs to no group the click found. */
  lemma TouchedAreSingle(was: Db, tidy: Db, grown: Db, now: int, config: int, base: int, selected: set<string>, rowOf: map<string, int>, touched: seq<string>, added: seq<string>)
    requires UniqueRecords(was) && IdsBelow(was, base) && RowsSpared(was, grown, now, selected)
    requires forall r :: r in rowOf ==> rowOf[r] in was.tasks && was.tasks[rowOf[r]].config == config && was.tasks[rowOf[r]].record == r
    requires forall r :: r in touched ==> r in added || (r in rowOf && Touched(was, now, rowOf[r]))
    requires Grown(tidy, grown, config, base, added) && forall r :: r in added ==> !HasRow(tidy, config, r)
    ensures forall id :: id in was.tasks && id in grown.tasks && grown.tasks[id].group.Some? && grown.tasks[id].config == config ==>
      grown.tasks[id].record !in touched
  {
    forall id | id in was.tasks && id in grown.tasks && grown.tasks[id].group.Some? && grown.tasks[id].config == config
      ensures grown.tasks[id].record !in touched
    {
      var r := grown.tasks[id].record;
      assert RowSpared(was, grown, now, selected, id);
      assert id in tidy.tasks;
      assert HasRow(tidy, config, r);
      if r in rowOf { assert rowOf[r] == id; }
    }
  }

  lemma PersistsOne(was: Db, db: Db, config: int, touched: seq<string>, who: string, r: string, rowOf: map<string, int>)
    requires UniqueRecords(was) && Persisted(was, db, config, touched, who)
    requires Finds(was, config, [r], rowOf) && r != ""
    ensures Persisted(was,
      if r in rowOf && was.tasks[rowOf[r]].state == Pending && was.tasks[rowOf[r]].instance.None? then db.(applicants := db.applicants[rowOf[r] := who]) else db,
      config, touched + [r], who)
  {
    forall id | id in was.tasks && was.tasks[id].config == config && was.tasks[id].record == r
      ensures r in rowOf && rowOf[r] == id
    {
      assert r in [r];
    }
  }

  /** Reopening an old row while new ones are already there. */
  lemma ReopenUnder(mid: Db, db: Db, now: int, config: int, base: int, added: seq<string>, id: int)
    requires Grown(mid, db, config, base, added) && id in mid.tasks
    ensures Grown(Reopened(mid, now, id), Reopened(db, now, id), config, base, added)
  {
  }

  datatype Walk = Walk(db: Db, touched: seq<string>, added: seq<string>)

  /** The round's pass over the records, as a function of the tables it started from. */
  function Walked(was: Db, now: int, config: int, base: int, rowOf: map<string, int>, records: seq<string>, reopens: bool, discovers: bool): Walk
    requires forall r :: r in rowOf ==> rowOf[r] in was.tasks
  {
    if records == [] then Walk(was, [], [])
    else
      var before := Walked(was, now, config, base, rowOf, records[..|records| - 1], reopens, discovers);
      var r := records[|records| - 1];
      WalkedOn(before, now, config, base, rowOf, r, FateOf(was, now, rowOf, r, reopens, discovers))
  }

  function WalkedOn(walk: Walk, now: int, config: int, base: int, rowOf: map<string, int>, r: string, fate: Fate): Walk {
    Walk(Visited(walk.db, now, config, base + |walk.added|, rowOf, r, fate),
         if Touches(fate) then walk.touched + [r] else walk.touched,
         if fate.Inserts? then walk.added + [r] else walk.added)
  }

  ghost predicate NewAreSingle(db: Db, base: int) {
    forall id :: id in db.tasks && id >= base ==> db.tasks[id].group.None?
  }

  /** How far a seeding round got: `mid` is the tables with the reopened rows only. */
  ghost predicate RoundUpTo(was: Db, mid: Db, db: Db, now: int, ids: set<int>, config: int, base: int, rowOf: map<string, int>, done: seq<string>, discovers: bool, touched: seq<string>, added: seq<string>) {
    && SinglesReopened(was, mid, now, ids) && AllSingle(was, ids)
    && Grown(mid, db, config, base, added) && Distinct(added) && NewAreSingle(db, base)
    && (forall r :: r in added <==> discovers && r in done && r != "" && r !in rowOf)
    && (forall r :: r in touched ==> r in added || (r in rowOf && Touched(was, now, rowOf[r])))
  }

  /** What a round does about one record. */
  datatype Fate = Skips | Retries(mayRewrite: bool) | Inserts

  predicate Touches(fate: Fate) {
    fate.Inserts? || (fate.Retries? && fate.mayRewrite)
  }

  function FateOf(was: Db, now: int, rowOf: map<string, int>, r: string, reopens: bool, discovers: bool): Fate
    requires r in rowOf ==> rowOf[r] in was.tasks
  {
    if r in rowOf then
      (if reopens && was.tasks[rowOf[r]].group.None?
       then Retries(CanReopen(was, now, rowOf[r]) && MayRewriteIdentity(was.tasks[rowOf[r]]))
       else Skips)
    else if r != "" && discovers then Inserts
    else Skips
  }

  function Visited(db: Db, now: int, config: int, next: int, rowOf: map<string, int>, r: string, fate: Fate): Db {
    if fate.Retries? && r in rowOf then Reopened(db, now, rowOf[r])
    else if fate.Inserts? then SetTask(db, next, NewTask(config, r, None, 0))
    else db
  }

  lemma RoundRetries(was: Db, mid: Db, db: Db, now: int, ids: set<int>, config: int, base: int, rowOf: map<string, int>, done: seq<string>, discovers: bool, touched: seq<string>, added: seq<string>, r: string)
    requires RoundUpTo(was, mid, db, now, ids, config, base, rowOf, done, discovers, touched, added)
    requires r in rowOf && rowOf[r] in was.tasks && was.tasks[rowOf[r]].group.None?
    ensures var id := rowOf[r];
      var more := if CanReopen(was, now, id) && MayRewriteIdentity(was.tasks[id]) then touched + [r] else touched;
      RoundUpTo(was, Reopened(mid, now, id), Reopened(db, now, id), now, ids + {id}, config, base, rowOf, done + [r], discovers, more, added)
  {
    ReopenOnce(was, mid, now, ids, rowOf[r]);
    ReopenUnder(mid, db, now, config, base, added, rowOf[r]);
  }

  lemma RoundInserts(was: Db, mid: Db, db: Db, now: int, ids: set<int>, config: int, base: int, rowOf: map<string, int>, done: seq<string>, touched: seq<string>, added: seq<string>, r: string)
    requires RoundUpTo(was, mid, db, now, ids, config, base, rowOf, done, true, touched, added)
    requires r !in rowOf && r != "" && r !in done
    ensures RoundUpTo(was, mid, SetTask(db, base + |added|, NewTask(config, r, None, 0)), now, ids, config, base, rowOf, done + [r], true, touched + [r], added + [r])
  {
    GrowsByOne(mid, db, config, base, added, r, None, 0);
  }

  lemma RoundSkips(was: Db, mid: Db, db: Db, now: int, ids: set<int>, config: int, base: int, rowOf: map<string, int>, done: seq<string>, discovers: bool, touched: seq<string>, added: seq<string>, r: string)
    requires RoundUpTo(was, mid, db, now, ids, config, base, rowOf, done, discovers, touched, added)
    requires r in rowOf || r == "" || !discovers
    ensures RoundUpTo(was, mid, db, now, ids, config, base, rowOf, done + [r], discovers, touched, added)
  {
  }

  ghost predicate WalkedUpTo(was: Db, mid: Db, now: int, ids: set<int>, config: int, base: int, rowOf: map<string, int>, done: seq<string>, discovers: bool, walk: Walk) {
    match walk
    case Walk(db, touched, added) => RoundUpTo(was, mid, db, now, ids, config, base, rowOf, done, discovers, touched, added)
  }

  lemma RoundVisits(was: Db, mid: Db, now: int, ids: set<int>, config: int, base: int, rowOf: map<string, int>, done: seq<string>, discovers: bool, r: string, reopens: bool)
    returns (midNow: Db, idsNow: set<int>)
    requires forall q :: q in rowOf ==> rowOf[q] in was.tasks
    requires WalkedUpTo(was, mid, now, ids, config, base, rowOf, done, discovers, Walked(was, now, config, base, rowOf, done, reopens, discovers))
    requires r !in done
    ensures WalkedUpTo(was, midNow, now, idsNow, config, base, rowOf, done + [r], discovers, Walked(was, now, config, base, rowOf, done + [r], reopens, discovers))
  {
    var w := Walked(was, now, config, base, rowOf, done, reopens, discovers);
    assert (done + [r])[..|done|] == done;
    midNow, idsNow := VisitKeeps(was, mid, now, ids, config, base, rowOf, done, discovers, w, r, reopens);
  }

  lemma VisitKeeps(was: Db, mid: Db, now: int, ids: set<int>, config: int, base: int, rowOf: map<string, int>, done: seq<string>, discovers: bool, w: Walk, r: string, reopens: bool)
    returns (midNow: Db, idsNow: set<int>)
    requires WalkedUpTo(was, mid, now, ids, config, base, rowOf, done, discovers, w) && r !in done
    requires r in rowOf ==> rowOf[r] in was.tasks
    ensures WalkedUpTo(was, midNow, now, idsNow, config, base, rowOf, done + [r], discovers,
                       WalkedOn(w, now, config, base, rowOf, r, FateOf(was, now, rowOf, r, reopens, discovers)))
  {
    midNow, idsNow := mid, ids;
    match FateOf(was, now, rowOf, r, reopens, discovers) {
      case Skips => SkipKeeps(was, mid, now, ids, config, base, rowOf, done, discovers, w, r, reopens);
      case Inserts => InsertKeeps(was, mid, now, ids, config, base, rowOf, done, discovers, w, r, reopens);
      case Retries(_) =>
        RetryKeeps(was, mid, now, ids, config, base, rowOf, done, discovers, w, r, reopens);
        midNow, idsNow := Reopened(mid, now, rowOf[r]), ids + {rowOf[r]};
    }
  }

  lemma SkipKeeps(was: Db, mid: Db, now: int, ids: set<int>, config: int, base: int, rowOf: map<string, int>, done: seq<string>, discovers: bool, w: Walk, r: string, reopens: bool)
    requires WalkedUpTo(was, mid, now, ids, config, base, rowOf, done, discovers, w) && r !in done
    requires (r in rowOf ==> rowOf[r] in was.tasks) && FateOf(was, now, rowOf, r, reopens, discovers).Skips?
    ensures WalkedUpTo(was, mid, now, ids, config, base, rowOf, done + [r], discovers, WalkedOn(w, now, config, base, rowOf, r, Skips))
  {
    RoundSkips(was, mid, w.db, now, ids, config, base, rowOf, done, discovers, w.touched, w.added, r);
  }

  lemma InsertKeeps(was: Db, mid: Db, now: int, ids: set<int>, config: int, base: int, rowOf: map<string, int>, done: seq<string>, discovers: bool, w: Walk, r: string, reopens: bool)
    requires WalkedUpTo(was, mid, now, ids, config, base, rowOf, done, discovers, w) && r !in done
    requires (r in rowOf ==> rowOf[r] in was.tasks) && FateOf(was, now, rowOf, r, reopens, discovers).Inserts?
    ensures WalkedUpTo(was, mid, now, ids, config, base, rowOf, done + [r], discovers, WalkedOn(w, now, config, base, rowOf, r, Inserts))
  {
    RoundInserts(was, mid, w.db, now, ids, config, base, rowOf, done, w.touched, w.added, r);
  }

  lemma RetryKeeps(was: Db, mid: Db, now: int, ids: set<int>, config: int, base: int, rowOf: map<string, int>, done: seq<string>, discovers: bool, w: Walk, r: string, reopens: bool)
    requires WalkedUpTo(was, mid, now, ids, config, base, rowOf, done, discovers, w) && r !in done
    requires (r in rowOf ==> rowOf[r] in was.tasks) && FateOf(was, now, rowOf, r, reopens, discovers).Retries?
    ensures WalkedUpTo(was, Reopened(mid, now, rowOf[r]), now, ids + {rowOf[r]}, config, base, rowOf, done + [r], discovers,
                       WalkedOn(w, now, config, base, rowOf, r, FateOf(was, now, rowOf, r, reopens, discovers)))
  {
    RoundRetries(was, mid, w.db, now, ids, config, base, rowOf, done, discovers, w.touched, w.added, r);
  }

  lemma WalkStarts(was: Db, now: int, config: int, base: int, rowOf: map<string, int>, discovers: bool)
    requires 0 <= base && IdsBelow(was, base)
    ensures RoundUpTo(was, was, was, now, {}, config, base, rowOf, [], discovers, [], [])
  {
  }

  lemma LastIsNew(xs: seq<string>)
    requires xs != [] && Distinct(xs)
    ensures xs[|xs| - 1] !in xs[..|xs| - 1] && Distinct(xs[..|xs| - 1])
  {
  }

  lemma {:induction false} WalkKeeps(was: Db, now: int, config: int, base: int, rowOf: map<string, int>, records: seq<string>, reopens: bool, discovers: bool)
    returns (mid: Db, ids: set<int>)
    requires 0 <= base && IdsBelow(was, base) && Distinct(records) && forall r :: r in rowOf ==> rowOf[r] in was.tasks
    ensures WalkedUpTo(was, mid, now, ids, config, base, rowOf, records, discovers, Walked(was, now, config, base, rowOf, records, reopens, discovers))
    decreases records
  {
    if records == [] {
      WalkStarts(was, now, config, base, rowOf, discovers);
      return was, {};
    }
    var init, r := records[..|records| - 1], records[|records| - 1];
    LastIsNew(records);
    mid, ids := WalkKeeps(was, now, config, base, rowOf, init, reopens, discovers);
    mid, ids := RoundVisits(was, mid, now, ids, config, base, rowOf, init, discovers, r, reopens);
    assert init + [r] == records;
  }

  lemma RoundSpares(was: Db, mid: Db, grown: Db, now: int, ids: set<int>, config: int, base: int, records: seq<string>, rowOf: map<string, int>, added: seq<string>)
    requires UniqueRecords(was) && IdsBelow(was, base) && SinglesReopened(was, mid, now, ids) && AllSingle(was, ids)
    requires Finds(was, config, records, rowOf) && Grown(mid, grown, config, base, added) && Distinct(added) && NewAreSingle(grown, base)
    requires forall r :: r in added ==> r in records && r != "" && r !in rowOf
    ensures UniqueRecords(grown) && RowsSpared(was, grown, now, {}) && FrozenKept(was, grown) && (Whole(was) ==> Whole(grown))
    ensures forall r :: r in added ==> !HasRow(mid, config, r)
    ensures (forall r :: r !in added) ==> grown.tasks.Keys == was.tasks.Keys
    ensures (forall r :: r in records && r != "" && r !in rowOf ==> r in added) ==> NothingLost(grown, config, records, [])
  {
    StillUnique(was, mid);
    assert Finds(mid, config, records, rowOf);
    GrowsUnique(mid, grown, config, base, added);
    ClickSpares(was, mid, grown, now, ids, [], {}, None, config, base, added);
    if Whole(was) {
      StillWhole(was, mid);
      NewSinglesKeepWhole(mid, grown, config, base, added);
    }
    if forall r :: r in records && r != "" && r !in rowOf ==> r in added {
      AllHaveRows(mid, grown, config, base, added, records, rowOf, []);
    }
    if forall r :: r !in added {
      assert forall i :: 0 <= i < |added| ==> added[i] in added;
      forall id ensures id in grown.tasks <==> id in mid.tasks { }
      assert grown.tasks.Keys == mid.tasks.Keys;
    }
  }
}
