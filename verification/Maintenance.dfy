/** What a batch click may do to the groups of its configuration. */
module Maintenance {
  import opened Options
  import opened Tables
  import opened Execution

  /** What dissolving a group does to one of its rows. */
  datatype Verdict = Blocks | Detaches | Deletes

  function MemberVerdict(row: TaskRow, now: int): Verdict {
    if LiveLease(row, now) then Blocks
    else if row.instance.Some? || row.serial.Some? then Detaches
    else if row.phase != Ready || !Dissolvable(row.state) then Blocks
    else Deletes
  }

  predicate Doomed(row: TaskRow, now: int, key: GroupKey) {
    InGroup(row, key) && MemberVerdict(row, now) == Deletes
  }

  /** No member is running or past its first external write. */
  predicate CanDissolve(db: Db, now: int, key: GroupKey) {
    && (exists id :: id in db.tasks && InGroup(db.tasks[id], key))
    && (forall id :: id in db.tasks && InGroup(db.tasks[id], key) ==> MemberVerdict(db.tasks[id], now) != Blocks)
  }

  function DissolvedTasks(db: Db, now: int, key: GroupKey): map<int, TaskRow> {
    map id | id in db.tasks && !Doomed(db.tasks[id], now, key) ::
      if InGroup(db.tasks[id], key) then Ungrouped(db.tasks[id]) else db.tasks[id]
  }

  function DoomedIds(db: Db, now: int, key: GroupKey): set<int> {
    set id | id in db.tasks && Doomed(db.tasks[id], now, key)
  }

  /** Rows with an instance or a serial of their own survive as single tasks; the
      others go, with their applicants, and so does the group row. */
  function Dissolved(db: Db, now: int, key: GroupKey): Db {
    Db(DissolvedTasks(db, now, key), db.groups - {key}, db.applicants - DoomedIds(db, now, key))
  }

  predicate LeaderFree(db: Db, now: int, key: GroupKey) {
    forall id :: id in db.tasks && IsLeader(db.tasks[id], key) ==> !LiveLease(db.tasks[id], now)
  }

  /** The group row says no create was ever tried, and nobody is running the leader. */
  predicate Untried(db: Db, now: int, key: GroupKey) {
    && key in db.groups && db.groups[key].instance.None? && db.groups[key].phase == Ready
    && LeaderFree(db, now, key)
  }

  predicate ReopenNeeded(group: GroupRow, leader: TaskRow, anySelected: bool) {
    if group.instance.Some? then anySelected
    else group.phase in {Creating, Lookup} || leader.state == Review
  }

  function LeaderPhase(group: GroupRow): Phase {
    if group.instance.Some? then Created else Ready
  }

  // ----- group maintenance as a function ----------------------------------

  ghost predicate NoMembers(db: Db, key: GroupKey) {
    forall id :: id in db.tasks ==> !InGroup(db.tasks[id], key)
  }

  ghost predicate AllSelected(db: Db, key: GroupKey, selected: set<string>) {
    forall id :: id in db.tasks && InGroup(db.tasks[id], key) ==> db.tasks[id].record in selected
  }

  ghost predicate AnySelected(db: Db, key: GroupKey, selected: set<string>) {
    exists id :: id in db.tasks && InGroup(db.tasks[id], key) && db.tasks[id].record in selected
  }

  ghost predicate OneLeader(db: Db) {
    forall i, j, key ::
      (i in db.tasks && j in db.tasks && IsLeader(db.tasks[i], key) && IsLeader(db.tasks[j], key)) ==> i == j
  }

  /** The group may already have an instance, so its applicant is settled. */
  predicate Frozen(group: GroupRow) {
    group.instance.Some? || group.phase in {Creating, Lookup}
  }

  ghost predicate Retriable(db: Db, now: int, key: GroupKey, selected: set<string>, id: int) {
    && key in db.groups && id in db.tasks && IsLeader(db.tasks[id], key)
    && ReopenNeeded(db.groups[key], db.tasks[id], AnySelected(db, key, selected))
    && CanReopen(db, now, id)
  }

  /** The leader goes back to work; whoever clicked is recorded, except over a frozen identity. */
  function Retried(db: Db, now: int, key: GroupKey, id: int, who: Option<string>): Db
    requires key in db.groups
  {
    var back := ReopenedAt(db, now, id, LeaderPhase(db.groups[key]));
    if who.None? || (Frozen(db.groups[key]) && id in db.applicants) then back
    else back.(applicants := back.applicants[id := who.value])
  }

  ghost predicate Goes(db: Db, now: int, key: GroupKey, selected: set<string>) {
    Untried(db, now, key) && AllSelected(db, key, selected)
  }

  /** What one pass of the maintenance loop does to one group. */
  ghost function GroupStep(db: Db, now: int, key: GroupKey, selected: set<string>, who: Option<string>): Db {
    if key !in db.groups then db
    else if NoMembers(db, key) then db.(groups := db.groups - {key})
    else if Goes(db, now, key, selected) then
      (if CanDissolve(db, now, key) then Dissolved(db, now, key) else db)
    else if exists id :: Retriable(db, now, key, selected, id) then
      var id :| Retriable(db, now, key, selected, id);
      Retried(db, now, key, id, who)
    else db
  }

  ghost function Maintained(db: Db, now: int, keys: seq<GroupKey>, selected: set<string>, who: Option<string>): Db
    decreases keys
  {
    if keys == [] then db
    else GroupStep(Maintained(db, now, keys[..|keys| - 1], selected, who), now, keys[|keys| - 1], selected, who)
  }

  // ----- what it leaves alone ---------------------------------------------

  predicate OwnFact(row: TaskRow) {
    row.instance.Some? || row.serial.Some?
  }

  /** The row is the same record with the same external facts; it may have left its
      group only because of a fact of its own. */
  predicate RowKept(was: TaskRow, row: TaskRow) {
    && row.config == was.config && row.record == was.record
    && row.instance == was.instance && row.serial == was.serial
    && ((row.group == was.group && row.rank == was.rank) || (row.group.None? && row.rank == 0 && OwnFact(was)))
  }

  predicate SameApplicant(a: Db, b: Db, id: int) {
    (id in a.applicants <==> id in b.applicants) && (id in a.applicants ==> b.applicants[id] == a.applicants[id])
  }

  /** Rows outside the group, their applicants, and the other group rows are not touched. */
  lemma StepFrame(db: Db, now: int, key: GroupKey, selected: set<string>, who: Option<string>)
    ensures var after := GroupStep(db, now, key, selected, who);
      && after.tasks.Keys <= db.tasks.Keys && after.groups.Keys <= db.groups.Keys
      && (forall id :: id in db.tasks && !InGroup(db.tasks[id], key) ==>
            id in after.tasks && after.tasks[id] == db.tasks[id] && SameApplicant(db, after, id))
      && (forall k :: k in db.groups && (k != key || k in after.groups) ==> k in after.groups && after.groups[k] == db.groups[k])
  {
  }

  /** A row that goes was untouched by any external write, and its whole group was
      selected; a row that stays keeps its facts; a frozen identity is not rewritten. */
  predicate OwnOutcome(db: Db, after: Db, now: int, key: GroupKey, selected: set<string>, id: int)
    requires id in db.tasks && key in db.groups
  {
    && (id !in after.tasks ==> Doomed(db.tasks[id], now, key) && db.tasks[id].record in selected && Untried(db, now, key))
    && (id in after.tasks ==> RowKept(db.tasks[id], after.tasks[id]))
    && (Frozen(db.groups[key]) ==> key in after.groups && id in after.tasks && after.tasks[id].group == db.tasks[id].group)
    && (Frozen(db.groups[key]) && id in db.applicants ==> SameApplicant(db, after, id))
  }

  lemma StepOwn(db: Db, now: int, key: GroupKey, selected: set<string>, who: Option<string>, id: int)
    requires key in db.groups && id in db.tasks && InGroup(db.tasks[id], key)
    ensures OwnOutcome(db, GroupStep(db, now, key, selected, who), now, key, selected, id)
  {
  }

  predicate DistinctKeys(keys: seq<GroupKey>) {
    forall i, j :: 0 <= i < j < |keys| ==> keys[i] != keys[j]
  }

  lemma {:induction false} MaintainedFrame(db: Db, now: int, keys: seq<GroupKey>, selected: set<string>, who: Option<string>)
    ensures var after := Maintained(db, now, keys, selected, who);
      && after.tasks.Keys <= db.tasks.Keys && after.groups.Keys <= db.groups.Keys
      && (forall id :: id in db.tasks && (forall k :: k in keys ==> !InGroup(db.tasks[id], k)) ==>
            id in after.tasks && after.tasks[id] == db.tasks[id] && SameApplicant(db, after, id))
      && (forall k :: k in db.groups && (k !in keys || k in after.groups) ==> k in after.groups && after.groups[k] == db.groups[k])
    decreases keys
  {
    if keys == [] {
    } else {
      var init := keys[..|keys| - 1];
      MaintainedFrame(db, now, init, selected, who);
      StepFrame(Maintained(db, now, init, selected, who), now, keys[|keys| - 1], selected, who);
    }
  }

  /** Members of a group the loop has not reached yet are as they were. */
  lemma NotReached(db: Db, now: int, keys: seq<GroupKey>, selected: set<string>, who: Option<string>, key: GroupKey)
    requires key !in keys
    ensures var after := Maintained(db, now, keys, selected, who);
      && (key in db.groups ==> key in after.groups && after.groups[key] == db.groups[key])
      && (forall id :: id in db.tasks && InGroup(db.tasks[id], key) ==> id in after.tasks && after.tasks[id] == db.tasks[id] && SameApplicant(db, after, id))
  {
    MaintainedFrame(db, now, keys, selected, who);
  }

  lemma SameOutcome(db: Db, mid: Db, after: Db, now: int, key: GroupKey, selected: set<string>, id: int)
    requires id in db.tasks && key in db.groups && key in mid.groups && mid.groups[key] == db.groups[key]
    requires id in mid.tasks && mid.tasks[id] == db.tasks[id] && SameApplicant(db, mid, id)
    requires forall j :: j in db.tasks && InGroup(db.tasks[j], key) ==> j in mid.tasks && mid.tasks[j] == db.tasks[j]
    requires OwnOutcome(mid, after, now, key, selected, id)
    ensures OwnOutcome(db, after, now, key, selected, id)
  {
    assert Untried(mid, now, key) ==> Untried(db, now, key);
  }

  /** The whole loop does to a member what the pass over its own group does. */
  lemma {:induction false} MaintainedOwn(db: Db, now: int, keys: seq<GroupKey>, selected: set<string>, who: Option<string>, key: GroupKey, id: int)
    requires DistinctKeys(keys) && key in keys && key in db.groups && id in db.tasks && InGroup(db.tasks[id], key)
    ensures OwnOutcome(db, Maintained(db, now, keys, selected, who), now, key, selected, id)
    decreases keys
  {
    var init := keys[..|keys| - 1];
    var last := keys[|keys| - 1];
    var mid := Maintained(db, now, init, selected, who);
    var after := GroupStep(mid, now, last, selected, who);
    StepFrame(mid, now, last, selected, who);
    if key == last {
      NotReached(db, now, init, selected, who, key);
      StepOwn(mid, now, key, selected, who, id);
      SameOutcome(db, mid, after, now, key, selected, id);
    } else {
      MaintainedOwn(db, now, init, selected, who, key, id);
      assert id in mid.tasks ==> !InGroup(mid.tasks[id], last);
    }
  }

  lemma StepLeavesNoOrphan(db: Db, now: int, key: GroupKey, selected: set<string>, who: Option<string>)
    requires key in GroupStep(db, now, key, selected, who).groups
    ensures !NoMembers(GroupStep(db, now, key, selected, who), key)
  {
    var id :| id in db.tasks && InGroup(db.tasks[id], key);
    StepOwn(db, now, key, selected, who, id);
    var after := GroupStep(db, now, key, selected, who);
    assert id in after.tasks && InGroup(after.tasks[id], key);
  }

  /** After maintenance every group that is left has a member: orphans are removed. */
  lemma {:induction false} NoOrphansLeft(db: Db, now: int, keys: seq<GroupKey>, selected: set<string>, who: Option<string>, key: GroupKey)
    requires key in keys && key in Maintained(db, now, keys, selected, who).groups
    ensures !NoMembers(Maintained(db, now, keys, selected, who), key)
    decreases keys
  {
    var init, last := keys[..|keys| - 1], keys[|keys| - 1];
    var mid := Maintained(db, now, init, selected, who);
    StepFrame(mid, now, last, selected, who);
    if key != last {
      NoOrphansLeft(db, now, init, selected, who, key);
      var id :| id in mid.tasks && InGroup(mid.tasks[id], key);
      assert !InGroup(mid.tasks[id], last);
    } else {
      StepLeavesNoOrphan(mid, now, key, selected, who);
    }
  }

  lemma StepKeepsLeader(db: Db, now: int, key: GroupKey, selected: set<string>, who: Option<string>)
    requires OneLeader(db)
    ensures OneLeader(GroupStep(db, now, key, selected, who))
  {
    var after := GroupStep(db, now, key, selected, who);
    forall i, j, k | i in after.tasks && j in after.tasks && IsLeader(after.tasks[i], k) && IsLeader(after.tasks[j], k)
      ensures i == j
    {
      assert IsLeader(db.tasks[i], k) && IsLeader(db.tasks[j], k);
    }
  }
}
