/** What a batch click does to each group of its configuration, said on rows and groups: which
    group goes, which is sent back to work, which is left alone. */
module Verdicts {
  import opened Options
  import opened Tables
  import opened Execution
  import opened Maintenance
  import Seeding

  // ----- the conditions, in words of the tables --------------------------------------

  predicate Running(row: TaskRow, now: int) {
    row.holder.Some? && row.holder.value.until > now
  }

  predicate OwnsFacts(row: TaskRow) {
    row.instance.Some? || row.serial.Some?
  }

  /** Nothing was ever started outside for the row. */
  predicate Untouched(row: TaskRow) {
    row.phase == Ready && row.state in {Pending, Review, Terminal, Unnotified, Paused}
  }

  predicate MayGo(row: TaskRow, now: int) {
    !Running(row, now) && (OwnsFacts(row) || Untouched(row))
  }

  ghost predicate Empty(db: Db, key: GroupKey) {
    forall id :: id in db.tasks ==> db.tasks[id].group != Some(key)
  }

  /** A click on the whole of a group that was never submitted. */
  ghost predicate WholeClick(db: Db, now: int, key: GroupKey, selected: set<string>)
    requires key in db.groups
  {
    && db.groups[key].instance.None? && db.groups[key].phase == Ready
    && forall id :: id in db.tasks && db.tasks[id].group == Some(key) ==>
         db.tasks[id].record in selected && (db.tasks[id].rank == 0 ==> !Running(db.tasks[id], now))
  }

  ghost predicate Removed(db: Db, now: int, key: GroupKey, selected: set<string>)
    requires key in db.groups
  {
    || Empty(db, key)
    || (WholeClick(db, now, key, selected) && forall id :: id in db.tasks && db.tasks[id].group == Some(key) ==> MayGo(db.tasks[id], now))
  }

  /** The leader is wanted back: somebody's cell is empty again, a create may have been lost, or
      the leader was put to review. */
  ghost predicate Wanted(db: Db, now: int, key: GroupKey, selected: set<string>, id: int)
    requires key in db.groups && id in db.tasks
  {
    if db.groups[key].instance.Some? then
      exists m :: m in db.tasks && db.tasks[m].group == Some(key) && db.tasks[m].record in selected
    else
      && !WholeClick(db, now, key, selected)
      && (db.groups[key].phase == Creating || db.groups[key].phase == Lookup || db.tasks[id].state == Review)
  }

  ghost predicate SentBack(db: Db, now: int, key: GroupKey, selected: set<string>, id: int)
    requires key in db.groups && id in db.tasks
  {
    && db.tasks[id].group == Some(key) && db.tasks[id].rank == 0
    && Wanted(db, now, key, selected, id) && !Running(db.tasks[id], now) && db.tasks[id].state != Made
  }

  /** The row as a fresh try: with a code only the writing back is left to do. */
  function AtWork(row: TaskRow, coded: bool): TaskRow {
    TaskRow(row.config, row.record, Pending, if coded then Created else Ready, None, row.generation,
            row.instance, row.serial, row.lastError, 0, None, row.group, row.rank)
  }

  /** A member that stays and is not sent back is as it was, with its applicant. */
  ghost predicate MemberOutcome(db: Db, after: Db, now: int, key: GroupKey, selected: set<string>, who: Option<string>, id: int)
    requires key in db.groups && id in db.tasks
  {
    var row, group := db.tasks[id], db.groups[key];
    if Removed(db, now, key, selected) then
      if OwnsFacts(row) then id in after.tasks && after.tasks[id] == row.(group := None, rank := 0) && SameApplicant(db, after, id)
      else id !in after.tasks && id !in after.applicants
    else if SentBack(db, now, key, selected, id) then
      && id in after.tasks && after.tasks[id] == AtWork(row, group.instance.Some?)
      && (if who.None? || (id in db.applicants && (group.instance.Some? || group.phase == Creating || group.phase == Lookup)) then SameApplicant(db, after, id)
          else id in after.applicants && after.applicants[id] == who.value)
    else id in after.tasks && after.tasks[id] == row && SameApplicant(db, after, id)
  }

  ghost predicate GroupOutcome(db: Db, after: Db, now: int, key: GroupKey, selected: set<string>, who: Option<string>)
    requires key in db.groups
  {
    && (key in after.groups <==> !Removed(db, now, key, selected))
    && (key in after.groups ==> after.groups[key] == db.groups[key])
    && forall id :: id in db.tasks && db.tasks[id].group == Some(key) ==> MemberOutcome(db, after, now, key, selected, who, id)
  }

  // ----- one pass ----------------------------------------------------------------------

  lemma RemovedMeans(db: Db, now: int, key: GroupKey, selected: set<string>)
    requires key in db.groups
    ensures Removed(db, now, key, selected) <==> NoMembers(db, key) || (Goes(db, now, key, selected) && CanDissolve(db, now, key))
  {
    assert Empty(db, key) <==> NoMembers(db, key);
    WholeMeans(db, now, key, selected);
    forall id | id in db.tasks && InGroup(db.tasks[id], key) ensures MayGo(db.tasks[id], now) <==> MemberVerdict(db.tasks[id], now) != Blocks { }
  }

  lemma WholeMeans(db: Db, now: int, key: GroupKey, selected: set<string>)
    requires key in db.groups
    ensures WholeClick(db, now, key, selected) <==> Goes(db, now, key, selected)
  {
    if Goes(db, now, key, selected) {
      forall id | id in db.tasks && db.tasks[id].group == Some(key) ensures db.tasks[id].record in selected && (db.tasks[id].rank == 0 ==> !Running(db.tasks[id], now)) {
        assert InGroup(db.tasks[id], key);
      }
    }
    if WholeClick(db, now, key, selected) {
      assert AllSelected(db, key, selected);
      assert LeaderFree(db, now, key);
    }
  }

  lemma SentBackMeans(db: Db, now: int, key: GroupKey, selected: set<string>, id: int)
    requires key in db.groups && id in db.tasks && !Goes(db, now, key, selected)
    ensures SentBack(db, now, key, selected, id) <==> Retriable(db, now, key, selected, id)
  {
    WholeMeans(db, now, key, selected);
    if AnySelected(db, key, selected) {
      var m :| m in db.tasks && InGroup(db.tasks[m], key) && db.tasks[m].record in selected;
      assert db.tasks[m].group == Some(key);
    }
    if m :| m in db.tasks && db.tasks[m].group == Some(key) && db.tasks[m].record in selected {
      assert InGroup(db.tasks[m], key);
    }
  }

  lemma NotSentBack(db: Db, now: int, key: GroupKey, selected: set<string>, id: int)
    requires key in db.groups && id in db.tasks && Goes(db, now, key, selected)
    ensures !SentBack(db, now, key, selected, id)
  {
    WholeMeans(db, now, key, selected);
  }

  lemma PassOutcome(db: Db, now: int, key: GroupKey, selected: set<string>, who: Option<string>)
    requires key in db.groups && OneLeader(db)
    ensures GroupOutcome(db, GroupStep(db, now, key, selected, who), now, key, selected, who)
  {
    var after := GroupStep(db, now, key, selected, who);
    RemovedMeans(db, now, key, selected);
    if NoMembers(db, key) {
    } else if Goes(db, now, key, selected) {
      forall id | id in db.tasks && db.tasks[id].group == Some(key) ensures MemberOutcome(db, after, now, key, selected, who, id) {
        NotSentBack(db, now, key, selected, id);
        if CanDissolve(db, now, key) { assert MemberVerdict(db.tasks[id], now) != Blocks by { assert InGroup(db.tasks[id], key); } }
      }
    } else {
      forall id | id in db.tasks && db.tasks[id].group == Some(key) ensures MemberOutcome(db, after, now, key, selected, who, id) {
        SentBackMeans(db, now, key, selected, id);
        PassRetries(db, now, key, selected, who, id);
      }
    }
  }

  lemma PassRetries(db: Db, now: int, key: GroupKey, selected: set<string>, who: Option<string>, id: int)
    requires key in db.groups && OneLeader(db) && id in db.tasks && InGroup(db.tasks[id], key) && !Goes(db, now, key, selected)
    ensures var after := GroupStep(db, now, key, selected, who);
      if Retriable(db, now, key, selected, id) then after == Retried(db, now, key, id, who)
      else id in after.tasks && after.tasks[id] == db.tasks[id] && SameApplicant(db, after, id)
  {
    if other :| Retriable(db, now, key, selected, other) {
      assert forall x :: Retriable(db, now, key, selected, x) ==> IsLeader(db.tasks[x], key);
    }
  }

  // ----- the whole loop ------------------------------------------------------------------

  /** The same group in two tables: its row, its members and their applicants. */
  ghost predicate SameMembers(db: Db, mid: Db, key: GroupKey) {
    && (key in db.groups <==> key in mid.groups) && (key in db.groups ==> mid.groups[key] == db.groups[key])
    && (forall id :: id in db.tasks && db.tasks[id].group == Some(key) ==> id in mid.tasks && mid.tasks[id] == db.tasks[id] && SameApplicant(db, mid, id))
    && (forall id :: id in mid.tasks && mid.tasks[id].group == Some(key) ==> id in db.tasks && db.tasks[id].group == Some(key))
  }

  lemma SameConditions(db: Db, mid: Db, now: int, key: GroupKey, selected: set<string>)
    requires SameMembers(db, mid, key) && key in db.groups
    ensures Empty(db, key) <==> Empty(mid, key)
    ensures WholeClick(db, now, key, selected) <==> WholeClick(mid, now, key, selected)
    ensures Removed(db, now, key, selected) <==> Removed(mid, now, key, selected)
    ensures forall id :: id in db.tasks && db.tasks[id].group == Some(key) ==> (SentBack(db, now, key, selected, id) <==> SentBack(mid, now, key, selected, id))
  {
  }

  lemma SameStart(db: Db, mid: Db, after: Db, now: int, key: GroupKey, selected: set<string>, who: Option<string>)
    requires SameMembers(db, mid, key) && key in db.groups && GroupOutcome(mid, after, now, key, selected, who)
    ensures GroupOutcome(db, after, now, key, selected, who)
  {
    SameConditions(db, mid, now, key, selected);
    forall id | id in db.tasks && db.tasks[id].group == Some(key) ensures MemberOutcome(db, after, now, key, selected, who, id) {
      assert MemberOutcome(mid, after, now, key, selected, who, id);
    }
  }

  /** A pass over another group leaves the outcome as it is. */
  lemma SameEnd(db: Db, mid: Db, now: int, other: GroupKey, key: GroupKey, selected: set<string>, who: Option<string>)
    requires key in db.groups && other != key && GroupOutcome(db, mid, now, key, selected, who)
    requires forall id :: id in mid.tasks && id in db.tasks && db.tasks[id].group == Some(key) ==> mid.tasks[id].group != Some(other)
    ensures GroupOutcome(db, GroupStep(mid, now, other, selected, who), now, key, selected, who)
  {
    var after := GroupStep(mid, now, other, selected, who);
    StepFrame(mid, now, other, selected, who);
    forall id | id in db.tasks && db.tasks[id].group == Some(key) ensures MemberOutcome(db, after, now, key, selected, who, id) {
      assert MemberOutcome(db, mid, now, key, selected, who, id);
      if id !in mid.tasks { ApplicantsShrink(mid, now, other, selected, who, id); }
    }
  }

  lemma ApplicantsShrink(db: Db, now: int, key: GroupKey, selected: set<string>, who: Option<string>, id: int)
    requires id !in db.tasks && id !in db.applicants
    ensures id !in GroupStep(db, now, key, selected, who).applicants
  {
  }

  lemma {:induction false} LeadersStay(db: Db, now: int, keys: seq<GroupKey>, selected: set<string>, who: Option<string>)
    requires OneLeader(db)
    ensures OneLeader(Maintained(db, now, keys, selected, who))
    decreases keys
  {
    if keys == [] {
    } else {
      var init, last := keys[..|keys| - 1], keys[|keys| - 1];
      LeadersStay(db, now, init, selected, who);
      StepKeepsLeader(Maintained(db, now, init, selected, who), now, last, selected, who);
    }
  }

  lemma NotReachedYet(db: Db, now: int, keys: seq<GroupKey>, selected: set<string>, who: Option<string>, key: GroupKey)
    requires key !in keys
    ensures SameMembers(db, Maintained(db, now, keys, selected, who), key)
  {
    MaintainedFrame(db, now, keys, selected, who);
    NotReached(db, now, keys, selected, who, key);
    Seeding.MaintainedKeepsRows(db, now, keys, selected, who);
  }

  /** The loop over the groups of a configuration, group by group. A group goes exactly if it has
      no member, or if it was never submitted, was clicked as a whole and nothing keeps a member;
      then members with a code or number of their own stay as single rows and the others go with
      their applicants. Of a group that stays, the leader is sent back exactly if it is wanted,
      idle and reopenable, and nothing else about the group changes. */
  lemma {:induction false} MaintainedOutcome(db: Db, now: int, keys: seq<GroupKey>, selected: set<string>, who: Option<string>, key: GroupKey)
    requires DistinctKeys(keys) && key in keys && key in db.groups && OneLeader(db)
    ensures GroupOutcome(db, Maintained(db, now, keys, selected, who), now, key, selected, who)
    decreases keys
  {
    var init, last := keys[..|keys| - 1], keys[|keys| - 1];
    var mid := Maintained(db, now, init, selected, who);
    if key == last {
      NotReachedYet(db, now, init, selected, who, key);
      LeadersStay(db, now, init, selected, who);
      PassOutcome(mid, now, key, selected, who);
      SameStart(db, mid, Maintained(db, now, keys, selected, who), now, key, selected, who);
    } else {
      MaintainedOutcome(db, now, init, selected, who, key);
      Seeding.MaintainedKeepsRows(db, now, init, selected, who);
      SameEnd(db, mid, now, last, key, selected, who);
    }
  }
}
