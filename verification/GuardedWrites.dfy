/** Every guarded update of the worker, column by column: which rows it takes, what they hold
    afterwards, and that nothing else moves. */
module GuardedWrites {
  import opened Options
  import opened Tables
  import opened Execution
  import opened Maintenance

  /** The row is held by this very claim, and the lease has not run out. */
  predicate HeldBy(db: Db, now: int, c: Claim) {
    c.id in db.tasks &&
    var row := db.tasks[c.id];
    && row.holder.Some? && row.holder.value.owner == c.owner && now < row.holder.value.until
    && row.generation == c.generation && row.state != Review
  }

  /** `after` is `db` with this row instead. */
  predicate OnlyRow(db: Db, after: Db, id: int, row: TaskRow) {
    after == db.(tasks := db.tasks[id := row])
  }

  predicate OnlyRows(db: Db, after: Db, id: int, row: TaskRow, key: GroupKey, group: GroupRow) {
    after == Db(db.tasks[id := row], db.groups[key := group], db.applicants)
  }

  /** The lease of a dead owner over an open write: to review, with the note. */
  lemma SweepWrites(db: Db, now: int, id: int)
    ensures Swept(db, now).groups == db.groups && Swept(db, now).applicants == db.applicants && (id in Swept(db, now).tasks <==> id in db.tasks)
    ensures id in db.tasks ==>
      var row := db.tasks[id];
      var searching := row.group.Some? && row.rank == 0 && row.phase == Lookup;
      Swept(db, now).tasks[id] ==
        if row.holder.Some? && row.holder.value.until <= now && row.phase !in {Ready, Created} && !searching && row.state != Review
        then row.(state := Review, lastError := Some("外部写入结果未知，禁止自动重放；请人工核查"))
        else row
  {
  }

  /** A row may be claimed: it waits, no write is open (but a leader may have a lookup to do),
      the time has come, and nobody holds it; a batch takes single rows and leaders only. */
  lemma ClaimTakes(row: TaskRow, now: int, single: bool)
    ensures Claimable(row, now, single) <==>
      && row.state == Pending
      && (row.phase == Ready || row.phase == Created || (row.phase == Lookup && row.group.Some? && row.rank == 0))
      && (single || row.rank == 0)
      && (row.availableAt.Some? ==> row.availableAt.value <= now)
      && (row.holder.Some? ==> row.holder.value.until <= now)
  {
  }

  lemma ClaimWrites(db: Db, now: int, id: int, owner: nat)
    requires id in db.tasks
    ensures var row, c := db.tasks[id], ClaimOf(db.tasks[id], id, owner);
      && OnlyRow(db, Claimed(db, now, id, owner), id, row.(holder := Some(Lease(owner, now + 300)), generation := row.generation + 1))
      && c == Claim(id, owner, row.generation + 1, row.attempts)
      && (row.state != Review ==> HeldBy(Claimed(db, now, id, owner), now, c))
  {
  }

  lemma BeginWrites(db: Db, now: int, c: Claim, phase: Phase)
    ensures if HeldBy(db, now, c) && db.tasks[c.id].phase in {Ready, Created} then
        OnlyRow(db, Begun(db, now, c, phase), c.id, db.tasks[c.id].(phase := phase, holder := Some(Lease(c.owner, now + 300))))
      else Begun(db, now, c, phase) == db
  {
  }

  /** A code that is given replaces the one there; without one it stays. */
  lemma ConfirmWrites(db: Db, now: int, c: Claim, phase: Phase, code: Option<Code>)
    ensures if HeldBy(db, now, c) then
        OnlyRow(db, Confirmed(db, now, c, phase, code), c.id, db.tasks[c.id].(phase := phase, instance := if code.Some? then code else db.tasks[c.id].instance))
      else Confirmed(db, now, c, phase, code) == db
  {
  }

  /** Even after the lease has run out, but not once somebody else holds the row. */
  lemma UnknownWrites(db: Db, c: Claim)
    ensures if c.id in db.tasks && db.tasks[c.id].holder.Some? && db.tasks[c.id].holder.value.owner == c.owner && db.tasks[c.id].generation == c.generation then
        OnlyRow(db, MarkedUnknown(db, c), c.id, db.tasks[c.id].(state := Review, lastError := Some("外部写入结果未知，禁止自动重放；请人工核查")))
      else MarkedUnknown(db, c) == db
  {
  }

  /** A conclusion is refused while a write is open. */
  lemma FinishRefused(db: Db, now: int, c: Claim, o: Outcome, retry: bool)
    requires !HeldBy(db, now, c) || db.tasks[c.id].phase !in {Ready, Created}
    ensures Finished(db, now, c, o, retry) == db
  {
  }

  /** A click makes an idle row a fresh try; a row with a code of its own has only the writing
      back left to do. Its last error stays. */
  lemma ReopenWrites(db: Db, now: int, id: int)
    ensures if id in db.tasks && db.tasks[id].state != Made && (db.tasks[id].holder.Some? ==> db.tasks[id].holder.value.until <= now) then
        var row := db.tasks[id];
        OnlyRow(db, Reopened(db, now, id), id,
          TaskRow(row.config, row.record, Pending, if row.instance.Some? then Created else Ready, None, row.generation,
                  row.instance, row.serial, row.lastError, 0, None, row.group, row.rank))
      else Reopened(db, now, id) == db
  {
  }

  /** Announcing a create through the leader marks the group row with it. */
  lemma BeginGroupWrites(db: Db, now: int, c: Claim, key: GroupKey, phase: Phase)
    ensures if HeldBy(db, now, c) && db.tasks[c.id].group == Some(key) && db.tasks[c.id].rank == 0 && key in db.groups && db.tasks[c.id].phase in {Ready, Created} then
        OnlyRows(db, BegunGroup(db, now, c, key, phase), c.id, db.tasks[c.id].(phase := phase, holder := Some(Lease(c.owner, now + 300))),
                 key, db.groups[key].(phase := phase))
      else BegunGroup(db, now, c, key, phase) == db
  {
  }

  /** The code goes to the group row, never to the leader, and is not lost again. */
  lemma ConfirmGroupWrites(db: Db, now: int, c: Claim, key: GroupKey, phase: Phase, code: Option<Code>)
    ensures if HeldBy(db, now, c) && db.tasks[c.id].group == Some(key) && db.tasks[c.id].rank == 0 && key in db.groups then
        OnlyRows(db, ConfirmedGroup(db, now, c, key, phase, code), c.id, db.tasks[c.id].(phase := phase),
                 key, db.groups[key].(phase := phase, instance := if code.Some? then code else db.groups[key].instance))
      else ConfirmedGroup(db, now, c, key, phase, code) == db
  {
  }

  /** A seeded row waits for the next round: nothing is known of it and nobody holds it. */
  lemma SeededWaits(config: int, record: string, group: Option<GroupKey>, rank: nat, now: int)
    ensures NewTask(config, record, group, rank) == TaskRow(config, record, Pending, Ready, None, 0, None, None, None, 0, None, group, rank)
    ensures Claimable(NewTask(config, record, group, rank), now, false) <==> rank == 0
  {
  }

  // ----- leaving a group -------------------------------------------------------------

  predicate Belongs(db: Db, key: GroupKey, id: int) {
    id in db.tasks && db.tasks[id].group == Some(key)
  }

  /** `id` is a single row with all else it had; if it led and others are left, the first of them
      leads; the group row goes with the last member and is else untouched. */
  lemma LeaveWrites(db: Db, key: GroupKey, id: int, heir: int)
    requires id in db.tasks && IsMember(db, key, id) && HeirOk(db, key, id, heir)
    ensures var after, row := Detached(db, key, id, heir), db.tasks[id];
      && Belongs(db, key, id) && after.tasks.Keys == db.tasks.Keys && after.applicants == db.applicants
      && after.tasks[id] == row.(group := None, rank := 0)
      && (forall j :: j in db.tasks && !Belongs(db, key, j) ==> after.tasks[j] == db.tasks[j])
      && (forall k :: k in db.groups && k != key ==> k in after.groups && after.groups[k] == db.groups[k])
      && (if forall j :: Belongs(db, key, j) ==> j == id then after.groups == db.groups - {key}
          else
            && after.groups == db.groups
            && (row.rank != 0 ==> forall j :: Belongs(db, key, j) && j != id ==> after.tasks[j] == db.tasks[j])
            && (row.rank == 0 ==>
                  && Belongs(db, key, heir) && heir != id && after.tasks[heir] == db.tasks[heir].(rank := 0)
                  && forall j :: Belongs(db, key, j) && j != id ==>
                       db.tasks[heir].rank <= db.tasks[j].rank && (j != heir ==> after.tasks[j] == db.tasks[j])))
  {
    MembersAre(db, key);
    if forall j :: Belongs(db, key, j) ==> j == id {
      assert Belongs(db, key, id);
      forall j ensures j in Members(db, key) <==> j in {id} { assert j in Members(db, key) <==> Belongs(db, key, j); }
      assert Members(db, key) == {id};
    } else {
      var j :| Belongs(db, key, j) && j != id;
      assert j in Members(db, key) && Members(db, key) != {id};
    }
  }

  lemma MembersAre(db: Db, key: GroupKey)
    ensures forall j :: j in Members(db, key) <==> Belongs(db, key, j)
  {
  }

  /** A click can be served only while nobody is at work on the group. */
  lemma BusyMeans(db: Db, now: int, key: GroupKey)
    ensures GroupBusy(db, now, key) <==> exists id :: Belongs(db, key, id) && db.tasks[id].holder.Some? && now < db.tasks[id].holder.value.until
  {
    MembersAre(db, key);
    if GroupBusy(db, now, key) {
      var id :| id in Members(db, key) && LiveLease(db.tasks[id], now);
      assert Belongs(db, key, id);
    }
    if id :| Belongs(db, key, id) && db.tasks[id].holder.Some? && now < db.tasks[id].holder.value.until {
      assert id in Members(db, key) && LiveLease(db.tasks[id], now);
    }
  }

  lemma DropWrites(db: Db, id: int, why: string)
    requires id in db.tasks
    ensures OnlyRow(db, Dropped(db, id, why), id,
      db.tasks[id].(state := Terminal, lastError := Some(why), holder := None, group := None, rank := 0))
  {
  }
}
