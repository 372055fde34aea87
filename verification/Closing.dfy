/** Closing a group: one write settles the leader, all members and the serial. */
module Closing {
  import opened Options
  import opened Tables
  import opened Execution
  import GP = GroupProtocol
  import Notification

  /** The closing claim still holds the leader, and no write to the members' cells is open. */
  predicate Accepted(s: GP.State, o: nat, serial: Option<string>)
    requires o in s.actors
  {
    var c, key := s.actors[o].claim, s.actors[o].key;
    c.id in s.db.tasks &&
    var leader := s.db.tasks[c.id];
    && leader.holder.Some? && leader.holder.value.owner == c.owner && s.now < leader.holder.value.until
    && leader.generation == c.generation && leader.state != Review
    && leader.group == Some(key) && leader.rank == 0 && leader.phase != Backfilling
    && (serial.Some? ==> key in s.db.groups)
  }

  /** The state the whole group ends in: the one given, unless the retries are used up. */
  function Verdict(tries: nat, state: TaskState, retry: bool): TaskState {
    if retry && tries >= 10 then Review else state
  }

  ghost predicate MembersSettled(was: Db, now: Db, at: int, c: Claim, key: GroupKey, state: TaskState, reason: Option<string>, retry: bool) {
    forall id :: id in was.tasks && was.tasks[id].group == Some(key) ==>
      id in now.tasks && now.tasks[id] == SettledRow(was.tasks[id], id == c.id, at, c.attempts + (if retry then 1 else 0), state, reason, retry)
  }

  /** A member after the closing; the leader is let go and put off besides. */
  function SettledRow(was: TaskRow, leads: bool, at: int, tries: nat, state: TaskState, reason: Option<string>, retry: bool): TaskRow {
    var final := Verdict(tries, state, retry);
    if leads then
      TaskRow(was.config, was.record, final, was.phase, None, was.generation, was.instance, was.serial, reason, tries,
              Some(at + if retry then Notification.BACKOFF[if tries < 8 then tries else 8] else 30), was.group, was.rank)
    else
      TaskRow(was.config, was.record, final, was.phase, was.holder, was.generation, was.instance, was.serial, reason, was.attempts,
              was.availableAt, was.group, was.rank)
  }

  ghost predicate OthersUntouched(was: Db, now: Db, key: GroupKey) {
    && now.tasks.Keys == was.tasks.Keys && now.groups.Keys == was.groups.Keys && now.applicants == was.applicants
    && (forall id :: id in was.tasks && was.tasks[id].group != Some(key) ==> now.tasks[id] == was.tasks[id])
    && (forall k :: k in was.groups && k != key ==> now.groups[k] == was.groups[k])
  }

  predicate SerialRecorded(was: Db, now: Db, key: GroupKey, serial: Option<string>) {
    key in was.groups ==>
      && key in now.groups
      && now.groups[key] == if serial.Some? then was.groups[key].(serial := serial, phase := Created) else was.groups[key]
  }

  /** If the write is accepted, every member ends in the same state with the same last error as
      its leader, the leader is let go and put off, the serial stands on the group row, and
      nothing else changes; if it is not, nothing changes at all. */
  lemma FinishSettles(s: GP.State, o: nat, state: TaskState, serial: Option<string>, reason: Option<string>, retry: bool)
    requires GP.Inv(s) && GP.Enabled(s, GP.Finish(o, state, serial, reason, retry))
    ensures var t, a := GP.Next(s, GP.Finish(o, state, serial, reason, retry)), s.actors[o];
      && (Accepted(s, o, serial) ==>
            && MembersSettled(s.db, t.db, s.now, a.claim, a.key, state, reason, retry)
            && OthersUntouched(s.db, t.db, a.key) && SerialRecorded(s.db, t.db, a.key, serial))
      && (!Accepted(s, o, serial) ==> t.db == s.db)
  {
    var a := s.actors[o];
    if Accepted(s, o, serial) {
      FollowersRank(s, o);
      RowsSettled(s.db, s.now, a.claim, a.key, state, serial, reason, retry);
      RestKept(s.db, s.now, a.claim, a.key, state, serial, reason, retry);
    }
  }

  lemma RowsSettled(db: Db, now: int, c: Claim, key: GroupKey, state: TaskState, serial: Option<string>, reason: Option<string>, retry: bool)
    requires CanFinishGroup(db, now, c, key, serial)
    requires forall id :: id in db.tasks && InGroup(db.tasks[id], key) && id != c.id ==> db.tasks[id].rank > 0
    ensures MembersSettled(db, FinishedGroup(db, now, c, key, state, serial, reason, retry), now, c, key, state, reason, retry)
  {
    Notification.DelayIs(c, retry);
  }

  lemma RestKept(db: Db, now: int, c: Claim, key: GroupKey, state: TaskState, serial: Option<string>, reason: Option<string>, retry: bool)
    requires CanFinishGroup(db, now, c, key, serial)
    ensures var after := FinishedGroup(db, now, c, key, state, serial, reason, retry);
      OthersUntouched(db, after, key) && SerialRecorded(db, after, key, serial)
  {
  }

  /** A member that is not the leader has a position behind it. */
  lemma FollowersRank(s: GP.State, o: nat)
    requires GP.Inv(s) && o in s.actors
    ensures OwnsLeader(s.db, s.now, s.actors[o].claim, s.actors[o].key) ==>
      forall id :: id in s.db.tasks && InGroup(s.db.tasks[id], s.actors[o].key) && id != s.actors[o].claim.id ==> s.db.tasks[id].rank > 0
  {
    var c, key := s.actors[o].claim, s.actors[o].key;
    if OwnsLeader(s.db, s.now, c, key) {
      assert IsLeader(s.db.tasks[c.id], key);
      forall id | id in s.db.tasks && InGroup(s.db.tasks[id], key) && id != c.id ensures s.db.tasks[id].rank > 0 {
        assert IsLeader(s.db.tasks[id], key) ==> id == c.id;
      }
    }
  }

  /** So the group ends together: every member in the leader's state, with its last error. */
  lemma GroupEndsTogether(s: GP.State, o: nat, state: TaskState, serial: Option<string>, reason: Option<string>, retry: bool, id: int)
    requires GP.Inv(s) && GP.Enabled(s, GP.Finish(o, state, serial, reason, retry)) && Accepted(s, o, serial)
    requires id in s.db.tasks && s.db.tasks[id].group == Some(s.actors[o].key)
    ensures var t, leader := GP.Next(s, GP.Finish(o, state, serial, reason, retry)), s.actors[o].claim.id;
      && id in t.db.tasks && leader in t.db.tasks
      && t.db.tasks[id].state == t.db.tasks[leader].state == Verdict(s.actors[o].claim.attempts + (if retry then 1 else 0), state, retry)
      && t.db.tasks[id].lastError == t.db.tasks[leader].lastError == reason
      && t.db.tasks[leader].holder.None?
  {
    FinishSettles(s, o, state, serial, reason, retry);
  }
}
