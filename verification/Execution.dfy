/** The guarded updates that hand execution of a task from one worker to the next. */
module Execution {
  import opened Options
  import opened Tables

  const LEASE_SECONDS := 300
  const MAX_ATTEMPTS := 10
  const UNKNOWN_RESULT := "外部写入结果未知，禁止自动重放；请人工核查"

  datatype Claim = Claim(id: int, owner: nat, generation: nat, attempts: nat)

  /** The ownership test every guarded update repeats. */
  predicate Owned(db: Db, now: int, c: Claim) {
    c.id in db.tasks &&
    var row := db.tasks[c.id];
    && row.holder.Some? && row.holder.value.owner == c.owner && row.holder.value.until > now
    && row.generation == c.generation
    && row.state != Review
  }

  predicate OwnsLeader(db: Db, now: int, c: Claim, key: GroupKey) {
    Owned(db, now, c) && IsLeader(db.tasks[c.id], key)
  }

  function SetTask(db: Db, id: int, row: TaskRow): Db {
    db.(tasks := db.tasks[id := row])
  }

  function SetGroup(db: Db, key: GroupKey, row: GroupRow): Db {
    db.(groups := db.groups[key := row])
  }

  // ----- claiming ---------------------------------------------------------

  predicate ClaimablePhase(row: TaskRow) {
    row.phase in {Ready, Created} || (row.group.Some? && row.rank == 0 && row.phase == Lookup)
  }

  /** An expired lease over an external write whose result nobody knows. */
  predicate Stuck(row: TaskRow, now: int) {
    row.holder.Some? && row.holder.value.until <= now && !ClaimablePhase(row) && row.state != Review
  }

  function Swept(db: Db, now: int): Db {
    db.(tasks := map id | id in db.tasks ::
      var row := db.tasks[id];
      if Stuck(row, now) then row.(state := Review, lastError := Some(UNKNOWN_RESULT)) else row)
  }

  /** The row filter of the claim query; `single` is a claim by id. */
  predicate Claimable(row: TaskRow, now: int, single: bool) {
    && row.state == Pending
    && ClaimablePhase(row)
    && (single || row.rank == 0)
    && (row.availableAt.None? || row.availableAt.value <= now)
    && !LiveLease(row, now)
  }

  function ClaimOf(row: TaskRow, id: int, owner: nat): Claim {
    Claim(id, owner, row.generation + 1, row.attempts)
  }

  function Claimed(db: Db, now: int, id: int, owner: nat): Db
    requires id in db.tasks
  {
    var row := db.tasks[id];
    SetTask(db, id, row.(holder := Some(Lease(owner, now + LEASE_SECONDS)), generation := row.generation + 1))
  }

  // ----- one task ---------------------------------------------------------

  predicate CanBegin(db: Db, now: int, c: Claim) {
    Owned(db, now, c) && db.tasks[c.id].phase in {Ready, Created}
  }

  function Begun(db: Db, now: int, c: Claim, phase: Phase): Db {
    if CanBegin(db, now, c) then
      SetTask(db, c.id, db.tasks[c.id].(phase := phase, holder := Some(Lease(c.owner, now + LEASE_SECONDS))))
    else db
  }

  function Coalesce<T>(newer: Option<T>, stored: Option<T>): Option<T> {
    if newer.Some? then newer else stored
  }

  function Confirmed(db: Db, now: int, c: Claim, phase: Phase, code: Option<Code>): Db {
    if Owned(db, now, c) then
      var row := db.tasks[c.id];
      SetTask(db, c.id, row.(phase := phase, instance := Coalesce(code, row.instance)))
    else db
  }

  /** Unlike the others this write does not ask for a live lease. */
  predicate CanMarkUnknown(db: Db, c: Claim) {
    && c.id in db.tasks && db.tasks[c.id].holder.Some?
    && db.tasks[c.id].holder.value.owner == c.owner && db.tasks[c.id].generation == c.generation
  }

  function MarkedUnknown(db: Db, c: Claim): Db {
    if CanMarkUnknown(db, c) then
      SetTask(db, c.id, db.tasks[c.id].(state := Review, lastError := Some(UNKNOWN_RESULT)))
    else db
  }

  function Power2(n: nat): nat { if n == 0 then 1 else 2 * Power2(n - 1) }

  function Min(a: nat, b: nat): nat { if a < b then a else b }

  function NextAttempts(c: Claim, retry: bool): nat {
    if retry then c.attempts + 1 else c.attempts
  }

  function FinalState(c: Claim, state: TaskState, retry: bool): TaskState {
    if retry && NextAttempts(c, retry) >= MAX_ATTEMPTS then Review else state
  }

  function Delay(c: Claim, retry: bool): int {
    if retry then Min(Power2(Min(NextAttempts(c, retry), 8)), 300) else 30
  }

  /** The row a conclusion is written as. */
  datatype Outcome = Outcome(state: TaskState, lastError: Option<string>, instance: Option<Code>, serial: Option<string>)

  predicate CanFinish(db: Db, now: int, c: Claim) {
    Owned(db, now, c) && db.tasks[c.id].phase in {Ready, Created}
  }

  function Finished(db: Db, now: int, c: Claim, o: Outcome, retry: bool): Db {
    if CanFinish(db, now, c) then
      var row := db.tasks[c.id];
      SetTask(db, c.id, row.(
        state := FinalState(c, o.state, retry),
        lastError := o.lastError,
        instance := Coalesce(o.instance, row.instance),
        serial := Coalesce(o.serial, row.serial),
        attempts := NextAttempts(c, retry),
        availableAt := Some(now + Delay(c, retry)),
        holder := None))
    else db
  }

  /** A click turned into a manual retry of a single task. */
  predicate CanReopen(db: Db, now: int, id: int) {
    id in db.tasks && Reopenable(db.tasks[id].state) && !LiveLease(db.tasks[id], now)
  }

  function ReopenedAt(db: Db, now: int, id: int, phase: Phase): Db {
    if CanReopen(db, now, id) then
      SetTask(db, id, db.tasks[id].(state := Pending, phase := phase, holder := None, attempts := 0, availableAt := None))
    else db
  }

  function Reopened(db: Db, now: int, id: int): Db {
    if id in db.tasks then
      ReopenedAt(db, now, id, if db.tasks[id].instance.None? then Ready else Created)
    else db
  }

  // ----- a group through its leader ---------------------------------------

  predicate CanBeginGroup(db: Db, now: int, c: Claim, key: GroupKey) {
    OwnsLeader(db, now, c, key) && key in db.groups && db.tasks[c.id].phase in {Ready, Created}
  }

  function BegunGroup(db: Db, now: int, c: Claim, key: GroupKey, phase: Phase): Db {
    if CanBeginGroup(db, now, c, key) then
      SetGroup(
        SetTask(db, c.id, db.tasks[c.id].(phase := phase, holder := Some(Lease(c.owner, now + LEASE_SECONDS)))),
        key, db.groups[key].(phase := phase))
    else db
  }

  predicate CanConfirmGroup(db: Db, now: int, c: Claim, key: GroupKey) {
    OwnsLeader(db, now, c, key) && key in db.groups
  }

  /** The instance code goes to the group row only; the leader mirrors the phase. */
  function ConfirmedGroup(db: Db, now: int, c: Claim, key: GroupKey, phase: Phase, code: Option<Code>): Db {
    if CanConfirmGroup(db, now, c, key) then
      SetGroup(
        SetTask(db, c.id, db.tasks[c.id].(phase := phase)),
        key, db.groups[key].(phase := phase, instance := Coalesce(code, db.groups[key].instance)))
    else db
  }

  /** The phases the group's closing write accepts: all but `backfilling`. A serial
      needs the group row to be there. */
  predicate CanFinishGroup(db: Db, now: int, c: Claim, key: GroupKey, serial: Option<string>) {
    && OwnsLeader(db, now, c, key)
    && db.tasks[c.id].phase != Backfilling
    && (serial.Some? ==> key in db.groups)
  }

  /** One transaction: the leader, every member's state, and the serial of the group. */
  function FinishedGroup(
    db: Db, now: int, c: Claim, key: GroupKey,
    state: TaskState, serial: Option<string>, reason: Option<string>, retry: bool): Db
  {
    if CanFinishGroup(db, now, c, key, serial) then
      var final := FinalState(c, state, retry);
      var tasks := map id | id in db.tasks ::
        var row := db.tasks[id];
        if id == c.id then
          row.(state := final, lastError := reason, attempts := NextAttempts(c, retry),
               availableAt := Some(now + Delay(c, retry)), holder := None)
        else if InGroup(row, key) && row.rank > 0 then row.(state := final, lastError := reason)
        else row;
      var closed := db.(tasks := tasks);
      if serial.Some? then SetGroup(closed, key, closed.groups[key].(serial := serial, phase := Created)) else closed
    else db
  }

  // ----- leaving a group through a single click ---------------------------

  predicate GroupBusy(db: Db, now: int, key: GroupKey) {
    exists id :: id in Members(db, key) && LiveLease(db.tasks[id], now)
  }

  predicate LowestSeq(db: Db, ids: set<int>, id: int)
    requires ids <= db.tasks.Keys
  {
    id in ids && forall other :: other in ids ==> db.tasks[id].rank <= db.tasks[other].rank
  }

  function Ungrouped(row: TaskRow): TaskRow {
    row.(group := None, rank := 0)
  }

  /** An unreadable member of a group that has its instance: out, and done. */
  function Dropped(db: Db, id: int, reason: string): Db
    requires id in db.tasks
  {
    SetTask(db, id, Ungrouped(db.tasks[id]).(state := Terminal, lastError := Some(reason), holder := None))
  }

  /** Takes `id` out of its group. `heir` takes over when the leader leaves; the group
      row goes with the last member, whatever its phase. */
  function Detached(db: Db, key: GroupKey, id: int, heir: int): Db
    requires id in db.tasks && IsMember(db, key, id)
    requires HeirOk(db, key, id, heir)
  {
    var out := SetTask(db, id, Ungrouped(db.tasks[id]));
    if Members(db, key) == {id} then out.(groups := out.groups - {key})
    else if db.tasks[id].rank == 0 then SetTask(out, heir, out.tasks[heir].(rank := 0))
    else out
  }

  predicate IsMember(db: Db, key: GroupKey, id: int) {
    id in Members(db, key)
  }

  predicate HeirOk(db: Db, key: GroupKey, id: int, heir: int) {
    Members(db, key) != {id} && id in db.tasks && db.tasks[id].rank == 0
    ==> heir != id && LowestSeq(db, Members(db, key) - {id}, heir)
  }
}
