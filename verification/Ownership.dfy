/** Who may write a task row: claims come and go, crash and are superseded, and every
    write below can be tried by any claim at any moment. */
module Ownership {
  import opened Options
  import opened Tables
  import opened Execution
  import opened Maintenance

  /** `live` are the claims whose holder has not died. */
  datatype State = State(db: Db, now: int, live: set<Claim>, nextOwner: nat)

  datatype Op =
    | Tick(dt: nat)
    | Sweep
    | Take(id: int, single: bool)
    | Die(c: Claim)
    | Begin(c: Claim, phase: Phase)
    | Confirm(c: Claim, phase: Phase, code: Option<Code>)
    | Unknown(c: Claim)
    | Finish(c: Claim, o: Outcome, retry: bool)
    | BeginGroup(c: Claim, key: GroupKey, phase: Phase)
    | ConfirmGroup(c: Claim, key: GroupKey, phase: Phase, code: Option<Code>)
    | FinishGroup(c: Claim, key: GroupKey, state: TaskState, serial: Option<string>, reason: Option<string>, retry: bool)
    | Drop(c: Claim, id: int, why: string)
    | Reopen(id: int)
    | ReopenLeader(id: int, phase: Phase)
    | Dissolve(key: GroupKey)
    | Leave(id: int, key: GroupKey, heir: int)
    | Insert(id: int, row: TaskRow)
    | Seed(key: GroupKey, group: GroupRow, rows: map<int, TaskRow>)
    | Cleanup(key: GroupKey)

  /** What only a person's click sets off. */
  predicate Click(op: Op) {
    op.Reopen? || op.ReopenLeader? || op.Dissolve? || op.Leave? || op.Insert? || op.Seed? || op.Cleanup?
  }

  predicate Possible(s: State, op: Op) {
    match op
    case Take(id, single) => id in s.db.tasks && Claimable(s.db.tasks[id], s.now, single)
    case Begin(c, _) => c in s.live
    case Confirm(c, _, _) => c in s.live
    case Unknown(c) => c in s.live
    case Finish(c, _, _) => c in s.live
    case BeginGroup(c, _, _) => c in s.live
    case ConfirmGroup(c, _, _, _) => c in s.live
    case FinishGroup(c, _, _, _, _, _) => c in s.live
    // No owner test: an unreadable member is dropped by its id.
    case Drop(c, id, _) => c in s.live && id in s.db.tasks && id != c.id
    case Dissolve(key) => CanDissolve(s.db, s.now, key)
    case Leave(id, key, heir) =>
      id in s.db.tasks && IsMember(s.db, key, id) && HeirOk(s.db, key, id, heir) && !GroupBusy(s.db, s.now, key)
    case Insert(id, row) => id !in s.db.tasks && row == NewTask(row.config, row.record, row.group, row.rank)
    case Seed(key, _, rows) =>
      && rows.Keys !! s.db.tasks.Keys
      && forall id :: id in rows ==> rows[id] == NewTask(rows[id].config, rows[id].record, rows[id].group, rows[id].rank)
    case Cleanup(key) => Members(s.db, key) == {}
    case _ => true
  }

  function Next(s: State, op: Op): State
    requires Possible(s, op)
  {
    match op
    case Tick(dt) => s.(now := s.now + dt)
    case Sweep => s.(db := Swept(s.db, s.now))
    case Take(id, _) =>
      s.(db := Claimed(s.db, s.now, id, s.nextOwner),
         live := s.live + {ClaimOf(s.db.tasks[id], id, s.nextOwner)},
         nextOwner := s.nextOwner + 1)
    case Die(c) => s.(live := s.live - {c})
    case Begin(c, phase) => s.(db := Begun(s.db, s.now, c, phase))
    case Confirm(c, phase, code) => s.(db := Confirmed(s.db, s.now, c, phase, code))
    case Unknown(c) => s.(db := MarkedUnknown(s.db, c))
    case Finish(c, o, retry) => s.(db := Finished(s.db, s.now, c, o, retry))
    case BeginGroup(c, key, phase) => s.(db := BegunGroup(s.db, s.now, c, key, phase))
    case ConfirmGroup(c, key, phase, code) => s.(db := ConfirmedGroup(s.db, s.now, c, key, phase, code))
    case FinishGroup(c, key, state, serial, reason, retry) =>
      s.(db := FinishedGroup(s.db, s.now, c, key, state, serial, reason, retry))
    case Drop(_, id, why) => s.(db := Dropped(s.db, id, why))
    case Reopen(id) => s.(db := Reopened(s.db, s.now, id))
    case ReopenLeader(id, phase) => s.(db := ReopenedAt(s.db, s.now, id, phase))
    case Leave(id, key, heir) => s.(db := Detached(s.db, key, id, heir))
    case Dissolve(key) => s.(db := Dissolved(s.db, s.now, key))
    case Insert(id, row) => s.(db := SetTask(s.db, id, row))
    case Seed(key, row, rows) => s.(db := s.db.(tasks := s.db.tasks + rows, groups := s.db.groups[key := row]))
    case Cleanup(key) => s.(db := s.db.(groups := s.db.groups - {key}))
  }

  ghost predicate Run(s: State, ops: seq<Op>, t: State)
    decreases ops
  {
    if ops == [] then s == t else Possible(s, ops[0]) && Run(Next(s, ops[0]), ops[1..], t)
  }

  predicate NoClick(ops: seq<Op>) {
    forall i :: 0 <= i < |ops| ==> !Click(ops[i])
  }

  // ----- one owner at a time ----------------------------------------------

  predicate Fresh(s: State) {
    ClaimsNumbered(s) && RowsNumbered(s)
  }

  predicate ClaimsNumbered(s: State) {
    && (forall c :: c in s.live ==> c.owner < s.nextOwner)
    && (forall c, d :: c in s.live && d in s.live && c.owner == d.owner ==> c == d)
  }

  predicate RowsNumbered(s: State) {
    forall id :: id in s.db.tasks && s.db.tasks[id].holder.Some? ==> s.db.tasks[id].holder.value.owner < s.nextOwner
  }

  const Start := State(Db(map[], map[], map[]), 0, {}, 0)

  lemma ClaimsStep(s: State, op: Op)
    requires ClaimsNumbered(s) && Possible(s, op)
    ensures ClaimsNumbered(Next(s, op))
  {
  }

  lemma RowsStep(s: State, op: Op)
    requires Fresh(s) && Possible(s, op)
    ensures RowsNumbered(Next(s, op))
  {
  }

  lemma FreshStep(s: State, op: Op)
    requires Fresh(s) && Possible(s, op)
    ensures Fresh(Next(s, op))
  {
    ClaimsStep(s, op);
    RowsStep(s, op);
  }

  lemma {:induction false} FreshRun(s: State, ops: seq<Op>, t: State)
    requires Fresh(s) && Run(s, ops, t)
    ensures Fresh(t)
    decreases ops
  {
    if ops == [] {
    } else {
      FreshStep(s, ops[0]);
      FreshRun(Next(s, ops[0]), ops[1..], t);
    }
  }

  /** No reachable state has two live claims owning the same row. */
  lemma OneLiveOwner(ops: seq<Op>, s: State, c: Claim, d: Claim)
    requires Run(Start, ops, s) && c in s.live && d in s.live && c.id == d.id
    requires Owned(s.db, s.now, c) && Owned(s.db, s.now, d)
    ensures c == d
  {
    FreshRun(Start, ops, s);
  }

  // ----- a superseded claim is powerless for good -------------------------

  /** The row was handed on, closed or deleted since `c` was issued. */
  predicate Superseded(s: State, c: Claim) {
    c.owner < s.nextOwner &&
    (c.id !in s.db.tasks
     || s.db.tasks[c.id].holder.None?
     || s.db.tasks[c.id].holder.value.owner != c.owner)
  }

  lemma SupersededStep(s: State, op: Op, c: Claim)
    requires Fresh(s) && Possible(s, op) && Superseded(s, c)
    ensures Superseded(Next(s, op), c)
  {
  }

  lemma {:induction false} SupersededRun(s: State, ops: seq<Op>, t: State, c: Claim)
    requires Fresh(s) && Run(s, ops, t) && Superseded(s, c)
    ensures Superseded(t, c)
    decreases ops
  {
    if ops == [] {
    } else {
      FreshStep(s, ops[0]);
      SupersededStep(s, ops[0], c);
      SupersededRun(Next(s, ops[0]), ops[1..], t, c);
    }
  }

  /** After any run, every write a superseded claim tries leaves the tables as they are. */
  lemma SupersededWritesNothing(
    ops: seq<Op>, s: State, more: seq<Op>, t: State, c: Claim,
    o: Outcome, retry: bool, phase: Phase, code: Option<Code>,
    key: GroupKey, state: TaskState, serial: Option<string>, reason: Option<string>)
    requires Run(Start, ops, s) && Superseded(s, c) && Run(s, more, t)
    ensures Finished(t.db, t.now, c, o, retry) == t.db
    ensures Begun(t.db, t.now, c, phase) == t.db
    ensures Confirmed(t.db, t.now, c, phase, code) == t.db
    ensures MarkedUnknown(t.db, c) == t.db
    ensures BegunGroup(t.db, t.now, c, key, phase) == t.db
    ensures ConfirmedGroup(t.db, t.now, c, key, phase, code) == t.db
    ensures FinishedGroup(t.db, t.now, c, key, state, serial, reason, retry) == t.db
  {
    FreshRun(Start, ops, s);
    SupersededRun(s, more, t, c);
  }

  /** Taking a row supersedes whoever had it before. */
  lemma TakingSupersedes(ops: seq<Op>, s: State, id: int, single: bool, c: Claim)
    requires Run(Start, ops, s) && c in s.live && c.id == id && Possible(s, Take(id, single))
    ensures Superseded(Next(s, Take(id, single)), c)
  {
    FreshRun(Start, ops, s);
  }

  // ----- after an owner died ----------------------------------------------

  /** The row stopped in the middle of an external write and nobody alive holds it. */
  predicate Abandoned(s: State, id: int) {
    && id in s.db.tasks
    && s.db.tasks[id].phase in {Creating, Backfilling}
    && (forall c :: c in s.live && c.id == id ==>
          s.db.tasks[id].holder.None? || s.db.tasks[id].holder.value.owner != c.owner)
  }

  /** `op` announces a create for row `id` and the tables let it. */
  predicate SendsCreate(s: State, op: Op, id: int) {
    || (op.Begin? && op.c.id == id && op.phase == Creating && CanBegin(s.db, s.now, op.c))
    || (op.BeginGroup? && op.c.id == id && op.phase == Creating && CanBeginGroup(s.db, s.now, op.c, op.key))
  }

  ghost predicate EverSendsCreate(s: State, ops: seq<Op>, id: int)
    decreases ops
  {
    ops != [] && Possible(s, ops[0]) &&
    (SendsCreate(s, ops[0], id) || EverSendsCreate(Next(s, ops[0]), ops[1..], id))
  }

  lemma AbandonedStep(s: State, op: Op, id: int)
    requires Fresh(s) && Possible(s, op) && !Click(op) && Abandoned(s, id)
    ensures Abandoned(Next(s, op), id) && !SendsCreate(s, op, id)
    ensures Next(s, op).db.tasks[id].phase == s.db.tasks[id].phase
  {
  }

  /** No sequence of polls, sweeps, ticks and crashes sends another create for a row
      whose owner died during a write, until somebody clicks. */
  lemma {:induction false} AbandonedStaysQuiet(s: State, ops: seq<Op>, t: State, id: int)
    requires Fresh(s) && Run(s, ops, t) && NoClick(ops) && Abandoned(s, id)
    ensures Abandoned(t, id) && !EverSendsCreate(s, ops, id)
    decreases ops
  {
    if ops == [] {
    } else {
      assert !Click(ops[0]);
      assert forall i :: 0 <= i < |ops[1..]| ==> ops[1..][i] == ops[i + 1];
      FreshStep(s, ops[0]);
      AbandonedStep(s, ops[0], id);
      AbandonedStaysQuiet(Next(s, ops[0]), ops[1..], t, id);
    }
  }

  /** The death itself abandons the row: the claim was its only live owner. */
  lemma DeathAbandons(ops: seq<Op>, s: State, c: Claim)
    requires Run(Start, ops, s) && c in s.live && Owned(s.db, s.now, c)
    requires s.db.tasks[c.id].phase in {Creating, Backfilling}
    ensures Abandoned(Next(s, Die(c)), c.id)
  {
    FreshRun(Start, ops, s);
  }

  /** A row whose owner died between external writes is claimable once the lease ran
      out, and it is the sweep that tells the two cases apart: it moves a row to
      `review` exactly when the row is not claimable any more. */
  lemma DeadRowAfterLease(s: State, c: Claim, dt: nat)
    requires Owned(s.db, s.now, c) && s.db.tasks[c.id].state == Pending
    requires s.db.tasks[c.id].holder.value.until <= s.now + dt
    requires s.db.tasks[c.id].availableAt.None? || s.db.tasks[c.id].availableAt.value <= s.now + dt
    ensures var t := Next(Next(s, Tick(dt)), Sweep);
            && (ClaimablePhase(s.db.tasks[c.id]) <==> Possible(t, Take(c.id, true)))
            && (!ClaimablePhase(s.db.tasks[c.id]) <==> t.db.tasks[c.id].state == Review)
  {
    assert Stuck(s.db.tasks[c.id], s.now + dt) <==> !ClaimablePhase(s.db.tasks[c.id]);
  }
}
