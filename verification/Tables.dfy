/** The rows the approval worker keeps: one per (configuration, record), one per
    aggregate group, and the applicant attached to a task. */
module Tables {
  import opened Options

  /** Instance codes and idempotency keys are opaque tokens; only equality matters. */
  type Code = nat
  type Uuid = nat

  /** The `state` column. `Made` stands for the value `created`, which no write in
      the worker produces but which the whitelists have to reject. */
  datatype TaskState = Pending | Review | Terminal | Unnotified | Backfilled | Paused | Made

  /** The `effect_phase` column: how far the external write got. */
  datatype Phase = Ready | Creating | Lookup | Created | Backfilling

  /** `worker_id` and `lease_until`; every write sets or clears both together. */
  datatype Lease = Lease(owner: nat, until: int)

  /** A group key is unique inside one configuration only. */
  datatype GroupKey = GroupKey(config: int, name: string)

  datatype TaskRow = TaskRow(
    config: int,
    record: string,
    state: TaskState,
    phase: Phase,
    holder: Option<Lease>,
    generation: nat,
    instance: Option<Code>,
    serial: Option<string>,
    lastError: Option<string>,
    attempts: nat,
    availableAt: Option<int>,
    group: Option<GroupKey>,
    rank: nat)

  datatype GroupRow = GroupRow(
    uuid: Uuid,
    signature: string,
    phase: Phase,
    instance: Option<Code>,
    serial: Option<string>)

  datatype Db = Db(
    tasks: map<int, TaskRow>,
    groups: map<GroupKey, GroupRow>,
    applicants: map<int, string>)

  predicate LiveLease(row: TaskRow, now: int) {
    row.holder.Some? && row.holder.value.until > now
  }

  /** States a click may put back to `pending`. */
  predicate Reopenable(state: TaskState) {
    state != Made
  }

  /** States that carry no external fact, so the row may be deleted with its group. */
  predicate Dissolvable(state: TaskState) {
    state in {Pending, Review, Terminal, Unnotified, Paused}
  }

  predicate InGroup(row: TaskRow, key: GroupKey) {
    row.group == Some(key)
  }

  predicate IsLeader(row: TaskRow, key: GroupKey) {
    InGroup(row, key) && row.rank == 0
  }

  function Members(db: Db, key: GroupKey): set<int> {
    set id | id in db.tasks && InGroup(db.tasks[id], key)
  }

  /** A freshly seeded row; the columns left out take their declared defaults. */
  function NewTask(config: int, record: string, group: Option<GroupKey>, rank: nat): TaskRow {
    TaskRow(config, record, Pending, Ready, None, 0, None, None, None, 0, None, group, rank)
  }
}
