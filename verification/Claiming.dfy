/** The batch claim and the cursor that keeps a stuck batch from blocking the queue. */
module Claiming {
  import opened Options
  import opened Tables
  import opened Execution

  const CLAIM_BATCH := 50

  predicate Increasing(ids: seq<int>) {
    forall i, j :: 0 <= i < j < |ids| ==> ids[i] < ids[j]
  }

  // ----- what one batch claim does ----------------------------------------

  /** The rows the claim query returns: in id order, past the cursor, at most `limit`. */
  function Selected(tasks: map<int, TaskRow>, now: int, after: int, ids: seq<int>, limit: nat): seq<int> {
    if ids == [] || limit == 0 then []
    else if ids[0] in tasks && ids[0] > after && Claimable(tasks[ids[0]], now, false) then
      [ids[0]] + Selected(tasks, now, after, ids[1..], limit - 1)
    else Selected(tasks, now, after, ids[1..], limit)
  }

  function ClaimedRow(row: TaskRow, now: int, owner: nat): TaskRow {
    row.(holder := Some(Lease(owner, now + LEASE_SECONDS)), generation := row.generation + 1)
  }

  /** One claim per chosen row, each with an owner of its own and the row one generation
      further; every other row is as the sweep left it. */
  predicate HandedOut(
    swept: map<int, TaskRow>, tasks: map<int, TaskRow>, now: int, first: nat, chosen: seq<int>, claims: seq<Claim>)
  {
    && tasks.Keys == swept.Keys
    && |claims| == |chosen|
    && (forall k :: 0 <= k < |chosen| ==> HandedRow(swept, tasks, now, first + k, chosen[k], claims[k]))
    && (forall id :: id in swept && id !in chosen ==> tasks[id] == swept[id])
  }

  predicate HandedRow(swept: map<int, TaskRow>, tasks: map<int, TaskRow>, now: int, owner: nat, id: int, claim: Claim)
    requires tasks.Keys == swept.Keys
  {
    && id in swept
    && claim == Claim(id, owner, swept[id].generation + 1, swept[id].attempts)
    && tasks[id] == swept[id].(holder := Some(Lease(owner, now + 300)), generation := swept[id].generation + 1)
  }

  lemma HandOneMore(
    swept: map<int, TaskRow>, tasks: map<int, TaskRow>, now: int, first: nat, chosen: seq<int>, claims: seq<Claim>, id: int)
    requires HandedOut(swept, tasks, now, first, chosen, claims) && id in swept && id !in chosen
    ensures var owner := first + |claims|;
      HandedOut(swept, tasks[id := ClaimedRow(tasks[id], now, owner)], now, first, chosen + [id], claims + [ClaimOf(tasks[id], id, owner)])
  {
    var owner := first + |claims|;
    var after := tasks[id := ClaimedRow(tasks[id], now, owner)];
    forall k | 0 <= k < |chosen| + 1
      ensures HandedRow(swept, after, now, first + k, (chosen + [id])[k], (claims + [ClaimOf(tasks[id], id, owner)])[k])
    {
      if k < |chosen| { assert HandedRow(swept, tasks, now, first + k, chosen[k], claims[k]); }
    }
  }

  lemma NotYet(ids: seq<int>, i: nat)
    requires Increasing(ids) && i < |ids|
    ensures ids[i] in ids && ids[i] !in ids[..i]
  {
  }

  lemma SelectNext(tasks: map<int, TaskRow>, now: int, after: int, ids: seq<int>, limit: nat, i: nat)
    requires i < |ids| && limit > 0
    ensures Selected(tasks, now, after, ids[i..], limit) ==
      if ids[i] in tasks && ids[i] > after && Claimable(tasks[ids[i]], now, false)
      then [ids[i]] + Selected(tasks, now, after, ids[i + 1..], limit - 1)
      else Selected(tasks, now, after, ids[i + 1..], limit)
  {
    assert ids[i..][0] == ids[i] && ids[i..][1..] == ids[i + 1..];
  }

  /** The first `i` ids have been looked at and `chosen` picked from them. */
  ghost predicate HandingOut(
    swept: map<int, TaskRow>, now: int, cursor: int, ids: seq<int>, limit: nat, first: nat,
    i: nat, chosen: seq<int>, tasks: map<int, TaskRow>, claims: seq<Claim>)
  {
    && i <= |ids| && |claims| <= limit
    && Selected(swept, now, cursor, ids, limit) == chosen + Selected(swept, now, cursor, ids[i..], limit - |claims|)
    && (forall id :: id in chosen ==> id in ids[..i])
    && HandedOut(swept, tasks, now, first, chosen, claims)
  }

  lemma Reassociate(chosen: seq<int>, id: int, rest: seq<int>)
    ensures chosen + ([id] + rest) == (chosen + [id]) + rest
  {
  }

  lemma PassesOver(
    swept: map<int, TaskRow>, now: int, cursor: int, ids: seq<int>, limit: nat, first: nat,
    i: nat, chosen: seq<int>, tasks: map<int, TaskRow>, claims: seq<Claim>)
    requires Increasing(ids) && i < |ids| && |claims| < limit
    requires HandingOut(swept, now, cursor, ids, limit, first, i, chosen, tasks, claims)
    requires !(ids[i] in tasks && ids[i] > cursor && Claimable(tasks[ids[i]], now, false))
    ensures HandingOut(swept, now, cursor, ids, limit, first, i + 1, chosen, tasks, claims)
  {
    NotYet(ids, i);
    assert ids[..i + 1] == ids[..i] + [ids[i]];
    SelectNext(swept, now, cursor, ids, limit - |claims|, i);
    assert ids[i] in swept ==> tasks[ids[i]] == swept[ids[i]];
  }

  lemma Untaken(
    swept: map<int, TaskRow>, now: int, cursor: int, ids: seq<int>, limit: nat, first: nat,
    i: nat, chosen: seq<int>, tasks: map<int, TaskRow>, claims: seq<Claim>)
    requires Increasing(ids) && i < |ids| && ids[i] in tasks
    requires HandingOut(swept, now, cursor, ids, limit, first, i, chosen, tasks, claims)
    ensures ids[i] !in chosen && ids[i] in swept && tasks[ids[i]] == swept[ids[i]]
  {
    NotYet(ids, i);
  }

  lemma TakesOneMore(
    swept: map<int, TaskRow>, now: int, cursor: int, ids: seq<int>, limit: nat, first: nat,
    i: nat, chosen: seq<int>, tasks: map<int, TaskRow>, claims: seq<Claim>)
    requires i < |ids| && |claims| < limit && ids[i] in swept && ids[i] !in chosen && ids[i] > cursor
    requires HandingOut(swept, now, cursor, ids, limit, first, i, chosen, tasks, claims)
    requires Claimable(swept[ids[i]], now, false)
    ensures var id, owner := ids[i], first + |claims|;
      HandingOut(swept, now, cursor, ids, limit, first, i + 1, chosen + [id],
                 tasks[id := ClaimedRow(tasks[id], now, owner)], claims + [ClaimOf(tasks[id], id, owner)])
  {
    var id := ids[i];
    assert ids[..i + 1] == ids[..i] + [id];
    SelectNext(swept, now, cursor, ids, limit - |claims|, i);
    HandOneMore(swept, tasks, now, first, chosen, claims, id);
    Reassociate(chosen, id, Selected(swept, now, cursor, ids[i + 1..], limit - |claims| - 1));
  }

  lemma NothingYet(swept: map<int, TaskRow>, now: int, cursor: int, ids: seq<int>, limit: nat, first: nat)
    ensures HandingOut(swept, now, cursor, ids, limit, first, 0, [], swept, [])
  {
    assert ids[0..] == ids;
  }

  lemma AllHandedOut(
    swept: map<int, TaskRow>, now: int, cursor: int, ids: seq<int>, limit: nat, first: nat,
    i: nat, chosen: seq<int>, tasks: map<int, TaskRow>, claims: seq<Claim>)
    requires HandingOut(swept, now, cursor, ids, limit, first, i, chosen, tasks, claims)
    requires i == |ids| || |claims| == limit
    ensures HandedOut(swept, tasks, now, first, Selected(swept, now, cursor, ids, limit), claims)
  {
    assert Selected(swept, now, cursor, ids[i..], limit - |claims|) == [];
    assert chosen + [] == chosen;
  }

  /** The loop over the selected rows, inside one transaction. */
  method HandOut(swept: map<int, TaskRow>, now: int, cursor: int, ids: seq<int>, limit: nat, first: nat)
    returns (tasks: map<int, TaskRow>, claims: seq<Claim>)
    requires Increasing(ids)
    ensures HandedOut(swept, tasks, now, first, Selected(swept, now, cursor, ids, limit), claims)
  {
    tasks, claims := swept, [];
    ghost var chosen: seq<int> := [];
    var i := 0;
    NothingYet(swept, now, cursor, ids, limit, first);
    while i < |ids| && |claims| < limit
      invariant 0 <= i <= |ids|
      invariant HandingOut(swept, now, cursor, ids, limit, first, i, chosen, tasks, claims)
    {
      var id := ids[i];
      if id in tasks && id > cursor && Claimable(tasks[id], now, false) {
        var owner := first + |claims|;
        Untaken(swept, now, cursor, ids, limit, first, i, chosen, tasks, claims);
        TakesOneMore(swept, now, cursor, ids, limit, first, i, chosen, tasks, claims);
        claims, tasks := claims + [ClaimOf(tasks[id], id, owner)], tasks[id := ClaimedRow(tasks[id], now, owner)];
        chosen := chosen + [id];
      } else {
        PassesOver(swept, now, cursor, ids, limit, first, i, chosen, tasks, claims);
      }
      i := i + 1;
    }
    AllHandedOut(swept, now, cursor, ids, limit, first, i, chosen, tasks, claims);
  }

  class Queue {
    var db: Db
    var now: int
    var nextOwner: nat
    /** The id the previous round stopped at. */
    var cursor: int

    constructor (db: Db, now: int)
      ensures this.db == db && this.now == now && nextOwner == 0 && cursor == 0
    {
      this.db, this.now, nextOwner, cursor := db, now, 0, 0;
    }

    /** Sweeps, then hands out one claim per selected row. */
    method ClaimReady(ids: seq<int>, limit: nat) returns (claims: seq<Claim>)
      requires Increasing(ids) && (forall id :: id in ids <==> id in db.tasks)
      modifies this
      ensures now == old(now) && cursor == old(cursor) && nextOwner == old(nextOwner) + |claims|
      ensures db.groups == old(db.groups) && db.applicants == old(db.applicants)
      ensures HandedOut(old(Swept(db, now)).tasks, db.tasks, now, old(nextOwner),
        Selected(old(Swept(db, now)).tasks, now, cursor, ids, limit), claims)
    {
      var swept := Swept(db, now);
      var tasks;
      tasks, claims := HandOut(swept.tasks, now, cursor, ids, limit, nextOwner);
      db, nextOwner := swept.(tasks := tasks), nextOwner + |claims|;
    }

    /** Moves past the last row of the batch; an empty batch starts over. */
    method Advance(batch: seq<int>)
      modifies this`cursor
      ensures cursor == Advanced(old(cursor), batch)
    {
      if |batch| > 0 {
        cursor := if batch[|batch| - 1] > cursor then batch[|batch| - 1] else cursor;
      } else {
        cursor := 0;
      }
    }
  }

  function Advanced(cursor: int, batch: seq<int>): int {
    if batch == [] then 0
    else if batch[|batch| - 1] > cursor then batch[|batch| - 1]
    else cursor
  }

  // ----- no pending task starves ------------------------------------------

  /** The task table, swept, as one round's claim finds it. */
  datatype Round = Round(tasks: map<int, TaskRow>, now: int, ids: seq<int>)

  ghost predicate RoundOk(r: Round) {
    Increasing(r.ids) && (forall id :: id in r.ids <==> id in r.tasks) && forall id :: id in r.ids ==> id > 0
  }

  /** The rows a claim could take, among all the others. */
  ghost function Waiting(r: Round): set<int> {
    set id | id in r.ids && id in r.tasks && Claimable(r.tasks[id], r.now, false)
  }

  function Batch(r: Round, cursor: int): seq<int> {
    Selected(r.tasks, r.now, cursor, r.ids, CLAIM_BATCH)
  }

  /** What the claim query returns: waiting rows past the cursor in id order, and one is left
      out only if the batch is full of smaller ids. */
  ghost predicate FirstWaiting(tasks: map<int, TaskRow>, now: int, after: int, ids: seq<int>, limit: nat, batch: seq<int>) {
    && Increasing(batch) && |batch| <= limit
    && (forall id :: id in batch ==> id in ids && id > after && id in tasks && Claimable(tasks[id], now, false))
    && (forall id :: id in ids && id > after && id in tasks && Claimable(tasks[id], now, false) && id !in batch ==>
          |batch| == limit && forall other :: other in batch ==> other < id)
  }

  lemma {:induction false} SelectedIsFirst(tasks: map<int, TaskRow>, now: int, after: int, ids: seq<int>, limit: nat)
    requires Increasing(ids)
    ensures FirstWaiting(tasks, now, after, ids, limit, Selected(tasks, now, after, ids, limit))
    decreases |ids|
  {
    if ids != [] && limit != 0 {
      var takes := ids[0] in tasks && ids[0] > after && Claimable(tasks[ids[0]], now, false);
      SelectedIsFirst(tasks, now, after, ids[1..], if takes then limit - 1 else limit);
      if takes {
        TakesFirst(tasks, now, after, ids, limit);
      } else {
        SkipsFirst(tasks, now, after, ids, limit);
      }
    }
  }

  lemma TakesFirst(tasks: map<int, TaskRow>, now: int, after: int, ids: seq<int>, limit: nat)
    requires Increasing(ids) && ids != [] && limit != 0
    requires ids[0] in tasks && ids[0] > after && Claimable(tasks[ids[0]], now, false)
    requires FirstWaiting(tasks, now, after, ids[1..], limit - 1, Selected(tasks, now, after, ids[1..], limit - 1))
    ensures FirstWaiting(tasks, now, after, ids, limit, [ids[0]] + Selected(tasks, now, after, ids[1..], limit - 1))
  {
    assert ids == [ids[0]] + ids[1..];
    var rest := Selected(tasks, now, after, ids[1..], limit - 1);
    forall id | id in ids[1..] ensures ids[0] < id { var i :| 0 <= i < |ids[1..]| && ids[1..][i] == id; }
    forall i | 0 <= i < |rest| ensures ids[0] < rest[i] { assert rest[i] in rest; }
    assert forall id :: id in [ids[0]] + rest <==> id == ids[0] || id in rest;
  }

  lemma SkipsFirst(tasks: map<int, TaskRow>, now: int, after: int, ids: seq<int>, limit: nat)
    requires Increasing(ids) && ids != []
    requires !(ids[0] in tasks && ids[0] > after && Claimable(tasks[ids[0]], now, false))
    requires FirstWaiting(tasks, now, after, ids[1..], limit, Selected(tasks, now, after, ids[1..], limit))
    ensures FirstWaiting(tasks, now, after, ids, limit, Selected(tasks, now, after, ids[1..], limit))
  {
    assert ids == [ids[0]] + ids[1..];
  }

  /** Two batches of which that is true are the same: it says all there is to say. */
  lemma {:induction false} FirstWaitingOnce(tasks: map<int, TaskRow>, now: int, after: int, ids: seq<int>, limit: nat, a: seq<int>, b: seq<int>, n: nat)
    requires FirstWaiting(tasks, now, after, ids, limit, a) && FirstWaiting(tasks, now, after, ids, limit, b)
    requires n <= |a|
    ensures n <= |b| && a[..n] == b[..n]
    decreases n
  {
    if n == 0 {
    } else {
      FirstWaitingOnce(tasks, now, after, ids, limit, a, b, n - 1);
      NextAgrees(tasks, now, after, ids, limit, a, b, n - 1);
    }
  }

  lemma NextAgrees(tasks: map<int, TaskRow>, now: int, after: int, ids: seq<int>, limit: nat, a: seq<int>, b: seq<int>, n: nat)
    requires FirstWaiting(tasks, now, after, ids, limit, a) && FirstWaiting(tasks, now, after, ids, limit, b)
    requires n < |a| && n <= |b| && a[..n] == b[..n]
    ensures n < |b| && a[n] == b[n]
  {
    assert a[n] in a && forall i :: 0 <= i < n ==> b[i] == a[..n][i];
    var next := a[n];
    assert next !in b[..n] && b == b[..n] + b[n..];
    NotSmaller(tasks, now, after, ids, limit, a, b, n);
    NotSmaller(tasks, now, after, ids, limit, b, a, n);
  }

  lemma NotSmaller(tasks: map<int, TaskRow>, now: int, after: int, ids: seq<int>, limit: nat, a: seq<int>, b: seq<int>, n: nat)
    requires FirstWaiting(tasks, now, after, ids, limit, a) && FirstWaiting(tasks, now, after, ids, limit, b)
    requires n < |a| && n < |b| && a[..n] == b[..n]
    ensures b[n] <= a[n]
  {
    if a[n] < b[n] {
      assert a[n] in a && b[n] in b;
      forall i | 0 <= i < |b| ensures b[i] != a[n] {
        if i < n { assert b[i] == a[..n][i]; }
      }
    }
  }

  /** Over any table the query's answer is that and nothing else. */
  lemma SelectedExactly(tasks: map<int, TaskRow>, now: int, after: int, ids: seq<int>, limit: nat, batch: seq<int>)
    requires Increasing(ids)
    ensures FirstWaiting(tasks, now, after, ids, limit, batch) <==> batch == Selected(tasks, now, after, ids, limit)
  {
    var selected := Selected(tasks, now, after, ids, limit);
    SelectedIsFirst(tasks, now, after, ids, limit);
    if FirstWaiting(tasks, now, after, ids, limit, batch) {
      FirstWaitingOnce(tasks, now, after, ids, limit, batch, selected, |batch|);
      FirstWaitingOnce(tasks, now, after, ids, limit, selected, batch, |selected|);
      assert batch == batch[..|selected|];
    }
  }

  /** Is `id` claimed in one of these rounds? */
  predicate Reached(rounds: seq<Round>, cursor: int, id: int) {
    rounds != [] && (id in Batch(rounds[0], cursor) || Reached(rounds[1..], Advanced(cursor, Batch(rounds[0], cursor)), id))
  }

  /** `id` waits in every round, and no row begins to wait after the first; rows may leave. */
  ghost predicate Waits(rounds: seq<Round>, id: int) {
    && (forall i :: 0 <= i < |rounds| ==> RoundOk(rounds[i]) && id in Waiting(rounds[i]))
    && (forall i, j :: 0 <= i < j < |rounds| ==> Waiting(rounds[j]) <= Waiting(rounds[i]))
  }

  lemma WaitsOn(rounds: seq<Round>, id: int)
    requires Waits(rounds, id) && |rounds| > 1
    ensures Waits(rounds[1..], id) && Waiting(rounds[1..][0]) <= Waiting(rounds[0])
  {
  }

  ghost function Between(r: Round, a: int, b: int): set<int> {
    set id | id in Waiting(r) && a < id <= b
  }

  function Ceil(n: nat): nat {
    (n + CLAIM_BATCH - 1) / CLAIM_BATCH
  }

  lemma CeilStep(n: nat)
    ensures n <= CLAIM_BATCH && n > 0 ==> Ceil(n) == 1
    ensures n > CLAIM_BATCH ==> Ceil(n) == 1 + Ceil(n - CLAIM_BATCH)
    ensures Ceil(0) == 0
  {
  }

  lemma CeilSum(a: nat, b: nat)
    ensures Ceil(a) <= Ceil(a + b)
    ensures Ceil(a) + Ceil(b) <= Ceil(a + b) + 1
  {
  }

  lemma {:induction false} AsMany(ids: seq<int>)
    requires Increasing(ids)
    ensures |set id | id in ids| == |ids|
  {
    if ids == [] {
    } else {
      var init, last := ids[..|ids| - 1], ids[|ids| - 1];
      AsMany(init);
      assert (set id | id in ids) == (set id | id in init) + {last};
    }
  }

  lemma Fewer(a: set<int>, b: set<int>)
    requires a <= b
    ensures |a| <= |b|
  {
    assert b == a + (b - a);
  }

  lemma BatchIsBetween(r: Round, cursor: int, last: int)
    requires RoundOk(r) && Batch(r, cursor) != [] && Batch(r, cursor)[|Batch(r, cursor)| - 1] == last
    ensures cursor < last && |Between(r, cursor, last)| == |Batch(r, cursor)|
  {
    var batch := Batch(r, cursor);
    SelectedIsFirst(r.tasks, r.now, cursor, r.ids, CLAIM_BATCH);
    AsMany(batch);
    assert last in batch;
    assert Between(r, cursor, last) == set id | id in batch;
  }

  /** A batch that is not empty passes all that waited up to its last. */
  lemma BatchPasses(r: Round, cursor: int, to: int)
    requires RoundOk(r) && Batch(r, cursor) != [] && Batch(r, cursor)[|Batch(r, cursor)| - 1] <= to
    ensures var batch := Batch(r, cursor);
      && Advanced(cursor, batch) == batch[|batch| - 1] > cursor
      && |Between(r, Advanced(cursor, batch), to)| == |Between(r, cursor, to)| - |batch|
  {
    var last := Batch(r, cursor)[|Batch(r, cursor)| - 1];
    BatchIsBetween(r, cursor, last);
    assert Between(r, cursor, to) == Between(r, cursor, last) + Between(r, last, to);
  }

  lemma MissedByFull(r: Round, cursor: int, id: int)
    requires RoundOk(r) && id in Waiting(r) && id > cursor && id !in Batch(r, cursor)
    ensures var batch := Batch(r, cursor);
      |batch| == CLAIM_BATCH && batch[|batch| - 1] < id
  {
    SelectedIsFirst(r.tasks, r.now, cursor, r.ids, CLAIM_BATCH);
    var batch := Batch(r, cursor);
    assert batch[|batch| - 1] in batch;
  }

  /** With the cursor before the task, it takes one round per started batch. */
  lemma {:induction false} ReachedAhead(rounds: seq<Round>, cursor: int, id: int)
    requires rounds != [] && Waits(rounds, id) && cursor < id
    requires |rounds| >= Ceil(|Between(rounds[0], cursor, id)|)
    ensures Reached(rounds, cursor, id)
    decreases |rounds|
  {
    var r, batch := rounds[0], Batch(rounds[0], cursor);
    if id !in batch {
      MissedByFull(r, cursor, id);
      BatchPasses(r, cursor, id);
      var next := Advanced(cursor, batch);
      assert id in Between(r, next, id);
      CeilStep(|Between(r, cursor, id)|);
      CeilStep(|Between(r, next, id)|);
      assert Between(r, next, id) != {};
      WaitsOn(rounds, id);
      Fewer(Between(rounds[1..][0], next, id), Between(r, next, id));
      CeilGrows(|Between(rounds[1..][0], next, id)|, |Between(r, next, id)|);
      ReachedAhead(rounds[1..], next, id);
    }
  }

  lemma CeilGrows(a: nat, b: nat)
    requires a <= b
    ensures Ceil(a) <= Ceil(b)
  {
  }

  lemma BatchOrNone(r: Round, cursor: int, top: int)
    requires RoundOk(r) && forall id :: id in Waiting(r) ==> id <= top
    ensures var batch := Batch(r, cursor);
      && (batch == [] <==> Between(r, cursor, top) == {})
      && (batch != [] ==> batch[|batch| - 1] <= top)
      && |batch| <= CLAIM_BATCH && (|batch| < CLAIM_BATCH ==> |batch| == |Between(r, cursor, top)|)
  {
    var batch := Batch(r, cursor);
    SelectedIsFirst(r.tasks, r.now, cursor, r.ids, CLAIM_BATCH);
    if batch != [] {
      var last := batch[|batch| - 1];
      assert last in batch && last in Waiting(r);
      assert last in Between(r, cursor, top);
    }
    if |batch| < CLAIM_BATCH {
      AsMany(batch);
      assert Between(r, cursor, top) == set id | id in batch;
    }
  }

  /** Past the task: the rest goes by, one empty round resets the cursor, and it is ahead. */
  lemma {:induction false} ReachedBehind(rounds: seq<Round>, cursor: int, id: int, top: int)
    requires rounds != [] && Waits(rounds, id) && id <= cursor && forall other :: other in Waiting(rounds[0]) ==> other <= top
    requires |rounds| >= Ceil(|Between(rounds[0], cursor, top)|) + 1 + Ceil(|Between(rounds[0], 0, id)|)
    ensures Reached(rounds, cursor, id)
    decreases |rounds|
  {
    var r := rounds[0];
    var batch := Batch(r, cursor);
    var left := |Between(r, cursor, top)|;
    assert id in Between(r, 0, id);
    CeilStep(|Between(r, 0, id)|);
    BatchOrNone(r, cursor, top);
    if id !in batch {
      var next := Advanced(cursor, batch);
      WaitsOn(rounds, id);
      Fewer(Between(rounds[1..][0], 0, id), Between(r, 0, id));
      CeilGrows(|Between(rounds[1..][0], 0, id)|, |Between(r, 0, id)|);
      if batch == [] {
        ReachedAhead(rounds[1..], 0, id);
      } else {
        BatchPasses(r, cursor, top);
        CeilAfter(left, |batch|);
        Fewer(Between(rounds[1..][0], next, top), Between(r, next, top));
        CeilGrows(|Between(rounds[1..][0], next, top)|, |Between(r, next, top)|);
        ReachedBehind(rounds[1..], next, id, top);
      }
    }
  }

  lemma CeilAfter(left: nat, taken: nat)
    requires 0 < taken <= left && taken <= CLAIM_BATCH && (taken < CLAIM_BATCH ==> taken == left)
    ensures Ceil(left - taken) + 1 == Ceil(left)
  {
  }

  lemma {:induction false} Highest(ids: set<int>) returns (top: int)
    ensures forall id :: id in ids ==> id <= top
  {
    top := 0;
    if id :| id in ids {
      var rest := Highest(ids - {id});
      top := if rest > id then rest else id;
      forall other | other in ids ensures other <= top {
        if other != id { assert other in ids - {id}; }
      }
    }
  }

  /** From any cursor, every one of n waiting rows is claimed within ceil(n / batch) + 2
      rounds, whatever other rows there are and even if all the n stay pending for ever. */
  lemma NoStarvation(rounds: seq<Round>, cursor: int, id: int)
    requires rounds != [] && Waits(rounds, id)
    requires |rounds| >= Ceil(|Waiting(rounds[0])|) + 2
    ensures Reached(rounds, cursor, id)
  {
    var r := rounds[0];
    var top := Highest(Waiting(r));
    var ahead, before := Between(r, cursor, top), Between(r, 0, id);
    if cursor < id {
      Fewer(Between(r, cursor, id), Waiting(r));
      CeilGrows(|Between(r, cursor, id)|, |Waiting(r)|);
      ReachedAhead(rounds, cursor, id);
    } else {
      assert ahead !! before;
      Fewer(ahead + before, Waiting(r));
      CeilSum(|ahead|, |before|);
      CeilGrows(|ahead| + |before|, |Waiting(r)|);
      ReachedBehind(rounds, cursor, id, top);
    }
  }

  // ----- rows that leave and come back ---------------------------------------

  /** `id` waits in every round; the others come from `pool` and may wait in any of them, as
      rows do that are put off for a while after each conclusion. */
  ghost predicate WaitsAmong(rounds: seq<Round>, id: int, pool: set<int>) {
    forall i :: 0 <= i < |rounds| ==> RoundOk(rounds[i]) && id in Waiting(rounds[i]) && Waiting(rounds[i]) <= pool
  }

  ghost function Ahead(pool: set<int>, cursor: int, to: int): set<int> {
    set id | id in pool && cursor < id <= to
  }

  lemma AheadShrinks(pool: set<int>, cursor: int, last: int, to: int)
    requires last in pool && cursor < last <= to
    ensures |Ahead(pool, last, to)| < |Ahead(pool, cursor, to)|
  {
    assert last in Ahead(pool, cursor, to);
    Fewer(Ahead(pool, last, to), Ahead(pool, cursor, to) - {last});
  }

  /** A batch that is not empty moves the cursor to one of the waiting rows. */
  lemma BatchAdvances(r: Round, cursor: int)
    requires RoundOk(r) && Batch(r, cursor) != []
    ensures Advanced(cursor, Batch(r, cursor)) in Waiting(r) && cursor < Advanced(cursor, Batch(r, cursor))
  {
    SelectedIsFirst(r.tasks, r.now, cursor, r.ids, CLAIM_BATCH);
    assert Batch(r, cursor)[|Batch(r, cursor)| - 1] in Batch(r, cursor);
  }

  lemma {:induction false} ComesUp(rounds: seq<Round>, cursor: int, id: int, pool: set<int>)
    requires rounds != [] && WaitsAmong(rounds, id, pool) && cursor < id && |rounds| >= |Ahead(pool, cursor, id)|
    ensures Reached(rounds, cursor, id)
    decreases |rounds|
  {
    if id in Batch(rounds[0], cursor) {
    } else {
      var next := Advanced(cursor, Batch(rounds[0], cursor));
      MissedByFull(rounds[0], cursor, id);
      BatchAdvances(rounds[0], cursor);
      AheadShrinks(pool, cursor, next, id);
      assert id in Ahead(pool, next, id);
      ComesUp(rounds[1..], next, id, pool);
    }
  }

  lemma {:induction false} ComesRound(rounds: seq<Round>, cursor: int, id: int, pool: set<int>, top: int)
    requires WaitsAmong(rounds, id, pool) && id <= cursor && forall other :: other in pool ==> other <= top
    requires |rounds| >= |Ahead(pool, cursor, top)| + 1 + |Ahead(pool, 0, id)|
    ensures Reached(rounds, cursor, id)
    decreases |rounds|
  {
    var next := Advanced(cursor, Batch(rounds[0], cursor));
    if id in Batch(rounds[0], cursor) {
    } else if Batch(rounds[0], cursor) == [] {
      assert id in Ahead(pool, 0, id);
      ComesUp(rounds[1..], 0, id, pool);
    } else {
      BatchAdvances(rounds[0], cursor);
      AheadShrinks(pool, cursor, next, top);
      ComesRound(rounds[1..], next, id, pool, top);
    }
  }

  /** If all rows that ever wait are among n, each one that keeps waiting is claimed within
      n + 1 rounds, however the others leave and come back. */
  lemma NoStarvationAmong(rounds: seq<Round>, cursor: int, id: int, pool: set<int>)
    requires WaitsAmong(rounds, id, pool) && |rounds| >= |pool| + 1
    ensures Reached(rounds, cursor, id)
  {
    var top := Highest(pool);
    var ahead, before := Ahead(pool, cursor, top), Ahead(pool, 0, id);
    if cursor < id {
      Fewer(Ahead(pool, cursor, id), pool);
      ComesUp(rounds, cursor, id, pool);
    } else {
      assert ahead !! before;
      Fewer(ahead + before, pool);
      ComesRound(rounds, cursor, id, pool, top);
    }
  }

  /** Row 1 waits throughout; of the rows past the cursor the next one comes up each time, and
      in the last round none. */
  ghost predicate OneAtATime(rounds: seq<Round>, cursor: int) {
    forall i :: 0 <= i < |rounds| ==>
      RoundOk(rounds[i]) && Waiting(rounds[i]) == if i < |rounds| - 1 then {1, cursor + 1 + i} else {1}
  }

  /** That bound cannot be lowered either: with the rows 1 to n and the cursor on 1, row 1 is
      not claimed within n rounds. */
  lemma {:induction false} AmongIsReached(rounds: seq<Round>, cursor: int)
    requires cursor >= 1 && OneAtATime(rounds, cursor)
    ensures !Reached(rounds, cursor, 1)
    decreases |rounds|
  {
    if rounds == [] {
    } else {
      if |rounds| > 1 {
        OnlyNextComesUp(rounds[0], cursor);
        AmongIsReached(rounds[1..], cursor + 1);
      } else {
        PassedIsNotTaken(rounds[0], cursor, 1);
      }
    }
  }

  lemma PassedIsNotTaken(r: Round, cursor: int, id: int)
    requires RoundOk(r) && id <= cursor
    ensures id !in Batch(r, cursor)
  {
    SelectedIsFirst(r.tasks, r.now, cursor, r.ids, CLAIM_BATCH);
  }

  lemma OnlyNextComesUp(r: Round, cursor: int)
    requires RoundOk(r) && cursor >= 1 && Waiting(r) == {1, cursor + 1}
    ensures 1 !in Batch(r, cursor) && Advanced(cursor, Batch(r, cursor)) == cursor + 1
  {
    PassedIsNotTaken(r, cursor, 1);
    assert cursor + 1 in Waiting(r);
    if Batch(r, cursor) == [] { MissedByFull(r, cursor, cursor + 1); }
    BatchAdvances(r, cursor);
  }

  /** Every round finds something past the cursor. */
  predicate NeverEmpty(rounds: seq<Round>, cursor: int) {
    rounds == [] || (Batch(rounds[0], cursor) != [] && NeverEmpty(rounds[1..], Advanced(cursor, Batch(rounds[0], cursor))))
  }

  /** Why no bound holds if rows keep arriving: only an empty round turns the cursor back, so
      a row it has passed waits as long as there is something past the cursor. */
  lemma {:induction false} PassedWhileBusy(rounds: seq<Round>, cursor: int, id: int)
    requires id <= cursor && NeverEmpty(rounds, cursor) && forall i :: 0 <= i < |rounds| ==> RoundOk(rounds[i])
    ensures !Reached(rounds, cursor, id)
    decreases |rounds|
  {
    if rounds == [] {
    } else {
      var r := rounds[0];
      SelectedIsFirst(r.tasks, r.now, cursor, r.ids, CLAIM_BATCH);
      PassedWhileBusy(rounds[1..], Advanced(cursor, Batch(r, cursor)), id);
    }
  }

  lemma BatchOfTwo(r: Round, cursor: int)
    requires r.ids == [1, 2] && 1 in Waiting(r) && 2 in Waiting(r)
    ensures Batch(r, cursor) == if cursor < 1 then [1, 2] else if cursor < 2 then [2] else []
  {
    assert r.ids[1..] == [2] && [2][1..] == [];
    assert forall limit: nat {:trigger Selected(r.tasks, r.now, cursor, [], limit)} :: Selected(r.tasks, r.now, cursor, [], limit) == [];
    assert Selected(r.tasks, r.now, cursor, [2], CLAIM_BATCH) == if cursor < 2 then [2] else [];
    assert Selected(r.tasks, r.now, cursor, [2], CLAIM_BATCH - 1) == if cursor < 2 then [2] else [];
  }

  /** The bound cannot be lowered: two rows wait, the cursor between them, three rounds. */
  lemma BoundIsReached(r: Round)
    requires r.ids == [1, 2] && Waiting(r) == {1, 2}
    ensures |Waiting(r)| == 2 && Ceil(2) + 2 == 3
    ensures !Reached([r, r], 1, 1) && Reached([r, r, r], 1, 1)
  {
    assert 1 in Waiting(r) && 2 in Waiting(r);
    BatchOfTwo(r, 0);
    BatchOfTwo(r, 1);
    BatchOfTwo(r, 2);
    assert [r, r][1..] == [r] && [r][1..] == [] && [r, r, r][1..] == [r, r];
    assert !Reached([r], 2, 1) && Reached([r], 0, 1) && Reached([r, r], 2, 1);
  }
}
