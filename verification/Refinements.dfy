/** The three views of a row agree: what a group run or a round of notifications does is a
    sequence of the writes whose ownership is proved. */
module Refinements {
  import opened Options
  import opened Tables
  import opened Execution
  import O = Ownership
  import GP = GroupProtocol
  import N = Notification

  // ----- group runs ---------------------------------------------------------------

  function Claims(actors: map<nat, GP.Actor>): set<Claim> {
    set o | o in actors :: actors[o].claim
  }

  /** What a state of the group protocol is to the claims: the tables, and who is alive. */
  function Seen(s: GP.State): O.State {
    O.State(s.db, s.now, Claims(s.actors), s.nextOwner)
  }

  /** The writes an event comes to; steps at the service or in memory write nothing. */
  function Ops(s: GP.State, e: GP.Event): seq<O.Op>
    requires GP.Enabled(s, e)
  {
    match e
    case Tick(dt) => [O.Tick(dt)]
    case Sweep => [O.Sweep]
    case Take(id, _) => [O.Take(id, false)]
    case Announce(o) => [O.BeginGroup(s.actors[o].claim, s.actors[o].key, Creating)]
    case Confirm(o) =>
      var a := s.actors[o];
      match a.pc {
        case Accepted(_, made) => [O.ConfirmGroup(a.claim, a.key, Created, Some(made))]
        case Conflicted => [O.ConfirmGroup(a.claim, a.key, Lookup, None)]
        case _ => [O.ConfirmGroup(a.claim, a.key, Ready, None)]
      }
    case ConfirmSearch(o) =>
      var a := s.actors[o];
      if a.pc.Found? then [O.ConfirmGroup(a.claim, a.key, Created, Some(a.pc.there))] else [O.ConfirmGroup(a.claim, a.key, Ready, None)]
    case MarkUnknown(o) => [O.Unknown(s.actors[o].claim)]
    case Finish(o, state, serial, reason, retry) =>
      [O.FinishGroup(s.actors[o].claim, s.actors[o].key, state, serial, reason, retry), O.Die(s.actors[o].claim)]
    case Crash(o) => [O.Die(s.actors[o].claim)]
    case DropMember(o, id, why) => [O.Drop(s.actors[o].claim, id, why)]
    case ReopenLeader(id, key, _) => [O.ReopenLeader(id, if s.db.groups[key].instance.Some? then Created else Ready)]
    case Dissolve(key) => [O.Dissolve(key)]
    case Seed(key, row, rows) => [O.Seed(key, row, rows)]
    case Leave(id, key, heir) => [O.Leave(id, key, heir)]
    case Cleanup(key) => [O.Cleanup(key)]
    case _ => []
  }

  lemma OneOp(s: O.State, op: O.Op)
    requires O.Possible(s, op)
    ensures O.Run(s, [op], O.Next(s, op))
  {
    assert [op][1..] == [];
  }

  lemma TwoOps(s: O.State, op: O.Op, more: O.Op)
    requires O.Possible(s, op) && O.Possible(O.Next(s, op), more)
    ensures O.Run(s, [op, more], O.Next(O.Next(s, op), more))
  {
    OneOp(O.Next(s, op), more);
    assert [op, more][1..] == [more];
  }

  lemma AliveClaim(s: GP.State, o: nat)
    requires o in s.actors
    ensures s.actors[o].claim in Seen(s).live
  {
  }

  /** Moving an actor on changes nobody's claim. */
  lemma SameClaims(s: GP.State, t: GP.State)
    requires t.actors.Keys == s.actors.Keys && forall o :: o in s.actors ==> t.actors[o].claim == s.actors[o].claim
    ensures Claims(t.actors) == Claims(s.actors)
  {
    forall c | c in Claims(s.actors) ensures c in Claims(t.actors) {
      var o :| o in s.actors && s.actors[o].claim == c;
      assert t.actors[o].claim == c;
    }
    forall c | c in Claims(t.actors) ensures c in Claims(s.actors) {
      var o :| o in t.actors && t.actors[o].claim == c;
      assert s.actors[o].claim == c;
    }
  }

  lemma GoneClaim(s: GP.State, o: nat)
    requires GP.ActorsNumbered(s) && o in s.actors
    ensures Claims(s.actors - {o}) == Claims(s.actors) - {s.actors[o].claim}
  {
    forall c | c in Claims(s.actors) - {s.actors[o].claim} ensures c in Claims(s.actors - {o}) {
      var p :| p in s.actors && s.actors[p].claim == c;
      assert p in s.actors - {o} && (s.actors - {o})[p].claim == c;
    }
  }

  lemma NewClaim(s: GP.State, a: GP.Actor)
    requires GP.ActorsNumbered(s)
    ensures Claims(s.actors[s.nextOwner := a]) == Claims(s.actors) + {a.claim}
  {
    var more := s.actors[s.nextOwner := a];
    forall c | c in Claims(s.actors) ensures c in Claims(more) {
      var p :| p in s.actors && s.actors[p].claim == c;
      assert more[p].claim == c;
    }
    assert more[s.nextOwner].claim == a.claim;
  }

  ghost predicate IsOps(s: GP.State, e: GP.Event)
    requires GP.Enabled(s, e)
  {
    match s
    case State(_, _, _, _, _, _) => O.Run(Seen(s), Ops(s, e), Seen(GP.Next(s, e)))
  }

  lemma EventIsOps(s: GP.State, e: GP.Event)
    requires GP.ActorsNumbered(s) && GP.Enabled(s, e)
    ensures IsOps(s, e)
  {
    if e.Announce? || e.Confirm? || e.ConfirmSearch? || e.Finish? {
      GroupWriteIsOps(s, e);
    } else if e.Take? || e.MarkUnknown? || e.Crash? || e.DropMember? {
      ClaimIsOps(s, e);
    } else if e.Load? || e.Execute? || e.Refuse? || e.Lose? || e.Search? {
      QuietIsOps(s, e);
    } else {
      TableIsOps(s, e);
    }
  }

  lemma GroupWriteIsOps(s: GP.State, e: GP.Event)
    requires GP.ActorsNumbered(s) && GP.Enabled(s, e) && (e.Announce? || e.Confirm? || e.ConfirmSearch? || e.Finish?)
    ensures IsOps(s, e)
  {
    match e
    case Announce(_) => AnnounceIsOps(s, e);
    case Confirm(o) => ConfirmIsOps(s, o);
    case ConfirmSearch(o) => ConfirmSearchIsOps(s, o);
    case Finish(_, _, _, _, _) => FinishIsOps(s, e);
  }

  lemma ClaimIsOps(s: GP.State, e: GP.Event)
    requires GP.ActorsNumbered(s) && GP.Enabled(s, e) && (e.Take? || e.MarkUnknown? || e.Crash? || e.DropMember?)
    ensures IsOps(s, e)
  {
    match e
    case Take(_, _) => TakeIsOps(s, e);
    case MarkUnknown(_) => UnknownIsOps(s, e);
    case Crash(_) => CrashIsOps(s, e);
    case DropMember(_, _, _) => DropIsOps(s, e);
  }

  lemma TakeIsOps(s: GP.State, e: GP.Event)
    requires GP.ActorsNumbered(s) && GP.Enabled(s, e) && e.Take?
    ensures IsOps(s, e)
  {
    NewClaim(s, GP.Actor(ClaimOf(s.db.tasks[e.id], e.id, s.nextOwner), e.key, GP.Held));
    OneOp(Seen(s), Ops(s, e)[0]);
  }

  lemma AnnounceIsOps(s: GP.State, e: GP.Event)
    requires GP.ActorsNumbered(s) && GP.Enabled(s, e) && e.Announce?
    ensures IsOps(s, e)
  {
    AliveClaim(s, e.o);
    SameClaims(s, GP.Next(s, e));
    OneOp(Seen(s), Ops(s, e)[0]);
  }

  lemma UnknownIsOps(s: GP.State, e: GP.Event)
    requires GP.ActorsNumbered(s) && GP.Enabled(s, e) && e.MarkUnknown?
    ensures IsOps(s, e)
  {
    AliveClaim(s, e.o);
    SameClaims(s, GP.Next(s, e));
    OneOp(Seen(s), Ops(s, e)[0]);
  }

  lemma FinishIsOps(s: GP.State, e: GP.Event)
    requires GP.ActorsNumbered(s) && GP.Enabled(s, e) && e.Finish?
    ensures IsOps(s, e)
  {
    AliveClaim(s, e.o);
    GoneClaim(s, e.o);
    TwoOps(Seen(s), Ops(s, e)[0], Ops(s, e)[1]);
  }

  lemma CrashIsOps(s: GP.State, e: GP.Event)
    requires GP.ActorsNumbered(s) && GP.Enabled(s, e) && e.Crash?
    ensures IsOps(s, e)
  {
    GoneClaim(s, e.o);
    OneOp(Seen(s), Ops(s, e)[0]);
  }

  lemma DropIsOps(s: GP.State, e: GP.Event)
    requires GP.ActorsNumbered(s) && GP.Enabled(s, e) && e.DropMember?
    ensures IsOps(s, e)
  {
    AliveClaim(s, e.o);
    OneOp(Seen(s), Ops(s, e)[0]);
  }

  lemma QuietIsOps(s: GP.State, e: GP.Event)
    requires GP.ActorsNumbered(s) && GP.Enabled(s, e) && (e.Load? || e.Execute? || e.Refuse? || e.Lose? || e.Search?)
    ensures IsOps(s, e)
  {
    SameClaims(s, GP.Next(s, e));
  }

  lemma TableIsOps(s: GP.State, e: GP.Event)
    requires GP.ActorsNumbered(s) && GP.Enabled(s, e) && (e.Tick? || e.Sweep? || e.ReopenLeader? || e.Dissolve? || e.Seed? || e.Leave? || e.Cleanup?)
    ensures IsOps(s, e)
  {
    OneOp(Seen(s), Ops(s, e)[0]);
  }

  lemma ConfirmIsOps(s: GP.State, o: nat)
    requires GP.Enabled(s, GP.Confirm(o))
    ensures IsOps(s, GP.Confirm(o))
  {
    AliveClaim(s, o);
    SameClaims(s, GP.Next(s, GP.Confirm(o)));
    OneOp(Seen(s), Ops(s, GP.Confirm(o))[0]);
  }

  lemma ConfirmSearchIsOps(s: GP.State, o: nat)
    requires GP.Enabled(s, GP.ConfirmSearch(o))
    ensures IsOps(s, GP.ConfirmSearch(o))
  {
    AliveClaim(s, o);
    SameClaims(s, GP.Next(s, GP.ConfirmSearch(o)));
    OneOp(Seen(s), Ops(s, GP.ConfirmSearch(o))[0]);
  }

  lemma {:induction false} RunsJoin(s: O.State, a: seq<O.Op>, m: O.State, b: seq<O.Op>, t: O.State)
    requires O.Run(s, a, m) && O.Run(m, b, t)
    ensures O.Run(s, a + b, t)
    decreases a
  {
    if a == [] {
      assert a + b == b;
    } else {
      assert (a + b)[1..] == a[1..] + b;
      RunsJoin(O.Next(s, a[0]), a[1..], m, b, t);
    }
  }

  /** Every run of the group protocol is a run of writes, so what is proved of those (one live
      owner, superseded claims powerless, abandoned rows quiet) holds of it too. */
  lemma {:induction false} GroupRunIsOps(s: GP.State, es: seq<GP.Event>, t: GP.State) returns (ops: seq<O.Op>)
    requires GP.Inv(s) && GP.Run(s, es, t)
    ensures O.Run(Seen(s), ops, Seen(t))
    decreases es
  {
    if es == [] {
      ops := [];
    } else {
      EventIsOps(s, es[0]);
      GP.InvStep(s, es[0]);
      var rest := GroupRunIsOps(GP.Next(s, es[0]), es[1..], t);
      ops := Ops(s, es[0]) + rest;
      RunsJoin(Seen(s), Ops(s, es[0]), Seen(GP.Next(s, es[0])), rest, Seen(t));
    }
  }

  /** For instance: no reachable state of the group protocol has two workers owning one row. */
  lemma OneOwnerOfARow(es: seq<GP.Event>, s: GP.State, o: nat, p: nat)
    requires GP.Run(GP.Start, es, s) && o in s.actors && p in s.actors && s.actors[o].claim.id == s.actors[p].claim.id
    requires Owned(s.db, s.now, s.actors[o].claim) && Owned(s.db, s.now, s.actors[p].claim)
    ensures o == p
  {
    GP.RunKeepsInv(GP.Start, es, s);
    var ops := GroupRunIsOps(GP.Start, es, s);
    AliveClaim(s, o);
    AliveClaim(s, p);
    assert Claims(GP.Start.actors) == {};
    O.OneLiveOwner(ops, Seen(s), s.actors[o].claim, s.actors[p].claim);
  }

  // ----- rounds and clicks on a single row ------------------------------------------

  /** The writes a step comes to, the claim being number `owner`. */
  function RowOps(s: N.State, id: int, step: N.Step): seq<O.Op>
    requires N.Enabled(s, id, step) && id in s.db.tasks
  {
    var row := s.db.tasks[id];
    match step
    case Process(r) =>
      var c := ClaimOf(row, id, r.owner);
      if r.fate == N.WrittenBack then
        [O.Take(id, true), O.Finish(c, N.OutcomeRecord(r.result, N.Notified(s, id, r)), r.result.Retryable? || r.result.PendingBackfill?), O.Die(c)]
      else [O.Take(id, true), O.Die(c)]
    case Click(_) => [O.Reopen(id)]
    case Single(k) =>
      var c := ClaimOf(N.Opened(s, id, k).tasks[id], id, k.owner);
      (if k.reopens then [O.Sweep, O.Reopen(id)] else [O.Sweep]) + [O.Take(id, true)]
      + (if k.written then [O.Finish(c, N.ClickRecord(k), k.result.Retryable?)] else []) + [O.Die(c)]
    case Unloadable(_, owner) =>
      var c := ClaimOf(row, id, owner);
      [O.Take(id, true), O.Finish(c, Outcome(Unnotified, Some("所属配置不存在、已停用或映射无效"), None, None), false), O.Die(c)]
    case Unanswered(_, owner, phase) =>
      var c := ClaimOf(row, id, owner);
      [O.Take(id, true), O.Begin(c, phase), O.Unknown(c), O.Die(c)]
    case DiesWriting(_, owner, phase) =>
      var c := ClaimOf(row, id, owner);
      [O.Take(id, true), O.Begin(c, phase), O.Die(c)]
    case Sweep(_) => [O.Sweep]
    case TurnedAway(_) => []
    case LogNotice => []
  }

  function Clock(step: N.Step): int {
    match step
    case Process(r) => r.now
    case Click(now) => now
    case Single(c) => c.now
    case Unloadable(now, _) => now
    case Unanswered(now, _, _) => now
    case DiesWriting(now, _, _) => now
    case Sweep(now) => now
    case _ => 0
  }

  function Number(step: N.Step): nat {
    match step
    case Process(r) => r.owner
    case Single(c) => c.owner
    case Unloadable(_, owner) => owner
    case Unanswered(_, owner, _) => owner
    case DiesWriting(_, owner, _) => owner
    case _ => 0
  }

  ghost predicate Plays(s: O.State, ops: seq<O.Op>, db: Db)
    decreases ops
  {
    if ops == [] then s.db == db else O.Possible(s, ops[0]) && Plays(O.Next(s, ops[0]), ops[1..], db)
  }

  lemma Plays1(s: O.State, a: O.Op)
    requires O.Possible(s, a)
    ensures Plays(s, [a], O.Next(s, a).db)
  {
    assert [a][1..] == [];
    assert Plays(O.Next(s, a), [], O.Next(s, a).db);
  }

  lemma PlaysMore(s: O.State, a: O.Op, rest: seq<O.Op>, db: Db)
    requires O.Possible(s, a) && Plays(O.Next(s, a), rest, db)
    ensures Plays(s, [a] + rest, db)
  {
    assert ([a] + rest)[1..] == rest;
  }

  /** The claim a taker gets, and dies with. */
  lemma TakeAnd(s: O.State, id: int, rest: seq<O.Op>, db: Db)
    requires O.Possible(s, O.Take(id, true)) && Plays(O.Next(s, O.Take(id, true)), rest, db)
    ensures Plays(s, [O.Take(id, true)] + rest, db)
  {
    PlaysMore(s, O.Take(id, true), rest, db);
  }

  lemma WriteAndDie(s: O.State, write: O.Op, c: Claim)
    requires O.Possible(s, write) && (write.Finish? || write.Begin? || write.Unknown?)
    ensures Plays(s, [write, O.Die(c)], O.Next(s, write).db)
  {
    Plays1(O.Next(s, write), O.Die(c));
    PlaysMore(s, write, [O.Die(c)], O.Next(s, write).db);
    assert [write] + [O.Die(c)] == [write, O.Die(c)];
  }

  lemma TakeWriteDie(s: O.State, id: int, write: O.Op, c: Claim)
    requires O.Possible(s, O.Take(id, true)) && c == ClaimOf(s.db.tasks[id], id, s.nextOwner)
    requires (write.Finish? || write.Begin? || write.Unknown?) && write.c == c
    ensures Plays(s, [O.Take(id, true), write, O.Die(c)], O.Next(O.Next(s, O.Take(id, true)), write).db)
  {
    var taken := O.Next(s, O.Take(id, true));
    WriteAndDie(taken, write, c);
    TakeAnd(s, id, [write, O.Die(c)], O.Next(taken, write).db);
    assert [O.Take(id, true)] + [write, O.Die(c)] == [O.Take(id, true), write, O.Die(c)];
  }

  lemma TakeDie(s: O.State, id: int, c: Claim)
    requires O.Possible(s, O.Take(id, true))
    ensures Plays(s, [O.Take(id, true), O.Die(c)], O.Next(s, O.Take(id, true)).db)
  {
    var taken := O.Next(s, O.Take(id, true));
    Plays1(taken, O.Die(c));
    TakeAnd(s, id, [O.Die(c)], taken.db);
    assert [O.Take(id, true)] + [O.Die(c)] == [O.Take(id, true), O.Die(c)];
  }

  /** Every step on a single row is that sequence of writes, from tables with that clock and
      that number to give out next. */
  lemma StepIsOps(s: N.State, id: int, step: N.Step, live: set<Claim>)
    requires id in s.db.tasks && N.Enabled(s, id, step)
    ensures Plays(O.State(s.db, Clock(step), live, Number(step)), RowOps(s, id, step), N.Next(s, id, step).db)
  {
    var at := O.State(s.db, Clock(step), live, Number(step));
    match step
    case Process(r) =>
      var c := ClaimOf(s.db.tasks[id], id, r.owner);
      if r.fate == N.WrittenBack {
        TakeWriteDie(at, id, O.Finish(c, N.OutcomeRecord(r.result, N.Notified(s, id, r)), r.result.Retryable? || r.result.PendingBackfill?), c);
      } else {
        TakeDie(at, id, c);
      }
    case Click(_) => Plays1(at, O.Reopen(id));
    case Single(k) => SingleIsOps(s, id, k, live);
    case Unloadable(_, owner) =>
      TakeWriteDie(at, id, RowOps(s, id, step)[1], ClaimOf(s.db.tasks[id], id, owner));
    case Unanswered(_, owner, phase) => UnansweredIsOps(s, id, step, live);
    case DiesWriting(_, owner, phase) =>
      TakeWriteDie(at, id, RowOps(s, id, step)[1], ClaimOf(s.db.tasks[id], id, owner));
    case Sweep(_) => Plays1(at, O.Sweep);
    case TurnedAway(_) =>
    case LogNotice =>
  }

  lemma UnansweredIsOps(s: N.State, id: int, step: N.Step, live: set<Claim>)
    requires id in s.db.tasks && N.Enabled(s, id, step) && step.Unanswered?
    ensures Plays(O.State(s.db, step.now, live, step.owner), RowOps(s, id, step), N.Next(s, id, step).db)
  {
    var at, c := O.State(s.db, step.now, live, step.owner), ClaimOf(s.db.tasks[id], id, step.owner);
    var taken := O.Next(at, O.Take(id, true));
    var begun := O.Next(taken, O.Begin(c, step.phase));
    WriteAndDie(begun, O.Unknown(c), c);
    PlaysMore(taken, O.Begin(c, step.phase), [O.Unknown(c), O.Die(c)], O.Next(begun, O.Unknown(c)).db);
    TakeAnd(at, id, [O.Begin(c, step.phase)] + [O.Unknown(c), O.Die(c)], O.Next(begun, O.Unknown(c)).db);
    assert [O.Take(id, true)] + ([O.Begin(c, step.phase)] + [O.Unknown(c), O.Die(c)]) == RowOps(s, id, step);
  }

  /** The table a single click claims from: swept, then reopened if that is called for. */
  lemma OpenedIsOps(s: N.State, id: int, k: N.SingleClick, at: O.State, rest: seq<O.Op>, db: Db)
    requires at.db == s.db && at.now == k.now && Plays(at.(db := N.Opened(s, id, k)), rest, db)
    ensures Plays(at, (if k.reopens then [O.Sweep, O.Reopen(id)] else [O.Sweep]) + rest, db)
  {
    var swept := O.Next(at, O.Sweep);
    if k.reopens {
      PlaysMore(swept, O.Reopen(id), rest, db);
      PlaysMore(at, O.Sweep, [O.Reopen(id)] + rest, db);
      assert [O.Sweep] + ([O.Reopen(id)] + rest) == [O.Sweep, O.Reopen(id)] + rest;
    } else {
      PlaysMore(at, O.Sweep, rest, db);
    }
  }

  lemma SingleIsOps(s: N.State, id: int, k: N.SingleClick, live: set<Claim>)
    requires id in s.db.tasks && N.Enabled(s, id, N.Single(k))
    ensures Plays(O.State(s.db, k.now, live, k.owner), RowOps(s, id, N.Single(k)), N.Next(s, id, N.Single(k)).db)
  {
    var at := O.State(s.db, k.now, live, k.owner);
    var open := at.(db := N.Opened(s, id, k));
    var c := ClaimOf(open.db.tasks[id], id, k.owner);
    var first := if k.reopens then [O.Sweep, O.Reopen(id)] else [O.Sweep];
    if k.written {
      var write := O.Finish(c, N.ClickRecord(k), k.result.Retryable?);
      TakeWriteDie(open, id, write, c);
      OpenedIsOps(s, id, k, at, [O.Take(id, true), write, O.Die(c)], N.Next(s, id, N.Single(k)).db);
      assert first + [O.Take(id, true)] + [write] + [O.Die(c)] == first + [O.Take(id, true), write, O.Die(c)];
    } else {
      TakeDie(open, id, c);
      OpenedIsOps(s, id, k, at, [O.Take(id, true), O.Die(c)], N.Next(s, id, N.Single(k)).db);
      assert first + [O.Take(id, true)] + [] + [O.Die(c)] == first + [O.Take(id, true), O.Die(c)];
    }
  }
}
